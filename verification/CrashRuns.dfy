/**
 * Runs in which members leave, nobody joins and no client vanishes: every step keeps what is
 * known of each daemon.
 */
module CrashRuns {
  import opened Types
  import opened Protocol
  import opened Group
  import opened Cluster
  import opened Slices
  import opened Membership
  import opened Structure
  import opened Invariant
  import opened TokenLocal
  import opened Runs
  import opened Safety
  import opened Askers
  import opened CrashSteps

  ghost predicate AllCrash(base: seq<Addr>, log: seq<Event>, hosts: map<NodeId, Host>) {
    forall n :: n in hosts ==> CrashHost(base, log, hosts[n])
  }

  ghost predicate CrashInv(s: Sys) {
    Inv(true, s) && AskInv(s) && CrashLog(s.log) && AllCrash(s.base, s.log, s.hosts)
  }

  lemma CrashIsTidy(s: Sys, t: Step)
    requires CrashLog(s.log) && May(Crash, s, t)
    ensures May(Tidy, s, t)
  {
    AllAnnounced(s.base, s.log, |s.log|);
    if t.ChangeView? { assert Ids(t.joins) == {}; }
  }

  // ---------- one host ----------

  lemma UpdateCrash(base: seq<Addr>, log: seq<Event>, hosts: map<NodeId, Host>, n: NodeId, k: Host)
    requires AllCrash(base, log, hosts) && CrashHost(base, log, k)
    ensures AllCrash(base, log, hosts[n := k])
  {
  }

  lemma HostCrash(s: Sys, n: NodeId, k: Host, u: Sys)
    requires CrashInv(s) && n in s.hosts && u == s.(hosts := s.hosts[n := k]) && Inv(true, u) && AskInv(u)
    requires CrashHost(s.base, s.log, k)
    ensures CrashInv(u)
  {
    UpdateCrash(s.base, s.log, s.hosts, n, k);
  }

  lemma ConnectHostCrash(base: seq<Addr>, log: seq<Event>, h: Host, fd: nat)
    requires CrashHost(base, log, h)
    ensures CrashHost(base, log, HostConnect(h, fd))
  {
    assert h.outbox == h.outbox + [];
    LocalCrash(base, log, h, HostConnect(h, fd), []);
  }

  lemma ConnectCrash(s: Sys, n: NodeId, fd: nat, u: Sys)
    requires CrashInv(s) && n in s.hosts && u == s.(hosts := s.hosts[n := HostConnect(s.hosts[n], fd)]) && Inv(true, u)
    ensures CrashInv(u)
  {
    ConnectAsk(s, n, fd, u);
    ConnectHostCrash(s.base, s.log, s.hosts[n], fd);
    HostCrash(s, n, HostConnect(s.hosts[n], fd), u);
  }

  lemma AskHostCrash(base: seq<Addr>, log: seq<Event>, h: Host, k: Host, m: Msg)
    requires CrashHost(base, log, h) && m.Lock? && k.outbox == h.outbox + [m]
    requires k == h.(node := h.node.(clients := k.node.clients), outbox := k.outbox)
    ensures CrashHost(base, log, k)
  {
    LocalCrash(base, log, h, k, [m]);
  }

  lemma AskLockCrash(s: Sys, t: Step, u: Sys)
    requires CrashInv(s) && t.AskLock? && May(Crash, s, t) && u == Apply(s, t) && Inv(true, u)
    ensures CrashInv(u)
  {
    var h, k := s.hosts[t.n], HostAskLock(s.hosts[t.n], t.fd, t.res, t.pid, t.tid, t.isTry);
    AskLockAsk(s, t);
    AskLockClients(h, t.fd, t.pid, k, t.res, t.tid, t.isTry);
    AskHostCrash(s.base, s.log, h, k, Lock(t.res, h.node.id, t.pid, t.tid, t.isTry));
    HostCrash(s, t.n, k, u);
  }

  lemma UnlockSends(base: seq<Addr>, log: seq<Event>, h: Host, hold: Hold, order: seq<Resource>)
      returns (sent: seq<Msg>)
    requires HostInv(true, base, log, h) && CrashHost(base, log, h) && UniqueAsks(log)
    requires hold in h.holds && IsWalk(h.node.locks, order)
    ensures HostAskUnlock(h, hold, order).outbox == h.outbox + sent && Answering(log, sent)
    ensures HostAskUnlock(h, hold, order).node.clients == h.node.clients
  {
    var release := Unlock(hold.res, h.node.id, hold.pid, hold.tid);
    assert ResInv(true, base, log, h, hold.res);
    HoldResolves(log, h, hold, order);
    GrantOrSlice(h.node, hold.res, release);
    sent := GrantOr(h.node, hold.res, release).sent;
    QueueDistinct(log, h);
  }

  lemma UnlockCrash(s: Sys, t: Step, u: Sys)
    requires CrashInv(s) && t.AskUnlock? && May(Crash, s, t) && u == Apply(s, t) && Inv(true, u)
    ensures CrashInv(u)
  {
    var h, k := s.hosts[t.n], HostAskUnlock(s.hosts[t.n], t.hold, t.order);
    assert HostInv(true, s.base, s.log, h) && CrashHost(s.base, s.log, h);
    var sent := UnlockSends(s.base, s.log, h, t.hold, t.order);
    AnsweringAsk(s, t.n, k, sent, u);
    AskUnlockCrash(s.base, s.log, h, t.hold, t.order);
    HostCrash(s, t.n, k, u);
  }

  // ---------- delivery ----------

  /** A grant is of a lock the daemon knows, and whoever it tells is connected. */
  lemma ArrivesConnected(s: Sys, n: NodeId)
    requires CrashInv(s) && n in s.hosts && s.hosts[n].idx < |s.log|
    ensures Arrives(s.base, s.log, s.hosts[n])
  {
    var h, e := s.hosts[n], s.log[s.hosts[n].idx];
    assert HostInv(true, s.base, s.log, h) && CrashHost(s.base, s.log, h);
    if e.Message? {
      assert ServedMsg(s.hosts, e.m) && FlightItem(e);
      if e.m.Grant? {
        assert GrantAnswers(s.log, h.idx);
        var p :| 0 <= p < h.idx && IsAsk(s.log[p], MsgKey(e.m));
      }
    }
  }

  lemma DeliverClients(n: Node, e: Event, order: seq<Resource>)
    requires CrashEvent(e)
    ensures Handle(n, e, order).node.clients == n.clients
  {
    match e
    case Message(from, m) => MessageFrame(n, from, m);
    case View(members, left, joins) => LeaveAllFrame(SeedView(n, members, joins), left, order);
  }

  lemma DeliverCrash(s: Sys, t: Step, u: Sys)
    requires CrashInv(s) && t.Deliver? && May(Crash, s, t) && u == Apply(s, t) && Inv(true, u)
    ensures CrashInv(u)
  {
    var h := s.hosts[t.n];
    var k := HostDeliver(h, s.log[h.idx], t.order);
    ArrivesConnected(s, t.n);
    assert CrashEvent(s.log[h.idx]);
    QueueDistinct(s.log, h);
    HandleAnswers(s.log, h, t.order);
    DeliverClients(h.node, s.log[h.idx], t.order);
    AnsweringAsk(s, t.n, k, Handle(h.node, s.log[h.idx], t.order).sent, u);
    if s.log[h.idx].View? {
      TidyMayRecover(s, t.n);
      DeliverViewCrash(s.base, s.log, h, t.order);
    } else {
      DeliverMessageCrash(s.base, s.log, h, t.order);
    }
    HostCrash(s, t.n, k, u);
  }

  // ---------- the agreed order grows ----------

  lemma SequenceCrash(s: Sys, n: NodeId, k: Host, e: Event, u: Sys)
    requires CrashInv(s) && n in s.hosts && s.hosts[n].outbox != []
    requires k == s.hosts[n].(outbox := s.hosts[n].outbox[1..]) && e == Message(Self(s.hosts[n]), s.hosts[n].outbox[0])
    requires u == Sys(s.base, s.hosts[n := k], s.log + [e]) && Inv(true, u)
    ensures CrashInv(u)
  {
    SequenceAsk(s, n, k, e, u);
    assert HostInv(true, s.base, s.log, s.hosts[n]) && CrashHost(s.base, s.log, s.hosts[n]);
    SenderCrash(s.base, s.log, s.hosts[n]);
    forall x | x in s.hosts && x != n ensures CrashHost(s.base, s.log + [e], s.hosts[x]) {
      AppendCrash(s.base, s.log, e, s.hosts[x]);
    }
    AllButOne(s.base, s.log + [e], s.hosts, n, k);
  }

  lemma AllButOne(base: seq<Addr>, log: seq<Event>, hosts: map<NodeId, Host>, n: NodeId, k: Host)
    requires CrashHost(base, log, k) && forall x :: x in hosts && x != n ==> CrashHost(base, log, hosts[x])
    ensures AllCrash(base, log, hosts[n := k])
  {
  }

  lemma ViewCrash(s: Sys, e: Event, u: Sys)
    requires CrashInv(s) && e.View? && e.joins == []
    requires u == Sys(s.base, HostsAfter(s.hosts, e.left, e.joins, |s.log|), s.log + [e]) && Inv(true, u)
    ensures CrashInv(u)
  {
    assert Ids(e.joins) == {};
    ViewAsk(s, e, u);
    forall x | x in u.hosts ensures CrashHost(u.base, u.log, u.hosts[x]) {
      AppendCrash(s.base, s.log, e, s.hosts[x]);
    }
  }

  // ---------- runs ----------

  lemma StepCrash(s: Sys, t: Step)
    requires CrashInv(s) && May(Crash, s, t)
    ensures CrashInv(Apply(s, t))
  {
    CrashIsTidy(s, t);
    StepKeeps(true, s, t);
    match t
    case Connect(n, fd) => ConnectCrash(s, n, fd, Apply(s, t));
    case AskLock(_, _, _, _, _, _) => AskLockCrash(s, t, Apply(s, t));
    case AskUnlock(_, _, _) => UnlockCrash(s, t, Apply(s, t));
    case Deliver(_, _) => DeliverCrash(s, t, Apply(s, t));
    case Sequence(n) =>
      var h := s.hosts[n];
      SequenceCrash(s, n, h.(outbox := h.outbox[1..]), Message(Self(h), h.outbox[0]), Apply(s, t));
    case ChangeView(members, left, joins) => ViewCrash(s, View(members, left, joins), Apply(s, t));
  }

  lemma {:induction false} RunCrash(s: Sys, run: seq<Step>)
    requires CrashInv(s) && IsRun(Crash, s, run)
    ensures CrashInv(Exec(Crash, s, run))
    ensures IsRun(Tidy, s, run) && Exec(Tidy, s, run) == Exec(Crash, s, run)
    decreases |run|
  {
    if run != [] {
      CrashIsTidy(s, run[0]);
      StepCrash(s, run[0]);
      RunCrash(Apply(s, run[0]), run[1..]);
    }
  }

  lemma FormedCrashHost(base: seq<Addr>, n: NodeId)
    requires n in Ids(base)
    ensures CrashHost(base, [], Formed(base).hosts[n]) && OutAsks([], Formed(base).hosts[n])
  {
    var h := Formed(base).hosts[n];
    assert h.idx == 0 && h.node.locks == map[] && h.node.requests == [] && h.outbox == [];
  }

  lemma FormedCrash(base: seq<Addr>)
    requires Distinct(IdSeq(base)) && 0 !in Ids(base)
    ensures CrashInv(Formed(base))
  {
    FormedInv(true, base);
    forall n | n in Ids(base) ensures CrashHost(base, [], Formed(base).hosts[n]) && OutAsks([], Formed(base).hosts[n]) {
      FormedCrashHost(base, n);
    }
  }

  lemma CrashReaches(base: seq<Addr>, run: seq<Step>, s: Sys)
    requires Reaches(Crash, base, run, s)
    ensures CrashInv(s) && Reaches(Tidy, base, run, s)
  {
    FormedCrash(base);
    RunCrash(Formed(base), run);
  }
}
