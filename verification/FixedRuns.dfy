/**
 * The fixed-group invariant holds in every state a fixed run reaches.
 */
module FixedRuns {
  import opened Types
  import opened Protocol
  import opened Group
  import opened Cluster
  import opened Slices
  import opened Structure
  import opened Invariant
  import opened TokenLocal
  import opened Runs
  import opened FreeRuns
  import opened Safety
  import opened Askers
  import opened CrashRuns
  import opened Replica
  import opened FixedGroup
  import opened FixedDeliver

  // ---------- one host changes ----------

  lemma UpdateFixed(base: seq<Addr>, log: seq<Event>, hosts: map<NodeId, Host>, n: NodeId, k: Host)
    requires FixedParts(base, log, hosts) && FixedPart(base, log, k)
    ensures FixedParts(base, log, hosts[n := k])
  {
  }

  lemma HostFixed(s: Sys, n: NodeId, k: Host, u: Sys)
    requires FixedInv(s) && n in s.hosts && u == s.(hosts := s.hosts[n := k]) && CrashInv(u)
    requires FixedPart(s.base, s.log, k)
    ensures FixedInv(u)
  {
    UpdateFixed(s.base, s.log, s.hosts, n, k);
  }

  /** Table and queue stay, up to marks. */
  lemma LocalFixed(base: seq<Addr>, log: seq<Event>, h: Host, k: Host, sent: seq<Msg>)
    requires FixedPart(base, log, h)
    requires k.idx == h.idx && k.node.joined && k.node.members == h.node.members && k.node.id == h.node.id
    requires k.node.locks == h.node.locks && SameKeys(h.node.requests, k.node.requests)
    requires k.outbox == h.outbox + sent && forall i :: 0 <= i < |sent| ==> Keyed(sent[i])
    ensures FixedPart(base, log, k)
  {
    forall r ensures HeadRes(k, r) { assert HeadRes(h, r); }
  }

  lemma AskUnlockFixed(base: seq<Addr>, log: seq<Event>, h: Host, hold: Hold, order: seq<Resource>)
    requires FixedPart(base, log, h) && HostInv(true, base, log, h) && hold in h.holds && IsWalk(h.node.locks, order)
    ensures FixedPart(base, log, HostAskUnlock(h, hold, order))
  {
    var release := Unlock(hold.res, h.node.id, hold.pid, hold.tid);
    assert ResInv(true, base, log, h, hold.res);
    HoldResolves(log, h, hold, order);
    GrantOrSlice(h.node, hold.res, release);
    LocalFixed(base, log, h, HostAskUnlock(h, hold, order), GrantOr(h.node, hold.res, release).sent);
  }

  lemma ConnectFixed(s: Sys, n: NodeId, fd: nat, u: Sys)
    requires FixedInv(s) && n in s.hosts && u == s.(hosts := s.hosts[n := HostConnect(s.hosts[n], fd)])
    requires CrashInv(u)
    ensures FixedInv(u)
  {
    ConnectPart(s.base, s.log, s.hosts[n], fd);
    HostFixed(s, n, HostConnect(s.hosts[n], fd), u);
  }

  lemma ConnectPart(base: seq<Addr>, log: seq<Event>, h: Host, fd: nat)
    requires FixedPart(base, log, h)
    ensures FixedPart(base, log, HostConnect(h, fd))
  {
    assert h.outbox == h.outbox + [];
    LocalFixed(base, log, h, HostConnect(h, fd), []);
  }

  lemma AskFixed(base: seq<Addr>, log: seq<Event>, h: Host, k: Host, m: Msg)
    requires FixedPart(base, log, h) && m.Lock? && k.outbox == h.outbox + [m]
    requires k == h.(node := h.node.(clients := k.node.clients), outbox := k.outbox)
    ensures FixedPart(base, log, k)
  {
    LocalFixed(base, log, h, k, [m]);
  }

  lemma AskLockFixed(s: Sys, t: Step, u: Sys)
    requires FixedInv(s) && t.AskLock? && May(Fixed, s, t) && u == Apply(s, t) && CrashInv(u)
    ensures FixedInv(u)
  {
    var h, k := s.hosts[t.n], HostAskLock(s.hosts[t.n], t.fd, t.res, t.pid, t.tid, t.isTry);
    AskLockClients(h, t.fd, t.pid, k, t.res, t.tid, t.isTry);
    AskFixed(s.base, s.log, h, k, Lock(t.res, h.node.id, t.pid, t.tid, t.isTry));
    HostFixed(s, t.n, k, u);
  }

  lemma UnlockFixed(s: Sys, t: Step, u: Sys)
    requires FixedInv(s) && t.AskUnlock? && May(Fixed, s, t) && u == Apply(s, t) && CrashInv(u)
    ensures FixedInv(u)
  {
    assert HostInv(true, s.base, s.log, s.hosts[t.n]);
    AskUnlockFixed(s.base, s.log, s.hosts[t.n], t.hold, t.order);
    HostFixed(s, t.n, HostAskUnlock(s.hosts[t.n], t.hold, t.order), u);
  }

  // ---------- delivery ----------

  lemma OrdinaryMessage(s: Sys, n: NodeId)
    requires FixedInv(s) && n in s.hosts && s.hosts[n].idx < |s.log|
    ensures Ordinary(s.hosts[n].node, s.log[s.hosts[n].idx].m)
  {
    var h := s.hosts[n];
    var e := s.log[h.idx];
    ArrivesConnected(s, n);
    if e.m.Grant? {
      assert ToMember(s.base, e.m);
      var i :| 0 <= i < |s.base| && IdSeq(s.base)[i] == e.m.node;
      assert s.base[i].id == e.m.node;
    }
  }

  lemma FixedFacts(s: Sys, n: NodeId)
    requires FixedInv(s) && n in s.hosts
    ensures FixedPart(s.base, s.log, s.hosts[n]) && s.hosts[n].node.id == n && n != 0
    ensures OutAsks(s.log, s.hosts[n]) && OutboxInv(s.base, s.log, s.hosts[n])
  {
    assert FreeHost(s.base, s.log, s.hosts[n]);
  }

  lemma DeliverStepFixed(s: Sys, n: NodeId, order: seq<Resource>, k: Host, u: Sys)
    requires FixedInv(s) && n in s.hosts && s.hosts[n].idx < |s.log|
    requires k == HostDeliver(s.hosts[n], s.log[s.hosts[n].idx], order)
    requires u == s.(hosts := s.hosts[n := k]) && CrashInv(u)
    ensures FixedInv(u)
  {
    FixedFacts(s, n);
    OrdinaryMessage(s, n);
    DeliverFixed(s.base, s.log, s.hosts[n], order);
    HostFixed(s, n, k, u);
  }

  // ---------- the agreed order grows ----------

  lemma AppendFixed(base: seq<Addr>, log: seq<Event>, e: Event, h: Host)
    requires FixedPart(base, log, h)
    ensures FixedPart(base, log + [e], h)
  {
    ReplayPrefix(log, e, h.idx);
  }

  lemma SenderFixed(base: seq<Addr>, log: seq<Event>, h: Host)
    requires FixedPart(base, log, h) && h.outbox != []
    ensures FixedPart(base, log + [Message(Self(h), h.outbox[0])], h.(outbox := h.outbox[1..]))
  {
    var k := h.(outbox := h.outbox[1..]);
    assert forall i :: 0 <= i < |k.outbox| ==> k.outbox[i] == h.outbox[i + 1];
    forall r ensures HeadRes(k, r) { assert HeadRes(h, r); }
    AppendFixed(base, log, Message(Self(h), h.outbox[0]), k);
  }

  /** What is ordered is lock traffic, and a grant is to a founder. */
  lemma OrderedLog(base: seq<Addr>, log: seq<Event>, h: Host)
    requires WellFormedLog(base, log) && CleanLog(log) && GrantsToMembers(base, log) && OwnAsks(log)
    requires OutAsks(log, h) && CleanOut(h) && h.outbox != [] && OutboxInv(base, log, h)
    ensures var log' := log + [Message(Self(h), h.outbox[0])];
      CleanLog(log') && GrantsToMembers(base, log')
  {
    assert OutboxItem(base, log, h, 0);
    if h.outbox[0].Grant? { AskerIsMember(base, log, MsgKey(h.outbox[0])); }
  }

  lemma SequenceFixed(s: Sys, n: NodeId, k: Host, e: Event, u: Sys)
    requires FixedInv(s) && n in s.hosts && s.hosts[n].outbox != []
    requires k == s.hosts[n].(outbox := s.hosts[n].outbox[1..]) && e == Message(Self(s.hosts[n]), s.hosts[n].outbox[0])
    requires u == Sys(s.base, s.hosts[n := k], s.log + [e]) && CrashInv(u)
    ensures FixedInv(u)
  {
    FixedFacts(s, n);
    OrderedLog(s.base, s.log, s.hosts[n]);
    SequenceParts(s.base, s.log, s.hosts, n, k, e);
  }

  lemma SequenceParts(base: seq<Addr>, log: seq<Event>, hosts: map<NodeId, Host>, n: NodeId, k: Host, e: Event)
    requires FixedParts(base, log, hosts) && n in hosts && hosts[n].outbox != []
    requires k == hosts[n].(outbox := hosts[n].outbox[1..]) && e == Message(Self(hosts[n]), hosts[n].outbox[0])
    ensures FixedParts(base, log + [e], hosts[n := k])
  {
    SenderFixed(base, log, hosts[n]);
    forall x | x in hosts && x != n ensures FixedPart(base, log + [e], hosts[x]) {
      AppendFixed(base, log, e, hosts[x]);
    }
  }

  // ---------- runs ----------

  lemma ClientFixed(s: Sys, t: Step, u: Sys)
    requires FixedInv(s) && May(Fixed, s, t) && (t.Connect? || t.AskLock? || t.AskUnlock?)
    requires CrashInv(u) && u == Apply(s, t)
    ensures FixedInv(u)
  {
    match t
    case Connect(n, fd) => ConnectFixed(s, n, fd, u);
    case AskLock(_, _, _, _, _, _) => AskLockFixed(s, t, u);
    case AskUnlock(_, _, _) => UnlockFixed(s, t, u);
  }

  lemma StepFixed(s: Sys, t: Step)
    requires FixedInv(s) && May(Fixed, s, t)
    ensures FixedInv(Apply(s, t))
  {
    StepCrash(s, t);
    if t.Sequence? {
      var h := s.hosts[t.n];
      SequenceFixed(s, t.n, h.(outbox := h.outbox[1..]), Message(Self(h), h.outbox[0]), Apply(s, t));
    } else if t.Deliver? {
      DeliverStepFixed(s, t.n, t.order, HostDeliver(s.hosts[t.n], s.log[s.hosts[t.n].idx], t.order), Apply(s, t));
    } else {
      ClientFixed(s, t, Apply(s, t));
    }
  }

  /** Fixed runs are runs of a group nobody joins. */
  lemma {:induction false} FixedIsRun(s: Sys, run: seq<Step>)
    requires IsRun(Fixed, s, run)
    ensures IsRun(Crash, s, run) && Exec(Crash, s, run) == Exec(Fixed, s, run)
    decreases |run|
  {
    if run != [] { FixedIsRun(Apply(s, run[0]), run[1..]); }
  }

  lemma FormedFixed(base: seq<Addr>)
    requires Distinct(IdSeq(base)) && 0 !in Ids(base)
    ensures FixedInv(Formed(base))
  {
    FormedCrash(base);
    forall n | n in Ids(base) ensures FixedPart(base, [], Formed(base).hosts[n]) { FormedPart(base, n); }
  }

  lemma FormedPart(base: seq<Addr>, n: NodeId)
    requires n in Ids(base)
    ensures FixedPart(base, [], Formed(base).hosts[n])
  {
    var h := Formed(base).hosts[n];
    assert h.idx == 0 && h.node.locks == map[] && h.node.requests == [] && h.outbox == [];
  }
}
