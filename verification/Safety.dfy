/**
 * Safety over whole runs: any number of daemons at different positions of the agreed
 * order, with joins, crashes, try-locks and vanishing clients.
 */
module Safety {
  import opened Types
  import opened Protocol
  import opened Group
  import opened Cluster
  import opened Slices
  import opened Frames
  import opened Structure
  import opened StructureSteps
  import opened StructureAppend
  import opened Newcomers
  import opened Invariant
  import opened TokenSlices
  import opened TokenSteps
  import opened TokenDeliver
  import opened TokenAppend
  import opened TokenLocal
  import opened LockIds
  import opened Runs
  import opened FreeRuns

  ghost predicate TokenHost(tidy: bool, base: seq<Addr>, log: seq<Event>, h: Host) {
    && (forall x :: x in h.holds ==> x.id != 0)
    && (tidy ==> NewcomerInv(log, h))
    && (forall r :: ResInv(tidy, base, log, h, r))
  }

  ghost predicate HostInv(tidy: bool, base: seq<Addr>, log: seq<Event>, h: Host) {
    FreeHost(base, log, h) && TokenHost(tidy, base, log, h)
  }

  ghost predicate TokenHosts(tidy: bool, base: seq<Addr>, log: seq<Event>, hosts: map<NodeId, Host>) {
    forall n :: n in hosts ==> TokenHost(tidy, base, log, hosts[n])
  }

  /** The invariant of guarded runs, and a stronger one of tidy runs. */
  ghost predicate Inv(tidy: bool, s: Sys) {
    FreeInv(s) && (tidy ==> AnnouncedInv(s.base, s.log)) && TokenHosts(tidy, s.base, s.log, s.hosts)
  }

  function Careful(tidy: bool): Kind {
    if tidy then Tidy else Guarded
  }

  // ---------- the initial state ----------

  lemma FormedHost(tidy: bool, base: seq<Addr>, n: NodeId)
    requires Distinct(IdSeq(base)) && 0 !in Ids(base) && n in Ids(base)
    ensures TokenHost(tidy, base, [], Formed(base).hosts[n])
  {
    forall r ensures ResInv(tidy, base, [], Formed(base).hosts[n], r) { FormedRes(tidy, base, n, r); }
  }

  lemma FormedRes(tidy: bool, base: seq<Addr>, n: NodeId, r: Resource)
    requires Distinct(IdSeq(base)) && 0 !in Ids(base) && n in Ids(base)
    ensures ResInv(tidy, base, [], Formed(base).hosts[n], r)
  {
    FormedStruct(base, n);
    FormedListed(base, n);
    OldestOrOlder(IdSeq(base), n);
  }

  lemma FormedInv(tidy: bool, base: seq<Addr>)
    requires Distinct(IdSeq(base)) && 0 !in Ids(base)
    ensures Inv(tidy, Formed(base))
  {
    FormedFree(base);
    forall n | n in Ids(base) ensures TokenHost(tidy, base, [], Formed(base).hosts[n]) { FormedHost(tidy, base, n); }
  }

  // ---------- local steps ----------

  lemma UpdateHosts(tidy: bool, base: seq<Addr>, log: seq<Event>, hosts: map<NodeId, Host>, n: NodeId, k: Host)
    requires TokenHosts(tidy, base, log, hosts) && TokenHost(tidy, base, log, k)
    ensures TokenHosts(tidy, base, log, hosts[n := k])
  {
  }

  lemma LocalInv(tidy: bool, s: Sys, n: NodeId, k: Host, u: Sys)
    requires Inv(tidy, s) && u == s.(hosts := s.hosts[n := k]) && FreeInv(u)
    requires TokenHost(tidy, s.base, s.log, k)
    ensures Inv(tidy, u)
  {
    UpdateHosts(tidy, s.base, s.log, s.hosts, n, k);
  }

  lemma ConnectHost(tidy: bool, base: seq<Addr>, log: seq<Event>, h: Host, fd: nat)
    requires TokenHost(tidy, base, log, h)
    ensures TokenHost(tidy, base, log, HostConnect(h, fd))
  {
    var k := HostConnect(h, fd);
    assert h.outbox + [] == h.outbox;
    if tidy { LocalNewcomer(log, h, k, []); }
    forall r ensures ResInv(tidy, base, log, k, r) { LocalStill(tidy, base, log, h, k, r); }
  }

  lemma AskLockHost(tidy: bool, base: seq<Addr>, log: seq<Event>, h: Host, fd: nat, q: Resource, pid: Pid, tid: Tid,
                    isTry: bool)
    requires TokenHost(tidy, base, log, h)
    ensures TokenHost(tidy, base, log, HostAskLock(h, fd, q, pid, tid, isTry))
  {
    var k := HostAskLock(h, fd, q, pid, tid, isTry);
    if tidy { LocalNewcomer(log, h, k, Protocol.ClientLock(h.node, fd, q, pid, tid, isTry).sent); }
    forall r ensures ResInv(tidy, base, log, k, r) { AskLockRes(tidy, base, log, h, fd, q, pid, tid, isTry, r); }
  }

  lemma AskUnlockHost(tidy: bool, base: seq<Addr>, log: seq<Event>, h: Host, hold: Hold, order: seq<Resource>)
    requires HostInv(tidy, base, log, h) && hold in h.holds && IsWalk(h.node.locks, order)
    ensures TokenHost(tidy, base, log, HostAskUnlock(h, hold, order))
  {
    var k := HostAskUnlock(h, hold, order);
    var release := Unlock(hold.res, h.node.id, hold.pid, hold.tid);
    assert ResInv(tidy, base, log, h, hold.res);
    HoldResolves(log, h, hold, order);
    GrantOrSlice(h.node, hold.res, release);
    if tidy { LocalNewcomer(log, h, k, GrantOr(h.node, hold.res, release).sent); }
    forall r ensures ResInv(tidy, base, log, k, r) { AskUnlockRes(tidy, base, log, h, hold, order, r); }
  }

  lemma DisconnectHost(tidy: bool, base: seq<Addr>, log: seq<Event>, h: Host, fd: nat, order: seq<Resource>)
    requires TokenHost(tidy, base, log, h) && IsWalk(h.node.locks, order)
    requires ClientPid(h.node, fd) != 0 ==> MayVanish(log, h, ClientPid(h.node, fd))
    ensures TokenHost(tidy, base, log, HostDisconnect(h, fd, order))
  {
    var k, o := HostDisconnect(h, fd, order), DelClient(h.node, fd, order);
    DelClientOrderly(h.node, fd, order);
    if tidy {
      forall i | 0 <= i < |o.sent| && o.sent[i].Unlock? ensures o.sent[i].node == h.node.id {
        assert Speaks(h.node, o.sent[i]);
      }
      LocalNewcomer(log, h, k, o.sent);
    }
    DelClientSlice(h.node, fd, order, 0);
    forall r ensures ResInv(tidy, base, log, k, r) { DisconnectRes(tidy, base, log, h, fd, order, r); }
  }

  lemma ClientHost(tidy: bool, s: Sys, t: Step, k: Host)
    requires Inv(tidy, s) && May(Careful(tidy), s, t) && (t.Connect? || t.AskLock? || t.AskUnlock? || t.Disconnect?)
    requires t.n in Apply(s, t).hosts && k == Apply(s, t).hosts[t.n]
    ensures TokenHost(tidy, s.base, s.log, k)
  {
    var h := s.hosts[t.n];
    assert HostInv(tidy, s.base, s.log, h);
    match t
    case Connect(_, fd) => ConnectHost(tidy, s.base, s.log, h, fd);
    case AskLock(_, fd, q, pid, tid, isTry) => AskLockHost(tidy, s.base, s.log, h, fd, q, pid, tid, isTry);
    case AskUnlock(_, hold, order) => AskUnlockHost(tidy, s.base, s.log, h, hold, order);
    case Disconnect(_, fd, order) => DisconnectHost(tidy, s.base, s.log, h, fd, order);
  }

  // ---------- delivery ----------

  lemma DeliverHost(tidy: bool, base: seq<Addr>, log: seq<Event>, h: Host, order: seq<Resource>)
    requires WellFormedLog(base, log) && FlightInv(log) && HostInv(tidy, base, log, h) && h.idx < |log|
    requires tidy ==> AnnouncedInv(base, log)
    requires IsWalk(h.node.locks, order) && (!tidy ==> MayRecover(log, h, log[h.idx]))
    ensures TokenHost(tidy, base, log, HostDeliver(h, log[h.idx], order))
  {
    var k := HostDeliver(h, log[h.idx], order);
    HandleIds(h.node, log[h.idx], order);
    if tidy { DeliverNewcomer(log, h, order); }
    forall r ensures ResInv(tidy, base, log, k, r) { DeliverRes(tidy, base, log, h, order, r); }
  }

  // ---------- ordering a message ----------

  lemma SequenceHost(tidy: bool, base: seq<Addr>, log: seq<Event>, h: Host)
    requires HostInv(tidy, base, log, h) && h.outbox != []
    ensures TokenHost(tidy, base, log + [Message(Self(h), h.outbox[0])], h.(outbox := h.outbox[1..]))
  {
    if tidy { SequenceNewcomer(log, h); }
    forall r ensures ResInv(tidy, base, log + [Message(Self(h), h.outbox[0])], h.(outbox := h.outbox[1..]), r) {
      SequenceRes(tidy, base, log, h, r);
    }
  }

  /** Another host, when h's message is ordered. */
  lemma OrderedRes(tidy: bool, base: seq<Addr>, log: seq<Event>, h: Host, k: Host, r: Resource)
    requires ResInv(tidy, base, log, h, r) && ResInv(tidy, base, log, k, r) && h.outbox != []
    requires Stays(log, h.idx, h.node.id) && Stays(log, k.idx, k.node.id) && k.node.id != h.node.id
    ensures ResInv(tidy, base, log + [Message(Self(h), h.outbox[0])], k, r)
  {
    var e := Message(Self(h), h.outbox[0]);
    if IsToken(h.outbox[0], r) { SenderResponsible(base, log, h, r); }
    if IsGrant(e, r) {
      AppendGrantOther(tidy, base, log, e, k, r, h.node.id);
    } else if IsRelease(e, r, k.node.id) {
      AppendForeignRelease(tidy, base, log, e, k, r, h.node.id);
    } else {
      AppendOther(tidy, base, log, e, k, r);
    }
  }

  lemma OrderedHost(tidy: bool, base: seq<Addr>, log: seq<Event>, h: Host, k: Host)
    requires HostInv(tidy, base, log, h) && HostInv(tidy, base, log, k) && h.outbox != [] && k.node.id != h.node.id
    ensures TokenHost(tidy, base, log + [Message(Self(h), h.outbox[0])], k)
  {
    var e := Message(Self(h), h.outbox[0]);
    if tidy { AppendNewcomer(log, e, k); }
    forall r ensures ResInv(tidy, base, log + [e], k, r) {
      assert ResInv(tidy, base, log, h, r);
      OrderedRes(tidy, base, log, h, k, r);
    }
  }

  lemma SequenceKeeps(tidy: bool, s: Sys, n: NodeId, u: Sys)
    requires Inv(tidy, s) && May(Careful(tidy), s, Sequence(n)) && u == Apply(s, Sequence(n)) && FreeInv(u)
    ensures Inv(tidy, u)
  {
    var h := s.hosts[n];
    if tidy { AppendAnnounced(s.base, s.log, Message(Self(h), h.outbox[0])); }
    assert HostInv(tidy, s.base, s.log, h) && h.node.id == n;
    SequenceHost(tidy, s.base, s.log, h);
    forall x | x in s.hosts && x != n ensures TokenHost(tidy, s.base, u.log, s.hosts[x]) {
      assert HostInv(tidy, s.base, s.log, s.hosts[x]) && s.hosts[x].node.id == x;
      OrderedHost(tidy, s.base, s.log, h, s.hosts[x]);
    }
    AllButOne(tidy, s.base, u.log, s.hosts, n, h.(outbox := h.outbox[1..]));
  }

  lemma AllButOne(tidy: bool, base: seq<Addr>, log: seq<Event>, hosts: map<NodeId, Host>, n: NodeId, k: Host)
    requires TokenHost(tidy, base, log, k)
    requires forall x :: x in hosts && x != n ==> TokenHost(tidy, base, log, hosts[x])
    ensures TokenHosts(tidy, base, log, hosts[n := k])
  {
  }

  // ---------- views ----------

  lemma ViewHost(tidy: bool, base: seq<Addr>, log: seq<Event>, e: Event, h: Host)
    requires TokenHost(tidy, base, log, h) && e.View?
    requires tidy ==> forall z :: z in Ids(e.joins) ==> RecoveredHere(log, h, z)
    ensures TokenHost(tidy, base, log + [e], h)
  {
    assert ResInv(tidy, base, log, h, 0);
    if tidy { AppendNewcomer(log, e, h); }
    forall r ensures ResInv(tidy, base, log + [e], h, r) {
      if tidy && r in h.node.locks && h.node.locks[r].node in Ids(e.joins) {
        assert RecoveredHere(log, h, h.node.locks[r].node);
        NoneInOutbox(log, h, r);
      }
      AppendOther(tidy, base, log, e, h, r);
    }
  }

  lemma JoinerHost(tidy: bool, base: seq<Addr>, log: seq<Event>, e: Event, z: NodeId)
    requires e.View? && z in Ids(e.joins)
    ensures TokenHost(tidy, base, log + [e], NewHost(e.joins, z, |log|))
  {
    if tidy { NewHostNewcomer(log, e, z); }
    forall r ensures ResInv(tidy, base, log + [e], NewHost(e.joins, z, |log|), r) {
      NewHostRes(tidy, base, log, e, z, r);
    }
  }

  lemma ChangeViewKeeps(tidy: bool, s: Sys, t: Step, u: Sys)
    requires Inv(tidy, s) && t.ChangeView? && May(Careful(tidy), s, t) && u == Apply(s, t) && FreeInv(u)
    ensures Inv(tidy, u)
  {
    var e := View(t.members, t.left, t.joins);
    if tidy { AppendAnnounced(s.base, s.log, e); }
    forall x | x in u.hosts ensures TokenHost(tidy, s.base, s.log + [e], u.hosts[x]) {
      if x in Ids(t.joins) {
        JoinerHost(tidy, s.base, s.log, e, x);
      } else {
        ViewHost(tidy, s.base, s.log, e, s.hosts[x]);
      }
    }
  }

  // ---------- runs ----------

  lemma HostKeeps(tidy: bool, s: Sys, t: Step, u: Sys)
    requires Inv(tidy, s) && May(Careful(tidy), s, t) && !t.Sequence? && !t.ChangeView? && u == Apply(s, t)
    requires FreeInv(u)
    ensures Inv(tidy, u)
  {
    if t.Deliver? {
      DeliverHost(tidy, s.base, s.log, s.hosts[t.n], t.order);
      LocalInv(tidy, s, t.n, HostDeliver(s.hosts[t.n], s.log[s.hosts[t.n].idx], t.order), u);
    } else {
      ClientHost(tidy, s, t, u.hosts[t.n]);
      LocalInv(tidy, s, t.n, u.hosts[t.n], u);
    }
  }

  lemma StepKeeps(tidy: bool, s: Sys, t: Step)
    requires Inv(tidy, s) && May(Careful(tidy), s, t)
    ensures Inv(tidy, Apply(s, t))
  {
    StepFree(s, t);
    match t
    case Sequence(n) => SequenceKeeps(tidy, s, n, Apply(s, t));
    case ChangeView(_, _, _) => ChangeViewKeeps(tidy, s, t, Apply(s, t));
    case Deliver(_, _) => HostKeeps(tidy, s, t, Apply(s, t));
    case Connect(_, _) => HostKeeps(tidy, s, t, Apply(s, t));
    case AskLock(_, _, _, _, _, _) => HostKeeps(tidy, s, t, Apply(s, t));
    case AskUnlock(_, _, _) => HostKeeps(tidy, s, t, Apply(s, t));
    case Disconnect(_, _, _) => HostKeeps(tidy, s, t, Apply(s, t));
  }

  lemma {:induction false} RunKeeps(tidy: bool, s: Sys, run: seq<Step>)
    requires Inv(tidy, s) && IsRun(Careful(tidy), s, run)
    ensures Inv(tidy, Exec(Careful(tidy), s, run))
    decreases |run|
  {
    if run != [] {
      StepKeeps(tidy, s, run[0]);
      RunKeeps(tidy, Apply(s, run[0]), run[1..]);
    }
  }

  lemma ReachesInv(tidy: bool, base: seq<Addr>, run: seq<Step>, s: Sys)
    requires Reaches(Careful(tidy), base, run, s)
    ensures Inv(tidy, s)
  {
    FormedInv(tidy, base);
    RunKeeps(tidy, Formed(base), run);
  }

  // ---------- tidy runs are guarded ----------

  lemma NothingInOutbox(h: Host, r: Resource)
    requires NoGrantIn(Tokens(h.outbox, r))
    ensures forall i :: 0 <= i < |h.outbox| ==> !(h.outbox[i].Grant? && h.outbox[i].res == r)
  {
    forall i | 0 <= i < |h.outbox| ensures !(h.outbox[i].Grant? && h.outbox[i].res == r) {
      assert IsToken(h.outbox[i], r) ==> h.outbox[i] in Tokens(h.outbox, r);
    }
  }

  lemma TidyRecovers(base: seq<Addr>, log: seq<Event>, h: Host, r: Resource)
    requires WellFormedLog(base, log) && HostInv(true, base, log, h) && h.idx < |log| && log[h.idx].View?
    requires Recovers(h.node, log[h.idx], r)
    ensures NoGrantAhead(log, h, r)
  {
    var e, k, n, g := log[h.idx], h.(idx := h.idx + 1), h.node.id, RosterAt(base, log, h.idx);
    var s := SeedView(h.node, e.members, e.joins);
    assert SoundAt(base, log, h.idx) && ResInv(true, base, log, h, r);
    GoneLeaves(s.members, e.left, h.node.locks[r].node);
    SeedViewLists(h.node, e.members, e.joins);
    RestIsOldest(g.age, s, e.left);
    RespFacts(base, log, r, h.idx);
    WithoutMembers(g.age, Ids(e.left));
    assert RespAt(base, log, r, k.idx) == Some(n);
    ViewActs(true, base, log, h, k, r, true);
    NothingInOutbox(h, r);
  }

  /** In a tidy run no lock a daemon is about to recover has a grant on its way past it. */
  lemma TidyMayRecover(s: Sys, n: NodeId)
    requires Inv(true, s) && n in s.hosts && s.hosts[n].idx < |s.log|
    ensures MayRecover(s.log, s.hosts[n], s.log[s.hosts[n].idx])
  {
    var h := s.hosts[n];
    assert HostInv(true, s.base, s.log, h);
    forall r | s.log[h.idx].View? && Recovers(h.node, s.log[h.idx], r) ensures NoGrantAhead(s.log, h, r) {
      TidyRecovers(s.base, s.log, h, r);
    }
  }

  /** The invariant of tidy runs is the stronger one. */
  lemma TidyInvIsStronger(s: Sys)
    requires Inv(true, s)
    ensures Inv(false, s)
  {
    forall n | n in s.hosts ensures TokenHost(false, s.base, s.log, s.hosts[n]) {
      assert TokenHost(true, s.base, s.log, s.hosts[n]);
      forall r ensures ResInv(false, s.base, s.log, s.hosts[n], r) {
        assert ResInv(true, s.base, s.log, s.hosts[n], r);
      }
    }
  }

  /** So every tidy run is a guarded run. */
  lemma {:induction false} TidyIsGuarded(s: Sys, run: seq<Step>)
    requires Inv(true, s) && IsRun(Tidy, s, run)
    ensures IsRun(Guarded, s, run) && Exec(Guarded, s, run) == Exec(Tidy, s, run)
    decreases |run|
  {
    if run != [] {
      TidyStepGuarded(s, run[0]);
      StepKeeps(true, s, run[0]);
      TidyIsGuarded(Apply(s, run[0]), run[1..]);
    }
  }

  lemma TidyStepGuarded(s: Sys, t: Step)
    requires Inv(true, s) && May(Tidy, s, t)
    ensures May(Guarded, s, t)
  {
    if t.Deliver? { TidyMayRecover(s, t.n); }
  }

  /** What is proved of guarded runs holds of tidy runs. */
  lemma TidyReaches(base: seq<Addr>, run: seq<Step>, s: Sys)
    requires Reaches(Tidy, base, run, s)
    ensures Reaches(Guarded, base, run, s)
  {
    FormedInv(true, base);
    TidyIsGuarded(Formed(base), run);
  }
}
