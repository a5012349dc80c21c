/**
 * A lock recorded as a departed node's, with nothing on its way, is lost to the group: whoever
 * waits for it or asks for it later waits in vain, as long as nobody joins.
 */
module Stranded {
  import opened Types
  import opened Protocol
  import opened Group
  import opened Cluster
  import opened Slices
  import opened Membership
  import opened StructureSteps
  import opened Invariant
  import opened TokenSlices
  import opened TokenDeliver
  import opened TokenLocal
  import opened Runs
  import opened FreeRuns
  import opened Safety
  import opened ViewGuard
  import opened Claims
  import opened LocalState
  import opened Askers
  import opened CrashSteps
  import opened CrashRuns
  import opened CrashTheorems

  /** No grant or release of r from position i on. */
  ghost predicate Silent(log: seq<Event>, i: nat, r: Resource) {
    forall p :: i <= p < |log| && log[p].Message? ==> !IsToken(log[p].m, r)
  }

  /** The daemon records r as the departed z's and has nothing to say about it. */
  ghost predicate Lost(base: seq<Addr>, log: seq<Event>, h: Host, r: Resource, z: NodeId) {
    && h.idx <= |log| && Silent(log, h.idx, r)
    && r in h.node.locks && h.node.locks[r].node == z
    && z != h.node.id && z !in RosterAt(base, log, h.idx).mem
    && Tokens(h.outbox, r) == [] && !HoldsRes(h, r)
  }

  ghost predicate AllLost(s: Sys, from: nat, r: Resource, z: NodeId) {
    && Silent(s.log, from, r)
    && forall n :: n in s.hosts ==> Lost(s.base, s.log, s.hosts[n], r, z)
  }

  // ---------- delivery ----------

  lemma LostMessage(n: Node, from: Addr, m: Msg, r: Resource)
    requires n.joined && !m.Join? && !IsToken(m, r) && r in n.locks && n.locks[r].node != n.id
    ensures var o := ProcessMessage(n, from, m); SameEntry(n, o.node, r) && Tokens(o.sent, r) == [] && ToldNothing(o, r)
  {
    if m.Lock? && m.res == r { LockSlice(n, m); } else { OtherMessageSlice(n, from, m, r); }
  }

  lemma LostView(base: seq<Addr>, log: seq<Event>, h: Host, order: seq<Resource>, r: Resource, z: NodeId)
    requires WellFormedLog(base, log) && FreeHost(base, log, h) && h.node.joined && Lost(base, log, h, r, z)
    requires h.idx < |log| && log[h.idx].View? && IsWalk(h.node.locks, order)
    ensures var o := Handle(h.node, log[h.idx], order); Untouched(h.node, o, r) && ToldNothing(o, r)
  {
    var e := log[h.idx];
    var s := SeedView(h.node, e.members, e.joins);
    assert SoundAt(base, log, h.idx);
    ViewSlice(base, log, h, order, r);
    LeaveAllFrame(s, e.left, order);
    GoneLeaves(s.members, e.left, z);
  }

  lemma LostDeliver(base: seq<Addr>, log: seq<Event>, h: Host, order: seq<Resource>, r: Resource, z: NodeId)
    requires WellFormedLog(base, log) && FreeHost(base, log, h) && h.node.joined && Lost(base, log, h, r, z)
    requires h.idx < |log| && CrashEvent(log[h.idx]) && IsWalk(h.node.locks, order)
    ensures Lost(base, log, HostDeliver(h, log[h.idx], order), r, z)
  {
    var e, k := log[h.idx], HostDeliver(h, log[h.idx], order);
    var o := Handle(h.node, e, order);
    HandleId(h.node, e, order);
    if e.View? {
      assert Ids(e.joins) == {};
      LostView(base, log, h, order, r, z);
    } else {
      LostMessage(h.node, e.from, e.m, r);
    }
    TokensConcat(h.outbox, o.sent, r);
    ToldNothingHolds(h, o, r);
    assert HoldsRes(k, r) ==> HoldsRes(h, r);
  }

  // ---------- other steps ----------

  /** The entry stays, and what is sent is not about r. */
  lemma LostStays(base: seq<Addr>, log: seq<Event>, h: Host, k: Host, sent: seq<Msg>, r: Resource, z: NodeId)
    requires Lost(base, log, h, r, z) && k.idx == h.idx && k.node.id == h.node.id
    requires SameEntry(h.node, k.node, r) && k.outbox == h.outbox + sent && Tokens(sent, r) == []
    requires k.holds <= h.holds
    ensures Lost(base, log, k, r, z)
  {
    TokensConcat(h.outbox, sent, r);
    assert HoldsRes(k, r) ==> HoldsRes(h, r);
  }

  lemma LostAskLock(base: seq<Addr>, log: seq<Event>, h: Host, k: Host, m: Msg, r: Resource, z: NodeId)
    requires Lost(base, log, h, r, z) && m.Lock? && k.outbox == h.outbox + [m]
    requires k == h.(node := h.node.(clients := k.node.clients), outbox := k.outbox)
    ensures Lost(base, log, k, r, z)
  {
    assert [m][1..] == [];
    assert Tokens([m], r) == [];
    LostStays(base, log, h, k, [m], r, z);
  }

  lemma LostAskUnlock(base: seq<Addr>, log: seq<Event>, h: Host, hold: Hold, order: seq<Resource>, r: Resource,
                      z: NodeId)
    requires HostInv(true, base, log, h) && Lost(base, log, h, r, z) && hold in h.holds && IsWalk(h.node.locks, order)
    ensures Lost(base, log, HostAskUnlock(h, hold, order), r, z)
  {
    var release := Unlock(hold.res, h.node.id, hold.pid, hold.tid);
    assert ResInv(true, base, log, h, hold.res);
    assert hold.res != r;
    HoldResolves(log, h, hold, order);
    GrantOrSlice(h.node, hold.res, release);
    LostStays(base, log, h, HostAskUnlock(h, hold, order), GrantOr(h.node, hold.res, release).sent, r, z);
  }

  lemma LostAppends(base: seq<Addr>, log: seq<Event>, e: Event, h: Host, r: Resource, z: NodeId)
    requires Lost(base, log, h, r, z) && (e.Message? ==> !IsToken(e.m, r))
    ensures Lost(base, log + [e], h, r, z)
  {
    RosterPrefix(base, log, e, h.idx);
  }

  lemma LostSends(base: seq<Addr>, log: seq<Event>, h: Host, r: Resource, z: NodeId)
    requires Lost(base, log, h, r, z) && h.outbox != []
    ensures !IsToken(h.outbox[0], r)
    ensures Lost(base, log + [Message(Self(h), h.outbox[0])], h.(outbox := h.outbox[1..]), r, z)
  {
    LostAppends(base, log, Message(Self(h), h.outbox[0]), h, r, z);
  }

  lemma OneLost(s: Sys, n: NodeId, k: Host, from: nat, r: Resource, z: NodeId, u: Sys)
    requires AllLost(s, from, r, z) && u == s.(hosts := s.hosts[n := k]) && Lost(s.base, s.log, k, r, z)
    ensures AllLost(u, from, r, z)
  {
  }

  lemma ConnectLost(s: Sys, n: NodeId, fd: nat, from: nat, r: Resource, z: NodeId, u: Sys)
    requires AllLost(s, from, r, z) && n in s.hosts && u == s.(hosts := s.hosts[n := HostConnect(s.hosts[n], fd)])
    ensures AllLost(u, from, r, z)
  {
    var h := s.hosts[n];
    LostStays(s.base, s.log, h, HostConnect(h, fd), [], r, z);
    OneLost(s, n, HostConnect(h, fd), from, r, z, u);
  }

  lemma AskLockLost(s: Sys, t: Step, from: nat, r: Resource, z: NodeId, u: Sys)
    requires AllLost(s, from, r, z) && t.AskLock? && Enabled(s, t) && u == Apply(s, t)
    ensures AllLost(u, from, r, z)
  {
    var h, k := s.hosts[t.n], HostAskLock(s.hosts[t.n], t.fd, t.res, t.pid, t.tid, t.isTry);
    AskLockClients(h, t.fd, t.pid, k, t.res, t.tid, t.isTry);
    LostAskLock(s.base, s.log, h, k, Lock(t.res, h.node.id, t.pid, t.tid, t.isTry), r, z);
    OneLost(s, t.n, k, from, r, z, u);
  }

  lemma AskUnlockLost(s: Sys, t: Step, from: nat, r: Resource, z: NodeId, u: Sys)
    requires CrashInv(s) && AllLost(s, from, r, z) && t.AskUnlock? && Enabled(s, t) && u == Apply(s, t)
    ensures AllLost(u, from, r, z)
  {
    var h := s.hosts[t.n];
    assert HostInv(true, s.base, s.log, h);
    LostAskUnlock(s.base, s.log, h, t.hold, t.order, r, z);
    OneLost(s, t.n, HostAskUnlock(h, t.hold, t.order), from, r, z, u);
  }

  lemma Ready(s: Sys, n: NodeId)
    requires CrashInv(s) && n in s.hosts && s.hosts[n].idx < |s.log|
    ensures WellFormedLog(s.base, s.log) && FreeHost(s.base, s.log, s.hosts[n]) && s.hosts[n].node.joined
    ensures CrashEvent(s.log[s.hosts[n].idx])
  {
    assert CrashHost(s.base, s.log, s.hosts[n]);
  }

  lemma DeliverLost(s: Sys, n: NodeId, order: seq<Resource>, from: nat, r: Resource, z: NodeId, u: Sys)
    requires CrashInv(s) && AllLost(s, from, r, z) && n in s.hosts && s.hosts[n].idx < |s.log|
    requires IsWalk(s.hosts[n].node.locks, order)
    requires u == s.(hosts := s.hosts[n := HostDeliver(s.hosts[n], s.log[s.hosts[n].idx], order)])
    ensures AllLost(u, from, r, z)
  {
    Ready(s, n);
    LostDeliver(s.base, s.log, s.hosts[n], order, r, z);
    OneLost(s, n, HostDeliver(s.hosts[n], s.log[s.hosts[n].idx], order), from, r, z, u);
  }

  lemma SequenceLost(s: Sys, n: NodeId, k: Host, e: Event, from: nat, r: Resource, z: NodeId)
    requires AllLost(s, from, r, z) && n in s.hosts && s.hosts[n].outbox != []
    requires k == s.hosts[n].(outbox := s.hosts[n].outbox[1..]) && e == Message(Self(s.hosts[n]), s.hosts[n].outbox[0])
    ensures AllLost(Sys(s.base, s.hosts[n := k], s.log + [e]), from, r, z)
  {
    LostSends(s.base, s.log, s.hosts[n], r, z);
    forall x | x in s.hosts && x != n ensures Lost(s.base, s.log + [e], s.hosts[x], r, z) {
      LostAppends(s.base, s.log, e, s.hosts[x], r, z);
    }
  }

  lemma ViewLost(s: Sys, e: Event, from: nat, r: Resource, z: NodeId)
    requires AllLost(s, from, r, z) && e.View? && e.joins == []
    ensures AllLost(Sys(s.base, HostsAfter(s.hosts, e.left, e.joins, |s.log|), s.log + [e]), from, r, z)
  {
    assert Ids(e.joins) == {};
    var hosts := HostsAfter(s.hosts, e.left, e.joins, |s.log|);
    forall x | x in hosts ensures Lost(s.base, s.log + [e], hosts[x], r, z) {
      LostAppends(s.base, s.log, e, s.hosts[x], r, z);
    }
  }

  lemma StepLost(s: Sys, t: Step, from: nat, r: Resource, z: NodeId)
    requires CrashInv(s) && AllLost(s, from, r, z) && May(Crash, s, t)
    ensures AllLost(Apply(s, t), from, r, z)
  {
    match t
    case Deliver(n, order) => DeliverLost(s, n, order, from, r, z, Apply(s, t));
    case Sequence(n) =>
      var h := s.hosts[n];
      SequenceLost(s, n, h.(outbox := h.outbox[1..]), Message(Self(h), h.outbox[0]), from, r, z);
    case ChangeView(members, left, joins) => ViewLost(s, View(members, left, joins), from, r, z);
    case Connect(n, fd) => ConnectLost(s, n, fd, from, r, z, Apply(s, t));
    case AskLock(_, _, _, _, _, _) => AskLockLost(s, t, from, r, z, Apply(s, t));
    case AskUnlock(_, _, _) => AskUnlockLost(s, t, from, r, z, Apply(s, t));
  }

  lemma {:induction false} RunLost(s: Sys, run: seq<Step>, from: nat, r: Resource, z: NodeId)
    requires CrashInv(s) && AllLost(s, from, r, z) && IsRun(Crash, s, run)
    ensures AllLost(Exec(Crash, s, run), from, r, z)
    decreases |run|
  {
    if run != [] {
      StepCrash(s, run[0]);
      StepLost(s, run[0], from, r, z);
      RunLost(Apply(s, run[0]), run[1..], from, r, z);
    }
  }

  // ---------- the theorem ----------

  lemma QuietlyLost(base: seq<Addr>, run: seq<Step>, s: Sys, n: NodeId, r: Resource, m: NodeId)
    requires Reaches(Crash, base, run, s) && Quiescent(s)
    requires n in s.hosts && Asking(s.hosts[n].node.requests, r) && m in s.hosts
    requires r in s.hosts[n].node.locks && s.hosts[n].node.locks[r].node !in s.hosts
    ensures Lost(s.base, s.log, s.hosts[m], r, s.hosts[n].node.locks[r].node)
  {
    CrashReaches(base, run, s);
    StrandedExact(base, run, s, n, r);
    assert FreeHost(s.base, s.log, s.hosts[m]) && s.hosts[m].node.id == m;
    assert ClaimOf(s.hosts[m].node, r) == ClaimOf(s.hosts[n].node, r);
    assert HoldsRes(s.hosts[m], r) ==> ToldHolder(s, r);
  }

  /**
   * If, with everything delivered, somebody waits for a lock whose recorded owner is gone, then however
   * the run goes on (with further requests, releases and departures, but nobody joining) no grant of
   * the lock is ever ordered, nobody is told to have it, and every daemon goes on recording that owner.
   */
  lemma StrandedForGood(base: seq<Addr>, run: seq<Step>, s: Sys, n: NodeId, r: Resource, more: seq<Step>, t: Sys)
    requires Reaches(Crash, base, run, s) && Quiescent(s)
    requires n in s.hosts && Asking(s.hosts[n].node.requests, r)
    requires r in s.hosts[n].node.locks && s.hosts[n].node.locks[r].node !in s.hosts
    requires IsRun(Crash, s, more) && t == Exec(Crash, s, more)
    ensures NoGrantFrom(t.log, |s.log|, r) && !ToldHolder(t, r)
    ensures forall m :: m in t.hosts ==>
      r in t.hosts[m].node.locks && t.hosts[m].node.locks[r].node == s.hosts[n].node.locks[r].node
  {
    CrashReaches(base, run, s);
    var z := s.hosts[n].node.locks[r].node;
    forall m | m in s.hosts ensures Lost(s.base, s.log, s.hosts[m], r, z) { QuietlyLost(base, run, s, n, r, m); }
    RunLost(s, more, |s.log|, r, z);
    forall m | m in t.hosts
      ensures r in t.hosts[m].node.locks && t.hosts[m].node.locks[r].node == z && !HoldsRes(t.hosts[m], r)
    {
      assert Lost(t.base, t.log, t.hosts[m], r, z);
    }
  }
}
