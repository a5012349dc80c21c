/**
 * Exactly when it is safe to deliver a view: what the oldest survivor recovers must not have a
 * grant on its way past it.
 */
module ViewGuard {
  import opened Types
  import opened Protocol
  import opened Group
  import opened Cluster
  import opened Slices
  import opened Membership
  import opened Structure
  import opened StructureSteps
  import opened Invariant
  import opened TokenSlices
  import opened Runs
  import opened FreeRuns
  import opened Safety
  import opened Theorems

  // ---------- the property ----------

  predicate FreeHere(n: Node, r: Resource) {
    r in n.locks && n.locks[r].node == n.id && n.locks[r].state.Free?
  }

  /** A daemon that regards a lock as free and its own has no grant of it on the way. */
  ghost predicate FreeIsFree(s: Sys) {
    forall n, r :: n in s.hosts && FreeHere(s.hosts[n].node, r) ==> NoGrantAhead(s.log, s.hosts[n], r)
  }

  ghost predicate GrantsAlone(s: Sys) {
    forall n, i :: n in s.hosts && 0 <= i < |s.hosts[n].outbox| && s.hosts[n].outbox[i].Grant? ==>
      GrantAlone(s.log, s.hosts[n], i)
  }

  /** No daemon has the right to a resource in two ways. */
  ghost predicate OneRight(s: Sys) {
    FreeIsFree(s) && GrantsAlone(s)
  }

  lemma InvFreeIsFree(s: Sys)
    requires Inv(false, s)
    ensures FreeIsFree(s)
  {
    forall n, r | n in s.hosts && FreeHere(s.hosts[n].node, r) ensures NoGrantAhead(s.log, s.hosts[n], r) {
      assert ResInv(false, s.base, s.log, s.hosts[n], r);
      NothingInOutbox(s.hosts[n], r);
    }
  }

  lemma InvGrantsAlone(s: Sys)
    requires Inv(false, s)
    ensures GrantsAlone(s)
  {
    forall n, i | n in s.hosts && 0 <= i < |s.hosts[n].outbox| && s.hosts[n].outbox[i].Grant?
      ensures GrantAlone(s.log, s.hosts[n], i)
    {
      assert ResInv(false, s.base, s.log, s.hosts[n], s.hosts[n].outbox[i].res);
      SentAlone(s.base, s.log, s.hosts[n], i);
    }
  }

  // ---------- a view ----------

  /** What a view does to a resource at a joined daemon. */
  lemma ViewSlice(base: seq<Addr>, log: seq<Event>, h: Host, order: seq<Resource>, r: Resource)
    requires WellFormedLog(base, log) && PlaceInv(base, log, h) && ListInv(base, log, h) && h.node.joined
    requires h.idx < |log| && log[h.idx].View? && IsWalk(h.node.locks, order)
    ensures var e := log[h.idx];
      var s := SeedView(h.node, e.members, e.joins);
      ViewOutcome(s, LeaveAll(s, e.left, order), e.left, r)
  {
    var e := log[h.idx];
    var s := SeedView(h.node, e.members, e.joins);
    assert SoundAt(base, log, h.idx);
    RosterFacts(base, log, h.idx);
    SeedViewLists(h.node, e.members, e.joins);
    assert IsMember(s.members, s.id);
    LeaveAllSlice(s, e.left, order, r);
  }

  /** The daemon recovers r with a grant of r ahead: it regards r as free, or sends a further grant. */
  lemma UnsafeRecovery(base: seq<Addr>, log: seq<Event>, h: Host, order: seq<Resource>, r: Resource)
    requires WellFormedLog(base, log) && FreeHost(base, log, h)
    requires h.idx < |log| && log[h.idx].View? && IsWalk(h.node.locks, order)
    requires Recovers(h.node, log[h.idx], r) && !NoGrantAhead(log, h, r)
    ensures var k := HostDeliver(h, log[h.idx], order);
      || (FreeHere(k.node, r) && !NoGrantAhead(log, k, r))
      || (exists i :: 0 <= i < |k.outbox| && k.outbox[i].Grant? && !GrantAlone(log, k, i))
  {
    var e, k := log[h.idx], HostDeliver(h, log[h.idx], order);
    var s := SeedView(h.node, e.members, e.joins);
    var o := LeaveAll(s, e.left, order);
    assert SoundAt(base, log, h.idx);
    RosterFacts(base, log, h.idx);
    ViewSlice(base, log, h, order, r);
    LeaveAllFrame(s, e.left, order);
    GoneLeaves(s.members, e.left, h.node.locks[r].node);
    assert TakenCare(s, o, e.left, r);
    StillAhead(log, h, k, o.sent, r);
    if OneGrant(Tokens(o.sent, r), r) { SecondGrant(log, h, k, o.sent, r); }
  }

  lemma StillAhead(log: seq<Event>, h: Host, k: Host, sent: seq<Msg>, r: Resource)
    requires h.idx < |log| && log[h.idx].View? && k.idx == h.idx + 1 && k.outbox == h.outbox + sent
    requires !NoGrantAhead(log, h, r)
    ensures !NoGrantAhead(log, k, r)
  {
    assert forall j :: 0 <= j < |h.outbox| ==> k.outbox[j] == h.outbox[j];
  }

  lemma SecondGrant(log: seq<Event>, h: Host, k: Host, sent: seq<Msg>, r: Resource)
    requires h.idx < |log| && log[h.idx].View? && k.idx == h.idx + 1 && k.outbox == h.outbox + sent
    requires !NoGrantAhead(log, h, r) && OneGrant(Tokens(sent, r), r)
    ensures exists i :: 0 <= i < |k.outbox| && k.outbox[i].Grant? && !GrantAlone(log, k, i)
  {
    var t := Tokens(sent, r)[0];
    assert t in Tokens(sent, r);
    var i :| 0 <= i < |sent| && sent[i] == t;
    assert k.outbox[|h.outbox| + i] == t;
    assert forall j :: 0 <= j < |h.outbox| ==> k.outbox[j] == h.outbox[j];
    assert !GrantAlone(log, k, |h.outbox| + i);
  }

  lemma UnsafeView(s: Sys, n: NodeId, order: seq<Resource>)
    requires FreeInv(s) && Enabled(s, Deliver(n, order))
    requires !MayRecover(s.log, s.hosts[n], s.log[s.hosts[n].idx])
    ensures !OneRight(Apply(s, Deliver(n, order)))
  {
    var h, u := s.hosts[n], Apply(s, Deliver(n, order));
    var r :| Recovers(h.node, s.log[h.idx], r) && !NoGrantAhead(s.log, h, r);
    assert FreeHost(s.base, s.log, h);
    UnsafeRecovery(s.base, s.log, h, order, r);
    assert u.hosts[n] == HostDeliver(h, s.log[h.idx], order);
  }

  /**
   * In every state of a run, delivering a view keeps "no daemon has the right to a resource in two
   * ways" (and with it the whole safety invariant) if and only if no lock the daemon recovers in the
   * view has a grant on its way past it.
   */
  lemma ViewExact(base: seq<Addr>, run: seq<Step>, s: Sys, n: NodeId, order: seq<Resource>)
    requires Reaches(Guarded, base, run, s) && Enabled(s, Deliver(n, order))
    ensures OneRight(Apply(s, Deliver(n, order))) <==> MayRecover(s.log, s.hosts[n], s.log[s.hosts[n].idx])
    ensures MayRecover(s.log, s.hosts[n], s.log[s.hosts[n].idx]) ==> Inv(false, Apply(s, Deliver(n, order)))
  {
    ReachesInv(false, base, run, s);
    if MayRecover(s.log, s.hosts[n], s.log[s.hosts[n].idx]) {
      StepKeeps(false, s, Deliver(n, order));
      InvFreeIsFree(Apply(s, Deliver(n, order)));
      InvGrantsAlone(Apply(s, Deliver(n, order)));
    } else {
      UnsafeView(s, n, order);
    }
  }
}
