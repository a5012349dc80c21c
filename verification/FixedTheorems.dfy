/**
 * What holds in every state of a fixed, fully joined group without disconnects.
 */
module FixedTheorems {
  import opened Types
  import opened Group
  import opened Cluster
  import opened Slices
  import opened Invariant
  import opened Runs
  import opened Safety
  import opened LocalState
  import opened Askers
  import opened CrashSteps
  import opened CrashTheorems
  import opened Replica
  import opened FixedGroup
  import opened FixedRuns
  import opened Fifo

  lemma FixedReachesInv(base: seq<Addr>, run: seq<Step>, s: Sys)
    requires Reaches(Fixed, base, run, s)
    ensures FifoInv(s) && Reaches(Crash, base, run, s)
  {
    FormedFixed(base);
    RunFifo(Formed(base), run);
    FixedIsRun(Formed(base), run);
  }

  // ---------- replica agreement ----------

  /** Two daemons show the same owners and the same waiting requests in the same order. */
  ghost predicate SameShared(a: Node, b: Node) {
    && a.locks.Keys == b.locks.Keys
    && (forall r :: r in a.locks ==> OwnerOf(a.locks[r]) == OwnerOf(b.locks[r]))
    && |a.requests| == |b.requests|
    && (forall i :: 0 <= i < |a.requests| ==> KeyOf(a.requests[i]) == KeyOf(b.requests[i]))
  }

  /** A daemon's shared view is a replay of the messages delivered to it; so daemons at the same position agree. */
  lemma ReplicaAgreement(base: seq<Addr>, run: seq<Step>, s: Sys, n: NodeId, m: NodeId)
    requires Reaches(Fixed, base, run, s) && n in s.hosts && m in s.hosts
    ensures s.hosts[n].idx <= |s.log| && Agrees(s.hosts[n].node, Replay(s.log, s.hosts[n].idx))
    ensures s.hosts[n].idx == s.hosts[m].idx ==> SameShared(s.hosts[n].node, s.hosts[m].node)
  {
    FixedReachesInv(base, run, s);
    assert FixedPart(s.base, s.log, s.hosts[n]) && FixedPart(s.base, s.log, s.hosts[m]);
  }

  // ---------- first come, first served ----------

  /**
   * Every ordered grant answers exactly one request, ordered before it; and of two grants of
   * the same resource the earlier one answers the earlier request. No request is granted twice.
   */
  lemma FifoGrants(base: seq<Addr>, run: seq<Step>, s: Sys, r: Resource, p: nat, q: nat) returns (a: nat, b: nat)
    requires Reaches(Fixed, base, run, s)
    requires p < q < |s.log| && IsGrant(s.log[p], r) && IsGrant(s.log[q], r)
    ensures a < p && IsAsk(s.log[a], MsgKey(s.log[p].m))
    ensures b < q && IsAsk(s.log[b], MsgKey(s.log[q].m))
    ensures a < b
    ensures forall c :: 0 <= c < |s.log| && IsAsk(s.log[c], MsgKey(s.log[p].m)) ==> c == a
    ensures forall c :: 0 <= c < |s.log| && IsAsk(s.log[c], MsgKey(s.log[q].m)) ==> c == b
  {
    FixedReachesInv(base, run, s);
    assert GrantAnswers(s.log, p) && GrantAnswers(s.log, q);
    a :| 0 <= a < p && IsAsk(s.log[a], MsgKey(s.log[p].m));
    b :| 0 <= b < q && IsAsk(s.log[b], MsgKey(s.log[q].m));
    assert Answer(s.log, r, p, a) && Answer(s.log, r, q, b);
  }

  /** When a grant is ordered, no request for the resource that is still waiting came before the one it answers. */
  lemma NoOvertaking(base: seq<Addr>, run: seq<Step>, s: Sys, r: Resource, p: nat, a: nat, j: nat)
    requires Reaches(Fixed, base, run, s)
    requires p < |s.log| && IsGrant(s.log[p], r) && a < |s.log| && IsAsk(s.log[a], MsgKey(s.log[p].m))
    requires j < |Replay(s.log, p).queue| && Replay(s.log, p).queue[j].key.res == r
    ensures a <= Replay(s.log, p).queue[j].pos
  {
    FixedReachesInv(base, run, s);
    assert Answer(s.log, r, p, a);
  }

  // ---------- no stranded waiter ----------

  /** The first founder has settled who owns a lock that is asked for. */
  lemma OwnerIsHost(s: Sys, r: Resource) returns (m: NodeId)
    requires FixedInv(s) && Quiescent(s) && s.base != [] && r in Replay(s.log, |s.log|).table
    ensures m in s.hosts && Replay(s.log, |s.log|).table[r].node == m
  {
    var t := Replay(s.log, |s.log|).table;
    RespOfReplay(s.base, s.log, r, |s.log|);
    m := t[r].node;
    assert s.base[0].id in Ids(s.base);
    var head := s.hosts[s.base[0].id];
    assert FixedPart(s.base, s.log, head) && CrashHost(s.base, s.log, head);
    NothingFlies(s.log, head, r);
    assert LocalRes(s.log, head, r) && HeadRes(head, r);
    assert OwnerOf(head.node.locks[r]) == t[r];
    assert m != 0;
    var i :| 0 <= i < |s.base| && IdSeq(s.base)[i] == m;
    assert s.base[i].id == m;
  }

  lemma HolderShown(s: Sys, m: NodeId, r: Resource) returns (hold: Hold)
    requires FixedInv(s) && Quiescent(s) && m in s.hosts && HoldsRes(s.hosts[m], r)
    ensures hold in s.hosts[m].holds && hold.res == r
    ensures forall x :: x in s.hosts ==>
      r in s.hosts[x].node.locks && OwnerOf(s.hosts[x].node.locks[r]) == Owner(true, m, hold.pid, hold.tid)
  {
    var h := s.hosts[m];
    hold :| hold in h.holds && hold.res == r;
    assert HostInv(true, s.base, s.log, h) && ResInv(true, s.base, s.log, h, r);
    assert FixedPart(s.base, s.log, h);
    forall x | x in s.hosts
      ensures r in s.hosts[x].node.locks && OwnerOf(s.hosts[x].node.locks[r]) == Owner(true, m, hold.pid, hold.tid)
    {
      assert FixedPart(s.base, s.log, s.hosts[x]);
    }
  }

  /**
   * Once everything sent has been delivered everywhere, a waiting request means that some
   * client has been told it has the lock and has not released it, and that every daemon
   * shows exactly that client as the holder.
   */
  lemma NoStrandedWaiter(base: seq<Addr>, run: seq<Step>, s: Sys, n: NodeId, r: Resource)
      returns (m: NodeId, hold: Hold)
    requires Reaches(Fixed, base, run, s) && Quiescent(s)
    requires n in s.hosts && Asking(s.hosts[n].node.requests, r)
    ensures m in s.hosts && hold in s.hosts[m].holds && hold.res == r
    ensures forall x :: x in s.hosts ==>
      r in s.hosts[x].node.locks && OwnerOf(s.hosts[x].node.locks[r]) == Owner(true, m, hold.pid, hold.tid)
  {
    FixedReachesInv(base, run, s);
    StrandedExact(base, run, s, n, r);
    assert s.base != [] by { assert n in Ids(s.base); }
    assert FixedPart(s.base, s.log, s.hosts[n]);
    var owner := OwnerIsHost(s, r);
    assert owner in s.hosts;
    m :| m in s.hosts && HoldsRes(s.hosts[m], r);
    hold := HolderShown(s, m, r);
  }
}
