/**
 * What holds in every state of a group from which members may leave but which nobody joins, and
 * whose clients stay.
 */
module CrashTheorems {
  import opened Types
  import opened Group
  import opened Cluster
  import opened Slices
  import opened Invariant
  import opened Theorems
  import opened Runs
  import opened Safety
  import opened Claims
  import opened Survivors
  import opened LocalState
  import opened Askers
  import opened CrashQueue
  import opened CrashSteps
  import opened CrashRuns

  // ---------- local state ----------

  lemma SameFlight(base: seq<Addr>, log: seq<Event>, h: Host, a: Key, b: Key)
    requires FlyKey(log, h, a) && FlyKey(log, h, b) && a.res == b.res && OneFlying(log, h)
    requires OutInv(base, log, h, a.res)
    ensures a == b
  {
    if i :| 0 <= i < |h.outbox| && h.outbox[i].Grant? && MsgKey(h.outbox[i]) == a {
      SentAlone(base, log, h, i);
      if p :| h.idx <= p < |log| && OwnGrant(log[p], h.node.id, b) { assert IsGrant(log[p], a.res); }
    } else {
      var p :| h.idx <= p < |log| && OwnGrant(log[p], h.node.id, a);
      assert OwnGrantOf(log[p], h.node.id, a.res);
      if j :| 0 <= j < |h.outbox| && h.outbox[j].Grant? && MsgKey(h.outbox[j]) == b {
        SentAlone(base, log, h, j);
      } else {
        var q :| h.idx <= q < |log| && OwnGrant(log[q], h.node.id, b);
        assert OwnGrantOf(log[q], h.node.id, a.res);
      }
    }
  }

  lemma MarkedAtMostOnce(base: seq<Addr>, log: seq<Event>, h: Host, i: nat, j: nat)
    requires UniqueAsks(log) && CrashHost(base, log, h) && i < |h.node.requests| && j < |h.node.requests|
    requires h.node.requests[i].granted && h.node.requests[j].granted
    requires h.node.requests[i].res == h.node.requests[j].res && OutInv(base, log, h, h.node.requests[i].res)
    ensures i == j
  {
    SameFlight(base, log, h, KeyOf(h.node.requests[i]), KeyOf(h.node.requests[j]));
    QueueDistinct(log, h);
    assert Keys(h.node.requests)[i] == Keys(h.node.requests)[j];
  }

  /**
   * A pending lock has the daemon's own grant on its way, and is the daemon's or nobody's;
   * a marked request has its own grant on its way; at most one request per resource is marked.
   */
  lemma LocalStateMeaning(base: seq<Addr>, run: seq<Step>, s: Sys, n: NodeId)
    requires Reaches(Crash, base, run, s) && n in s.hosts
    ensures var h := s.hosts[n];
      forall r :: r in h.node.locks && h.node.locks[r].state.Pending? ==>
        FlyRes(s.log, h, r) && (h.node.locks[r].node == n || h.node.locks[r].node == 0)
    ensures var h := s.hosts[n];
      forall i :: 0 <= i < |h.node.requests| && h.node.requests[i].granted ==>
        FlyKey(s.log, h, KeyOf(h.node.requests[i]))
    ensures var q := s.hosts[n].node.requests;
      forall i, j :: 0 <= i < |q| && 0 <= j < |q| && q[i].granted && q[j].granted && q[i].res == q[j].res ==> i == j
  {
    CrashReaches(base, run, s);
    assert HostInv(true, s.base, s.log, s.hosts[n]) && CrashHost(s.base, s.log, s.hosts[n]);
    PendingMeans(s.base, s.log, s.hosts[n]);
    OneMark(s.base, s.log, s.hosts[n]);
  }

  lemma PendingMeans(base: seq<Addr>, log: seq<Event>, h: Host)
    requires HostInv(true, base, log, h) && CrashHost(base, log, h)
    ensures forall r :: r in h.node.locks && h.node.locks[r].state.Pending? ==>
      FlyRes(log, h, r) && (h.node.locks[r].node == h.node.id || h.node.locks[r].node == 0)
  {
    forall r | r in h.node.locks && h.node.locks[r].state.Pending?
      ensures FlyRes(log, h, r) && (h.node.locks[r].node == h.node.id || h.node.locks[r].node == 0)
    {
      assert LocalRes(log, h, r);
    }
  }

  lemma OneMark(base: seq<Addr>, log: seq<Event>, h: Host)
    requires UniqueAsks(log) && CrashHost(base, log, h) && TokenHost(true, base, log, h)
    ensures var q := h.node.requests;
      forall i, j :: 0 <= i < |q| && 0 <= j < |q| && q[i].granted && q[j].granted && q[i].res == q[j].res ==> i == j
  {
    var q := h.node.requests;
    forall i, j | 0 <= i < |q| && 0 <= j < |q| && q[i].granted && q[j].granted && q[i].res == q[j].res ensures i == j {
      assert ResInv(true, base, log, h, q[i].res);
      MarkedAtMostOnce(base, log, h, i, j);
    }
  }

  // ---------- who is stranded ----------

  /** Everything sent has been ordered and delivered everywhere. */
  ghost predicate Quiescent(s: Sys) {
    forall n :: n in s.hosts ==> s.hosts[n].outbox == [] && s.hosts[n].idx == |s.log|
  }

  /** Some client has been told it has r and has not released it. */
  ghost predicate ToldHolder(s: Sys, r: Resource) {
    exists m :: m in s.hosts && HoldsRes(s.hosts[m], r)
  }

  lemma NothingFlies(log: seq<Event>, h: Host, r: Resource)
    requires h.outbox == [] && h.idx == |log|
    ensures !FlyRes(log, h, r) && (forall pid :: !Releasing(log, h, r, pid)) && InFlight(log, h) == {}
  {
  }

  /** Whoever is there has been there from the beginning. */
  lemma {:induction false} StayedOn(s: Sys, run: seq<Step>, x: set<NodeId>)
    requires IsRun(Crash, s, run)
    ensures x * Exec(Crash, s, run).hosts.Keys <= Remain(x, run)
    ensures Exec(Crash, s, run).hosts.Keys <= s.hosts.Keys
    decreases |run|
  {
    if run != [] {
      if run[0].ChangeView? { assert Ids(run[0].joins) == {}; }
      StayedOn(Apply(s, run[0]), run[1..], RemainAfter(x, run[0]));
    }
  }

  lemma OwnersAgree(base: seq<Addr>, run: seq<Step>, s: Sys, a: NodeId, b: NodeId, r: Resource)
    requires Reaches(Crash, base, run, s) && Quiescent(s) && a in s.hosts && b in s.hosts
    ensures ClaimOf(s.hosts[a].node, r) == ClaimOf(s.hosts[b].node, r)
  {
    CrashReaches(base, run, s);
    StayedOn(Formed(base), run, {a, b});
    FoundersAgree(base, run, s, a, b, r);
    NothingFlies(s.log, s.hosts[a], r);
    NothingFlies(s.log, s.hosts[b], r);
  }

  lemma QueuesAgree(s: Sys, a: NodeId, b: NodeId, r: Resource)
    requires CrashInv(s) && Quiescent(s) && a in s.hosts && b in s.hosts && Asking(s.hosts[a].node.requests, r)
    ensures Asking(s.hosts[b].node.requests, r)
  {
    assert CrashHost(s.base, s.log, s.hosts[a]) && CrashHost(s.base, s.log, s.hosts[b]);
    NothingFlies(s.log, s.hosts[a], r);
    NothingFlies(s.log, s.hosts[b], r);
    var q, t := s.hosts[a].node.requests, s.hosts[b].node.requests;
    assert Keys(q) == Keys(t);
    var i :| 0 <= i < |q| && q[i].res == r;
    assert KeyOf(t[i]) == Keys(q)[i];
    assert t[i].res == r;
  }

  lemma AskedIsKnown(base: seq<Addr>, log: seq<Event>, h: Host, r: Resource)
    requires UniqueAsks(log) && CrashHost(base, log, h) && Asking(h.node.requests, r)
    ensures r in h.node.locks
  {
    var i :| 0 <= i < |h.node.requests| && h.node.requests[i].res == r;
    QueueAsked(log, h.idx);
    KeepIn(QueueAt(log, h.idx), InFlight(log, h));
    assert KeyOf(h.node.requests[i]) in Keys(h.node.requests) by {
      assert Keys(h.node.requests)[i] == KeyOf(h.node.requests[i]);
    }
    var p :| 0 <= p < h.idx && IsAsk(log[p], KeyOf(h.node.requests[i]));
  }

  /** The owner, if it is there, has told somebody. */
  lemma OwnerHolds(s: Sys, m: NodeId, r: Resource)
    requires CrashInv(s) && Quiescent(s) && m in s.hosts && r in s.hosts[m].node.locks
    requires s.hosts[m].node.locks[r].node == m && Asking(s.hosts[m].node.requests, r)
    ensures HoldsRes(s.hosts[m], r)
  {
    var h := s.hosts[m];
    assert HostInv(true, s.base, s.log, h) && CrashHost(s.base, s.log, h) && LocalRes(s.log, h, r);
    NothingFlies(s.log, h, r);
  }

  lemma HolderOwns(s: Sys, m: NodeId, r: Resource)
    requires Inv(true, s) && m in s.hosts && HoldsRes(s.hosts[m], r)
    ensures r in s.hosts[m].node.locks && s.hosts[m].node.locks[r].node == m
  {
    assert HostInv(true, s.base, s.log, s.hosts[m]) && ResInv(true, s.base, s.log, s.hosts[m], r);
  }

  /**
   * Once everything sent has been delivered everywhere, all daemons show the same owner of a lock that
   * is waited for, and the wait is for a client that has been told it has the lock, if and only if
   * that owner is still a member. Otherwise no message is on its way that could end the wait.
   */
  lemma StrandedExact(base: seq<Addr>, run: seq<Step>, s: Sys, n: NodeId, r: Resource)
    requires Reaches(Crash, base, run, s) && Quiescent(s)
    requires n in s.hosts && Asking(s.hosts[n].node.requests, r)
    ensures r in s.hosts[n].node.locks
    ensures forall m :: m in s.hosts ==>
      && Asking(s.hosts[m].node.requests, r)
      && ClaimOf(s.hosts[m].node, r) == ClaimOf(s.hosts[n].node, r)
    ensures ToldHolder(s, r) <==> s.hosts[n].node.locks[r].node in s.hosts
  {
    CrashReaches(base, run, s);
    assert CrashHost(s.base, s.log, s.hosts[n]);
    AskedIsKnown(s.base, s.log, s.hosts[n], r);
    forall m | m in s.hosts
      ensures Asking(s.hosts[m].node.requests, r) && ClaimOf(s.hosts[m].node, r) == ClaimOf(s.hosts[n].node, r)
    {
      QueuesAgree(s, n, m, r);
      OwnersAgree(base, run, s, m, n, r);
    }
    var owner := s.hosts[n].node.locks[r].node;
    if owner in s.hosts {
      assert ClaimOf(s.hosts[owner].node, r) == ClaimOf(s.hosts[n].node, r);
      OwnerHolds(s, owner, r);
    }
    if m :| m in s.hosts && HoldsRes(s.hosts[m], r) {
      HolderOwns(s, m, r);
      assert ClaimOf(s.hosts[m].node, r) == ClaimOf(s.hosts[n].node, r);
    }
  }
}
