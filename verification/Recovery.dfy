/**
 * What happens when daemons leave: who recovers their locks, how often, and what the
 * survivors then agree on.
 */
module Recovery {
  import opened Types
  import opened Protocol
  import opened Group
  import opened Cluster
  import opened Slices
  import opened Membership
  import opened StructureSteps
  import opened TokenSlices
  import opened TokenSteps
  import opened Runs
  import opened FreeRuns
  import opened ViewGuard

  /** No two purges among the messages are for the same node. */
  ghost predicate PurgedOnce(sent: seq<Msg>) {
    forall i, j :: 0 <= i < j < |sent| && sent[i].Purge? && sent[j].Purge? ==> sent[i].node != sent[j].node
  }

  lemma RecoverLocksNoPurge(n: Node, dead: NodeId, order: seq<Resource>)
    ensures forall i :: 0 <= i < |RecoverLocks(n, dead, order).sent| ==> !RecoverLocks(n, dead, order).sent[i].Purge?
  {
    if order != [] {
      RecoverLocksNoPurge(n, dead, order[..|order| - 1]);
      var a, r := RecoverLocks(n, dead, order[..|order| - 1]).node, order[|order| - 1];
      if r in a.locks { GrantNextSlice(Put(a, r, a.locks[r].(state := Free)), r); }
    }
  }

  lemma LeaveSends(n: Node, d: Addr, order: seq<Resource>)
    ensures var o := Leave(n, d, order);
      && (o.sent != [] ==>
            OwnHead(n.(members := DropAt(n.members, FirstAddr(n.members, d)))) && o.sent[0] == Purge(d.id, 0))
      && (forall i :: 1 <= i < |o.sent| ==> !o.sent[i].Purge?)
  {
    var c := n.(members := DropAt(n.members, FirstAddr(n.members, d)));
    RecoverLocksNoPurge(PurgeAll(c, d.id, 0), d.id, order);
  }

  lemma PurgedOnceConcat(a: seq<Msg>, b: seq<Msg>, ids: set<NodeId>, d: NodeId)
    requires PurgedOnce(a) && d !in ids
    requires forall i :: 0 <= i < |a| && a[i].Purge? ==> a[i].node in ids
    requires b != [] ==> b[0] == Purge(d, 0)
    requires forall i :: 1 <= i < |b| ==> !b[i].Purge?
    ensures PurgedOnce(a + b)
    ensures forall i :: 0 <= i < |a + b| && (a + b)[i].Purge? ==> (a + b)[i].node in ids + {d}
  {
  }

  /** Each leaver is purged at most once. */
  lemma LeaveAllSends(n: Node, left: seq<Addr>, order: seq<Resource>)
    requires Distinct(IdSeq(left))
    ensures var o := LeaveAll(n, left, order);
      && PurgedOnce(o.sent)
      && (forall i :: 0 <= i < |o.sent| && o.sent[i].Purge? ==> o.sent[i].node in Ids(left))
  {
    if left != [] {
      var front, d := left[..|left| - 1], left[|left| - 1];
      IdsSplit(left);
      LeaveAllSends(n, front, order);
      LeaveAllFrame(n, front, order);
      var a := LeaveAll(n, front, order);
      LeaveSends(a.node, d, order);
      PurgedOnceConcat(a.sent, Leave(a.node, d, order).sent, Ids(front), d.id);
    }
  }

  /**
   * For every run and every view a daemon is about to see: if it will send any recovery
   * message, it is the oldest member left by that view (so no other survivor sends one), it
   * purges each leaver at most once, and it sends at most one grant or release per resource.
   */
  lemma SingleRecovery(base: seq<Addr>, run: seq<Step>, s: Sys, n: NodeId, order: seq<Resource>, r: Resource)
    requires Reaches(Any, base, run, s) && n in s.hosts
    requires s.hosts[n].idx < |s.log| && s.log[s.hosts[n].idx].View? && IsWalk(s.hosts[n].node.locks, order)
    ensures var h := s.hosts[n];
      var sent := Handle(h.node, s.log[h.idx], order).sent;
      && (sent != [] ==> Oldest(RosterAt(s.base, s.log, h.idx + 1).age) == Some(n))
      && PurgedOnce(sent)
      && |Tokens(sent, r)| <= 1
  {
    ReachesFree(Any, base, run, s);
    var h := s.hosts[n];
    var e := s.log[h.idx];
    var t := SeedView(h.node, e.members, e.joins);
    assert SoundAt(s.base, s.log, h.idx);
    LeaveAllSends(t, e.left, order);
    SilentUnlessHead(t, e.left, order);
    SeedViewLists(h.node, e.members, e.joins);
    if h.node.joined {
      ViewSlice(s.base, s.log, h, order, r);
      if OwnHead(Rest(t, e.left)) { RestIsOldest(RosterAt(s.base, s.log, h.idx).age, t, e.left); }
    } else {
      DropAllNames(t.members, e.left, n);
    }
  }

  // ---------- the other survivors ----------

  /**
   * For every view a joined daemon is about to see without being the oldest after it, in any run:
   * the locks of listed leavers end up with the head of the list the view leaves, even if another
   * leaver was made owner in passing, and no other lock is touched. So such a lock ends up with a
   * leaver if and only if that head is one.
   */
  lemma HeirExact(base: seq<Addr>, run: seq<Step>, s: Sys, n: NodeId, order: seq<Resource>, r: Resource)
    requires Reaches(Any, base, run, s) && n in s.hosts && s.hosts[n].node.joined
    requires s.hosts[n].idx < |s.log| && s.log[s.hosts[n].idx].View? && IsWalk(s.hosts[n].node.locks, order)
    requires !OwnHead(Handle(s.hosts[n].node, s.log[s.hosts[n].idx], order).node)
    requires r in s.hosts[n].node.locks
    ensures var h, e := s.hosts[n].node, s.log[s.hosts[n].idx];
      var k, list := Handle(h, e, order).node, SeedView(h, e.members, e.joins).members;
      && k.members != [] && r in k.locks
      && (if Gone(list, e.left, h.locks[r].node) then
            && k.locks[r] == h.locks[r].(node := k.members[0].id, pid := k.members[0].pid)
            && (k.locks[r].node in Ids(e.left) <==> k.members[0].id in Ids(e.left))
          else k.locks[r] == h.locks[r])
  {
    ReachesFree(Any, base, run, s);
    var h, e := s.hosts[n], s.log[s.hosts[n].idx];
    var t := SeedView(h.node, e.members, e.joins);
    assert FreeHost(s.base, s.log, h);
    assert SoundAt(s.base, s.log, h.idx);
    RosterFacts(s.base, s.log, h.idx);
    ViewSlice(s.base, s.log, h, order, r);
    LeaveAllFrame(t, e.left, order);
    SeedViewLists(h.node, e.members, e.joins);
    DropAllKeeps(t.members, e.left, n, n);
  }

  // ---------- what the oldest survivor does ----------

  /**
   * A dead node's lock l becomes l': granted to the earliest waiter, or taken over by the oldest
   * member, which then says so by a release if the lock was held.
   */
  ghost predicate RecoveredAs(q: seq<Request>, l: LockRec, me: Addr, r: Resource, l': LockRec, ts: seq<Msg>) {
    var i := FirstWaiter(q, r);
    if i < |q| then l' == l.(state := Free) && ts == [Grant(r, q[i].node, q[i].pid, q[i].tid)]
    else
      && l' == l.(state := Free, node := me.id, pid := me.pid)
      && ts == if l.state.Held? then [Unlock(r, me.id, me.pid, 0)] else []
  }

  /** What the oldest survivor does to a lock of a dead node, given the other requests. */
  lemma HeadRecovers(n: Node, dead: NodeId, order: seq<Resource>, r: Resource)
    requires OwnHead(n) && IsWalk(n.locks, order) && r in n.locks && n.locks[r].node == dead
    requires !n.locks[r].state.Pending?
    ensures var o := DelNode(n, dead, order);
      && r in o.node.locks
      && RecoveredAs(PurgeQueue(n.requests, dead, 0), n.locks[r], Addr(n.id, n.daemonPid), r, o.node.locks[r],
                     Tokens(o.sent, r))
  {
    var p := PurgeAll(n, dead, 0);
    RecoversExactly(p, dead, order, r);
    var u := [Msg.Purge(dead, 0)];
    TokensConcat(u, RecoverLocks(p, dead, order).sent, r);
    assert u[1..] == [];
    assert Tokens(u, r) == [];
  }

  lemma RecoversOne(n: Node, dead: NodeId, r: Resource)
    requires r in n.locks && n.locks[r].node == dead && !n.locks[r].state.Pending?
    ensures var o := RecoverLock(n, dead, r);
      && r in o.node.locks
      && RecoveredAs(n.requests, n.locks[r], Addr(n.id, n.daemonPid), r, o.node.locks[r], Tokens(o.sent, r))
  {
    GrantNextSlice(Put(n, r, n.locks[r].(state := Free)), r);
    var u := [Unlock(r, n.id, n.daemonPid, 0)];
    assert u[1..] == [];
    assert Tokens(u[1..], r) == [];
  }

  /** Recovering other locks leaves the waiters of r alone. */
  lemma {:induction false} RecoverKeepsWaiters(n: Node, dead: NodeId, order: seq<Resource>, r: Resource)
    requires r !in order
    ensures SameKeys(n.requests, RecoverLocks(n, dead, order).node.requests) &&
      SameWaiters(n.requests, RecoverLocks(n, dead, order).node.requests, r)
  {
    if order != [] {
      var front, q := order[..|order| - 1], order[|order| - 1];
      assert order == front + [q];
      RecoverKeepsWaiters(n, dead, front, r);
      var a := RecoverLocks(n, dead, front).node;
      assert SameWaiters(a.requests, RecoverLock(a, dead, q).node.requests, r);
    }
  }

  lemma RecoveredSame(a: seq<Request>, b: seq<Request>, l: LockRec, me: Addr, r: Resource, l': LockRec, ts: seq<Msg>)
    requires SameKeys(a, b) && SameWaiters(a, b, r) && RecoveredAs(b, l, me, r, l', ts)
    ensures RecoveredAs(a, l, me, r, l', ts)
  {
    assert FirstWaiter(a, r) == FirstWaiter(b, r);
    var i := FirstWaiter(a, r);
    if i < |a| { assert KeyOf(a[i]) == KeyOf(b[i]); }
  }

  lemma {:induction false} RecoversExactly(n: Node, dead: NodeId, order: seq<Resource>, r: Resource)
    requires Distinct(order) && r in order && r in n.locks && n.locks[r].node == dead && !n.locks[r].state.Pending?
    ensures var o := RecoverLocks(n, dead, order);
      && r in o.node.locks
      && RecoveredAs(n.requests, n.locks[r], Addr(n.id, n.daemonPid), r, o.node.locks[r], Tokens(o.sent, r))
  {
    var front, q := order[..|order| - 1], order[|order| - 1];
    assert order == front + [q];
    RecoverLocksFrame(n, dead, front);
    var a := RecoverLocks(n, dead, front);
    TokensConcat(a.sent, RecoverLock(a.node, dead, q).sent, r);
    if q == r {
      RecoversLast(n, dead, front, r);
    } else {
      assert r in front;
      RecoversExactly(n, dead, front, r);
      RecoverLockSlice(a.node, dead, q, r);
    }
  }

  lemma RecoversLast(n: Node, dead: NodeId, front: seq<Resource>, r: Resource)
    requires Distinct(front) && r !in front && r in n.locks && n.locks[r].node == dead && !n.locks[r].state.Pending?
    ensures var a := RecoverLocks(n, dead, front);
      var o := RecoverLock(a.node, dead, r);
      && Tokens(a.sent, r) == [] && r in o.node.locks
      && RecoveredAs(n.requests, n.locks[r], Addr(n.id, n.daemonPid), r, o.node.locks[r], Tokens(o.sent, r))
  {
    var a := RecoverLocks(n, dead, front);
    RecoverLocksFrame(n, dead, front);
    RecoverLocksSlice(n, dead, front, r);
    RecoverKeepsWaiters(n, dead, front, r);
    RecoversOne(a.node, dead, r);
    var o := RecoverLock(a.node, dead, r);
    RecoveredSame(n.requests, a.node.requests, n.locks[r], Addr(n.id, n.daemonPid), r, o.node.locks[r],
                  Tokens(o.sent, r));
  }
}
