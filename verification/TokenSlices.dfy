/**
 * For each handler: the new entry of a resource and the grants and releases sent for it.
 */
module TokenSlices {
  import opened Types
  import opened Protocol
  import opened Group
  import opened Cluster
  import opened Slices
  import opened Membership

  ghost predicate OneGrant(ts: seq<Msg>, r: Resource) {
    |ts| == 1 && ts[0].Grant? && ts[0].res == r
  }

  ghost predicate ToldNothing(o: Outcome, r: Resource) {
    forall i :: 0 <= i < |o.replies| && o.replies[i].Granted? ==> o.replies[i].res != r
  }

  predicate Concerns(m: Msg, r: Resource) {
    (m.Lock? || m.Grant? || m.Unlock? || m.Nak?) && m.res == r
  }

  /** A message about another resource. */
  lemma OtherMessageSlice(n: Node, from: Addr, m: Msg, r: Resource)
    requires m.Nak? || !Concerns(m, r)
    ensures var o := ProcessMessage(n, from, m);
      SameEntry(n, o.node, r) && Tokens(o.sent, r) == [] && ToldNothing(o, r)
  {
    match m
    case Lock(q, _, _, _, _) =>
      GrantNextSlice(n.(requests := n.requests + [Request(q, m.node, m.pid, m.tid, false)]), q);
    case Grant(q, _, _, _) => OtherGrantSlice(n, m, r);
    case Unlock(q, _, _, _) => GrantNextSlice(n, q);
    case Nak(_, _, _, _) =>
    case Purge(_, _) =>
    case Join =>
  }

  lemma OtherGrantSlice(n: Node, m: Msg, r: Resource)
    requires m.Grant? && m.res != r
    ensures var o := ProcessGrant(n, m);
      SameEntry(n, o.node, r) && Tokens(o.sent, r) == [] && ToldNothing(o, r)
  {
    if n.joined && m.res in n.locks {
      var a := Record(n, m);
      var t := Put(a, m.res, a.locks[m.res].(localId := a.lockid + 1)).(lockid := a.lockid + 1);
      GrantOrSlice(PurgeAll(t, n.id, m.pid), m.res, Unlock(m.res, m.node, m.pid, m.tid));
      GrantOrSlice(Put(a, m.res, a.locks[m.res].(state := Free)), m.res, Unlock(m.res, m.node, m.pid, m.tid));
    }
  }

  lemma LockSlice(n: Node, m: Msg)
    requires m.Lock? && n.joined
    ensures var o, r := ProcessLock(n, m), m.res;
      && r in o.node.locks && o.replies == []
      && (if r in n.locks && !(n.locks[r].node == n.id && n.locks[r].state.Free?) then
            o.node.locks[r] == n.locks[r] && Tokens(o.sent, r) == []
          else
            var l := if r in n.locks then n.locks[r] else LockRec(Free, 0, 0, 0, 0);
            || (o.node.locks[r] == l && Tokens(o.sent, r) == [])
            || (o.node.locks[r] == l.(state := Pending) && OneGrant(Tokens(o.sent, r), r)
                && (r in n.locks || OwnHead(n))))
  {
    GrantNextSlice(n.(requests := n.requests + [Request(m.res, m.node, m.pid, m.tid, false)]), m.res);
  }

  lemma UnlockSlice(n: Node, m: Msg)
    requires m.Unlock? && n.joined
    ensures var o, r := ProcessUnlock(n, m), m.res;
      && o.replies == []
      && (if r in n.locks && Releases(n.locks[r], m) then
            && r in o.node.locks
            && (|| (o.node.locks[r] == n.locks[r].(state := Free) && Tokens(o.sent, r) == [])
                || (o.node.locks[r] == n.locks[r].(state := Pending) && OneGrant(Tokens(o.sent, r), r) &&
                    n.locks[r].node == n.id))
          else SameEntry(n, o.node, r) && Tokens(o.sent, r) == [])
  {
    GrantNextSlice(n, m.res);
  }

  /** The outcome of a grant that is not averted. */
  lemma GrantSlice(n: Node, m: Msg)
    requires m.Grant? && n.joined && m.node != 0 && m.pid != 0
    ensures var o, r := ProcessGrant(n, m), m.res;
      var ts := Tokens(o.sent, r);
      && r in o.node.locks && o.node.locks[r].node == m.node
      && o.node.locks[r].pid == m.pid && o.node.locks[r].tid == m.tid
      && |ts| <= 1
      && (if m.node == n.id && r in n.locks then
            && o.node.locks[r].state.Held?
            && (if HasClient(n.clients, m.pid) then
                  ts == [] && o.replies == [Granted(m.pid, m.tid, r, o.node.locks[r].localId)]
                else
                  o.replies == [] && (OneGrant(ts, r) || ts == [Unlock(r, m.node, m.pid, m.tid)]))
          else
            && o.replies == []
            && (m.node == n.id ==> o.node.locks[r].state.Held? && ts == [])
            && (ts != [] ==> OwnHead(n) && !IsMember(n.members, m.node)))
  {
    var r := m.res;
    if r in n.locks {
      var a := Record(n, m);
      var t := Put(a, r, a.locks[r].(localId := a.lockid + 1)).(lockid := a.lockid + 1);
      GrantOrSlice(PurgeAll(t, n.id, m.pid), r, Unlock(r, m.node, m.pid, m.tid));
      GrantOrSlice(Put(a, r, a.locks[r].(state := Free)), r, Unlock(r, m.node, m.pid, m.tid));
    }
  }

  // ---------- leaving ----------

  /** The daemon has become the owner of the lock, and releases it for the others if it was held. */
  ghost predicate TakenOver(n: Node, l: LockRec, l': LockRec, ts: seq<Msg>, r: Resource) {
    && l'.node == n.id && l'.pid == n.daemonPid
    && ts == if l.state.Held? then [Unlock(r, n.id, n.daemonPid, 0)] else []
  }

  lemma RecoverLockSlice(n: Node, dead: NodeId, q: Resource, r: Resource)
    ensures var o := RecoverLock(n, dead, q);
      && o.node.id == n.id && o.node.daemonPid == n.daemonPid && o.replies == []
      && (if q == r && r in n.locks && n.locks[r].node == dead && !n.locks[r].state.Pending? then
            && r in o.node.locks && o.node.locks[r].state.Free?
            && (|| (OneGrant(Tokens(o.sent, r), r) && o.node.locks[r].node == dead)
                || TakenOver(n, n.locks[r], o.node.locks[r], Tokens(o.sent, r), r))
          else SameEntry(n, o.node, r) && Tokens(o.sent, r) == [])
  {
    if q in n.locks { GrantNextSlice(Put(n, q, n.locks[q].(state := Free)), q); }
    var u := [Unlock(q, n.id, n.daemonPid, 0)];
    assert u[1..] == [];
    assert Tokens(u[1..], r) == [];
  }

  /** As the head, the daemon recovers r once. */
  ghost predicate Recovered(n: Node, o: Outcome, dead: NodeId, r: Resource) {
    && r in n.locks && r in o.node.locks && o.node.locks[r].state.Free?
    && (|| (OneGrant(Tokens(o.sent, r), r) && o.node.locks[r].node == dead)
        || TakenOver(n, n.locks[r], o.node.locks[r], Tokens(o.sent, r), r))
  }

  /** The lock was the dead node's, and no grant of it was being decided on. */
  predicate Orphaned(n: Node, dead: NodeId, r: Resource) {
    r in n.locks && n.locks[r].node == dead && !n.locks[r].state.Pending?
  }

  ghost predicate Untouched(n: Node, o: Outcome, r: Resource) {
    SameEntry(n, o.node, r) && Tokens(o.sent, r) == []
  }

  lemma RecoverLocksSlice(n: Node, dead: NodeId, order: seq<Resource>, r: Resource)
    requires Distinct(order)
    ensures var o := RecoverLocks(n, dead, order);
      if r in order && Orphaned(n, dead, r) then Recovered(n, o, dead, r) else Untouched(n, o, r)
  {
    if order != [] {
      var front, q := order[..|order| - 1], order[|order| - 1];
      RecoverLocksSlice(n, dead, front, r);
      RecoverLocksFrame(n, dead, front);
      var a := RecoverLocks(n, dead, front);
      var b := RecoverLock(a.node, dead, q);
      RecoverLockSlice(a.node, dead, q, r);
      TokensConcat(a.sent, b.sent, r);
      assert order == front + [q];
      if q == r { assert r !in front; }
    }
  }

  /** The walk passes r if the table has it. */
  predicate Passes(order: seq<Resource>, n: Node, r: Resource) {
    r in n.locks ==> r in order
  }

  /** What the departure of one node does to r. */
  ghost predicate DelOutcome(n: Node, o: Outcome, dead: NodeId, r: Resource) {
    if OwnHead(n) then
      if Orphaned(n, dead, r) then Recovered(n, o, dead, r) else Untouched(n, o, r)
    else if r in n.locks && n.locks[r].node == dead && n.members != [] then
      && r in o.node.locks && Tokens(o.sent, r) == []
      && o.node.locks[r] == n.locks[r].(node := n.members[0].id, pid := n.members[0].pid)
    else Untouched(n, o, r)
  }

  lemma DelNodeSlice(n: Node, dead: NodeId, order: seq<Resource>, r: Resource)
    requires Distinct(order) && Passes(order, n, r)
    ensures DelOutcome(n, DelNode(n, dead, order), dead, r)
  {
    if OwnHead(n) {
      var p := PurgeAll(n, dead, 0);
      RecoverLocksSlice(p, dead, order, r);
      TokensConcat([Purge(dead, 0)], RecoverLocks(p, dead, order).sent, r);
      var u := [Msg.Purge(dead, 0)];
      assert u[1..] == [];
      assert Tokens(u, r) == [];
    }
  }

  // ---------- a whole view ----------

  /** The node once the leavers are off its list. */
  function Rest(n: Node, left: seq<Addr>): Node {
    n.(members := DropAll(n.members, left))
  }

  /** Heading the list is for good. */
  lemma HeadStays(n: Node, left: seq<Addr>)
    requires left != [] && n.id !in Ids(left) && OwnHead(Rest(n, left[..|left| - 1]))
    ensures OwnHead(Rest(n, left))
  {
    assert left[|left| - 1].id in Ids(left);
  }

  /** Only a daemon that heads the list the leavers leave sends anything. */
  lemma {:induction false} SilentUnlessHead(n: Node, left: seq<Addr>, order: seq<Resource>)
    requires n.id !in Ids(left)
    ensures LeaveAll(n, left, order).sent != [] ==> OwnHead(Rest(n, left))
  {
    if left != [] {
      IdsSplit(left);
      SilentUnlessHead(n, left[..|left| - 1], order);
      LeaveAllFrame(n, left[..|left| - 1], order);
      if OwnHead(Rest(n, left[..|left| - 1])) { HeadStays(n, left); }
    }
  }

  /** What the oldest survivor has done with a lock a listed leaver owned. */
  ghost predicate TakenCare(n: Node, o: Outcome, left: seq<Addr>, r: Resource)
    requires r in n.locks && r in o.node.locks
  {
    var ts := Tokens(o.sent, r);
    && o.node.locks[r].state.Free?
    && (|| (OneGrant(ts, r) && o.node.locks[r].node in Ids(left))
        || TakenOver(n, n.locks[r], o.node.locks[r], ts, r))
  }

  /** What the leavers of a view do to one resource. */
  ghost predicate ViewOutcome(n: Node, o: Outcome, left: seq<Addr>, r: Resource) {
    var list, ts := DropAll(n.members, left), Tokens(o.sent, r);
    if !(r in n.locks && Gone(n.members, left, n.locks[r].node)) then Untouched(n, o, r)
    else
      && r in o.node.locks
      && if !OwnHead(Rest(n, left)) then
           && ts == [] && list != []
           && o.node.locks[r] == n.locks[r].(node := list[0].id, pid := list[0].pid)
         else if n.locks[r].state.Pending? then
           ts == [] && o.node.locks[r].state.Pending? && o.node.locks[r].node != n.id
         else TakenCare(n, o, left, r)
  }

  /** Who has gone after one more leaver. */
  lemma GoneGrows(list: seq<Addr>, left: seq<Addr>, z: NodeId)
    requires left != [] && Distinct(IdSeq(left))
    ensures var front, d := left[..|left| - 1], left[|left| - 1];
      var rest := DropAll(list, front);
      Gone(list, left, z) <==> Gone(list, front, z) || (z == d.id && FirstAddr(rest, d) < |rest|)
  {
    var front, d := left[..|left| - 1], left[|left| - 1];
    IdsSplit(left);
    var l := DropAll(list, front);
    if d in list {
      KeepsOther(list, front, d);
      var k :| 0 <= k < |l| && l[k] == d;
    }
    if FirstAddr(l, d) < |l| {
      DropAllIn(list, front, d);
      assert left[|left| - 1] in list;
    }
    if Gone(list, front, z) {
      var i :| 0 <= i < |front| && front[i] in list && front[i].id == z;
      assert left[i] == front[i];
    }
    if Gone(list, left, z) {
      var i :| 0 <= i < |left| && left[i] in list && left[i].id == z;
      if i < |front| { assert front[i] == left[i]; }
    }
  }

  lemma GoneLeaves(list: seq<Addr>, left: seq<Addr>, z: NodeId)
    ensures Gone(list, left, z) ==> z in Ids(left)
  {
  }

  /** One more leaver that is listed. */
  lemma LeaveOne(n: Node, a: Outcome, c: Node, b: Outcome, left: seq<Addr>, r: Resource)
    requires left != [] && Distinct(IdSeq(left)) && n.id !in Ids(left)
    requires ViewOutcome(n, a, left[..|left| - 1], r) && a.node.id == n.id && a.node.daemonPid == n.daemonPid
    requires var l, d := DropAll(n.members, left[..|left| - 1]), left[|left| - 1];
      && FirstAddr(l, d) < |l| && a.node.members == l && c == a.node.(members := DropAll(n.members, left))
      && (r in n.locks ==> (Gone(n.members, left, n.locks[r].node) <==>
            Gone(n.members, left[..|left| - 1], n.locks[r].node) || n.locks[r].node == d.id))
    requires DropAll(n.members, left) != [] && DelOutcome(c, b, left[|left| - 1].id, r)
    ensures ViewOutcome(n, Outcome(b.node, a.sent + b.sent, []), left, r)
  {
    var front, d := left[..|left| - 1], left[|left| - 1];
    IdsSplit(left);
    TokensConcat(a.sent, b.sent, r);
    if OwnHead(Rest(n, front)) { HeadStays(n, left); }
    if r in n.locks && Gone(n.members, front, n.locks[r].node) {
      GoneLeaves(n.members, front, n.locks[r].node);
      LeftAgain(n, a, c, b, left, r);
    }
  }

  /** The lock was a former leaver's. */
  lemma LeftAgain(n: Node, a: Outcome, c: Node, b: Outcome, left: seq<Addr>, r: Resource)
    requires left != [] && n.id !in Ids(left)
    requires left[|left| - 1].id !in Ids(left[..|left| - 1])
    requires Ids(left) == Ids(left[..|left| - 1]) + {left[|left| - 1].id}
    requires ViewOutcome(n, a, left[..|left| - 1], r) && a.node.id == n.id && a.node.daemonPid == n.daemonPid
    requires r in n.locks && Gone(n.members, left[..|left| - 1], n.locks[r].node)
    requires Gone(n.members, left, n.locks[r].node)
    requires var l, d := DropAll(n.members, left[..|left| - 1]), left[|left| - 1];
      FirstAddr(l, d) < |l| && a.node.members == l && c == a.node.(members := DropAll(n.members, left))
    requires DropAll(n.members, left) != [] && DelOutcome(c, b, left[|left| - 1].id, r)
    requires OwnHead(Rest(n, left[..|left| - 1])) ==> OwnHead(Rest(n, left))
    requires Tokens(a.sent + b.sent, r) == Tokens(a.sent, r) + Tokens(b.sent, r)
    ensures ViewOutcome(n, Outcome(b.node, a.sent + b.sent, []), left, r)
  {
    var front, d := left[..|left| - 1], left[|left| - 1];
    var l := DropAll(n.members, front);
    if OwnHead(Rest(n, front)) {
      assert Untouched(c, b, r);
    } else if l[0].id == d.id {
      assert a.node.locks[r].node == d.id;
    } else {
      assert FirstAddr(l, d) > 0 && DropAll(n.members, left)[0] == l[0];
    }
  }

  lemma {:induction false} LeaveAllSlice(n: Node, left: seq<Addr>, order: seq<Resource>, r: Resource)
    requires Distinct(order) && Passes(order, n, r) && Distinct(IdSeq(left)) && n.id !in Ids(left)
    requires IsMember(n.members, n.id)
    ensures ViewOutcome(n, LeaveAll(n, left, order), left, r)
  {
    if left != [] {
      var front, d := left[..|left| - 1], left[|left| - 1];
      IdsSplit(left);
      LeaveAllSlice(n, front, order, r);
      LeaveAllFrame(n, front, order);
      DropAllKeeps(n.members, left, n.id, n.id);
      var a, l := LeaveAll(n, front, order), DropAll(n.members, front);
      if r in n.locks { GoneGrows(n.members, left, n.locks[r].node); }
      if FirstAddr(l, d) < |l| {
        var c := a.node.(members := DropAll(n.members, left));
        DelNodeSlice(c, d.id, order, r);
        DelNodeFrame(c, d.id, order);
        LeaveOne(n, a, c, DelNode(c, d.id, order), left, r);
      } else {
        assert a.sent + [] == a.sent;
        SameGone(n, a, left, r);
      }
    }
  }

  /** A leaver that is not listed changes nothing. */
  lemma SameGone(n: Node, a: Outcome, left: seq<Addr>, r: Resource)
    requires left != [] && Ids(left[..|left| - 1]) <= Ids(left)
    requires DropAll(n.members, left) == DropAll(n.members, left[..|left| - 1])
    requires r in n.locks ==>
      (Gone(n.members, left, n.locks[r].node) <==> Gone(n.members, left[..|left| - 1], n.locks[r].node))
    requires ViewOutcome(n, a, left[..|left| - 1], r)
    ensures ViewOutcome(n, a, left, r)
  {
  }
}
