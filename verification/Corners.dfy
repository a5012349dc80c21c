/**
 * Messages and requests that no run of correct daemons and clients contains, and lists and counts
 * that have gone wrong: what the handlers keep nevertheless.
 */
module Corners {
  import opened Types
  import opened Protocol
  import opened Membership
  import opened TokenSlices
  import opened Claims
  import opened Convergence

  /** Whatever message arrives, a lock that somebody holds is never recorded as held by nobody. */
  lemma HeldStaysOwned(n: Node, from: Addr, m: Msg, r: Resource)
    requires r in n.locks && n.locks[r].state.Held? && n.locks[r].node != 0 && n.locks[r].pid != 0
    ensures var k := ProcessMessage(n, from, m).node; r in k.locks && k.locks[r].node != 0 && k.locks[r].pid != 0
  {
    if m.Nak? || !Concerns(m, r) {
      OtherMessageSlice(n, from, m, r);
    } else if m.Grant? {
      GrantStaysOwned(n, m);
    } else if m.Lock? && n.joined {
      LockSlice(n, m);
    } else if m.Unlock? && n.joined {
      UnlockSlice(n, m);
    }
  }

  lemma GrantStaysOwned(n: Node, m: Msg)
    requires m.Grant? && m.res in n.locks && n.locks[m.res].state.Held?
    requires n.locks[m.res].node != 0 && n.locks[m.res].pid != 0
    ensures var k := ProcessGrant(n, m).node; m.res in k.locks && k.locks[m.res].node != 0 && k.locks[m.res].pid != 0
  {
    if n.joined && m.node != 0 && m.pid != 0 { GrantEffect(n, m); }
  }

  function NewIn(list: seq<Addr>, a: Addr): multiset<Addr> {
    if IsMember(list, a.id) then multiset{} else multiset{a}
  }

  /**
   * A JOIN loses no address, lists a node that is not listed yet, moves one that is listed by this
   * very address to the end, and is ignored if the node is listed by another; the count follows.
   */
  lemma JoinKeeps(n: Node, from: Addr)
    ensures var k := ProcessJoin(n, from).node;
      && multiset(k.members) == multiset(n.members) + NewIn(n.members, from)
      && k.total == n.total + |k.members| - |n.members|
      && (k.joined <==> n.joined || (from.id == n.id && !IsMember(n.members, from.id)))
      && (k.members != n.members ==> k.members[|k.members| - 1] == from)
      && (IsMember(n.members, from.id) && from !in n.members ==> k == n)
  {
    var i := FirstId(n.members, from.id);
    if i < |n.members| {
      assert IsMember(n.members, from.id);
      assert n.members == n.members[..i] + [n.members[i]] + n.members[i + 1..];
      if n.members[i] == from { assert from in n.members; }
    }
  }

  /** Letting go of an id that no lock carries does nothing. */
  lemma StaleUnlock(n: Node, id: nat, order: seq<Resource>)
    requires forall r :: r in n.locks ==> n.locks[r].localId != id
    ensures ClientUnlock(n, id, order) == Outcome(n, [], [])
  {
    var i := FirstLockId(n.locks, id, order);
  }

  /** A view takes as much off the count as off the list, but not below zero. */
  lemma CountAfterView(n: Node, members: seq<Addr>, left: seq<Addr>, joins: seq<Addr>, order: seq<Resource>)
    ensures var s, k := SeedView(n, members, joins), ConfigChange(n, members, left, joins, order).node;
      var removed := |s.members| - |k.members|;
      && removed >= 0
      && k.total <= s.total <= k.total + removed
      && (k.total > 0 ==> s.total == k.total + removed)
  {
    var s := SeedView(n, members, joins);
    LeaveAllFrame(s, left, order);
    DropAllShrinks(s.members, left);
  }
}
