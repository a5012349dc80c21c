/**
 * Member lists: the count of members, and the conditions under which all daemons end up
 * with the same list, the current members in the order of their JOINs.
 */
module Convergence {
  import opened Types
  import opened Protocol
  import opened Group
  import opened Cluster
  import opened Membership
  import opened Structure

  // ---------- the member count ----------

  predicate Counted(n: Node) {
    n.total == |n.members| + 1
  }

  lemma {:induction false} DropAllShrinks(list: seq<Addr>, left: seq<Addr>)
    ensures |DropAll(list, left)| <= |list|
  {
    if left != [] { DropAllShrinks(list, left[..|left| - 1]); }
  }

  lemma MessageCount(n: Node, from: Addr, m: Msg)
    requires Counted(n)
    ensures Counted(ProcessMessage(n, from, m).node)
  {
    if !m.Join? { MessageFrame(n, from, m); }
  }

  /** The bootstrap branch is not taken again and the count does not go below zero. */
  lemma ViewCount(n: Node, members: seq<Addr>, left: seq<Addr>, joins: seq<Addr>, order: seq<Resource>)
    requires Counted(n)
    ensures SeedView(n, members, joins) == n
    ensures var o := LeaveAll(n, left, order); |n.members| - |o.node.members| < n.total
    ensures Counted(ConfigChange(n, members, left, joins, order).node)
  {
    LeaveAllFrame(n, left, order);
    DropAllShrinks(n.members, left);
  }

  lemma {:induction false} SeedSingle(members: seq<Addr>, me: Addr)
    ensures IdSeq(Seed(members, [me], me.id)) == Without(IdSeq(members), {me.id})
    ensures forall x :: x in Seed(members, [me], me.id) ==> x in members
  {
    if members != [] {
      var front, a := members[..|members| - 1], members[|members| - 1];
      SeedSingle(front, me);
      assert [me][..0] == [];
      assert SeedOne(a, [], me.id) == [];
      assert SeedOne(a, [me], me.id) == if a.id == me.id then [] else [a];
      assert IdSeq(members) == IdSeq(front) + [a.id];
      WithoutConcat(IdSeq(front), [a.id], {me.id});
      assert Without([a.id], {me.id}) == if a.id == me.id then [] else [a.id] by { assert [a.id][1..] == []; }
      var s := Seed(front, [me], me.id);
      assert IdSeq(s + [a]) == IdSeq(s) + [a.id];
    }
  }

  lemma {:induction false} WithoutConcat(a: seq<NodeId>, b: seq<NodeId>, gone: set<NodeId>)
    ensures Without(a + b, gone) == Without(a, gone) + Without(b, gone)
  {
    if a == [] {
      assert a + b == b;
    } else {
      WithoutConcat(a[1..], b, gone);
      assert (a + b)[1..] == a[1..] + b;
    }
  }

  lemma {:induction false} WithoutAbsent(s: seq<NodeId>, x: NodeId)
    requires x !in s
    ensures Without(s, {x}) == s
  {
    if s != [] { WithoutAbsent(s[1..], x); }
  }

  lemma {:induction false} WithoutOne(s: seq<NodeId>, x: NodeId, i: nat)
    requires Distinct(s) && i < |s| && s[i] == x
    ensures Without(s, {x}) == s[..i] + s[i + 1..]
  {
    if i == 0 {
      WithoutAbsent(s[1..], x);
    } else {
      WithoutOne(s[1..], x, i - 1);
      assert s[1..][..i - 1] == s[1..i] && s[1..][i..] == s[i + 1..];
      assert [s[0]] + s[1..i] == s[..i];
    }
  }

  /** The first view of a daemon that joins alone. */
  lemma FirstViewCount(me: Addr, n: Node, members: seq<Addr>, left: seq<Addr>, order: seq<Resource>)
    requires n.id == me.id && n.members == [] && n.total == 0 && Distinct(IdSeq(members)) && me in members
    ensures Counted(SeedView(n, members, [me]))
    ensures Counted(ConfigChange(n, members, left, [me], order).node)
  {
    SeedSingle(members, me);
    var i :| 0 <= i < |members| && members[i] == me;
    assert IdSeq(members)[i] == me.id;
    WithoutOne(IdSeq(members), me.id, i);
    assert Counted(SeedView(n, members, [me]));
    ViewCount(SeedView(n, members, [me]), members, left, [me], order);
  }

  /** A daemon handling a sequence of events, walking its table in any order at each of them. */
  function Digest(n: Node, es: seq<Event>, orders: seq<seq<Resource>>): Node
    requires |orders| == |es|
    decreases |es|
  {
    if es == [] then n else Digest(Handle(n, es[0], orders[0]).node, es[1..], orders[1..])
  }

  lemma {:induction false} CountStays(n: Node, es: seq<Event>, orders: seq<seq<Resource>>)
    requires |orders| == |es| && Counted(n)
    ensures Counted(Digest(n, es, orders))
    decreases |es|
  {
    if es != [] {
      match es[0] {
        case Message(from, m) => MessageCount(n, from, m);
        case View(members, left, joins) => ViewCount(n, members, left, joins, orders[0]);
      }
      CountStays(Handle(n, es[0], orders[0]).node, es[1..], orders[1..]);
    }
  }

  /** After a first view with a single joiner the count exceeds the list by one, whatever follows. */
  lemma MemberCount(me: Addr, members: seq<Addr>, left: seq<Addr>, es: seq<Event>, orders: seq<seq<Resource>>)
    requires Distinct(IdSeq(members)) && me in members && |orders| == |es| + 1
    ensures var k := Digest(FreshNode(me), [View(members, left, [me])] + es, orders); k.total == |k.members| + 1
  {
    var n, e := FreshNode(me), View(members, left, [me]);
    FirstViewCount(me, n, members, left, orders[0]);
    assert ([e] + es)[1..] == es;
    CountStays(Handle(n, e, orders[0]).node, es, orders[1..]);
  }
}
