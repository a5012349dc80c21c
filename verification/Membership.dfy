/**
 * Member lists: what seeding, JOIN messages and leaving do to the order of a list.
 */
module Membership {
  import opened Types
  import opened Protocol
  import opened Group
  import opened Slices

  lemma FirstIdIs(list: seq<Addr>, id: NodeId, i: nat)
    requires i < |list| && list[i].id == id
    requires forall j :: 0 <= j < i ==> list[j].id != id
    ensures FirstId(list, id) == i
  {
  }

  lemma FirstIdMember(list: seq<Addr>, id: NodeId)
    ensures IsMember(list, id) <==> FirstId(list, id) < |list|
  {
  }

  /** Both are listed, a first. */
  ghost predicate Before(list: seq<Addr>, a: NodeId, b: NodeId) {
    IsMember(list, a) && IsMember(list, b) && FirstId(list, a) < FirstId(list, b)
  }

  lemma DropKeepsMember(list: seq<Addr>, i: nat, a: NodeId)
    requires i < |list| && list[i].id != a
    ensures IsMember(DropAt(list, i), a) <==> IsMember(list, a)
  {
    var d := DropAt(list, i);
    if IsMember(list, a) {
      var k :| 0 <= k < |list| && list[k].id == a;
      assert d[if k < i then k else k - 1].id == a;
    }
    if IsMember(d, a) {
      var k :| 0 <= k < |d| && d[k].id == a;
      assert list[if k < i then k else k + 1].id == a;
    }
  }

  lemma DropFirstId(list: seq<Addr>, i: nat, a: NodeId)
    requires i < |list| && list[i].id != a && IsMember(list, a)
    ensures FirstId(DropAt(list, i), a) == if FirstId(list, a) < i then FirstId(list, a) else FirstId(list, a) - 1
  {
    FirstIdMember(list, a);
    var d, f := DropAt(list, i), FirstId(list, a);
    var g := if f < i then f else f - 1;
    assert d[g].id == a;
    forall j | 0 <= j < g ensures d[j].id != a {
      assert d[j] == list[if j < i then j else j + 1];
    }
    FirstIdIs(d, a, g);
  }

  lemma DropKeepsBefore(list: seq<Addr>, i: nat, a: NodeId, b: NodeId)
    requires i < |list| && list[i].id != a && list[i].id != b && Before(list, a, b)
    ensures Before(DropAt(list, i), a, b)
  {
    DropKeepsMember(list, i, a);
    DropKeepsMember(list, i, b);
    DropFirstId(list, i, a);
    DropFirstId(list, i, b);
  }

  lemma AppendKeepsMember(list: seq<Addr>, more: seq<Addr>, a: NodeId)
    requires IsMember(list, a)
    ensures IsMember(list + more, a) && FirstId(list + more, a) == FirstId(list, a)
  {
    FirstIdMember(list, a);
    assert (list + more)[FirstId(list, a)].id == a;
    forall j | 0 <= j < FirstId(list, a) ensures (list + more)[j].id != a {
      assert (list + more)[j] == list[j];
    }
    FirstIdIs(list + more, a, FirstId(list, a));
  }

  lemma AppendNew(list: seq<Addr>, more: Addr)
    ensures IsMember(list + [more], more.id)
    ensures !IsMember(list, more.id) ==> FirstId(list + [more], more.id) == |list|
  {
    assert (list + [more])[|list|] == more;
    if !IsMember(list, more.id) {
      forall j | 0 <= j < |list| ensures (list + [more])[j].id != more.id {
        assert (list + [more])[j] == list[j];
      }
      FirstIdIs(list + [more], more.id, |list|);
    }
  }

  // ---------- leaving ----------

  function DropAll(list: seq<Addr>, left: seq<Addr>): seq<Addr> {
    if left == [] then list
    else
      var l := DropAll(list, left[..|left| - 1]);
      DropAt(l, FirstAddr(l, left[|left| - 1]))
  }

  lemma RecoverLocksFrame(n: Node, dead: NodeId, order: seq<Resource>)
    ensures SameFrame(n, RecoverLocks(n, dead, order).node) && RecoverLocks(n, dead, order).replies == []
  {
    if order != [] {
      RecoverLocksFrame(n, dead, order[..|order| - 1]);
      var a, r := RecoverLocks(n, dead, order[..|order| - 1]).node, order[|order| - 1];
      if r in a.locks { GrantNextSlice(Put(a, r, a.locks[r].(state := Free)), r); }
    }
  }

  lemma DelNodeFrame(n: Node, dead: NodeId, order: seq<Resource>)
    ensures SameFrame(n, DelNode(n, dead, order).node) && DelNode(n, dead, order).replies == []
  {
    RecoverLocksFrame(PurgeAll(n, dead, 0), dead, order);
  }

  lemma LeaveAllFrame(n: Node, left: seq<Addr>, order: seq<Resource>)
    ensures var o := LeaveAll(n, left, order);
      SameFrame(n.(members := DropAll(n.members, left)), o.node) && o.replies == []
  {
    if left != [] {
      LeaveAllFrame(n, left[..|left| - 1], order);
      var a, d := LeaveAll(n, left[..|left| - 1], order).node, left[|left| - 1];
      DelNodeFrame(a.(members := DropAt(a.members, FirstAddr(a.members, d))), d.id, order);
    }
  }

  lemma DropAllKeeps(list: seq<Addr>, left: seq<Addr>, a: NodeId, b: NodeId)
    requires a !in Ids(left) && b !in Ids(left)
    ensures IsMember(DropAll(list, left), a) <==> IsMember(list, a)
    ensures Before(list, a, b) ==> Before(DropAll(list, left), a, b)
  {
    if left != [] {
      var front, d := left[..|left| - 1], left[|left| - 1];
      assert Ids(front) <= Ids(left) by {
        forall x | x in Ids(front) ensures x in Ids(left) {
          var i :| 0 <= i < |front| && front[i].id == x;
          assert left[i].id == x;
        }
      }
      assert left[|left| - 1].id in Ids(left);
      DropAllKeeps(list, front, a, b);
      var l := DropAll(list, front);
      var i := FirstAddr(l, d);
      if i < |l| {
        DropKeepsMember(l, i, a);
        if Before(l, a, b) { DropKeepsBefore(l, i, a, b); }
      }
    }
  }

  /** The last leaver beside the others. */
  lemma IdsSplit(left: seq<Addr>)
    requires left != []
    ensures Ids(left) == Ids(left[..|left| - 1]) + {left[|left| - 1].id}
    ensures Distinct(IdSeq(left)) ==>
      left[|left| - 1].id !in Ids(left[..|left| - 1]) && Distinct(IdSeq(left[..|left| - 1]))
  {
    var front := left[..|left| - 1];
    forall x | x in Ids(left) ensures x in Ids(front) || x == left[|left| - 1].id {
      var i :| 0 <= i < |left| && left[i].id == x;
      if i < |front| { assert front[i].id == x; }
    }
    forall x | x in Ids(front) ensures x in Ids(left) {
      var i :| 0 <= i < |front| && front[i].id == x;
      assert left[i].id == x;
    }
    assert left[|left| - 1].id in Ids(left);
    if Distinct(IdSeq(left)) {
      forall i | 0 <= i < |front| ensures front[i].id != left[|left| - 1].id {
        assert IdSeq(left)[i] != IdSeq(left)[|left| - 1];
      }
      forall i, j | 0 <= i < j < |front| ensures IdSeq(front)[i] != IdSeq(front)[j] {
        assert IdSeq(left)[i] != IdSeq(left)[j];
      }
    }
  }

  /** An address none of the leavers has by id stays listed. */
  lemma {:induction false} KeepsOther(list: seq<Addr>, left: seq<Addr>, a: Addr)
    requires a in list && a.id !in Ids(left)
    ensures a in DropAll(list, left)
  {
    if left != [] {
      var front, d := left[..|left| - 1], left[|left| - 1];
      IdsSplit(left);
      KeepsOther(list, front, a);
      var l := DropAll(list, front);
      var i := FirstAddr(l, d);
      var k :| 0 <= k < |l| && l[k] == a;
      if i < |l| { DropKeepsOther(l, i, k); }
    }
  }

  lemma DropKeepsOther(l: seq<Addr>, i: nat, k: nat)
    requires i < |l| && k < |l| && i != k
    ensures l[k] in DropAt(l, i)
  {
    assert DropAt(l, i)[if k < i then k else k - 1] == l[k];
  }

  lemma {:induction false} DropAllIn(list: seq<Addr>, left: seq<Addr>, a: Addr)
    requires a in DropAll(list, left)
    ensures a in list
  {
    if left != [] {
      var l := DropAll(list, left[..|left| - 1]);
      var i := FirstAddr(l, left[|left| - 1]);
      var k :| 0 <= k < |DropAt(l, i)| && DropAt(l, i)[k] == a;
      assert l[if i < |l| && k >= i then k + 1 else k] == a;
      DropAllIn(list, left[..|left| - 1], a);
    }
  }

  lemma DropOneDistinct(l: seq<Addr>, i: nat)
    requires Distinct(IdSeq(l))
    ensures Distinct(IdSeq(DropAt(l, i)))
    ensures i < |l| ==> !IsMember(DropAt(l, i), l[i].id)
    ensures forall a :: IsMember(DropAt(l, i), a) ==> IsMember(l, a)
  {
    var d := DropAt(l, i);
    forall a, b | 0 <= a < b < |d| ensures IdSeq(d)[a] != IdSeq(d)[b] {
      var x, y := if i < |l| && a >= i then a + 1 else a, if i < |l| && b >= i then b + 1 else b;
      assert IdSeq(l)[x] != IdSeq(l)[y];
    }
    forall a | 0 <= a < |d| ensures (i < |l| ==> d[a].id != l[i].id) && IsMember(l, d[a].id) {
      var x := if i < |l| && a >= i then a + 1 else a;
      assert d[a] == l[x];
      if i < |l| { assert IdSeq(l)[x] == l[x].id && IdSeq(l)[i] == l[i].id; }
    }
  }

  lemma DropAllNames(list: seq<Addr>, left: seq<Addr>, z: NodeId)
    ensures IsMember(DropAll(list, left), z) ==> IsMember(list, z)
  {
    if left != [] {
      DropAllNames(list, left[..|left| - 1], z);
      var l := DropAll(list, left[..|left| - 1]);
      var i := FirstAddr(l, left[|left| - 1]);
      if IsMember(DropAt(l, i), z) {
        var k :| 0 <= k < |DropAt(l, i)| && DropAt(l, i)[k].id == z;
        assert l[if k < i then k else k + 1].id == z;
      }
    }
  }

  // ---------- seeding ----------

  lemma SeedOneFacts(a: Addr, joins: seq<Addr>, me: NodeId)
    ensures forall x :: x in SeedOne(a, joins, me) ==> x == a && a.id != me
    ensures me in Ids(joins) && a.id != me ==> SeedOne(a, joins, me) != []
  {
    if joins != [] {
      var front := joins[..|joins| - 1];
      SeedOneFacts(a, front, me);
      if me in Ids(joins) && me !in Ids(front) && a.id != me {
        var i :| 0 <= i < |joins| && joins[i].id == me;
        assert joins[|joins| - 1].id == me;
      }
    }
  }

  lemma {:induction false} SeedNames(members: seq<Addr>, joins: seq<Addr>, me: NodeId)
    ensures forall z :: IsMember(Seed(members, joins, me), z) ==> z != me && z in Ids(members)
  {
    if members != [] {
      var front, a := members[..|members| - 1], members[|members| - 1];
      SeedNames(front, joins, me);
      SeedOneFacts(a, joins, me);
      var s, one := Seed(front, joins, me), SeedOne(a, joins, me);
      forall z | IsMember(s + one, z) ensures z != me && z in Ids(members) {
        var all: seq<Addr> := s + one;
        var i :| 0 <= i < |all| && all[i].id == z;
        if i < |s| {
          assert IsMember(s, z);
          var k :| 0 <= k < |front| && front[k].id == z;
          assert members[k].id == z;
        } else {
          assert all[i] == one[i - |s|] && one[i - |s|] in one;
          assert members[|members| - 1].id == z;
        }
      }
    }
  }

  lemma {:induction false} SeedHasAll(members: seq<Addr>, joins: seq<Addr>, me: NodeId)
    requires me in Ids(joins)
    ensures forall z :: z in Ids(members) && z != me ==> IsMember(Seed(members, joins, me), z)
  {
    if members != [] {
      var front, a := members[..|members| - 1], members[|members| - 1];
      SeedHasAll(front, joins, me);
      SeedOneFacts(a, joins, me);
      var s, one := Seed(front, joins, me), SeedOne(a, joins, me);
      forall z | z in Ids(members) && z != me ensures IsMember(s + one, z) {
        var k :| 0 <= k < |members| && members[k].id == z;
        if k < |front| {
          assert front[k].id == z;
          AppendKeepsMember(s, one, z);
        } else {
          assert one[0] in one && (s + one)[|s|] == one[0];
        }
      }
    }
  }

  lemma SeedFacts(members: seq<Addr>, joins: seq<Addr>, me: NodeId)
    ensures !IsMember(Seed(members, joins, me), me)
    ensures forall z :: IsMember(Seed(members, joins, me), z) ==> z in Ids(members)
    ensures me in Ids(joins) ==> forall z :: z in Ids(members) && z != me ==> IsMember(Seed(members, joins, me), z)
  {
    SeedNames(members, joins, me);
    if me in Ids(joins) { SeedHasAll(members, joins, me); }
  }

  // ---------- joining ----------

  lemma JoinFacts(n: Node, from: Addr)
    ensures var k := ProcessJoin(n, from).node;
      && IsMember(k.members, from.id)
      && (forall a :: IsMember(n.members, a) ==> IsMember(k.members, a))
      && (forall a :: IsMember(k.members, a) ==> IsMember(n.members, a) || a == from.id)
      && (forall a, b :: a != from.id && b != from.id && Before(n.members, a, b) ==> Before(k.members, a, b))
  {
    var k := ProcessJoin(n, from).node;
    var i := FirstId(n.members, from.id);
    FirstIdMember(n.members, from.id);
    var d := if i < |n.members| then DropAt(n.members, i) else n.members;
    AppendNew(d, from);
    forall a | IsMember(n.members, a) ensures IsMember(k.members, a) {
      if a != from.id {
        if i < |n.members| { DropKeepsMember(n.members, i, a); }
        AppendKeepsMember(d, [from], a);
      }
    }
    forall a | IsMember(k.members, a) ensures IsMember(n.members, a) || a == from.id {
      if a != from.id {
        assert IsMember(d, a) ==> IsMember(n.members, a) by { if i < |n.members| { DropKeepsMember(n.members, i, a); } }
        var j :| 0 <= j < |k.members| && k.members[j].id == a;
        assert k.members == n.members || d[j].id == a;
      }
    }
    forall a, b | a != from.id && b != from.id && Before(n.members, a, b) ensures Before(k.members, a, b) {
      if i < |n.members| { DropKeepsBefore(n.members, i, a, b); }
      AppendKeepsMember(d, [from], a);
      AppendKeepsMember(d, [from], b);
    }
  }
}
