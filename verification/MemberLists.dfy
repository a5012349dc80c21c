/**
 * Convergence of member lists. When daemons join one at a time, each into a view that
 * lists the members so far in the order of their JOINs, every list is a copy of the JOIN
 * order interleaved only with members whose JOIN is still to come.
 */
module MemberLists {
  import opened Types
  import opened Protocol
  import opened Group
  import opened Membership
  import opened Convergence

  // ---------- subsequences ----------

  function Among(s: seq<NodeId>, age: seq<NodeId>): seq<NodeId> {
    if s == [] then []
    else if s[0] in age then [s[0]] + Among(s[1..], age)
    else Among(s[1..], age)
  }

  lemma {:induction false} AmongConcat(a: seq<NodeId>, b: seq<NodeId>, age: seq<NodeId>)
    ensures Among(a + b, age) == Among(a, age) + Among(b, age)
  {
    if a == [] {
      assert a + b == b;
    } else {
      AmongConcat(a[1..], b, age);
      assert (a + b)[1..] == a[1..] + b;
    }
  }

  lemma {:induction false} AmongAll(s: seq<NodeId>, age: seq<NodeId>)
    requires forall x :: x in s ==> x in age
    ensures Among(s, age) == s
  {
    if s != [] { AmongAll(s[1..], age); }
  }

  lemma {:induction false} AmongWithout(s: seq<NodeId>, age: seq<NodeId>, gone: set<NodeId>)
    ensures Among(Without(s, gone), Without(age, gone)) == Without(Among(s, age), gone)
  {
    WithoutMembers(age, gone);
    if s != [] {
      AmongWithout(s[1..], age, gone);
      if s[0] !in gone { assert Without(s, gone)[1..] == Without(s[1..], gone); }
      if s[0] in age { assert Among(s, age)[1..] == Among(s[1..], age); }
    }
  }

  lemma {:induction false} AmongNew(s: seq<NodeId>, age: seq<NodeId>, x: NodeId)
    requires x !in age && x !in s
    ensures Among(s, age + [x]) == Among(s, age)
  {
    if s != [] { AmongNew(s[1..], age, x); }
  }

  /** A member's JOIN moves it behind everyone who has joined before. */
  lemma AmongJoin(s: seq<NodeId>, age: seq<NodeId>, x: NodeId)
    requires x !in age
    ensures Among(Without(s, {x}) + [x], age + [x]) == Among(s, age) + [x]
  {
    var w := Without(s, {x});
    WithoutMembers(s, {x});
    AmongConcat(w, [x], age + [x]);
    AmongNew(w, age, x);
    assert [x][1..] == [];
    assert Among([x], age + [x]) == [x];
    AmongWithout(s, age, {x});
    WithoutAbsent(age, x);
    AmongIn(s, age);
    WithoutAbsent(Among(s, age), x);
  }

  lemma {:induction false} AmongIn(s: seq<NodeId>, age: seq<NodeId>)
    ensures forall x :: x in Among(s, age) ==> x in age
  {
    if s != [] { AmongIn(s[1..], age); }
  }

  lemma {:induction false} WithoutTwice(s: seq<NodeId>, a: set<NodeId>, b: set<NodeId>)
    ensures Without(Without(s, a), b) == Without(s, a + b)
  {
    if s != [] {
      WithoutTwice(s[1..], a, b);
      if s[0] !in a { assert Without(s, a)[1..] == Without(s[1..], a); }
    }
  }

  // ---------- who has which daemon pid ----------

  function BookOf(list: seq<Addr>): map<NodeId, Pid> {
    map k | k in Ids(list) :: var i := FirstId(list, k); if i < |list| then list[i].pid else 0
  }

  function NextBook(book: map<NodeId, Pid>, e: Event): map<NodeId, Pid> {
    if e.View? then (book - Ids(e.left)) + BookOf(e.joins) else book
  }

  function BookAt(base: seq<Addr>, log: seq<Event>, i: nat): map<NodeId, Pid>
    requires i <= |log|
  {
    if i == 0 then BookOf(base) else NextBook(BookAt(base, log, i - 1), log[i - 1])
  }

  lemma BookPrefix(base: seq<Addr>, log: seq<Event>, e: Event, i: nat)
    requires i <= |log|
    ensures BookAt(base, log + [e], i) == BookAt(base, log, i)
  {
    if i > 0 { BookPrefix(base, log, e, i - 1); }
  }

  /** The addresses are those of current members. */
  ghost predicate Matching(book: map<NodeId, Pid>, list: seq<Addr>) {
    forall i :: 0 <= i < |list| ==> InBook(book, list[i])
  }

  predicate InBook(book: map<NodeId, Pid>, a: Addr) {
    a.id in book && book[a.id] == a.pid
  }

  // ---------- the effect of events on a list ----------

  /** A list in the state it should have at a given book and age order. */
  ghost predicate Listed(book: map<NodeId, Pid>, age: seq<NodeId>, list: seq<Addr>) {
    && Distinct(IdSeq(list))
    && Matching(book, list)
    && Among(IdSeq(list), age) == age
  }

  lemma DropIds(list: seq<Addr>, i: nat, x: NodeId)
    requires Distinct(IdSeq(list)) && i < |list| && list[i].id == x
    ensures IdSeq(DropAt(list, i)) == Without(IdSeq(list), {x})
  {
    WithoutOne(IdSeq(list), x, i);
    var s := IdSeq(list);
    assert IdSeq(DropAt(list, i)) == s[..i] + s[i + 1..];
  }

  lemma JoinListed(book: map<NodeId, Pid>, age: seq<NodeId>, n: Node, from: Addr)
    requires Listed(book, age, n.members) && InBook(book, from) && from.id !in age
    ensures Listed(book, age + [from.id], ProcessJoin(n, from).node.members)
  {
    var s, i := n.members, FirstId(n.members, from.id);
    var k := ProcessJoin(n, from).node.members;
    var d := if i < |s| then DropAt(s, i) else s;
    if i < |s| {
      assert InBook(book, s[i]);
      DropIds(s, i, from.id);
    } else {
      assert from.id !in IdSeq(s);
      WithoutAbsent(IdSeq(s), from.id);
    }
    assert k == d + [from];
    assert IdSeq(k) == IdSeq(d) + [from.id];
    AmongJoin(IdSeq(s), age, from.id);
    WithoutMembers(IdSeq(s), {from.id});
    forall j | 0 <= j < |k| ensures InBook(book, k[j]) {
      if j < |d| { assert InBook(book, s[if j < i then j else j + 1]); }
    }
  }

  lemma {:induction false} DropAllIds(book: map<NodeId, Pid>, list: seq<Addr>, left: seq<Addr>)
    requires Distinct(IdSeq(list)) && Matching(book, list) && Matching(book, left)
    ensures IdSeq(DropAll(list, left)) == Without(IdSeq(list), Ids(left))
    ensures Distinct(IdSeq(DropAll(list, left))) && Matching(book, DropAll(list, left))
  {
    WithoutMembers(IdSeq(list), Ids(left));
    if left == [] {
      WithoutNone(IdSeq(list));
      assert Ids(left) == {};
    } else {
      var front, d := left[..|left| - 1], left[|left| - 1];
      forall i | 0 <= i < |front| ensures InBook(book, front[i]) { assert InBook(book, left[i]); }
      DropAllIds(book, list, front);
      var l := DropAll(list, front);
      WithoutTwice(IdSeq(list), Ids(front), {d.id});
      IdsSplit(left);
      DropOneIds(book, l, d);
    }
  }

  lemma {:induction false} WithoutNone(s: seq<NodeId>)
    ensures Without(s, {}) == s
  {
    if s != [] { WithoutNone(s[1..]); }
  }

  lemma DropOneIds(book: map<NodeId, Pid>, l: seq<Addr>, d: Addr)
    requires Distinct(IdSeq(l)) && Matching(book, l) && InBook(book, d)
    ensures var k := DropAt(l, FirstAddr(l, d)); IdSeq(k) == Without(IdSeq(l), {d.id}) && Matching(book, k)
  {
    var i := FirstAddr(l, d);
    if i < |l| {
      DropIds(l, i, d.id);
      forall j | 0 <= j < |DropAt(l, i)|
        ensures InBook(book, DropAt(l, i)[j])
      {
        assert InBook(book, l[if j < i then j else j + 1]);
      }
    } else {
      forall j | 0 <= j < |l| ensures l[j].id != d.id { assert InBook(book, l[j]); }
      assert d.id !in IdSeq(l);
      WithoutAbsent(IdSeq(l), d.id);
    }
  }

  /** Addresses that stay keep their place in the book. */
  lemma StillInBook(book: map<NodeId, Pid>, left: seq<Addr>, joins: seq<Addr>, list: seq<Addr>)
    requires Matching(book, list) && Ids(joins) !! book.Keys
    requires forall x :: x in IdSeq(list) ==> x !in Ids(left)
    ensures Matching((book - Ids(left)) + BookOf(joins), list)
  {
    forall i | 0 <= i < |list| ensures InBook((book - Ids(left)) + BookOf(joins), list[i]) {
      assert InBook(book, list[i]) && IdSeq(list)[i] == list[i].id;
    }
  }

  lemma LeaveListed(book: map<NodeId, Pid>, age: seq<NodeId>, list: seq<Addr>, left: seq<Addr>, joins: seq<Addr>)
    requires Listed(book, age, list) && Matching(book, left) && Ids(joins) !! book.Keys
    ensures Listed((book - Ids(left)) + BookOf(joins), Without(age, Ids(left)), DropAll(list, left))
  {
    DropAllIds(book, list, left);
    AmongWithout(IdSeq(list), age, Ids(left));
    WithoutMembers(IdSeq(list), Ids(left));
    StillInBook(book, left, joins, DropAll(list, left));
  }

  /** The first view of a daemon joining alone. */
  lemma SeedListed(book: map<NodeId, Pid>, age: seq<NodeId>, members: seq<Addr>, me: Addr)
    requires Distinct(IdSeq(members)) && Matching(book, members) && me.id !in age && Among(IdSeq(members), age) == age
    ensures Listed(book, age, Seed(members, [me], me.id))
  {
    var l := Seed(members, [me], me.id);
    SeedSingle(members, me);
    WithoutMembers(IdSeq(members), {me.id});
    AmongWithout(IdSeq(members), age, {me.id});
    WithoutAbsent(age, me.id);
    forall i | 0 <= i < |l| ensures InBook(book, l[i]) {
      assert l[i] in members;
      var j :| 0 <= j < |members| && members[j] == l[i];
      assert InBook(book, members[j]);
    }
  }

  lemma {:induction false} DropAllNothing(list: seq<Addr>, left: seq<Addr>)
    requires forall i :: 0 <= i < |list| ==> list[i].id !in Ids(left)
    ensures DropAll(list, left) == list
  {
    if left != [] {
      IdsSplit(left);
      DropAllNothing(list, left[..|left| - 1]);
      var d := left[|left| - 1];
      assert FirstAddr(list, d) == |list|;
    }
  }
}
