/**
 * What the agreed order of events says on its own, without looking at any daemon:
 * who is in the group, in which order members announced themselves, and which node
 * is responsible for a resource.
 */
module Group {
  import opened Types

  /** Members known to CPG, and those whose JOIN has been sequenced, oldest first. */
  datatype Roster = Roster(mem: set<NodeId>, age: seq<NodeId>)

  function Ids(a: seq<Addr>): set<NodeId> {
    set i | 0 <= i < |a| :: a[i].id
  }

  function IdSeq(a: seq<Addr>): (s: seq<NodeId>)
    ensures |s| == |a| && forall i :: 0 <= i < |a| ==> s[i] == a[i].id
  {
    seq(|a|, i requires 0 <= i < |a| => a[i].id)
  }

  function Without(s: seq<NodeId>, gone: set<NodeId>): seq<NodeId> {
    if s == [] then []
    else if s[0] in gone then Without(s[1..], gone)
    else [s[0]] + Without(s[1..], gone)
  }

  function NextRoster(g: Roster, e: Event): Roster {
    match e
    case Message(from, m) =>
      if m.Join? && from.id !in g.age then g.(age := g.age + [from.id]) else g
    case View(members, left, joins) =>
      Roster((g.mem - Ids(left)) + Ids(joins), Without(g.age, Ids(left)))
  }

  function RosterAt(base: seq<Addr>, log: seq<Event>, i: nat): Roster
    requires i <= |log|
  {
    if i == 0 then Roster(Ids(base), IdSeq(base))
    else NextRoster(RosterAt(base, log, i - 1), log[i - 1])
  }

  function Oldest(age: seq<NodeId>): Option<NodeId> {
    if age == [] then None else Some(age[0])
  }

  predicate IsGrant(e: Event, r: Resource) {
    e.Message? && e.m.Grant? && e.m.res == r
  }

  predicate IsRelease(e: Event, r: Resource, n: NodeId) {
    e.Message? && e.m.Unlock? && e.m.res == r && e.m.node == n
  }

  /**
   * The node responsible for r: the target of the last grant, replaced by the oldest
   * member as soon as it is not (or no longer) a joined member.
   */
  function RespAt(base: seq<Addr>, log: seq<Event>, r: Resource, i: nat): Option<NodeId>
    requires i <= |log|
  {
    if i == 0 then Oldest(IdSeq(base))
    else
      var e := log[i - 1];
      var age := RosterAt(base, log, i).age;
      var before := RespAt(base, log, r, i - 1);
      if IsGrant(e, r) then (if e.m.node in age then Some(e.m.node) else Oldest(age))
      else if before.Some? && before.value in age then before
      else Oldest(age)
  }

  /** Event p makes its responsible node responsible afresh. */
  predicate Takeover(base: seq<Addr>, log: seq<Event>, r: Resource, p: nat)
    requires p < |log|
  {
    IsGrant(log[p], r) || RespAt(base, log, r, p) != RespAt(base, log, r, p + 1)
  }

  ghost predicate NoGrantFrom(log: seq<Event>, i: nat, r: Resource) {
    forall p :: i <= p < |log| ==> !IsGrant(log[p], r)
  }

  /** From position i on, n does not leave. */
  ghost predicate Stays(log: seq<Event>, i: nat, n: NodeId) {
    forall p :: i <= p < |log| && log[p].View? ==> n !in Ids(log[p].left)
  }

  /** a comes strictly before b in the age order. */
  ghost predicate Older(age: seq<NodeId>, a: NodeId, b: NodeId) {
    exists i, j :: 0 <= i < j < |age| && age[i] == a && age[j] == b
  }

  ghost predicate Distinct<T>(s: seq<T>) {
    forall i, j :: 0 <= i < j < |s| ==> s[i] != s[j]
  }

  /** A view from position i on lets z join. */
  ghost predicate WillJoin(log: seq<Event>, i: nat, z: NodeId) {
    exists p :: i <= p < |log| && log[p].View? && z in Ids(log[p].joins)
  }

  /** z is a member at position i or joins later. */
  ghost predicate Around(base: seq<Addr>, log: seq<Event>, i: nat, z: NodeId)
    requires i <= |log|
  {
    z in RosterAt(base, log, i).mem || WillJoin(log, i, z)
  }

  // ---------- lemmas ----------

  lemma {:induction false} AroundBefore(base: seq<Addr>, log: seq<Event>, i: nat, j: nat, z: NodeId)
    requires i <= j <= |log| && Around(base, log, j, z)
    ensures Around(base, log, i, z)
    decreases j
  {
    if i < j {
      if !WillJoin(log, j, z) && z !in RosterAt(base, log, j - 1).mem {
        assert log[j - 1].View? && z in Ids(log[j - 1].joins);
        assert WillJoin(log, j - 1, z);
      }
      AroundBefore(base, log, i, j - 1, z);
    }
  }

  lemma NobodyZero(base: seq<Addr>, log: seq<Event>, i: nat)
    requires WellFormedLog(base, log) && i <= |log|
    ensures !Around(base, log, i, 0)
  {
    RosterFacts(base, log, i);
    forall p | i <= p < |log| && log[p].View? ensures 0 !in Ids(log[p].joins) { assert SoundAt(base, log, p); }
  }

  lemma WithoutMembers(s: seq<NodeId>, gone: set<NodeId>)
    ensures forall x :: x in Without(s, gone) <==> x in s && x !in gone
    ensures Distinct(s) ==> Distinct(Without(s, gone))
    ensures |Without(s, gone)| <= |s|
  {
    if s != [] {
      WithoutMembers(s[1..], gone);
      assert forall x :: x in s <==> x == s[0] || x in s[1..];
    }
  }

  lemma WithoutOlder(s: seq<NodeId>, gone: set<NodeId>, a: NodeId, b: NodeId)
    requires Older(Without(s, gone), a, b)
    ensures Older(s, a, b)
  {
    var w := Without(s, gone);
    var i, j :| 0 <= i < j < |w| && w[i] == a && w[j] == b;
    if s[0] in gone {
      WithoutOlder(s[1..], gone, a, b);
      var k, l :| 0 <= k < l < |s[1..]| && s[1..][k] == a && s[1..][l] == b;
      assert s[k + 1] == a && s[l + 1] == b;
    } else if i == 0 {
      assert w[j] in Without(s[1..], gone) by { assert w[j] == Without(s[1..], gone)[j - 1]; }
      WithoutMembers(s[1..], gone);
      var l :| 0 <= l < |s[1..]| && s[1..][l] == b;
      assert s[0] == a && s[l + 1] == b;
    } else {
      assert Without(s[1..], gone)[i - 1] == a && Without(s[1..], gone)[j - 1] == b;
      WithoutOlder(s[1..], gone, a, b);
      var k, l :| 0 <= k < l < |s[1..]| && s[1..][k] == a && s[1..][l] == b;
      assert s[k + 1] == a && s[l + 1] == b;
    }
  }

  /** Extending the log does not change what its prefixes say. */
  lemma RosterPrefix(base: seq<Addr>, log: seq<Event>, e: Event, i: nat)
    requires i <= |log|
    ensures RosterAt(base, log + [e], i) == RosterAt(base, log, i)
  {
    if i > 0 { RosterPrefix(base, log, e, i - 1); }
  }

  lemma RespPrefix(base: seq<Addr>, log: seq<Event>, e: Event, r: Resource, i: nat)
    requires i <= |log|
    ensures RespAt(base, log + [e], r, i) == RespAt(base, log, r, i)
  {
    RosterPrefix(base, log, e, i);
    if i > 0 { RespPrefix(base, log, e, r, i - 1); }
  }

  /** Views only let known members leave and unknown nodes join; only members speak, and announce themselves once. */
  ghost predicate WellFormedLog(base: seq<Addr>, log: seq<Event>) {
    && Distinct(IdSeq(base))
    && 0 !in Ids(base)
    && (forall p :: 0 <= p < |log| ==> SoundAt(base, log, p))
  }

  ghost predicate SoundAt(base: seq<Addr>, log: seq<Event>, p: nat)
    requires p < |log|
  {
    SoundEvent(RosterAt(base, log, p), log[p])
  }

  ghost predicate SoundEvent(g: Roster, e: Event) {
    match e
    case Message(from, m) => from.id in g.mem && (m.Join? ==> from.id !in g.age)
    case View(members, left, joins) =>
      && Ids(left) <= g.mem
      && Distinct(IdSeq(left))
      && Ids(joins) !! g.mem
      && 0 !in Ids(joins)
      && Ids(members) == (g.mem - Ids(left)) + Ids(joins)
  }

  lemma RosterFacts(base: seq<Addr>, log: seq<Event>, i: nat)
    requires WellFormedLog(base, log) && i <= |log|
    ensures Distinct(RosterAt(base, log, i).age)
    ensures forall x :: x in RosterAt(base, log, i).age ==> x in RosterAt(base, log, i).mem
    ensures 0 !in RosterAt(base, log, i).mem
  {
    if i == 0 {
      var g := RosterAt(base, log, 0);
      forall x | x in g.age ensures x in g.mem {
        var k :| 0 <= k < |g.age| && g.age[k] == x;
        assert base[k].id == x;
      }
    } else {
      RosterFacts(base, log, i - 1);
      var g := RosterAt(base, log, i - 1);
      assert SoundAt(base, log, i - 1);
      match log[i - 1]
      case Message(from, m) =>
      case View(members, left, joins) => WithoutMembers(g.age, Ids(left));
    }
  }

  lemma RespFacts(base: seq<Addr>, log: seq<Event>, r: Resource, i: nat)
    requires i <= |log|
    ensures RespAt(base, log, r, i).Some? ==> RespAt(base, log, r, i).value in RosterAt(base, log, i).age
    ensures RespAt(base, log, r, i).None? ==> RosterAt(base, log, i).age == []
  {
  }

  /** A member that stays is not dropped from the age order. */
  lemma AgeStays(base: seq<Addr>, log: seq<Event>, i: nat, j: nat, n: NodeId)
    requires i <= j <= |log|
    requires Stays(log, i, n) && n in RosterAt(base, log, i).age
    ensures n in RosterAt(base, log, j).age
  {
    if i < j {
      AgeStays(base, log, i, j - 1, n);
      var g := RosterAt(base, log, j - 1);
      match log[j - 1]
      case Message(from, m) =>
      case View(members, left, joins) => WithoutMembers(g.age, Ids(left));
    }
  }

  /** Responsibility moves away from a node that stays only through a grant. */
  lemma RespStays(base: seq<Addr>, log: seq<Event>, r: Resource, i: nat, j: nat, n: NodeId)
    requires i <= j <= |log|
    requires Stays(log, i, n) && NoGrantFrom(log, i, r)
    requires RespAt(base, log, r, i) == Some(n)
    ensures RespAt(base, log, r, j) == Some(n)
  {
    if i < j {
      RespStays(base, log, r, i, j - 1, n);
      RespFacts(base, log, r, i);
      AgeStays(base, log, i, j, n);
    }
  }
}
