/**
 * Membership and naming invariants are kept by every step.
 */
module StructureSteps {
  import opened Types
  import opened Protocol
  import opened Group
  import opened Cluster
  import opened Slices
  import opened Frames
  import opened Membership
  import opened Structure

  // ---------- delivery: place and lists ----------

  lemma NotWaitingNext(base: seq<Addr>, log: seq<Event>, h: Host, k: Host)
    requires WellFormedLog(base, log) && k.node.id == h.node.id && k.idx <= |log|
    requires h.node.id in RosterAt(base, log, k.idx).mem
    ensures !Waiting(log, k)
  {
    if k.idx < |log| { assert SoundAt(base, log, k.idx); }
  }

  lemma MessagePlace(base: seq<Addr>, log: seq<Event>, h: Host, k: Host)
    requires WellFormedLog(base, log) && PlaceInv(base, log, h) && ListInv(base, log, h)
    requires h.idx < |log| && log[h.idx].Message? && !log[h.idx].m.Join?
    requires k.idx == h.idx + 1 && k.node.id == h.node.id && k.node.joined == h.node.joined
    requires k.node.members == h.node.members && (!h.node.joined ==> k.node.locks == h.node.locks)
    ensures PlaceInv(base, log, k) && ListInv(base, log, k)
  {
    NotWaitingNext(base, log, h, k);
  }

  lemma JoinPlace(base: seq<Addr>, log: seq<Event>, h: Host, k: Host)
    requires WellFormedLog(base, log) && PlaceInv(base, log, h)
    requires h.idx < |log| && log[h.idx].Message? && log[h.idx].m.Join?
    requires k.idx == h.idx + 1 && k.node == ProcessJoin(h.node, log[h.idx].from).node
    ensures PlaceInv(base, log, k)
  {
    var g, from := RosterAt(base, log, h.idx), log[h.idx].from;
    assert SoundAt(base, log, h.idx);
    assert RosterAt(base, log, k.idx) == g.(age := g.age + [from.id]);
    NotWaitingNext(base, log, h, k);
    OwnJoinOnly(h.node, from);
  }

  lemma OwnJoinOnly(n: Node, from: Addr)
    requires !n.joined ==> !IsMember(n.members, n.id)
    ensures var k := ProcessJoin(n, from).node;
      && k.id == n.id && k.locks == n.locks
      && (k.joined <==> n.joined || from.id == n.id)
      && (!k.joined ==> !IsMember(k.members, n.id))
  {
    JoinFacts(n, from);
    FirstIdMember(n.members, from.id);
  }

  lemma JoinLists(base: seq<Addr>, log: seq<Event>, h: Host, k: Host)
    requires WellFormedLog(base, log) && PlaceInv(base, log, h) && ListInv(base, log, h)
    requires h.idx < |log| && log[h.idx].Message? && log[h.idx].m.Join?
    requires k.idx == h.idx + 1 && k.node == ProcessJoin(h.node, log[h.idx].from).node
    ensures ListInv(base, log, k)
  {
    var from, n := log[h.idx].from, h.node.id;
    var age, age' := RosterAt(base, log, h.idx).age, RosterAt(base, log, k.idx).age;
    assert SoundAt(base, log, h.idx);
    JoinFacts(h.node, from);
    assert age' == age + [from.id];
    forall z | Older(age', z, n) ensures Before(k.node.members, z, n) {
      var i, j :| 0 <= i < j < |age'| && age'[i] == z && age'[j] == n;
      assert age[i] == z;
      if n == from.id {
        OwnJoinBefore(h.node, from, z);
      } else {
        assert age[j] == n;
        assert Older(age, z, n);
      }
    }
  }

  lemma OwnJoinBefore(n: Node, from: Addr, z: NodeId)
    requires !IsMember(n.members, from.id) && IsMember(n.members, z)
    ensures Before(ProcessJoin(n, from).node.members, z, from.id)
  {
    FirstIdMember(n.members, from.id);
    FirstIdMember(n.members, z);
    AppendKeepsMember(n.members, [from], z);
    AppendNew(n.members, from);
  }

  lemma LeaveAllEmpty(n: Node, left: seq<Addr>, order: seq<Resource>)
    requires n.locks == map[]
    ensures LeaveAll(n, left, order).node.locks == map[]
  {
    if left != [] {
      var front, d := left[..|left| - 1], left[|left| - 1];
      LeaveAllEmpty(n, front, order);
      var a := LeaveAll(n, front, order).node;
      var b := a.(members := DropAt(a.members, FirstAddr(a.members, d)));
      RecoverEmpty(PurgeAll(b, d.id, 0), d.id, order);
    }
  }

  lemma RecoverEmpty(n: Node, dead: NodeId, order: seq<Resource>)
    requires n.locks == map[]
    ensures RecoverLocks(n, dead, order).node.locks == map[]
  {
    if order != [] { RecoverEmpty(n, dead, order[..|order| - 1]); }
  }

  lemma SeedViewLists(n: Node, members: seq<Addr>, joins: seq<Addr>)
    ensures var s := SeedView(n, members, joins);
      && (forall a :: IsMember(n.members, a) ==> IsMember(s.members, a))
      && (forall a, b :: Before(n.members, a, b) ==> Before(s.members, a, b))
      && (IsMember(s.members, n.id) ==> IsMember(n.members, n.id))
      && (n.total == 0 && n.members == [] && n.id in Ids(joins) ==>
            forall a :: a in Ids(members) && a != n.id ==> IsMember(s.members, a))
  {
    var s := SeedView(n, members, joins);
    var more := Seed(members, joins, n.id);
    SeedFacts(members, joins, n.id);
    if n.total == 0 {
      forall a | IsMember(n.members, a)
        ensures IsMember(s.members, a) && FirstId(s.members, a) == FirstId(n.members, a)
      {
        AppendKeepsMember(n.members, more, a);
      }
      if n.members == [] { assert s.members == more; }
      forall i | |n.members| <= i < |s.members| ensures s.members[i].id != n.id {
        assert s.members[i] == more[i - |n.members|];
      }
    }
  }

  lemma ViewLists(base: seq<Addr>, log: seq<Event>, h: Host, k: Host, list: seq<Addr>)
    requires WellFormedLog(base, log) && PlaceInv(base, log, h) && ListInv(base, log, h)
    requires h.idx < |log| && log[h.idx].View?
    requires k.idx == h.idx + 1 && k.node.id == h.node.id
    requires list == SeedView(h.node, log[h.idx].members, log[h.idx].joins).members
    requires k.node.members == DropAll(list, log[h.idx].left)
    ensures ListInv(base, log, k)
  {
    var e, n := log[h.idx], h.node.id;
    var g, g' := RosterAt(base, log, h.idx), RosterAt(base, log, k.idx);
    assert SoundAt(base, log, h.idx);
    WithoutMembers(g.age, Ids(e.left));
    RosterFacts(base, log, h.idx);
    SeedViewLists(h.node, e.members, e.joins);
    forall z | z in g'.age ensures IsMember(k.node.members, z) {
      assert z in g.age && z !in Ids(e.left);
      DropAllKeeps(list, e.left, z, z);
    }
    forall z | Older(g'.age, z, n) ensures Before(k.node.members, z, n) {
      WithoutOlder(g.age, Ids(e.left), z, n);
      assert z in g'.age;
      DropAllKeeps(list, e.left, z, n);
    }
  }

  lemma ViewPlace(base: seq<Addr>, log: seq<Event>, h: Host, k: Host, list: seq<Addr>)
    requires WellFormedLog(base, log) && PlaceInv(base, log, h)
    requires h.idx < |log| && log[h.idx].View?
    requires k.idx == h.idx + 1 && k.node.id == h.node.id && k.node.joined == h.node.joined
    requires list == SeedView(h.node, log[h.idx].members, log[h.idx].joins).members
    requires k.node.members == DropAll(list, log[h.idx].left)
    requires !h.node.joined ==> k.node.locks == map[]
    ensures PlaceInv(base, log, k)
  {
    var e, n := log[h.idx], h.node.id;
    var g := RosterAt(base, log, h.idx);
    assert SoundAt(base, log, h.idx);
    WithoutMembers(g.age, Ids(e.left));
    assert n in RosterAt(base, log, k.idx).mem;
    NotWaitingNext(base, log, h, k);
    SeedViewLists(h.node, e.members, e.joins);
    DropAllNames(list, e.left, n);
  }

  lemma DeliverPlace(base: seq<Addr>, log: seq<Event>, h: Host, order: seq<Resource>)
    requires WellFormedLog(base, log) && PlaceInv(base, log, h) && ListInv(base, log, h) && h.idx < |log|
    ensures PlaceInv(base, log, HostDeliver(h, log[h.idx], order))
    ensures ListInv(base, log, HostDeliver(h, log[h.idx], order))
  {
    var k, e := HostDeliver(h, log[h.idx], order), log[h.idx];
    match e
    case Message(from, m) =>
      if m.Join? {
        JoinPlace(base, log, h, k);
        JoinLists(base, log, h, k);
      } else {
        MessageFrame(h.node, from, m);
        MessagePlace(base, log, h, k);
      }
    case View(members, left, joins) =>
      var s := SeedView(h.node, members, joins);
      LeaveAllFrame(s, left, order);
      if !h.node.joined { LeaveAllEmpty(s, left, order); }
      ViewLists(base, log, h, k, s.members);
      ViewPlace(base, log, h, k, s.members);
  }

  // ---------- delivery: names and messages ----------

  lemma HandleId(n: Node, e: Event, order: seq<Resource>)
    ensures Handle(n, e, order).node.id == n.id
    ensures Handle(n, e, order).node.daemonPid == n.daemonPid
  {
    match e
    case Message(from, m) =>
      if m.Grant? { ProcessGrantOrderly(n, m); } else { ProcessMessageOrderly(n, from, m); }
    case View(members, left, joins) => ConfigChangeOrderly(n, members, left, joins, order);
  }

  /** The queue an event handler starts from. */
  function Arrived(n: Node, e: Event): Node {
    if e.Message? then WithArrival(n, e.m) else n
  }

  /** Requests come from the queue or the event, and so do the grants. */
  lemma HandleSpeaks(n: Node, e: Event, order: seq<Resource>)
    ensures var o := Handle(n, e, order);
      && Derived(o.node.requests, Arrived(n, e).requests)
      && (forall i :: 0 <= i < |o.sent| ==> Spoken(n, e, o.sent[i]))
  {
    match e
    case Message(from, m) =>
      if m.Grant? { ProcessGrantOrderly(n, m); } else { ProcessMessageOrderly(n, from, m); }
    case View(members, left, joins) => ConfigChangeOrderly(n, members, left, joins, order);
  }

  /** Every request the handler may answer was made by a process of a node. */
  lemma ArrivedAskers(log: seq<Event>, h: Host)
    requires h.idx < |log| && QueueInv(h.node.requests) && FlightInv(log)
    ensures QueueInv(Arrived(h.node, log[h.idx]).requests)
  {
    var w := Arrived(h.node, log[h.idx]).requests;
    assert FlightItem(log[h.idx]);
    forall x | HasKey(w, x) ensures x.node != 0 && x.pid != 0 {
      var i :| 0 <= i < |w| && KeyOf(w[i]) == x;
      if i < |h.node.requests| { assert HasKey(h.node.requests, KeyOf(h.node.requests[i])); }
    }
  }

  /** The conclusion of HandleSpeaks about one message. */
  ghost predicate Spoken(n: Node, e: Event, m: Msg) {
    match m
    case Grant(_, _, _, _) => AnswersAny(m, Arrived(n, e).requests)
    case Unlock(_, node, _, _) =>
      node == n.id || (n.joined && e.Message? && e.m.Grant? && e.m.node == node && !IsMember(n.members, node))
    case Nak(_, _, _, _) => HasKey(Arrived(n, e).requests, MsgKey(m))
    case Lock(_, _, _, _, _) => false
    case Join => false
    case Purge(_, _) => true
  }

  lemma DeliverOutbox(base: seq<Addr>, log: seq<Event>, h: Host, k: Host, sent: seq<Msg>)
    requires k.node.id == h.node.id && OutboxInv(base, log, h) && k.outbox == h.outbox + sent
    requires forall i :: 0 <= i < |sent| ==> !sent[i].Lock? && !sent[i].Join?
    requires forall i :: 0 <= i < |sent| && sent[i].Grant? ==> sent[i].node != 0 && sent[i].pid != 0
    ensures OutboxInv(base, log, k)
  {
    assert forall j :: 0 <= j < |h.outbox| ==> k.outbox[j] == h.outbox[j];
    forall i | 0 <= i < |k.outbox| ensures OutboxItem(base, log, k, i) {
      if i < |h.outbox| {
        assert OutboxItem(base, log, h, i);
      } else {
        assert k.outbox[i] == sent[i - |h.outbox|];
      }
    }
  }

  lemma DeliverStruct(base: seq<Addr>, log: seq<Event>, h: Host, order: seq<Resource>)
    requires WellFormedLog(base, log) && FlightInv(log) && h.idx < |log| && StructInv(base, log, h)
    ensures StructInv(base, log, HostDeliver(h, log[h.idx], order))
  {
    var k, o := HostDeliver(h, log[h.idx], order), Handle(h.node, log[h.idx], order);
    DeliverPlace(base, log, h, order);
    HandleSpeaks(h.node, log[h.idx], order);
    HandleId(h.node, log[h.idx], order);
    ArrivedAskers(log, h);
    forall i | 0 <= i < |o.sent| ensures Spoken(h.node, log[h.idx], o.sent[i]) { }
    DeliverOutbox(base, log, h, k, o.sent);
  }
}
