/**
 * The first view lists a member once per joiner. When two daemons join together both list the oldest
 * member twice; and when it leaves, one of the two entries stays, so that both make the departed node
 * the owner of its own locks and neither regards itself as the oldest: nobody recovers them.
 */
module WitnessHeir {
  import opened Types
  import opened Protocol
  import opened Group
  import opened Cluster
  import opened StructureAppend
  import opened Runs
  import opened Scenes

  const A1 := Addr(1, 101)
  const A2 := Addr(2, 102)
  const A3 := Addr(3, 103)
  const B1: seq<Addr> := [A1]
  const NEW: seq<Addr> := [A2, A3]
  const C1: seq<Client> := [Client(1, 11)]

  const V0 := View([A1, A2, A3], [], NEW)
  const J2 := Message(A2, Join)
  const J3 := Message(A3, Join)
  const E1 := Message(A1, Ask(1, 11))
  const E2 := Message(A1, Give(1, 11))
  const V1 := View([A2, A3], [A1], [])
  const L3: seq<Event> := [V0, J2, J3]
  const L4: seq<Event> := [V0, J2, J3, E1]
  const L5: seq<Event> := [V0, J2, J3, E1, E2]
  const L6: seq<Event> := L5 + [V1]

  // ---------- states ----------

  function One(total: nat, list: seq<Addr>, locks: map<Resource, LockRec>, q: seq<Request>, idx: nat, out: seq<Msg>,
               c: seq<Client>): Host {
    Host(Node(1, 101, true, total, list, locks, q, c, 0), idx, out, {})
  }

  function One1(total: nat, list: seq<Addr>, idx: nat): Host { One(total, list, map[], [], idx, [], [Client(1, 0)]) }

  /** A daemon that joined later. */
  function Late(a: Addr, joined: bool, total: nat, list: seq<Addr>, idx: nat, out: seq<Msg>): Host {
    Host(Node(a.id, a.pid, joined, total, list, map[], [], [], 0), idx, out, {})
  }

  function Heard(a: Addr, list: seq<Addr>, total: nat, locks: map<Resource, LockRec>, q: seq<Request>, idx: nat): Host {
    Host(Node(a.id, a.pid, true, total, list, locks, q, [], 0), idx, [], {})
  }

  const TWICE: seq<Addr> := [A1, A1, A2, A3]
  const ONCE: seq<Addr> := [A1, A2, A3]

  ghost predicate Trio(s: Sys, h1: Host, h2: Host, h3: Host, log: seq<Event>) {
    World(s, B1, log, {1, 2, 3}) && s.hosts[1] == h1 && s.hosts[2] == h2 && s.hosts[3] == h3
  }

  // ---------- two daemons join ----------

  lemma JoinsSound()
    ensures SoundEvent(Roster({1}, [1]), V0) && Distinct(IdSeq(NEW)) && Distinct(IdSeq(V0.members))
    ensures Ids(NEW) == {2, 3} && FirstId(NEW, 2) == 0 && FirstId(NEW, 3) == 1
  {
    TwoIds(A2, A3);
    ThreeIds(A1, A2, A3);
    NoIds();
  }

  lemma TwoJoin() returns (run: seq<Step>, s: Sys)
    ensures Reaches(Any, B1, run, s)
    ensures Trio(s, One1(2, B1, 0), Late(A2, false, 0, [], 0, [Join]),
                 Late(A3, false, 0, [], 0, [Join]), [V0])
  {
    OneId(A1);
    NoIds();
    Begin(Any, B1);
    run, s := [], Formed(B1);
    run, s := Connects(Any, B1, run, s, 1, 1, [Client(1, 0)]);
    JoinsSound();
    run, s := Do(Any, B1, run, s, ChangeView([A1, A2, A3], [], NEW));
  }

  lemma Seeds(a: Addr, list: seq<Addr>)
    requires (a == A2 && list == [A1, A1, A3]) || (a == A3 && list == [A1, A1, A2])
    ensures Seed(V0.members, NEW, a.id) == list
  {
    var m := V0.members;
    assert NEW[..1] == [A2] && NEW[..1][..0] == [];
    assert m[..2] == [A1, A2] && m[..2][..1] == [A1] && m[..2][..1][..0] == [];
    SeedsOne(A1, a.id);
    SeedsOne(A2, a.id);
    SeedsOne(A3, a.id);
    assert Seed([A1], NEW, a.id) == [A1, A1];
    assert Seed([A1, A2], NEW, a.id) == [A1, A1] + if a == A2 then [] else [A2];
  }

  lemma SeedsOne(x: Addr, me: NodeId)
    ensures SeedOne(x, NEW, me) ==
      if x.id == me then [] else (if x.id == 2 then [] else [x]) + (if x.id == 3 then [] else [x])
  {
    assert NEW[..1] == [A2] && NEW[..1][..0] == [];
    assert SeedOne(x, [A2], me) == if x.id == me || x.id == 2 then [] else [x];
  }

  /** A joiner sees its first view. */
  lemma SeesFirst(a: Addr, list: seq<Addr>)
    requires (a == A2 && list == [A1, A1, A3]) || (a == A3 && list == [A1, A1, A2])
    ensures HostDeliver(Late(a, false, 0, [], 0, [Join]), V0, []) == Late(a, false, 3, list, 1, [Join])
  {
    Seeds(a, list);
    assert [] + list == list;
    assert [Join] + [] == [Msg.Join];
    Handled(Late(a, false, 0, [], 0, [Join]), V0, [], Late(a, false, 3, list, 1, []).node, [], [Join]);
  }

  lemma JoinersSee(run: seq<Step>, s: Sys) returns (run': seq<Step>, u: Sys)
    requires Reaches(Any, B1, run, s)
    requires Trio(s, One1(2, B1, 0), Late(A2, false, 0, [], 0, [Join]),
                  Late(A3, false, 0, [], 0, [Join]), [V0])
    ensures Reaches(Any, B1, run', u)
    ensures Trio(u, One1(2, B1, 0), Late(A2, false, 3, [A1, A1, A3], 1, [Join]),
                 Late(A3, false, 3, [A1, A1, A2], 1, [Join]), [V0])
  {
    SeesFirst(A2, [A1, A1, A3]);
    SeesFirst(A3, [A1, A1, A2]);
    run', u := Delivers(Any, B1, run, s, 2, [], Late(A2, false, 3, [A1, A1, A3], 1, [Join]));
    run', u := Delivers(Any, B1, run', u, 3, [], Late(A3, false, 3, [A1, A1, A2], 1, [Join]));
  }

  lemma OneSees()
    ensures HostDeliver(One1(2, B1, 0), V0, []) ==
            One1(2, B1, 1)
  {
    var none: seq<Msg> := [];
    assert none + [] == none;
    Handled(One1(2, B1, 0), V0, [],
            One1(2, B1, 0).node, [], []);
  }

  /** Both announce themselves. */
  lemma Announce(run: seq<Step>, s: Sys) returns (run': seq<Step>, u: Sys)
    requires Reaches(Any, B1, run, s)
    requires Trio(s, One1(2, B1, 0), Late(A2, false, 3, [A1, A1, A3], 1, [Join]),
                  Late(A3, false, 3, [A1, A1, A2], 1, [Join]), [V0])
    ensures Reaches(Any, B1, run', u)
    ensures Trio(u, One1(2, B1, 1), Late(A2, false, 3, [A1, A1, A3], 1, []),
                 Late(A3, false, 3, [A1, A1, A2], 1, []), L3)
  {
    run', u := Orders(Any, B1, run, s, 2, Join, []);
    run', u := Orders(Any, B1, run', u, 3, Join, []);
    OneSees();
    run', u := Delivers(Any, B1, run', u, 1, [], One1(2, B1, 1));
  }

  // ---------- their JOINs ----------

  /** A daemon is delivered a JOIN. */
  lemma HearsJoin(h: Host, from: Addr, joined: bool, total: nat, list: seq<Addr>)
    requires ProcessJoin(h.node, from) == Quiet(h.node.(joined := joined, total := total, members := list))
    ensures HostDeliver(h, Message(from, Join), []) ==
            h.(node := h.node.(joined := joined, total := total, members := list), idx := h.idx + 1)
  {
    assert h.outbox + [] == h.outbox;
    Handled(h, Message(from, Join), [], h.node.(joined := joined, total := total, members := list), [], h.outbox);
  }

  /** Two deliveries to one daemon. */
  lemma TwoEvents(run: seq<Step>, s: Sys, n: NodeId, j: Host, k: Host) returns (run': seq<Step>, u: Sys)
    requires Reaches(Any, B1, run, s) && n in s.hosts && s.hosts[n].idx + 1 < |s.log|
    requires s.hosts[n].node.locks == map[] && j.node.locks == map[] && j.idx == s.hosts[n].idx + 1
    requires HostDeliver(s.hosts[n], s.log[s.hosts[n].idx], []) == j && HostDeliver(j, s.log[j.idx], []) == k
    ensures Reaches(Any, B1, run', u) && u == s.(hosts := s.hosts[n := k])
  {
    run', u := Delivers(Any, B1, run, s, n, [], j);
    run', u := Delivers(Any, B1, run', u, n, [], k);
    assert s.hosts[n := j][n := k] == s.hosts[n := k];
  }

  lemma OneHears()
    ensures HostDeliver(One1(2, B1, 1), J2, []) == One1(3, [A1, A2], 2)
    ensures HostDeliver(One1(3, [A1, A2], 2), J3, []) == One1(4, [A1, A2, A3], 3)
  {
    FirstNowhere([A1], 2);
    assert [A1] + [A2] == [A1, A2];
    HearsJoin(One1(2, B1, 1), A2, true, 3, [A1, A2]);
    FirstNowhere([A1, A2], 3);
    assert [A1, A2] + [A3] == [A1, A2, A3];
    HearsJoin(One1(3, [A1, A2], 2), A3, true, 4, [A1, A2, A3]);
  }

  const MOVED: seq<Addr> := [A1, A1, A3, A2]

  lemma TwoHears()
    ensures HostDeliver(Late(A2, false, 3, [A1, A1, A3], 1, []), J2, []) == Late(A2, true, 4, MOVED, 2, [])
    ensures HostDeliver(Late(A2, true, 4, MOVED, 2, []), J3, []) == Late(A2, true, 4, TWICE, 3, [])
  {
    FirstNowhere([A1, A1, A3], 2);
    assert [A1, A1, A3] + [A2] == MOVED;
    HearsJoin(Late(A2, false, 3, [A1, A1, A3], 1, []), A2, true, 4, MOVED);
    FirstAt(MOVED, 3, 2);
    assert DropAt(MOVED, 2) + [A3] == TWICE;
    HearsJoin(Late(A2, true, 4, MOVED, 2, []), A3, true, 4, TWICE);
  }

  lemma ThreeHears()
    ensures HostDeliver(Late(A3, false, 3, [A1, A1, A2], 1, []), J2, []) == Late(A3, false, 3, [A1, A1, A2], 2, [])
    ensures HostDeliver(Late(A3, false, 3, [A1, A1, A2], 2, []), J3, []) == Late(A3, true, 4, TWICE, 3, [])
  {
    var list := [A1, A1, A2];
    FirstAt(list, 2, 2);
    assert DropAt(list, 2) + [A2] == list;
    HearsJoin(Late(A3, false, 3, list, 1, []), A2, false, 3, list);
    FirstNowhere(list, 3);
    assert list + [A3] == TWICE;
    HearsJoin(Late(A3, false, 3, list, 2, []), A3, true, 4, TWICE);
  }

  lemma FirstAt(list: seq<Addr>, id: NodeId, i: nat)
    requires i < |list| && list[i].id == id && forall j :: 0 <= j < i ==> list[j].id != id
    ensures FirstId(list, id) == i
  {
  }

  lemma FirstNowhere(list: seq<Addr>, id: NodeId)
    requires forall j :: 0 <= j < |list| ==> list[j].id != id
    ensures FirstId(list, id) == |list|
  {
  }

  lemma JoinsHeard(run: seq<Step>, s: Sys) returns (run': seq<Step>, u: Sys)
    requires Reaches(Any, B1, run, s)
    requires Trio(s, One1(2, B1, 1), Late(A2, false, 3, [A1, A1, A3], 1, []),
                  Late(A3, false, 3, [A1, A1, A2], 1, []), L3)
    ensures Reaches(Any, B1, run', u)
    ensures Trio(u, One1(4, [A1, A2, A3], 3), Late(A2, true, 4, TWICE, 3, []),
                 Late(A3, true, 4, TWICE, 3, []), L3)
  {
    OneHears();
    TwoHears();
    ThreeHears();
    run', u := TwoEvents(run, s, 1, One1(3, [A1, A2], 2), One1(4, [A1, A2, A3], 3));
    run', u := TwoEvents(run', u, 2, Late(A2, true, 4, MOVED, 2, []), Late(A2, true, 4, TWICE, 3, []));
    run', u := TwoEvents(run', u, 3, Late(A3, false, 3, [A1, A1, A2], 2, []), Late(A3, true, 4, TWICE, 3, []));
  }

  // ---------- the oldest member's client gets the lock ----------

  lemma OneAsks(run: seq<Step>, s: Sys) returns (run': seq<Step>, u: Sys)
    requires Reaches(Any, B1, run, s)
    requires Trio(s, One1(4, [A1, A2, A3], 3), Late(A2, true, 4, TWICE, 3, []),
                  Late(A3, true, 4, TWICE, 3, []), L3)
    ensures Reaches(Any, B1, run', u)
    ensures Trio(u, One(4, [A1, A2, A3], map[], [], 3, [], C1),
                 Late(A2, true, 4, TWICE, 3, []), Late(A3, true, 4, TWICE, 3, []), L4)
  {
    var c := [Client(1, 0)];
    assert c[0].fd == 1 && c[FirstFd(c, 1) := Client(1, 11)] == C1;
    run', u := Asks(Any, B1, run, s, 1, 1, 11, false, C1);
    run', u := Orders(Any, B1, run', u, 1, Ask(1, 11), []);
  }

  lemma OneGrants(run: seq<Step>, s: Sys) returns (run': seq<Step>, u: Sys)
    requires Reaches(Any, B1, run, s)
    requires Trio(s, One(4, [A1, A2, A3], map[], [], 3, [], C1),
                  Late(A2, true, 4, TWICE, 3, []), Late(A3, true, 4, TWICE, 3, []), L4)
    ensures Reaches(Any, B1, run', u)
    ensures Trio(u, One(4, [A1, A2, A3], NewTable(Pending), [Req(1, 11, true)], 4, [], C1),
                 Late(A2, true, 4, TWICE, 3, []), Late(A3, true, 4, TWICE, 3, []), L5)
  {
    Grants(s.hosts[1], A1, 1, 11);
    run', u := Delivers(Any, B1, run, s, 1, [],
                        One(4, [A1, A2, A3], NewTable(Pending), [Req(1, 11, true)], 4, [Give(1, 11)], C1));
    run', u := Orders(Any, B1, run', u, 1, Give(1, 11), []);
  }

  /** A joiner records the grant. */
  lemma Records(a: Addr)
    requires a == A2 || a == A3
    ensures HostDeliver(Heard(a, TWICE, 4, NewTable(Free), [Req(1, 11, false)], 4), E2, [R]) ==
            Heard(a, TWICE, 4, map[R := LockRec(Held, 1, 11, 1, 0)], [], 5)
  {
    var h := Heard(a, TWICE, 4, NewTable(Free), [Req(1, 11, false)], 4);
    assert FirstMatch(h.node.requests, R, 1, 11, 1) == 0 && DropAt(h.node.requests, 0) == [];
    var k := Heard(a, TWICE, 4, map[R := LockRec(Held, 1, 11, 1, 0)], [], 5);
    assert Record(h.node, Give(1, 11)) == k.node;
    var none: seq<Msg> := [];
    assert none + [] == none;
    Handled(h, E2, [R], k.node, [], []);
  }

  lemma HearsAsk(run: seq<Step>, s: Sys, n: NodeId, a: Addr) returns (run': seq<Step>, u: Sys)
    requires a == A2 || a == A3
    requires n == a.id && Reaches(Any, B1, run, s) && n in s.hosts && s.log == L5
    requires s.hosts[n] == Late(a, true, 4, TWICE, 3, [])
    ensures Reaches(Any, B1, run', u)
    ensures u == s.(hosts := s.hosts[n := Heard(a, TWICE, 4, NewTable(Free), [Req(1, 11, false)], 4)])
  {
    Hears(s.hosts[n], A1, 1, 11);
    run', u := Delivers(Any, B1, run, s, n, [], Heard(a, TWICE, 4, NewTable(Free), [Req(1, 11, false)], 4));
  }

  /** A joiner hears of the lock and its owner. */
  lemma JoinerHears(run: seq<Step>, s: Sys, n: NodeId, a: Addr) returns (run': seq<Step>, u: Sys)
    requires a == A2 || a == A3
    requires n == a.id && Reaches(Any, B1, run, s) && n in s.hosts && s.log == L5
    requires s.hosts[n] == Late(a, true, 4, TWICE, 3, [])
    ensures Reaches(Any, B1, run', u)
    ensures u == s.(hosts := s.hosts[n := Heard(a, TWICE, 4, map[R := LockRec(Held, 1, 11, 1, 0)], [], 5)])
  {
    run', u := HearsAsk(run, s, n, a);
    Records(a);
    run', u := Delivers(Any, B1, run', u, n, [R], Heard(a, TWICE, 4, map[R := LockRec(Held, 1, 11, 1, 0)], [], 5));
    assert u.hosts == s.hosts[n := u.hosts[n]];
  }

  // ---------- the oldest member leaves ----------

  /** The state a joiner ends up in: its list still begins with the departed node, which owns the lock. */
  function Misled(a: Addr): Host {
    Heard(a, ONCE, 3, map[R := LockRec(Held, 1, 101, 1, 0)], [], 6)
  }

  lemma SeesLeave(a: Addr)
    requires a == A2 || a == A3
    ensures HostDeliver(Heard(a, TWICE, 4, map[R := LockRec(Held, 1, 11, 1, 0)], [], 5), V1, [R]) == Misled(a)
  {
    var h := Heard(a, TWICE, 4, map[R := LockRec(Held, 1, 11, 1, 0)], [], 5);
    assert FirstAddr(TWICE, A1) == 0 && DropAt(TWICE, 0) == ONCE;
    OneLeaves(h.node, A1, ONCE, [R]);
    var c := h.node.(members := ONCE);
    assert Relabel(c.locks, 1, A1) == map[R := LockRec(Held, 1, 101, 1, 0)];
    var none: seq<Msg> := [];
    assert none + [] == none;
    Handled(h, V1, [R], Misled(a).node, [], []);
  }

  lemma Rosters()
    ensures RosterAt(B1, L5, 5).mem == {1, 2, 3}
  {
    var none: seq<Event> := [];
    AppendRoster(B1, none, V0);
    assert none + [V0] == [V0];
    OneId(A1);
    TwoIds(A2, A3);
    NoIds();
    AppendRoster(B1, [V0], J2);
    AppendRoster(B1, [V0, J2], J3);
    AppendRoster(B1, L3, E1);
    AppendRoster(B1, [V0, J2, J3, E1], E2);
    assert [V0] + [J2] == [V0, J2] && [V0, J2] + [J3] == L3 && L3 + [E1] == [V0, J2, J3, E1];
    assert [V0, J2, J3, E1] + [E2] == L5;
  }

  lemma OldestLeaves(run: seq<Step>, s: Sys) returns (run': seq<Step>, u: Sys)
    requires Reaches(Any, B1, run, s) && World(s, B1, L5, {1, 2, 3})
    ensures Reaches(Any, B1, run', u)
    ensures World(u, B1, L6, {2, 3}) && u.hosts[2] == s.hosts[2] && u.hosts[3] == s.hosts[3]
  {
    Rosters();
    OneId(A1);
    TwoIds(A2, A3);
    NoIds();
    run', u := Do(Any, B1, run, s, ChangeView([A2, A3], [A1], []));
  }

  /** Everything is delivered to the daemon, which records node 1 as the owner and as the oldest member. */
  ghost predicate Waits(s: Sys, n: NodeId) {
    && n in s.hosts
    && var h := s.hosts[n];
       && h.idx == |s.log| && h.outbox == [] && h.node.joined
       && h.node.members != [] && h.node.members[0].id == 1
       && R in h.node.locks && h.node.locks[R].state.Held? && h.node.locks[R].node == 1
  }

  lemma BothMisled(run: seq<Step>, s: Sys) returns (run': seq<Step>, u: Sys)
    requires Reaches(Any, B1, run, s) && World(s, B1, L6, {2, 3})
    requires s.hosts[2] == Heard(A2, TWICE, 4, map[R := LockRec(Held, 1, 11, 1, 0)], [], 5)
    requires s.hosts[3] == Heard(A3, TWICE, 4, map[R := LockRec(Held, 1, 11, 1, 0)], [], 5)
    ensures Reaches(Any, B1, run', u) && u.hosts.Keys == {2, 3} && Waits(u, 2) && Waits(u, 3)
  {
    SeesLeave(A2);
    SeesLeave(A3);
    run', u := Delivers(Any, B1, run, s, 2, [R], Misled(A2));
    run', u := Delivers(Any, B1, run', u, 3, [R], Misled(A3));
  }

  /**
   * A run at the end of which everything is delivered, the oldest member is gone, and each of the two
   * remaining daemons records it as the owner of its lock and as the oldest member.
   */
  lemma NobodyRecovers() returns (run: seq<Step>, s: Sys)
    ensures Reaches(Any, B1, run, s) && s.hosts.Keys == {2, 3} && Waits(s, 2) && Waits(s, 3)
  {
    run, s := TwoJoin();
    run, s := JoinersSee(run, s);
    run, s := Announce(run, s);
    run, s := JoinsHeard(run, s);
    run, s := OneAsks(run, s);
    run, s := OneGrants(run, s);
    run, s := JoinerHears(run, s, 2, A2);
    run, s := JoinerHears(run, s, 3, A3);
    run, s := OldestLeaves(run, s);
    run, s := BothMisled(run, s);
  }
}
