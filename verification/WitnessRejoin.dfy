/**
 * Dealing with what is on its way about a departed node before it comes back is not enough. Node 3
 * crashes together with the oldest node 1, which would have purged its requests; so node 2 still has
 * a request of node 3 in its queue when node 3 comes back. The lock is granted to it before its JOIN
 * and passed on, and when node 3 leaves again node 2 recovers the lock, which it records as node 3's,
 * with its own grant still on its way: two clients of node 2 end up holding the same lock.
 */
module WitnessRejoin {
  import opened Types
  import opened Protocol
  import opened Group
  import opened Cluster
  import opened StructureAppend
  import opened Theorems
  import opened Runs
  import opened Scenes

  const A1 := Addr(1, 101)
  const A2 := Addr(2, 102)
  const A3 := Addr(3, 103)
  const A3b := Addr(3, 113)
  const B3: seq<Addr> := [A1, A2, A3]

  // ---------- states ----------

  const C0: seq<Client> := [Client(1, 0), Client(2, 0), Client(3, 0)]
  const C1: seq<Client> := [Client(1, 21), Client(2, 0), Client(3, 0)]
  const C2: seq<Client> := [Client(1, 21), Client(2, 22), Client(3, 0)]
  const C3: seq<Client> := [Client(1, 21), Client(2, 22), Client(3, 23)]
  const Q1: seq<Request> := [Req(3, 31, false)]
  const Q2: seq<Request> := [Req(3, 31, false), Req(2, 22, false)]
  const Q3: seq<Request> := [Req(3, 31, false), Req(2, 22, false), Req(2, 23, false)]

  function Two(total: nat, list: seq<Addr>, locks: map<Resource, LockRec>, q: seq<Request>, c: seq<Client>,
               id: nat): Node {
    Node(2, 102, true, total, list, locks, q, c, id)
  }

  function One(): Node { Node(1, 101, true, 4, B3, map[], [], [], 0) }
  function Three(c: seq<Client>): Node { Node(3, 103, true, 4, B3, map[], [], c, 0) }
  function Quiet1(): Host { Host(One(), 0, [], {}) }
  function Quiet3(): Host { Host(Three([Client(1, 0)]), 0, [], {}) }

  /** Node 1 has granted the lock for the first time. */
  function Gave1(): Host {
    Host(One().(locks := NewTable(Pending), requests := [Req(2, 21, true)]), 1, [], {})
  }

  /** The first client of node 2 has the lock. */
  function Holding(q: seq<Request>, c: seq<Client>, idx: nat): Host {
    Host(Two(4, B3, Table(Held, 2, 21, 1), q, c, 1), idx, [], {H(21, 1)})
  }

  function Asked3(): Host { Host(Three([Client(1, 31)]), 0, [], {}) }

  /** Before the crash. */
  ghost predicate Trio(s: Sys, h1: Host, h2: Host, h3: Host, log: seq<Event>) {
    World(s, B3, log, {1, 2, 3}) && s.hosts[1] == h1 && s.hosts[2] == h2 && s.hosts[3] == h3
  }

  /** Node 2 alone, and with node 3 back. */
  ghost predicate Solo(s: Sys, h2: Host, log: seq<Event>) {
    World(s, B3, log, {2}) && s.hosts[2] == h2
  }

  ghost predicate Duo(s: Sys, h2: Host, h3: Host, log: seq<Event>) {
    World(s, B3, log, {2, 3}) && s.hosts[2] == h2 && s.hosts[3] == h3
  }

  const E1 := Message(A2, Ask(2, 21))
  const E2 := Message(A1, Give(2, 21))
  const E3 := Message(A3, Ask(3, 31))
  const E4 := Message(A2, Ask(2, 22))
  const E5 := Message(A2, Ask(2, 23))
  const V1 := View([A2], [A3, A1], [])
  const V2 := View([A2, A3b], [], [A3b])
  const V3 := View([A2], [A3b], [])
  const G3 := Message(A2, Give(3, 31))
  const J3 := Message(A3b, Join)
  const L5: seq<Event> := [E1, E2, E3, E4, E5]
  const L6: seq<Event> := L5 + [V1]
  const L7: seq<Event> := L6 + [Message(A2, Purge(1, 0))]
  const L8: seq<Event> := L7 + [V2]
  const L9: seq<Event> := L8 + [G3]
  const L10: seq<Event> := L9 + [J3]
  const L11: seq<Event> := L10 + [V3]
  const L14: seq<Event> := L11 + [Message(A2, Give(2, 22))] + [Message(A2, Purge(3, 0))] + [Message(A2, Give(2, 23))]

  // ---------- rosters ----------

  lemma {:induction false} MessagesKeepRoster(base: seq<Addr>, log: seq<Event>, i: nat, j: nat)
    requires i <= j <= |log| && forall p :: i <= p < j ==> log[p].Message? && !log[p].m.Join?
    ensures RosterAt(base, log, j) == RosterAt(base, log, i)
    decreases j
  {
    if i < j { MessagesKeepRoster(base, log, i, j - 1); }
  }

  lemma Roster5()
    ensures RosterAt(B3, L5, 5) == Roster({1, 2, 3}, [1, 2, 3])
  {
    MessagesKeepRoster(B3, L5, 0, 5);
    ThreeIds(A1, A2, A3);
  }

  lemma Roster7()
    ensures RosterAt(B3, L7, 7) == Roster({2}, [2])
  {
    Roster5();
    AppendRoster(B3, L5, V1);
    TwoIds(A3, A1);
    NoIds();
    var s := [1, 2, 3];
    assert s[1..] == [2, 3] && s[1..][1..] == [3] && s[1..][1..][1..] == [];
    assert Without([3], {3, 1}) == [];
    assert Without([2, 3], {3, 1}) == [2];
    assert Without(s, {3, 1}) == [2];
    assert {1, 2, 3} - {3, 1} + {} == {2};
    AppendRoster(B3, L6, Message(A2, Purge(1, 0)));
  }

  lemma Roster10()
    ensures RosterAt(B3, L10, 10).mem == {2, 3}
  {
    Roster7();
    AppendRoster(B3, L7, V2);
    OneId(A3b);
    NoIds();
    AppendRoster(B3, L8, G3);
    AppendRoster(B3, L9, J3);
  }

  // ---------- before the crash ----------

  lemma Formation()
    ensures Trio(Formed(B3), Quiet1(), Host(Two(4, B3, map[], [], [], 0), 0, [], {}), Host(Three([]), 0, [], {}), [])
    ensures Distinct(IdSeq(B3)) && 0 !in Ids(B3)
  {
    ThreeIds(A1, A2, A3);
  }

  /** The clients of node 2 connect. */
  lemma TwoConnects() returns (run: seq<Step>, s: Sys)
    ensures Reaches(Hasty, B3, run, s)
    ensures Trio(s, Quiet1(), Host(Two(4, B3, map[], [], C0, 0), 0, [], {}), Host(Three([]), 0, [], {}), [])
  {
    Formation();
    Begin(Hasty, B3);
    run, s := [], Formed(B3);
    run, s := Connects(Hasty, B3, run, s, 2, 1, [Client(1, 0)]);
    run, s := Connects(Hasty, B3, run, s, 2, 2, [Client(1, 0), Client(2, 0)]);
    run, s := Connects(Hasty, B3, run, s, 2, 3, C0);
  }

  lemma Opening() returns (run: seq<Step>, s: Sys)
    ensures Reaches(Hasty, B3, run, s)
    ensures Trio(s, Quiet1(), Host(Two(4, B3, map[], [], C0, 0), 0, [], {}), Quiet3(), [])
  {
    run, s := TwoConnects();
    run, s := Connects(Hasty, B3, run, s, 3, 1, [Client(1, 0)]);
  }

  /** The first client of node 2 asks. */
  lemma FirstAsks(run: seq<Step>, s: Sys) returns (run': seq<Step>, u: Sys)
    requires Reaches(Hasty, B3, run, s)
    requires Trio(s, Quiet1(), Host(Two(4, B3, map[], [], C0, 0), 0, [], {}), Quiet3(), [])
    ensures Reaches(Hasty, B3, run', u)
    ensures Trio(u, Quiet1(), Host(Two(4, B3, map[], [], C1, 0), 0, [], {}), Quiet3(), [E1])
  {
    assert C0[0].fd == 1 && C0[FirstFd(C0, 1) := Client(1, 21)] == C1;
    run', u := Asks(Hasty, B3, run, s, 2, 1, 21, false, C1);
    run', u := Orders(Hasty, B3, run', u, 2, Ask(2, 21), []);
  }

  lemma OldestGrants(run: seq<Step>, s: Sys) returns (run': seq<Step>, u: Sys)
    requires Reaches(Hasty, B3, run, s)
    requires Trio(s, Quiet1(), Host(Two(4, B3, map[], [], C1, 0), 0, [], {}), Quiet3(), [E1])
    ensures Reaches(Hasty, B3, run', u)
    ensures Trio(u, Gave1(), Host(Two(4, B3, map[], [], C1, 0), 0, [], {}), Quiet3(), [E1, E2])
  {
    Grants(s.hosts[1], A2, 2, 21);
    run', u := Delivers(Hasty, B3, run, s, 1, [], Gave1().(outbox := [Give(2, 21)]));
    run', u := Orders(Hasty, B3, run', u, 1, Give(2, 21), []);
  }

  /** The first client is told. */
  lemma FirstTold(run: seq<Step>, s: Sys) returns (run': seq<Step>, u: Sys)
    requires Reaches(Hasty, B3, run, s)
    requires Trio(s, Gave1(), Host(Two(4, B3, map[], [], C1, 0), 0, [], {}), Quiet3(), [E1, E2])
    ensures Reaches(Hasty, B3, run', u) && Trio(u, Gave1(), Holding([], C1, 2), Quiet3(), [E1, E2])
  {
    Hears(s.hosts[2], A2, 2, 21);
    run', u := Delivers(Hasty, B3, run, s, 2, [],
                        Host(Two(4, B3, NewTable(Free), [Req(2, 21, false)], C1, 0), 1, [], {}));
    assert C1[0].pid == 21;
    Tells(u.hosts[2], A1, 21, LockRec(Free, 0, 0, 0, 0), []);
    run', u := Delivers(Hasty, B3, run', u, 2, [R], Holding([], C1, 2));
  }

  /** Node 3's client asks, and waits. */
  lemma ThirdAsks(run: seq<Step>, s: Sys) returns (run': seq<Step>, u: Sys)
    requires Reaches(Hasty, B3, run, s) && Trio(s, Gave1(), Holding([], C1, 2), Quiet3(), [E1, E2])
    ensures Reaches(Hasty, B3, run', u) && Trio(u, Gave1(), Holding([], C1, 2), Asked3(), [E1, E2, E3])
  {
    var c := [Client(1, 0)];
    assert c[0].fd == 1 && c[FirstFd(c, 1) := Client(1, 31)] == [Client(1, 31)];
    run', u := Asks(Hasty, B3, run, s, 3, 1, 31, false, [Client(1, 31)]);
    run', u := Orders(Hasty, B3, run', u, 3, Ask(3, 31), []);
  }

  lemma TwoQueues(run: seq<Step>, s: Sys) returns (run': seq<Step>, u: Sys)
    requires Reaches(Hasty, B3, run, s) && Trio(s, Gave1(), Holding([], C1, 2), Asked3(), [E1, E2, E3])
    ensures Reaches(Hasty, B3, run', u) && Trio(u, Gave1(), Holding(Q1, C1, 3), Asked3(), [E1, E2, E3])
  {
    Queues(s.hosts[2], A3, 3, 31, Q1);
    run', u := Delivers(Hasty, B3, run, s, 2, [R], Holding(Q1, C1, 3));
  }

  /** One more client of node 2 asks and waits. */
  lemma MoreAsks(run: seq<Step>, s: Sys, q: seq<Request>, c: seq<Client>, c': seq<Client>, log: seq<Event>, fd: nat,
                 pid: Pid, q': seq<Request>, log': seq<Event>)
      returns (run': seq<Step>, u: Sys)
    requires Reaches(Hasty, B3, run, s) && Trio(s, Gave1(), Holding(q, c, |log|), Asked3(), log)
    requires MayUsePid(c, fd, pid) && c' == c[FirstFd(c, fd) := Client(fd, pid)]
    requires q' == q + [Req(2, pid, false)] && log' == log + [Message(A2, Ask(2, pid))]
    ensures Reaches(Hasty, B3, run', u) && Trio(u, Gave1(), Holding(q', c', |log| + 1), Asked3(), log')
  {
    run', u := Asks(Hasty, B3, run, s, 2, fd, pid, false, c');
    run', u := Orders(Hasty, B3, run', u, 2, Ask(2, pid), []);
    Queues(u.hosts[2], A2, 2, pid, q');
    run', u := Delivers(Hasty, B3, run', u, 2, [R], Holding(q', c', |log| + 1));
  }

  lemma AllAsk(run: seq<Step>, s: Sys) returns (run': seq<Step>, u: Sys)
    requires Reaches(Hasty, B3, run, s) && Trio(s, Gave1(), Holding(Q1, C1, 3), Asked3(), [E1, E2, E3])
    ensures Reaches(Hasty, B3, run', u) && Trio(u, Gave1(), Holding(Q3, C3, 5), Asked3(), L5)
  {
    assert C1[1].fd == 2 && C1[FirstFd(C1, 2) := Client(2, 22)] == C2;
    assert C2[2].fd == 3 && C2[FirstFd(C2, 3) := Client(3, 23)] == C3;
    run', u := MoreAsks(run, s, Q1, C1, C2, [E1, E2, E3], 2, 22, Q2, [E1, E2, E3, E4]);
    run', u := MoreAsks(run', u, Q2, C2, C3, [E1, E2, E3, E4], 3, 23, Q3, L5);
  }

  // ---------- the crash of nodes 1 and 3 ----------

  lemma Crash(run: seq<Step>, s: Sys) returns (run': seq<Step>, u: Sys)
    requires Reaches(Hasty, B3, run, s) && Trio(s, Gave1(), Holding(Q3, C3, 5), Asked3(), L5)
    ensures Reaches(Hasty, B3, run', u) && Solo(u, Holding(Q3, C3, 5), L6)
  {
    Roster5();
    TwoIds(A3, A1);
    OneId(A2);
    NoIds();
    run', u := Do(Hasty, B3, run, s, ChangeView([A2], [A3, A1], []));
  }

  function Alone(idx: nat, out: seq<Msg>): Host {
    Host(Two(2, [A2], Table(Held, 2, 21, 1), Q3, C3, 1), idx, out, {H(21, 1)})
  }

  lemma ThreeGoes(n: Node, n1: Node)
    requires n == Holding(Q3, C3, 5).node && n1 == n.(members := [A1, A2])
    ensures LeaveAll(n, [A3], [R]) == Protocol.Quiet(n1)
  {
    assert B3[1..] == [A2, A3] && B3[1..][1..] == [A3];
    assert FirstAddr(B3, A3) == 2 && DropAt(B3, 2) == [A1, A2];
    assert Relabel(n.locks, 3, A1) == n.locks;
    OneLeaves(n, A3, [A1, A2], [R]);
  }

  lemma OneGoes(n1: Node, n2: Node)
    requires n1 == Holding(Q3, C3, 5).node.(members := [A1, A2]) && n2 == n1.(members := [A2])
    ensures Leave(n1, A1, [R]) == Outcome(n2, [Purge(1, 0)], [])
  {
    DropOneOfTwo(A1, A2);
    PurgeNothing(Q3, 1, 0);
    NothingToRecover(n2, 1, LockRec(Held, 2, 21, 1, 1));
  }

  /** Node 2 is not the oldest when node 3 is dropped, so it does not purge node 3's requests. */
  lemma SeesCrash()
    ensures HostDeliver(Holding(Q3, C3, 5), V1, [R]) == Alone(6, [Purge(1, 0)])
  {
    var n := Holding(Q3, C3, 5).node;
    var n1, n2 := n.(members := [A1, A2]), n.(members := [A2]);
    var left := [A3, A1];
    assert left[..1] == [A3];
    ThreeGoes(n, n1);
    OneGoes(n1, n2);
    assert [] + [Msg.Purge(1, 0)] == [Purge(1, 0)];
    assert LeaveAll(n, left, [R]) == Outcome(n2, [Purge(1, 0)], []);
    Handled(Holding(Q3, C3, 5), V1, [R], n2.(total := 2), [Purge(1, 0)], [Purge(1, 0)]);
  }

  /** Node 2 alone; its purge has come back to it. */
  lemma AfterCrash(run: seq<Step>, s: Sys) returns (run': seq<Step>, u: Sys)
    requires Reaches(Hasty, B3, run, s) && Solo(s, Holding(Q3, C3, 5), L6)
    ensures Reaches(Hasty, B3, run', u) && Solo(u, Alone(7, []), L7)
  {
    SeesCrash();
    run', u := Delivers(Hasty, B3, run, s, 2, [R], Alone(6, [Purge(1, 0)]));
    run', u := Orders(Hasty, B3, run', u, 2, Purge(1, 0), []);
    PurgesNothing(u.hosts[2], A2, 1, 0);
    run', u := Delivers(Hasty, B3, run', u, 2, [R], Alone(7, []));
  }

  // ---------- node 3 comes back ----------

  function New3(out: seq<Msg>): Host { Host(FreshNode(A3b), 7, out, {}) }

  /** Node 3 joins; nothing about its departure is on its way, and no table names it. */
  lemma ComesBack(run: seq<Step>, s: Sys) returns (run': seq<Step>, u: Sys)
    requires Reaches(Hasty, B3, run, s) && Solo(s, Alone(7, []), L7)
    ensures Reaches(Hasty, B3, run', u) && Duo(u, Alone(7, []), New3([Join]), L8)
  {
    Roster7();
    OneId(A3b);
    NoIds();
    TwoIds(A2, A3b);
    assert RecoveredHere(L7, Alone(7, []), 3);
    run', u := Do(Hasty, B3, run, s, ChangeView([A2, A3b], [], [A3b]));
  }

  lemma SeesBack()
    ensures HostDeliver(Alone(7, []), V2, [R]) == Alone(8, [])
  {
    Handled(Alone(7, []), V2, [R], Alone(7, []).node, [], []);
  }

  const Q3g: seq<Request> := [Req(3, 31, true), Req(2, 22, false), Req(2, 23, false)]

  lemma HandsToThree()
    ensures HostAskUnlock(Alone(8, []), H(21, 1), [R]) ==
            Host(Two(2, [A2], Table(Held, 2, 21, 1), Q3g, C3, 1), 8, [Give(3, 31)], {})
  {
    assert FirstLockId(Table(Held, 2, 21, 1), 1, [R]) == 0;
    assert FirstWaiter(Q3, R) == 0 && Q3[0 := Req(3, 31, true)] == Q3g;
    NoneTold({});
    assert [] + [Give(3, 31)] == [Give(3, 31)];
    assert {H(21, 1)} - {H(21, 1)} == {};
  }

  /** The holder releases: the stale request of node 3 is the first in the queue. */
  lemma GrantsToThree(run: seq<Step>, s: Sys) returns (run': seq<Step>, u: Sys)
    requires Reaches(Hasty, B3, run, s) && Duo(s, Alone(7, []), New3([Join]), L8)
    ensures Reaches(Hasty, B3, run', u)
    ensures Duo(u, Host(Two(2, [A2], Table(Held, 2, 21, 1), Q3g, C3, 1), 8, [], {}), New3([Join]), L9)
  {
    SeesBack();
    run', u := Delivers(Hasty, B3, run, s, 2, [R], Alone(8, []));
    HandsToThree();
    run', u := LetsGo(Hasty, B3, run', u, 2, H(21, 1), [R],
                      Host(Two(2, [A2], Table(Held, 2, 21, 1), Q3g, C3, 1), 8, [Give(3, 31)], {}));
    run', u := Orders(Hasty, B3, run', u, 2, Give(3, 31), []);
  }

  const QBg: seq<Request> := [Req(2, 22, true), Req(2, 23, false)]

  function Passed(total: nat, list: seq<Addr>, q: seq<Request>, idx: nat, out: seq<Msg>): Host {
    Host(Two(total, list, Table(Free, 3, 31, 1), q, C3, 1), idx, out, {})
  }

  /** Node 3 is not on the list yet, so node 2 passes the lock on. */
  lemma PassesOn()
    ensures HostDeliver(Host(Two(2, [A2], Table(Held, 2, 21, 1), Q3g, C3, 1), 8, [], {}), G3, [R]) ==
            Passed(2, [A2], QBg, 9, [Give(2, 22)])
  {
    var n, rest := Two(2, [A2], Table(Held, 2, 21, 1), Q3g, C3, 1), [Req(2, 22, false), Req(2, 23, false)];
    assert FirstMatch(Q3g, R, 3, 31, 1) == 0 && DropAt(Q3g, 0) == rest;
    assert Record(n, Give(3, 31)) == Two(2, [A2], Table(Held, 3, 31, 1), rest, C3, 1);
    assert FirstWaiter(rest, R) == 0 && rest[0 := Req(2, 22, true)] == QBg;
    assert !IsMember([A2], 3);
    assert [] + [Give(2, 22)] == [Give(2, 22)];
    Handled(Host(n, 8, [], {}), G3, [R], Passed(2, [A2], QBg, 9, []).node, [Give(2, 22)], [Give(2, 22)]);
  }

  lemma HearsJoin()
    ensures HostDeliver(Passed(2, [A2], QBg, 9, [Give(2, 22)]), J3, [R]) == Passed(3, [A2, A3b], QBg, 10, [Give(2, 22)])
  {
    assert FirstId([A2], 3) == 1;
    assert [A2] + [A3b] == [A2, A3b];
    assert [Give(2, 22)] + [] == [Give(2, 22)];
    Handled(Passed(2, [A2], QBg, 9, [Give(2, 22)]), J3, [R], Passed(3, [A2, A3b], QBg, 10, []).node, [], [Give(2, 22)]);
  }

  /** Node 3's JOIN is ordered and delivered while the grant is still in node 2's outbox. */
  lemma ThreeJoins(run: seq<Step>, s: Sys) returns (run': seq<Step>, u: Sys)
    requires Reaches(Hasty, B3, run, s)
    requires Duo(s, Host(Two(2, [A2], Table(Held, 2, 21, 1), Q3g, C3, 1), 8, [], {}), New3([Join]), L9)
    ensures Reaches(Hasty, B3, run', u) && Duo(u, Passed(3, [A2, A3b], QBg, 10, [Give(2, 22)]), New3([]), L10)
  {
    PassesOn();
    run', u := Delivers(Hasty, B3, run, s, 2, [R], Passed(2, [A2], QBg, 9, [Give(2, 22)]));
    run', u := Orders(Hasty, B3, run', u, 3, Join, []);
    HearsJoin();
    run', u := Delivers(Hasty, B3, run', u, 2, [R], Passed(3, [A2, A3b], QBg, 10, [Give(2, 22)]));
  }

  // ---------- node 3 leaves again ----------

  lemma LeavesAgain(run: seq<Step>, s: Sys) returns (run': seq<Step>, u: Sys)
    requires Reaches(Hasty, B3, run, s) && Duo(s, Passed(3, [A2, A3b], QBg, 10, [Give(2, 22)]), New3([]), L10)
    ensures Reaches(Hasty, B3, run', u) && Solo(u, Passed(3, [A2, A3b], QBg, 10, [Give(2, 22)]), L11)
  {
    Roster10();
    OneId(A3b);
    OneId(A2);
    NoIds();
    run', u := Do(Hasty, B3, run, s, ChangeView([A2], [A3b], []));
  }

  const QBC: seq<Request> := [Req(2, 22, true), Req(2, 23, true)]
  const Out3: seq<Msg> := [Give(2, 22), Purge(3, 0), Give(2, 23)]

  lemma RecoversAgain(n: Node)
    requires n == Two(3, [A2], Table(Free, 3, 31, 1), QBg, C3, 1)
    ensures DelNode(n, 3, [R]) == Outcome(n.(requests := QBC), [Purge(3, 0), Give(2, 23)], [])
  {
    PurgeNothing(QBg, 3, 0);
    assert FirstWaiter(QBg, R) == 1 && QBg[1 := Req(2, 23, true)] == QBC;
    assert [R][..0] == [];
    assert RecoverLocks(n, 3, [R][..0]) == Protocol.Quiet(n);
    assert Put(n, R, n.locks[R].(state := Free)) == n;
    assert RecoverLock(n, 3, R) == Outcome(n.(requests := QBC), [Give(2, 23)], []);
    assert [] + [Give(2, 23)] == [Give(2, 23)];
    assert [Msg.Purge(3, 0)] + [Give(2, 23)] == [Purge(3, 0), Give(2, 23)];
  }

  /** The lock is recorded as node 3's and free: it is granted a second time. */
  lemma SeesLeave()
    ensures HostDeliver(Passed(3, [A2, A3b], QBg, 10, [Give(2, 22)]), V3, [R]) == Passed(2, [A2], QBC, 11, Out3)
  {
    var n := Passed(3, [A2, A3b], QBg, 10, []).node;
    DropOneOfTwo(A2, A3b);
    RecoversAgain(n.(members := [A2]));
    OneLeaves(n, A3b, [A2], [R]);
    assert [Give(2, 22)] + [Purge(3, 0), Give(2, 23)] == Out3;
    Handled(Passed(3, [A2, A3b], QBg, 10, [Give(2, 22)]), V3, [R], Passed(2, [A2], QBC, 11, []).node,
            [Purge(3, 0), Give(2, 23)], Out3);
  }

  lemma GrantsAgain(run: seq<Step>, s: Sys) returns (run': seq<Step>, u: Sys)
    requires Reaches(Hasty, B3, run, s) && Solo(s, Passed(3, [A2, A3b], QBg, 10, [Give(2, 22)]), L11)
    ensures Reaches(Hasty, B3, run', u) && Solo(u, Passed(2, [A2], QBC, 11, Out3), L11)
  {
    SeesLeave();
    run', u := Delivers(Hasty, B3, run, s, 2, [R], Passed(2, [A2], QBC, 11, Out3));
  }

  lemma BothOrdered(run: seq<Step>, s: Sys) returns (run': seq<Step>, u: Sys)
    requires Reaches(Hasty, B3, run, s) && Solo(s, Passed(2, [A2], QBC, 11, Out3), L11)
    ensures Reaches(Hasty, B3, run', u) && Solo(u, Passed(2, [A2], QBC, 11, []), L14)
  {
    run', u := Orders(Hasty, B3, run, s, 2, Give(2, 22), [Purge(3, 0), Give(2, 23)]);
    run', u := Orders(Hasty, B3, run', u, 2, Purge(3, 0), [Give(2, 23)]);
    run', u := Orders(Hasty, B3, run', u, 2, Give(2, 23), []);
  }

  const QC: seq<Request> := [Req(2, 23, true)]

  function Told2(idx: nat): Host { Host(Two(2, [A2], Table(Held, 2, 22, 2), QC, C3, 2), idx, [], {H(22, 2)}) }
  function Told3(): Host { Host(Two(2, [A2], Table(Held, 2, 23, 3), [], C3, 3), 14, [], {H(22, 2), H(23, 3)}) }

  lemma SecondTold(run: seq<Step>, s: Sys) returns (run': seq<Step>, u: Sys)
    requires Reaches(Hasty, B3, run, s) && Solo(s, Passed(2, [A2], QBC, 11, []), L14)
    ensures Reaches(Hasty, B3, run', u) && Solo(u, Told2(13), L14)
  {
    assert C3[1].pid == 22;
    Tells(s.hosts[2], A2, 22, LockRec(Free, 3, 31, 1, 1), QC);
    run', u := Delivers(Hasty, B3, run, s, 2, [R], Told2(12));
    PurgesNothing(u.hosts[2], A2, 3, 0);
    run', u := Delivers(Hasty, B3, run', u, 2, [R], Told2(13));
  }

  lemma LastTold(run: seq<Step>, s: Sys) returns (run': seq<Step>, u: Sys)
    requires Reaches(Hasty, B3, run, s) && Solo(s, Told2(13), L14)
    ensures Reaches(Hasty, B3, run', u) && Solo(u, Told3(), L14)
  {
    assert C3[2].pid == 23;
    Tells(s.hosts[2], A2, 23, LockRec(Held, 2, 22, 1, 2), []);
    run', u := Delivers(Hasty, B3, run, s, 2, [R], Told3());
  }

  lemma FirstHalf() returns (run: seq<Step>, s: Sys)
    ensures Reaches(Hasty, B3, run, s) && Solo(s, Alone(7, []), L7)
  {
    run, s := Opening();
    run, s := FirstAsks(run, s);
    run, s := OldestGrants(run, s);
    run, s := FirstTold(run, s);
    run, s := ThirdAsks(run, s);
    run, s := TwoQueues(run, s);
    run, s := AllAsk(run, s);
    run, s := Crash(run, s);
    run, s := AfterCrash(run, s);
  }

  /** Two clients of node 2 are both told they hold the lock. */
  lemma StaleGrantBreaksExclusion() returns (run: seq<Step>, s: Sys)
    ensures Reaches(Hasty, B3, run, s) && !MutualExclusion(s)
  {
    run, s := FirstHalf();
    run, s := ComesBack(run, s);
    run, s := GrantsToThree(run, s);
    run, s := ThreeJoins(run, s);
    run, s := LeavesAgain(run, s);
    run, s := GrantsAgain(run, s);
    run, s := BothOrdered(run, s);
    run, s := SecondTold(run, s);
    run, s := LastTold(run, s);
    assert H(22, 2) in s.hosts[2].holds && H(23, 3) in s.hosts[2].holds && H(22, 2) != H(23, 3);
  }
}
