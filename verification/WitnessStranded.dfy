/**
 * Two ways in which a crash loses a lock to the group: a grant is ordered behind the departure of
 * the node it is for, with nobody waiting; and the oldest node dies with the first grant of a lock
 * still to be ordered. In both, a later request waits for ever.
 */
module WitnessStranded {
  import opened Types
  import opened Protocol
  import opened Group
  import opened Cluster
  import opened Runs
  import opened LocalState
  import opened CrashTheorems
  import opened Scenes

  const A1 := Addr(1, 101)
  const A2 := Addr(2, 102)
  const B2: seq<Addr> := [A1, A2]

  function One(total: nat, list: seq<Addr>, locks: map<Resource, LockRec>, q: seq<Request>, c: seq<Client>): Node {
    Node(1, 101, true, total, list, locks, q, c, 0)
  }

  function Two(total: nat, list: seq<Addr>, locks: map<Resource, LockRec>, q: seq<Request>): Node {
    Node(2, 102, true, total, list, locks, q, [Client(1, 21)], 0)
  }

  ghost predicate Duo(s: Sys, h1: Host, h2: Host, log: seq<Event>) {
    World(s, B2, log, {1, 2}) && s.hosts[1] == h1 && s.hosts[2] == h2
  }

  ghost predicate Left(s: Sys, n: NodeId, h: Host, log: seq<Event>) {
    World(s, B2, log, {n}) && s.hosts[n] == h
  }

  const C0: seq<Client> := [Client(1, 0)]
  const C1: seq<Client> := [Client(1, 11)]
  const E1 := Message(A2, Ask(2, 21))
  const V2 := View([A1], [A2], [])
  const V1 := View([A2], [A1], [])

  lemma RosterAfter(log: seq<Event>)
    requires log == [E1]
    ensures RosterAt(B2, log, 1) == Roster({1, 2}, [1, 2])
  {
    TwoIds(A1, A2);
  }

  // ---------- the common beginning ----------

  /** Node 1 has granted the lock to the client of node 2; the grant is still in its outbox. */
  function Gave1(c: seq<Client>): Host {
    Host(One(3, B2, NewTable(Pending), [Req(2, 21, true)], c), 1, [Give(2, 21)], {})
  }

  lemma Opening() returns (run: seq<Step>, s: Sys)
    ensures Reaches(Crash, B2, run, s)
    ensures Duo(s, Host(One(3, B2, map[], [], C0), 0, [], {}),
                Host(Two(3, B2, map[], []).(clients := C0), 0, [], {}), [])
  {
    TwoIds(A1, A2);
    Begin(Crash, B2);
    run, s := [], Formed(B2);
    run, s := Connects(Crash, B2, run, s, 1, 1, C0);
    run, s := Connects(Crash, B2, run, s, 2, 1, C0);
  }

  lemma FirstAsks() returns (run: seq<Step>, s: Sys)
    ensures Reaches(Crash, B2, run, s) && Duo(s, Gave1(C0), Host(Two(3, B2, map[], []), 0, [], {}), [E1])
  {
    run, s := Opening();
    assert C0[FirstFd(C0, 1) := Client(1, 21)] == [Client(1, 21)];
    run, s := Asks(Crash, B2, run, s, 2, 1, 21, false, [Client(1, 21)]);
    run, s := Orders(Crash, B2, run, s, 2, Ask(2, 21), []);
    Grants(s.hosts[1], A2, 2, 21);
    run, s := Delivers(Crash, B2, run, s, 1, [], Gave1(C0));
  }

  // ---------- the grant is to a node that is gone ----------

  const LA: seq<Event> := [E1] + [V2] + [Message(A1, Give(2, 21))] + [Message(A1, Purge(2, 0))]
  const LB: seq<Event> := LA + [Message(A1, Unlock(R, 2, 21, 1))]
  const LC: seq<Event> := LB + [Message(A1, Ask(1, 11))]

  /** Node 2 crashes; node 1 purges its requests, and the lock is pending. */
  lemma SeesTwoLeave()
    ensures HostDeliver(Gave1(C0), V2, [R]) ==
      Host(One(2, [A1], NewTable(Pending), [], C0), 2, [Give(2, 21), Purge(2, 0)], {})
  {
    var n := Gave1(C0).node;
    var k := n.(members := [A1]);
    DropOneOfTwo(A1, A2);
    OneLeaves(n, A2, [A1], [R]);
    NothingToRecover(k, 2, LockRec(Pending, 0, 0, 0, 0));
    var q := [Req(2, 21, true)];
    assert q[..0] == [] && PurgeQueue(q, 2, 0) == [];
    assert [Give(2, 21)] + [Msg.Purge(2, 0)] == [Give(2, 21), Purge(2, 0)];
    Handled(Gave1(C0), V2, [R], One(2, [A1], NewTable(Pending), [], C0), [Purge(2, 0)], [Give(2, 21), Purge(2, 0)]);
  }

  lemma TwoLeaves(run: seq<Step>, s: Sys) returns (run': seq<Step>, u: Sys)
    requires Reaches(Crash, B2, run, s) && Duo(s, Gave1(C0), Host(Two(3, B2, map[], []), 0, [], {}), [E1])
    ensures Reaches(Crash, B2, run', u) && Left(u, 1, Gave1(C0), [E1] + [V2])
  {
    RosterAfter(s.log);
    OneId(A1);
    OneId(A2);
    NoIds();
    run', u := Do(Crash, B2, run, s, ChangeView([A1], [A2], []));
  }

  lemma GrantOrdered(run: seq<Step>, s: Sys) returns (run': seq<Step>, u: Sys)
    requires Reaches(Crash, B2, run, s) && Left(s, 1, Gave1(C0), [E1] + [V2])
    ensures Reaches(Crash, B2, run', u) && Left(u, 1, Host(One(2, [A1], NewTable(Pending), [], C0), 2, [], {}), LA)
  {
    SeesTwoLeave();
    run', u := Delivers(Crash, B2, run, s, 1, [R],
                        Host(One(2, [A1], NewTable(Pending), [], C0), 2, [Give(2, 21), Purge(2, 0)], {}));
    run', u := Orders(Crash, B2, run', u, 1, Give(2, 21), [Purge(2, 0)]);
    run', u := Orders(Crash, B2, run', u, 1, Purge(2, 0), []);
  }

  /** The lock stays recorded as node 2's, free. */
  function Gone2(q: seq<Request>, c: seq<Client>, idx: nat, out: seq<Msg>): Host {
    Host(One(2, [A1], map[R := LockRec(Free, 2, 21, 1, 0)], q, c), idx, out, {})
  }

  /** The grant is delivered: nobody waits, so node 1 releases the lock in node 2's name. */
  lemma PassesOn()
    ensures HostDeliver(Host(One(2, [A1], NewTable(Pending), [], C0), 2, [], {}), Message(A1, Give(2, 21)), [R]) ==
            Gone2([], C0, 3, [Unlock(R, 2, 21, 1)])
  {
    var n := One(2, [A1], NewTable(Pending), [], C0);
    assert Record(n, Give(2, 21)) == n.(locks := map[R := LockRec(Held, 2, 21, 1, 0)]);
    assert !IsMember([A1], 2);
    assert [] + [Unlock(R, 2, 21, 1)] == [Unlock(R, 2, 21, 1)];
    Handled(Host(n, 2, [], {}), Message(A1, Give(2, 21)), [R], Gone2([], C0, 3, []).node, [Unlock(R, 2, 21, 1)],
            [Unlock(R, 2, 21, 1)]);
  }

  /** That release comes back and changes nothing. */
  lemma ReleaseIsLost()
    ensures HostDeliver(Gone2([], C0, 4, []), Message(A1, Unlock(R, 2, 21, 1)), [R]) == Gone2([], C0, 5, [])
  {
    var none: seq<Msg> := [];
    assert none + [] == none;
    Handled(Gone2([], C0, 4, []), Message(A1, Unlock(R, 2, 21, 1)), [R], Gone2([], C0, 4, []).node, [], []);
  }

  lemma GrantArrives(run: seq<Step>, s: Sys) returns (run': seq<Step>, u: Sys)
    requires Reaches(Crash, B2, run, s) && Left(s, 1, Host(One(2, [A1], NewTable(Pending), [], C0), 2, [], {}), LA)
    ensures Reaches(Crash, B2, run', u) && Left(u, 1, Gone2([], C0, 3, []), LB)
  {
    PassesOn();
    run', u := Delivers(Crash, B2, run, s, 1, [R], Gone2([], C0, 3, [Unlock(R, 2, 21, 1)]));
    run', u := Orders(Crash, B2, run', u, 1, Unlock(R, 2, 21, 1), []);
  }

  lemma ReleaseArrives(run: seq<Step>, s: Sys) returns (run': seq<Step>, u: Sys)
    requires Reaches(Crash, B2, run, s) && Left(s, 1, Gone2([], C0, 3, []), LB)
    ensures Reaches(Crash, B2, run', u) && Left(u, 1, Gone2([], C0, 5, []), LB)
  {
    run', u := run, s;
    PurgesNothing(u.hosts[1], A1, 2, 0);
    run', u := Delivers(Crash, B2, run', u, 1, [R], Gone2([], C0, 4, []));
    ReleaseIsLost();
    run', u := Delivers(Crash, B2, run', u, 1, [R], Gone2([], C0, 5, []));
  }

  lemma LaterAsks(run: seq<Step>, s: Sys) returns (run': seq<Step>, u: Sys)
    requires Reaches(Crash, B2, run, s) && Left(s, 1, Gone2([], C0, 5, []), LB)
    ensures Reaches(Crash, B2, run', u) && Left(u, 1, Gone2([Req(1, 11, false)], C1, 6, []), LC)
  {
    assert C0[FirstFd(C0, 1) := Client(1, 11)] == C1;
    run', u := Asks(Crash, B2, run, s, 1, 1, 11, false, C1);
    run', u := Orders(Crash, B2, run', u, 1, Ask(1, 11), []);
    Queues(u.hosts[1], A1, 1, 11, [Req(1, 11, false)]);
    run', u := Delivers(Crash, B2, run', u, 1, [R], Gone2([Req(1, 11, false)], C1, 6, []));
  }

  /** A client of node 1 asks, everything is delivered, and it waits for nobody. */
  lemma GrantToTheDeparted() returns (run: seq<Step>, s: Sys)
    ensures Reaches(Crash, B2, run, s) && Quiescent(s)
    ensures 1 in s.hosts && Asking(s.hosts[1].node.requests, R) && !ToldHolder(s, R)
    ensures R in s.hosts[1].node.locks && s.hosts[1].node.locks[R].node == 2 && 2 !in s.hosts
  {
    run, s := FirstAsks();
    run, s := TwoLeaves(run, s);
    run, s := GrantOrdered(run, s);
    run, s := GrantArrives(run, s);
    run, s := ReleaseArrives(run, s);
    run, s := LaterAsks(run, s);
    assert s.hosts[1].node.requests[0].res == R;
  }

  // ---------- the oldest dies with the first grant unordered ----------

  /** Node 2 has heard of the lock, which nobody owns. */
  function Heard2(total: nat, list: seq<Addr>, idx: nat, out: seq<Msg>): Host {
    Host(Two(total, list, NewTable(Free), [Req(2, 21, false)]), idx, out, {})
  }

  lemma SeesOneLeave()
    ensures HostDeliver(Heard2(3, B2, 1, []), V1, [R]) == Heard2(2, [A2], 2, [Purge(1, 0)])
  {
    var n := Heard2(3, B2, 1, []).node;
    DropOneOfTwo(A1, A2);
    OneLeaves(n, A1, [A2], [R]);
    NothingToRecover(n.(members := [A2]), 1, LockRec(Free, 0, 0, 0, 0));
    PurgeNothing(n.requests, 1, 0);
    assert [] + [Msg.Purge(1, 0)] == [Purge(1, 0)];
    Handled(Heard2(3, B2, 1, []), V1, [R], Heard2(2, [A2], 2, []).node, [Purge(1, 0)], [Purge(1, 0)]);
  }

  lemma TwoHears(run: seq<Step>, s: Sys) returns (run': seq<Step>, u: Sys)
    requires Reaches(Crash, B2, run, s) && Duo(s, Gave1(C0), Host(Two(3, B2, map[], []), 0, [], {}), [E1])
    ensures Reaches(Crash, B2, run', u) && Duo(u, Gave1(C0), Heard2(3, B2, 1, []), [E1])
  {
    Hears(s.hosts[2], A2, 2, 21);
    run', u := Delivers(Crash, B2, run, s, 2, [], Heard2(3, B2, 1, []));
  }

  lemma OldestLeaves(run: seq<Step>, s: Sys) returns (run': seq<Step>, u: Sys)
    requires Reaches(Crash, B2, run, s) && Duo(s, Gave1(C0), Heard2(3, B2, 1, []), [E1])
    ensures Reaches(Crash, B2, run', u) && Left(u, 2, Heard2(3, B2, 1, []), [E1] + [V1])
  {
    RosterAfter(s.log);
    assert SoundEvent(Roster({1, 2}, [1, 2]), V1) by { OneId(A1); OneId(A2); NoIds(); }
    run', u := Do(Crash, B2, run, s, ChangeView([A2], [A1], []));
  }

  lemma TwoPurges(run: seq<Step>, s: Sys) returns (run': seq<Step>, u: Sys)
    requires Reaches(Crash, B2, run, s) && Left(s, 2, Heard2(3, B2, 1, []), [E1] + [V1])
    ensures Reaches(Crash, B2, run', u)
    ensures Left(u, 2, Heard2(2, [A2], 3, []), [E1] + [V1] + [Message(A2, Purge(1, 0))])
  {
    SeesOneLeave();
    run', u := Delivers(Crash, B2, run, s, 2, [R], Heard2(2, [A2], 2, [Purge(1, 0)]));
    run', u := Orders(Crash, B2, run', u, 2, Purge(1, 0), []);
    PurgesNothing(u.hosts[2], A2, 1, 0);
    run', u := Delivers(Crash, B2, run', u, 2, [R], Heard2(2, [A2], 3, []));
  }

  /** The client of node 2 goes on waiting, for a lock recorded as nobody's. */
  lemma GrantLostWithTheOldest() returns (run: seq<Step>, s: Sys)
    ensures Reaches(Crash, B2, run, s) && Quiescent(s)
    ensures 2 in s.hosts && Asking(s.hosts[2].node.requests, R) && !ToldHolder(s, R)
    ensures R in s.hosts[2].node.locks && s.hosts[2].node.locks[R].node == 0 && 0 !in s.hosts
  {
    run, s := FirstAsks();
    run, s := TwoHears(run, s);
    run, s := OldestLeaves(run, s);
    run, s := TwoPurges(run, s);
    assert s.hosts[2].node.requests[0].res == R;
  }
}
