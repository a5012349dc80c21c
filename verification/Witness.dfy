/**
 * The hypothesis on vanishing clients cannot be dropped: a concrete run in which a client
 * vanishes while another waits ends with two clients holding the same lock.
 */
module Witness {
  import opened Types
  import opened Protocol
  import opened Cluster
  import opened Theorems
  import opened Runs
  import opened Scenes
  import opened OneDaemon

  const C3: seq<Client> := [Client(1, 11), Client(2, 12), Client(3, 13)]
  const LEFT: seq<Client> := [Client(2, 12), Client(3, 13)]
  const L3: seq<Event> := [Said(Ask(1, 11)), Said(Give(1, 11)), Said(Ask(1, 12))]
  const L4: seq<Event> := [Said(Ask(1, 11)), Said(Give(1, 11)), Said(Ask(1, 12)), Said(Ask(1, 13))]

  /** The second client asks and waits. */
  lemma SecondAsks(run: seq<Step>, s: Sys) returns (run': seq<Step>, u: Sys)
    requires Reaches(Any, BASE, run, s) && Is(s, Host(One(Table(Held, 1, 11, 1), [], C1, 1), 2, [], {H(11, 1)}), L2)
    ensures Reaches(Any, BASE, run', u)
    ensures Is(u, Host(One(Table(Held, 1, 11, 1), [Req(1, 12, false)], C2, 1), 3, [], {H(11, 1)}), L3)
  {
    assert C1[1].fd == 2 && C1[FirstFd(C1, 2) := Client(2, 12)] == C2;
    run', u := Asks(Any, BASE, run, s, 1, 2, 12, false, C2);
    run', u := Orders(Any, BASE, run', u, 1, Ask(1, 12), []);
    Queues(u.hosts[1], A1, 1, 12, [Req(1, 12, false)]);
    run', u := Delivers(Any, BASE, run', u, 1, [R],
                        Host(One(Table(Held, 1, 11, 1), [Req(1, 12, false)], C2, 1), 3, [], {H(11, 1)}));
  }

  /** The third client asks, and its request is ordered but not yet delivered. */
  lemma ThirdAsks(run: seq<Step>, s: Sys) returns (run': seq<Step>, u: Sys)
    requires Reaches(Any, BASE, run, s)
    requires Is(s, Host(One(Table(Held, 1, 11, 1), [Req(1, 12, false)], C2, 1), 3, [], {H(11, 1)}), L3)
    ensures Reaches(Any, BASE, run', u)
    ensures Is(u, Host(One(Table(Held, 1, 11, 1), [Req(1, 12, false)], C3, 1), 3, [], {H(11, 1)}), L4)
  {
    assert C2[2].fd == 3 && C2[FirstFd(C2, 3) := Client(3, 13)] == C3;
    run', u := Asks(Any, BASE, run, s, 1, 3, 13, false, C3);
    run', u := Orders(Any, BASE, run', u, 1, Ask(1, 13), []);
  }

  lemma PassesOn()
    ensures ReleaseLocks(One(Table(Held, 1, 11, 1), [Req(1, 12, false)], LEFT, 1), 11, [R]) ==
            Outcome(One(Table(Free, 1, 11, 1), [Req(1, 12, true)], LEFT, 1), [Give(1, 12)], [])
  {
    var q := [Req(1, 12, false)];
    assert FirstWaiter(q, R) == 0 && q[0 := Req(1, 12, true)] == [Req(1, 12, true)];
    var p, n := One(Table(Held, 1, 11, 1), q, LEFT, 1), One(Table(Free, 1, 11, 1), [Req(1, 12, true)], LEFT, 1);
    assert [R][..0] == [];
    assert ReleaseLocks(p, 11, [R][..0]) == Quiet(p);
    assert ReleaseLock(p, 11, R) == Outcome(n, [Give(1, 12)], []);
    assert [] + [Give(1, 12)] == [Give(1, 12)];
  }

  lemma Vanishes()
    ensures var n := One(Table(Held, 1, 11, 1), [Req(1, 12, false)], C3, 1);
      && ClientPid(n, 1) == 11
      && DelClient(n, 1, [R]) ==
         Outcome(One(Table(Free, 1, 11, 1), [Req(1, 12, true)], LEFT, 1), [Purge(1, 11), Give(1, 12)], [])
  {
    assert C3[0].fd == 1;
    assert FirstFd(C3, 1) == 0 && DropAt(C3, 0) == LEFT;
    PurgeNothing([Req(1, 12, false)], 1, 11);
    PassesOn();
    assert [Msg.Purge(1, 11)] + [Give(1, 12)] == [Purge(1, 11), Give(1, 12)];
  }

  /** The first client vanishes: the lock is free at its owner, and a grant is on its way. */
  lemma FirstVanishes(run: seq<Step>, s: Sys) returns (run': seq<Step>, u: Sys)
    requires Reaches(Any, BASE, run, s)
    requires Is(s, Host(One(Table(Held, 1, 11, 1), [Req(1, 12, false)], C3, 1), 3, [], {H(11, 1)}), L4)
    ensures Reaches(Any, BASE, run', u)
    ensures Is(u, Host(One(Table(Free, 1, 11, 1), [Req(1, 12, true)], LEFT, 1), 3, [Purge(1, 11), Give(1, 12)], {}), L4)
  {
    Vanishes();
    NoneTold({});
    assert [] + [Purge(1, 11), Give(1, 12)] == [Purge(1, 11), Give(1, 12)];
    var h := s.hosts[1];
    assert (set x | x in h.holds && x.pid != 11) == {};
    run', u := Do(Any, BASE, run, s, Step.Disconnect(1, 1, [R]));
  }

  const L7: seq<Event> := L4 + [Said(Purge(1, 11))] + [Said(Give(1, 12))] + [Said(Give(1, 13))]
  const BOTH: seq<Request> := [Req(1, 12, true), Req(1, 13, true)]

  /** The third client's request meets a free lock: a second grant. */
  lemma GrantsAgain()
    ensures HostDeliver(Host(One(Table(Free, 1, 11, 1), [Req(1, 12, true)], LEFT, 1), 3, [Purge(1, 11), Give(1, 12)],
                             {}), Said(Ask(1, 13)), [R]) ==
            Host(One(Table(Pending, 1, 11, 1), BOTH, LEFT, 1), 4, [Purge(1, 11), Give(1, 12), Give(1, 13)], {})
  {
    var q, out := [Req(1, 12, true), Req(1, 13, false)], [Purge(1, 11), Give(1, 12)];
    assert [Req(1, 12, true)] + [Req(1, 13, false)] == q;
    assert FirstWaiter(q, R) == 1 && q[1 := Req(1, 13, true)] == BOTH;
    Handled(Host(One(Table(Free, 1, 11, 1), [Req(1, 12, true)], LEFT, 1), 3, out, {}), Said(Ask(1, 13)), [R],
            One(Table(Pending, 1, 11, 1), BOTH, LEFT, 1), [Give(1, 13)], out + [Give(1, 13)]);
  }

  lemma BothOrdered(run: seq<Step>, s: Sys) returns (run': seq<Step>, u: Sys)
    requires Reaches(Any, BASE, run, s)
    requires Is(s, Host(One(Table(Free, 1, 11, 1), [Req(1, 12, true)], LEFT, 1), 3,
                        [Purge(1, 11), Give(1, 12)], {}), L4)
    ensures Reaches(Any, BASE, run', u)
    ensures Is(u, Host(One(Table(Pending, 1, 11, 1), BOTH, LEFT, 1), 4, [], {}), L7)
  {
    var k := Host(One(Table(Pending, 1, 11, 1), BOTH, LEFT, 1), 4, [Purge(1, 11), Give(1, 12), Give(1, 13)], {});
    GrantsAgain();
    run', u := Delivers(Any, BASE, run, s, 1, [R], k);
    run', u := Orders(Any, BASE, run', u, 1, Purge(1, 11), [Give(1, 12), Give(1, 13)]);
    run', u := Orders(Any, BASE, run', u, 1, Give(1, 12), [Give(1, 13)]);
    run', u := Orders(Any, BASE, run', u, 1, Give(1, 13), []);
  }

  /** The purge of the vanished process finds nothing, and the second client is told. */
  lemma SecondTold(run: seq<Step>, s: Sys) returns (run': seq<Step>, u: Sys)
    requires Reaches(Any, BASE, run, s) && Is(s, Host(One(Table(Pending, 1, 11, 1), BOTH, LEFT, 1), 4, [], {}), L7)
    ensures Reaches(Any, BASE, run', u)
    ensures Is(u, Host(One(Table(Held, 1, 12, 2), [Req(1, 13, true)], LEFT, 2), 6, [], {H(12, 2)}), L7)
  {
    PurgesNothing(s.hosts[1], A1, 1, 11);
    run', u := Delivers(Any, BASE, run, s, 1, [R], s.hosts[1].(idx := 5));
    assert LEFT[0].pid == 12;
    Tells(u.hosts[1], A1, 12, LockRec(Pending, 1, 11, 1, 1), [Req(1, 13, true)]);
    run', u := Delivers(Any, BASE, run', u, 1, [R],
                        Host(One(Table(Held, 1, 12, 2), [Req(1, 13, true)], LEFT, 2), 6, [], {H(12, 2)}));
  }

  /** So is the third. */
  lemma ThirdTold(run: seq<Step>, s: Sys) returns (run': seq<Step>, u: Sys)
    requires Reaches(Any, BASE, run, s)
    requires Is(s, Host(One(Table(Held, 1, 12, 2), [Req(1, 13, true)], LEFT, 2), 6, [], {H(12, 2)}), L7)
    ensures Reaches(Any, BASE, run', u)
    ensures Is(u, Host(One(Table(Held, 1, 13, 3), [], LEFT, 3), 7, [], {H(12, 2), H(13, 3)}), L7)
  {
    assert LEFT[1].pid == 13;
    Tells(s.hosts[1], A1, 13, LockRec(Held, 1, 12, 1, 2), []);
    run', u := Delivers(Any, BASE, run, s, 1, [R],
                        Host(One(Table(Held, 1, 13, 3), [], LEFT, 3), 7, [], {H(12, 2), H(13, 3)}));
  }

  /** Two clients of one daemon are both told they hold the lock. */
  lemma VanishingBreaksExclusion() returns (run: seq<Step>, s: Sys)
    ensures Reaches(Any, BASE, run, s)
    ensures !MutualExclusion(s)
  {
    run, s := Beginning(Any);
    run, s := SecondAsks(run, s);
    run, s := ThirdAsks(run, s);
    run, s := FirstVanishes(run, s);
    run, s := BothOrdered(run, s);
    run, s := SecondTold(run, s);
    run, s := ThirdTold(run, s);
    assert H(12, 2) in s.hosts[1].holds && H(13, 3) in s.hosts[1].holds && H(12, 2) != H(13, 3);
  }
}
