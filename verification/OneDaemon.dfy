/**
 * The common beginning of two concrete runs of a group of one daemon: three clients connect, the
 * first asks for the lock and is told it has it.
 */
module OneDaemon {
  import opened Types
  import opened Protocol
  import opened Cluster
  import opened Runs
  import opened Scenes

  const A1 := Addr(1, 100)
  const BASE: seq<Addr> := [A1]
  const C0: seq<Client> := [Client(1, 0), Client(2, 0), Client(3, 0)]
  const C1: seq<Client> := [Client(1, 11), Client(2, 0), Client(3, 0)]
  const C2: seq<Client> := [Client(1, 11), Client(2, 12), Client(3, 0)]

  function Said(m: Msg): Event { Message(A1, m) }

  const L1: seq<Event> := [Said(Ask(1, 11))]
  const L2: seq<Event> := [Said(Ask(1, 11)), Said(Give(1, 11))]

  function One(locks: map<Resource, LockRec>, q: seq<Request>, c: seq<Client>, id: nat): Node {
    Node(1, 100, true, 2, BASE, locks, q, c, id)
  }

  /** The daemon is alone, in this state. */
  ghost predicate Is(s: Sys, h: Host, log: seq<Event>) {
    World(s, BASE, log, {1}) && s.hosts[1] == h
  }

  /** Three clients connect. */
  lemma Opening(kind: Kind) returns (run: seq<Step>, s: Sys)
    ensures Reaches(kind, BASE, run, s) && Is(s, Host(One(map[], [], C0, 0), 0, [], {}), [])
  {
    OneId(A1);
    Begin(kind, BASE);
    run, s := [], Formed(BASE);
    assert Is(s, Host(One(map[], [], [], 0), 0, [], {}), []);
    run, s := Connects(kind, BASE, run, s, 1, 1, [Client(1, 0)]);
    run, s := Connects(kind, BASE, run, s, 1, 2, [Client(1, 0), Client(2, 0)]);
    run, s := Connects(kind, BASE, run, s, 1, 3, C0);
  }

  /** The first client asks, and the daemon grants. */
  lemma FirstAsks(kind: Kind, run: seq<Step>, s: Sys) returns (run': seq<Step>, u: Sys)
    requires kind != Guarded && kind != Tidy
    requires Reaches(kind, BASE, run, s) && Is(s, Host(One(map[], [], C0, 0), 0, [], {}), [])
    ensures Reaches(kind, BASE, run', u)
    ensures Is(u, Host(One(NewTable(Pending), [Req(1, 11, true)], C1, 0), 1, [Give(1, 11)], {}), L1)
  {
    assert C0[0].fd == 1;
    assert C0[FirstFd(C0, 1) := Client(1, 11)] == C1;
    run', u := Asks(kind, BASE, run, s, 1, 1, 11, false, C1);
    run', u := Orders(kind, BASE, run', u, 1, Ask(1, 11), []);
    Grants(u.hosts[1], A1, 1, 11);
    run', u := Delivers(kind, BASE, run', u, 1, [],
                        Host(One(NewTable(Pending), [Req(1, 11, true)], C1, 0), 1, [Give(1, 11)], {}));
  }

  /** The first client is told. */
  lemma FirstTold(kind: Kind, run: seq<Step>, s: Sys) returns (run': seq<Step>, u: Sys)
    requires kind != Guarded && kind != Tidy && Reaches(kind, BASE, run, s)
    requires Is(s, Host(One(NewTable(Pending), [Req(1, 11, true)], C1, 0), 1, [Give(1, 11)], {}), L1)
    ensures Reaches(kind, BASE, run', u)
    ensures Is(u, Host(One(Table(Held, 1, 11, 1), [], C1, 1), 2, [], {H(11, 1)}), L2)
  {
    run', u := Orders(kind, BASE, run, s, 1, Give(1, 11), []);
    assert C1[0].pid == 11;
    Tells(u.hosts[1], A1, 11, LockRec(Pending, 0, 0, 0, 0), []);
    run', u := Delivers(kind, BASE, run', u, 1, [R], Host(One(Table(Held, 1, 11, 1), [], C1, 1), 2, [], {H(11, 1)}));
  }

  lemma Beginning(kind: Kind) returns (run: seq<Step>, s: Sys)
    requires kind != Guarded && kind != Tidy
    ensures Reaches(kind, BASE, run, s)
    ensures Is(s, Host(One(Table(Held, 1, 11, 1), [], C1, 1), 2, [], {H(11, 1)}), L2)
  {
    run, s := Opening(kind);
    run, s := FirstAsks(kind, run, s);
    run, s := FirstTold(kind, run, s);
  }
}
