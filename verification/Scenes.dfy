/**
 * Tools for concrete runs: one step more, and what a daemon computes in the simplest situations.
 * All of them are about one resource.
 */
module Scenes {
  import opened Types
  import opened Protocol
  import opened Group
  import opened Cluster
  import opened Slices
  import opened Runs

  // ---------- runs ----------

  /** What there is besides the daemons themselves. */
  ghost predicate World(s: Sys, base: seq<Addr>, log: seq<Event>, who: set<NodeId>) {
    s.base == base && s.log == log && s.hosts.Keys == who
  }

  lemma Begin(kind: Kind, base: seq<Addr>)
    requires Distinct(IdSeq(base)) && 0 !in Ids(base)
    ensures Reaches(kind, base, [], Formed(base))
  {
  }

  lemma Do(kind: Kind, base: seq<Addr>, run: seq<Step>, s: Sys, t: Step) returns (run': seq<Step>, u: Sys)
    requires Reaches(kind, base, run, s) && May(kind, s, t)
    ensures Reaches(kind, base, run', u) && u == Apply(s, t)
  {
    RunSnoc(kind, Formed(base), run, t);
    run', u := run + [t], Apply(s, t);
  }

  lemma Delivers(kind: Kind, base: seq<Addr>, run: seq<Step>, s: Sys, n: NodeId, order: seq<Resource>, k: Host)
      returns (run': seq<Step>, u: Sys)
    requires Reaches(kind, base, run, s) && kind != Guarded
    requires n in s.hosts && s.hosts[n].idx < |s.log| && IsWalk(s.hosts[n].node.locks, order)
    requires HostDeliver(s.hosts[n], s.log[s.hosts[n].idx], order) == k
    ensures Reaches(kind, base, run', u) && u == s.(hosts := s.hosts[n := k])
  {
    run', u := Do(kind, base, run, s, Deliver(n, order));
  }

  lemma Orders(kind: Kind, base: seq<Addr>, run: seq<Step>, s: Sys, n: NodeId, m: Msg, rest: seq<Msg>)
      returns (run': seq<Step>, u: Sys)
    requires Reaches(kind, base, run, s) && kind != Tidy
    requires n in s.hosts && s.hosts[n].outbox == [m] + rest
    ensures Reaches(kind, base, run', u)
    ensures u == Sys(s.base, s.hosts[n := s.hosts[n].(outbox := rest)], s.log + [Message(Self(s.hosts[n]), m)])
  {
    assert s.hosts[n].outbox[1..] == rest;
    run', u := Do(kind, base, run, s, Sequence(n));
  }

  lemma Connects(kind: Kind, base: seq<Addr>, run: seq<Step>, s: Sys, n: NodeId, fd: nat, c: seq<Client>)
      returns (run': seq<Step>, u: Sys)
    requires Reaches(kind, base, run, s) && n in s.hosts && c == s.hosts[n].node.clients + [Client(fd, 0)]
    requires forall i :: 0 <= i < |s.hosts[n].node.clients| ==> s.hosts[n].node.clients[i].fd != fd
    ensures Reaches(kind, base, run', u)
    ensures u == s.(hosts := s.hosts[n := s.hosts[n].(node := s.hosts[n].node.(clients := c))])
  {
    run', u := Do(kind, base, run, s, Connect(n, fd));
  }

  /** A client asks for the resource, with sequence number 1. */
  lemma Asks(kind: Kind, base: seq<Addr>, run: seq<Step>, s: Sys, n: NodeId, fd: nat, pid: Pid, isTry: bool,
             c: seq<Client>)
      returns (run': seq<Step>, u: Sys)
    requires Reaches(kind, base, run, s) && n in s.hosts && s.hosts[n].node.id == n
    requires MayUsePid(s.hosts[n].node.clients, fd, pid) && s.hosts[n].outbox == []
    requires c == s.hosts[n].node.clients[FirstFd(s.hosts[n].node.clients, fd) := Client(fd, pid)]
    requires kind.Crash? || kind.Fixed? ==> forall p :: 0 <= p < |s.log| ==> !IsAsk(s.log[p], Key(R, n, pid, 1))
    ensures Reaches(kind, base, run', u)
    ensures u == s.(hosts := s.hosts[n := s.hosts[n].(node := s.hosts[n].node.(clients := c),
                                                      outbox := [Lock(R, n, pid, 1, isTry)])])
  {
    var h := s.hosts[n];
    var k := h.(node := h.node.(clients := c), outbox := [Lock(R, n, pid, 1, isTry)]);
    NoneTold(h.holds);
    assert [] + [Lock(R, n, pid, 1, isTry)] == [Lock(R, n, pid, 1, isTry)];
    assert HostAskLock(h, fd, R, pid, 1, isTry) == k;
    run', u := Do(kind, base, run, s, AskLock(n, fd, R, pid, 1, isTry));
  }

  lemma LetsGo(kind: Kind, base: seq<Addr>, run: seq<Step>, s: Sys, n: NodeId, x: Hold, order: seq<Resource>, k: Host)
      returns (run': seq<Step>, u: Sys)
    requires Reaches(kind, base, run, s) && n in s.hosts && x in s.hosts[n].holds
    requires IsWalk(s.hosts[n].node.locks, order) && HostAskUnlock(s.hosts[n], x, order) == k
    ensures Reaches(kind, base, run', u) && u == s.(hosts := s.hosts[n := k])
  {
    run', u := Do(kind, base, run, s, AskUnlock(n, x, order));
  }

  // ---------- names ----------

  const R: Resource := 7

  function Ask(node: NodeId, pid: Pid): Msg { Lock(R, node, pid, 1, false) }
  function Give(node: NodeId, pid: Pid): Msg { Grant(R, node, pid, 1) }
  function Req(node: NodeId, pid: Pid, granted: bool): Request { Request(R, node, pid, 1, granted) }
  function H(pid: Pid, id: nat): Hold { Hold(pid, 1, R, id) }

  /** A table with the one lock. */
  function Table(st: LockState, node: NodeId, pid: Pid, id: nat): map<Resource, LockRec> {
    map[R := LockRec(st, node, pid, 1, id)]
  }

  /** The lock when nobody has owned it yet. */
  function NewTable(st: LockState): map<Resource, LockRec> { map[R := LockRec(st, 0, 0, 0, 0)] }

  // ---------- what a daemon computes ----------

  lemma NoneTold(holds: set<Hold>)
    ensures Told([]) == {} && holds + Told([]) == holds
  {
  }

  /** A host after a handler that tells nobody. */
  lemma Handled(h: Host, e: Event, order: seq<Resource>, n: Node, sent: seq<Msg>, out: seq<Msg>)
    requires Handle(h.node, e, order) == Outcome(n, sent, []) && out == h.outbox + sent
    ensures HostDeliver(h, e, order) == Host(n, h.idx + 1, out, h.holds)
  {
    NoneTold(h.holds);
  }

  /** A request is queued. */
  lemma Queues(h: Host, from: Addr, node: NodeId, pid: Pid, q: seq<Request>)
    requires h.node.joined && R in h.node.locks && q == h.node.requests + [Req(node, pid, false)]
    requires !(h.node.locks[R].node == h.node.id && h.node.locks[R].state.Free?)
    ensures HostDeliver(h, Message(from, Ask(node, pid)), [R]) ==
            h.(node := h.node.(requests := q), idx := h.idx + 1)
  {
    assert h.outbox + [] == h.outbox;
    Handled(h, Message(from, Ask(node, pid)), [R], h.node.(requests := q), [], h.outbox);
  }

  /** The first request, at a daemon that is not the oldest. */
  lemma Hears(h: Host, from: Addr, node: NodeId, pid: Pid)
    requires h.node.joined && h.node.locks == map[] && h.node.requests == [] && !OwnHead(h.node)
    ensures HostDeliver(h, Message(from, Ask(node, pid)), []) ==
            h.(node := h.node.(requests := [Req(node, pid, false)], locks := NewTable(Free)), idx := h.idx + 1)
  {
    assert h.outbox + [] == h.outbox;
    assert [] + [Req(node, pid, false)] == [Req(node, pid, false)];
    var n := h.node.(requests := [Req(node, pid, false)], locks := NewTable(Free));
    assert map[][R := LockRec(Free, 0, 0, 0, 0)] == NewTable(Free);
    Handled(h, Message(from, Ask(node, pid)), [], n, [], h.outbox);
  }

  /** The first request, at the oldest daemon. */
  lemma Grants(h: Host, from: Addr, node: NodeId, pid: Pid)
    requires h.node.joined && h.node.locks == map[] && h.node.requests == [] && OwnHead(h.node) && h.outbox == []
    ensures HostDeliver(h, Message(from, Ask(node, pid)), []) ==
            h.(node := h.node.(requests := [Req(node, pid, true)], locks := NewTable(Pending)), idx := h.idx + 1,
               outbox := [Give(node, pid)])
  {
    var q, g := [Req(node, pid, false)], [Req(node, pid, true)];
    assert [] + q == q && FirstWaiter(q, R) == 0 && q[0 := g[0]] == g;
    assert [] + [Give(node, pid)] == [Give(node, pid)];
    assert map[][R := LockRec(Pending, 0, 0, 0, 0)] == NewTable(Pending);
    Handled(h, Message(from, Ask(node, pid)), [], h.node.(requests := g, locks := NewTable(Pending)),
            [Give(node, pid)], [Give(node, pid)]);
  }

  /** A grant to one of its connected clients; the request is the first in the queue. */
  lemma Tells(h: Host, from: Addr, pid: Pid, l: LockRec, rest: seq<Request>)
    requires h.node.joined && h.node.id != 0 && pid != 0 && h.node.locks == map[R := l]
    requires h.node.requests != [] && Matches(h.node.requests[0], R, h.node.id, pid, 1)
    requires rest == h.node.requests[1..] && HasClient(h.node.clients, pid)
    ensures HostDeliver(h, Message(from, Give(h.node.id, pid)), [R]) ==
            Host(h.node.(locks := Table(Held, h.node.id, pid, h.node.lockid + 1), requests := rest,
                         lockid := h.node.lockid + 1),
                 h.idx + 1, h.outbox, h.holds + {H(pid, h.node.lockid + 1)})
  {
    var n, m, id := h.node, Give(h.node.id, pid), h.node.lockid + 1;
    assert FirstMatch(n.requests, R, n.id, pid, 1) == 0 && DropAt(n.requests, 0) == rest;
    assert Record(n, m) ==
      n.(locks := map[R := l.(state := Held, node := n.id, pid := pid, tid := 1)], requests := rest);
    var g := [Granted(pid, 1, R, id)];
    assert g[0].Granted?;
    assert Told(g) == {H(pid, id)};
    assert h.outbox + [] == h.outbox;
    var k := n.(locks := Table(Held, n.id, pid, id), requests := rest, lockid := id);
    assert Put(Record(n, m), R, Record(n, m).locks[R].(localId := id)).(lockid := id) == k;
    assert ProcessGrant(n, m) == Outcome(k, [], g);
  }

  /** A purge that finds nothing. */
  lemma PurgesNothing(h: Host, from: Addr, node: NodeId, pid: Pid)
    requires forall i :: 0 <= i < |h.node.requests| ==> !Purged(h.node.requests[i], node, pid)
    ensures HostDeliver(h, Message(from, Purge(node, pid)), [R]) == h.(idx := h.idx + 1)
  {
    PurgeNothing(h.node.requests, node, pid);
    assert h.outbox + [] == h.outbox;
    Handled(h, Message(from, Purge(node, pid)), [R], h.node, [], h.outbox);
  }

  lemma PurgeNothing(q: seq<Request>, node: NodeId, pid: Pid)
    requires forall i :: 0 <= i < |q| ==> !Purged(q[i], node, pid)
    ensures PurgeQueue(q, node, pid) == q
  {
    if q != [] { PurgeNothing(q[..|q| - 1], node, pid); }
  }

  /** A view with one leaver, at a daemon that is not the oldest after it. */
  lemma OneLeaves(n: Node, d: Addr, list: seq<Addr>, order: seq<Resource>)
    requires FirstAddr(n.members, d) < |n.members| && list == DropAt(n.members, FirstAddr(n.members, d))
    ensures LeaveAll(n, [d], order) == DelNode(n.(members := list), d.id, order)
  {
    assert [d][..0] == [];
    assert LeaveAll(n, [d][..0], order) == Protocol.Quiet(n);
    var b := DelNode(n.(members := list), d.id, order);
    assert [] + b.sent == b.sent;
    DelNodeSilent(n.(members := list), d.id, order);
  }

  lemma DelNodeSilent(n: Node, dead: NodeId, order: seq<Resource>)
    ensures DelNode(n, dead, order).replies == []
  {
  }

  /** The oldest member has nothing to recover. */
  lemma NothingToRecover(n: Node, dead: NodeId, l: LockRec)
    requires n.locks == map[R := l] && (l.node != dead || l.state.Pending?) && OwnHead(n)
    ensures DelNode(n, dead, [R]) == Outcome(PurgeAll(n, dead, 0), [Purge(dead, 0)], [])
  {
    var p := PurgeAll(n, dead, 0);
    assert [R][..0] == [];
    assert RecoverLocks(p, dead, [R][..0]) == Protocol.Quiet(p);
    assert RecoverLock(p, dead, R) == Protocol.Quiet(p);
    assert RecoverLocks(p, dead, [R]) == Protocol.Quiet(p);
    assert [Msg.Purge(dead, 0)] + [] == [Msg.Purge(dead, 0)];
  }

  // ---------- small sets of addresses ----------

  lemma NoIds()
    ensures Ids([]) == {} && IdSeq([]) == []
  {
  }

  lemma OneId(a: Addr)
    ensures Ids([a]) == {a.id} && IdSeq([a]) == [a.id] && FirstId([a], a.id) == 0
  {
    assert [a][0].id == a.id;
  }

  lemma TwoIds(a: Addr, b: Addr)
    ensures Ids([a, b]) == {a.id, b.id} && IdSeq([a, b]) == [a.id, b.id]
    ensures FirstId([a, b], a.id) == 0 && (a.id != b.id ==> FirstId([a, b], b.id) == 1)
  {
    assert [a, b][0].id == a.id && [a, b][1].id == b.id;
    assert [a, b][1..] == [b];
  }

  lemma DropOneOfTwo(a: Addr, b: Addr)
    requires a != b
    ensures FirstAddr([a, b], a) == 0 && DropAt([a, b], 0) == [b]
    ensures FirstAddr([a, b], b) == 1 && DropAt([a, b], 1) == [a]
  {
    var list := [a, b];
    assert list[1..] == [b] && list[..1] == [a];
    assert FirstAddr(list[1..], b) == 0;
    assert list[..1] + list[2..] == [a];
  }

  lemma ThreeIds(a: Addr, b: Addr, c: Addr)
    ensures Ids([a, b, c]) == {a.id, b.id, c.id} && IdSeq([a, b, c]) == [a.id, b.id, c.id]
    ensures FirstId([a, b, c], a.id) == 0 && (a.id != b.id ==> FirstId([a, b, c], b.id) == 1)
    ensures a.id != c.id && b.id != c.id ==> FirstId([a, b, c], c.id) == 2
  {
    assert [a, b, c][0].id == a.id && [a, b, c][1].id == b.id && [a, b, c][2].id == c.id;
    assert [a, b, c][1..] == [b, c] && [b, c][1..] == [c];
  }
}
