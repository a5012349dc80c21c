/**
 * A fixed, fully joined group without disconnects: every daemon's shared view is a pure
 * replay of the messages delivered to it, whatever its local marks and pending states.
 */
module Replica {
  import opened Types
  import opened Protocol
  import opened Slices

  // ---------- replay ----------

  /** What all daemons are meant to know of a lock. */
  datatype Owner = Owner(held: bool, node: NodeId, pid: Pid, tid: Tid)

  /** A waiting request and the position at which it was ordered. */
  datatype Item = Item(key: Key, pos: nat)

  datatype Shared = Shared(table: map<Resource, Owner>, queue: seq<Item>)

  function FirstKey(q: seq<Item>, k: Key): (i: nat)
    ensures i <= |q|
    ensures i < |q| ==> q[i].key == k
    ensures forall j :: 0 <= j < i ==> q[j].key != k
  {
    if q == [] then 0 else if q[0].key == k then 0 else 1 + FirstKey(q[1..], k)
  }

  function Take(q: seq<Item>, k: Key): seq<Item> {
    DropAt(q, FirstKey(q, k))
  }

  /** The effect of the message ordered at position p. */
  function Advance(s: Shared, m: Msg, p: nat): Shared {
    match m
    case Lock(r, _, _, _, _) =>
      Shared(if r in s.table then s.table else s.table[r := Owner(false, 0, 0, 0)], s.queue + [Item(MsgKey(m), p)])
    case Grant(r, node, pid, tid) =>
      Shared(s.table[r := Owner(true, node, pid, tid)], if r in s.table then Take(s.queue, MsgKey(m)) else s.queue)
    case Unlock(r, node, pid, _) =>
      if r in s.table && s.table[r].held && s.table[r].node == node && s.table[r].pid == pid then
        s.(table := s.table[r := s.table[r].(held := false)])
      else s
    case Nak(_, _, _, _) => s.(queue := Take(s.queue, MsgKey(m)))
    case _ => s
  }

  function Replay(log: seq<Event>, i: nat): Shared
    requires i <= |log|
  {
    if i == 0 then Shared(map[], [])
    else if log[i - 1].Message? then Advance(Replay(log, i - 1), log[i - 1].m, i - 1)
    else Replay(log, i - 1)
  }

  lemma ReplayPrefix(log: seq<Event>, e: Event, i: nat)
    requires i <= |log|
    ensures Replay(log + [e], i) == Replay(log, i)
  {
    if i > 0 { ReplayPrefix(log, e, i - 1); }
  }

  // ---------- agreement of one daemon with a replay ----------

  function OwnerOf(l: LockRec): Owner {
    Owner(l.state.Held?, l.node, l.pid, l.tid)
  }

  ghost predicate TableAgrees(locks: map<Resource, LockRec>, table: map<Resource, Owner>) {
    locks.Keys == table.Keys && forall r :: r in locks ==> OwnerOf(locks[r]) == table[r]
  }

  ghost predicate QueueAgrees(q: seq<Request>, items: seq<Item>) {
    |q| == |items| && forall i :: 0 <= i < |q| ==> KeyOf(q[i]) == items[i].key
  }

  /** The daemon's table without local states and its queue without marks. */
  ghost predicate Agrees(n: Node, s: Shared) {
    TableAgrees(n.locks, s.table) && QueueAgrees(n.requests, s.queue)
  }

  lemma TakeAgrees(q: seq<Request>, items: seq<Item>, k: Key)
    requires QueueAgrees(q, items)
    ensures FirstMatch(q, k.res, k.node, k.pid, k.tid) == FirstKey(items, k)
    ensures QueueAgrees(DropAt(q, FirstMatch(q, k.res, k.node, k.pid, k.tid)), Take(items, k))
  {
  }

  lemma GrantNextAgrees(n: Node, r: Resource, items: seq<Item>)
    requires QueueAgrees(n.requests, items)
    ensures QueueAgrees(GrantNext(n, r).node.requests, items) && GrantNext(n, r).node.locks == n.locks
  {
  }

  /** A message that a fixed group without disconnects can see at this daemon. */
  ghost predicate Ordinary(n: Node, m: Msg) {
    && !m.Join? && !m.Purge?
    && (m.Grant? ==> m.node != 0 && m.pid != 0 && IsMember(n.members, m.node) && (m.node == n.id ==>
          HasClient(n.clients, m.pid)))
    && (m.Nak? && m.node == n.id ==> HasClient(n.clients, m.pid))
  }

  /** One message: the handler does to the shared view what the replay does. */
  lemma HandlerReplays(n: Node, s: Shared, from: Addr, m: Msg, p: nat)
    requires n.joined && Agrees(n, s) && Ordinary(n, m)
    ensures Agrees(ProcessMessage(n, from, m).node, Advance(s, m, p))
  {
    match m
    case Lock(_, _, _, _, _) => LockReplays(n, s, m, p);
    case Grant(r, _, _, _) => GrantReplays(n, s, m, p);
    case Unlock(r, _, _, _) => GrantNextAgrees(n, r, s.queue);
    case Nak(_, _, _, _) => TakeAgrees(n.requests, s.queue, MsgKey(m));
  }

  lemma LockReplays(n: Node, s: Shared, m: Msg, p: nat)
    requires m.Lock? && n.joined && Agrees(n, s)
    ensures Agrees(ProcessLock(n, m).node, Advance(s, m, p))
  {
    var q := n.(requests := n.requests + [Request(m.res, m.node, m.pid, m.tid, false)]);
    GrantNextAgrees(q, m.res, s.queue + [Item(MsgKey(m), p)]);
  }

  lemma GrantReplays(n: Node, s: Shared, m: Msg, p: nat)
    requires m.Grant? && n.joined && Agrees(n, s) && Ordinary(n, m)
    ensures Agrees(ProcessGrant(n, m).node, Advance(s, m, p))
  {
    TakeAgrees(n.requests, s.queue, MsgKey(m));
  }
}
