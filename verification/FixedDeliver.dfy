/**
 * The fixed-group invariant of a daemon is kept when it is delivered a message.
 */
module FixedDeliver {
  import opened Types
  import opened Protocol
  import opened Cluster
  import opened Slices
  import opened Frames
  import opened Structure
  import opened TokenSlices
  import opened LocalState
  import opened Replica
  import opened FixedGroup

  lemma GrantMarks(n: Node, m: Msg)
    requires m.Grant? && n.joined && Ordinary(n, m)
    ensures var o := ProcessGrant(n, m);
      && o.sent == []
      && (o.node.requests == n.requests
          || o.node.requests == DropAt(n.requests, FirstMatch(n.requests, m.res, m.node, m.pid, m.tid)))
  {
  }

  lemma GrantHeld(n: Node, m: Msg)
    requires m.Grant? && n.joined && Ordinary(n, m) && m.res in n.locks
    ensures m.res in ProcessGrant(n, m).node.locks && ProcessGrant(n, m).node.locks[m.res].state.Held?
  {
  }

  lemma SentKeyed(n: Node, from: Addr, m: Msg)
    requires Keyed(m) && Ordinary(n, m)
    ensures forall i :: 0 <= i < |ProcessMessage(n, from, m).sent| ==> Keyed(ProcessMessage(n, from, m).sent[i])
  {
    match m
    case Lock(r, _, _, _, _) => GrantNextSlice(WithArrival(n, m), r);
    case Grant(r, _, _, _) => if n.joined { GrantMarks(n, m); }
    case Unlock(r, _, _, _) => GrantNextSlice(n, r);
    case Nak(_, _, _, _) =>
  }

  lemma DeliverHead(h: Host, k: Host, from: Addr, m: Msg, r: Resource)
    requires h.node.joined && Ordinary(h.node, m) && k.node == ProcessMessage(h.node, from, m).node
    requires k.node.id == h.node.id && k.node.members == h.node.members && h.node.id != 0 && HeadRes(h, r)
    requires r in h.node.locks && h.node.locks[r].state.Held? ==> h.node.locks[r].node != 0
    ensures HeadRes(k, r)
  {
    if m.Lock? && m.res == r {
      LockSlice(h.node, m);
      if r !in h.node.locks && OwnHead(h.node) { LockGrants(h.node, m); }
    } else if m.Unlock? && m.res == r {
      UnlockSlice(h.node, m);
    } else if m.Grant? && m.res == r {
      GrantSlice(h.node, m);
    } else {
      OtherMessageSlice(h.node, from, m, r);
    }
  }

  lemma DeliverHeads(base: seq<Addr>, log: seq<Event>, h: Host, k: Host)
    requires CleanLog(log) && GrantsToMembers(base, log) && h.idx < |log|
    requires FixedPart(base, log, h) && h.node.id != 0 && Ordinary(h.node, log[h.idx].m)
    requires k.node == ProcessMessage(h.node, log[h.idx].from, log[h.idx].m).node
    ensures forall r :: HeadRes(k, r)
  {
    forall r ensures HeadRes(k, r) {
      RespOfReplay(base, log, r, h.idx);
      assert HeadRes(h, r);
      DeliverHead(h, k, log[h.idx].from, log[h.idx].m, r);
    }
  }

  lemma DeliverFixed(base: seq<Addr>, log: seq<Event>, h: Host, order: seq<Resource>)
    requires CleanLog(log) && GrantsToMembers(base, log) && h.idx < |log|
    requires FixedPart(base, log, h) && h.node.id != 0 && Ordinary(h.node, log[h.idx].m)
    ensures FixedPart(base, log, HostDeliver(h, log[h.idx], order))
  {
    var e := log[h.idx];
    var k, o := HostDeliver(h, e, order), ProcessMessage(h.node, e.from, e.m);
    MessageFrame(h.node, e.from, e.m);
    SentKeyed(h.node, e.from, e.m);
    HandlerReplays(h.node, Replay(log, h.idx), e.from, e.m, h.idx);
    DeliverHeads(base, log, h, k);
    assert forall i :: 0 <= i < |k.outbox| ==>
      k.outbox[i] == if i < |h.outbox| then h.outbox[i] else o.sent[i - |h.outbox|];
  }
}
