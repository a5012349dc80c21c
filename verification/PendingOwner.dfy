/**
 * No handler makes a lock pending that is neither the daemon's own nor nobody's yet.
 */
module PendingOwner {
  import opened Types
  import opened Protocol
  import opened Group
  import opened Cluster
  import opened Structure

  ghost predicate PendingOwn(n: Node) {
    forall r :: r in n.locks && n.locks[r].state.Pending? ==> n.locks[r].node == n.id || n.locks[r].node == 0
  }

  lemma RecoverLocksPending(n: Node, dead: NodeId, order: seq<Resource>)
    requires PendingOwn(n)
    ensures PendingOwn(RecoverLocks(n, dead, order).node) && RecoverLocks(n, dead, order).node.id == n.id
  {
    if order != [] { RecoverLocksPending(n, dead, order[..|order| - 1]); }
  }

  lemma {:induction false} LeaveAllPending(n: Node, left: seq<Addr>, order: seq<Resource>)
    requires PendingOwn(n) && n.id !in Ids(left) && 0 !in Ids(left)
    ensures PendingOwn(LeaveAll(n, left, order).node) && LeaveAll(n, left, order).node.id == n.id
  {
    if left != [] {
      var init, last := left[..|left| - 1], left[|left| - 1];
      assert last.id in Ids(left);
      forall x | x in Ids(init) ensures x in Ids(left) {
        var i :| 0 <= i < |init| && init[i].id == x;
        assert left[i].id == x;
      }
      LeaveAllPending(n, init, order);
      var a := LeaveAll(n, init, order).node;
      LeavePending(a, last, order);
    }
  }

  lemma LeavePending(n: Node, a: Addr, order: seq<Resource>)
    requires PendingOwn(n) && n.id != a.id && a.id != 0
    ensures PendingOwn(Leave(n, a, order).node) && Leave(n, a, order).node.id == n.id
  {
    var d := n.(members := DropAt(n.members, FirstAddr(n.members, a)));
    RecoverLocksPending(PurgeAll(d, a.id, 0), a.id, order);
  }

  lemma ReleaseLocksPending(n: Node, pid: Pid, order: seq<Resource>)
    requires PendingOwn(n)
    ensures PendingOwn(ReleaseLocks(n, pid, order).node) && ReleaseLocks(n, pid, order).node.id == n.id
  {
    if order != [] { ReleaseLocksPending(n, pid, order[..|order| - 1]); }
  }

  lemma DelClientPending(n: Node, fd: nat, order: seq<Resource>)
    requires PendingOwn(n)
    ensures PendingOwn(DelClient(n, fd, order).node)
  {
    var i := FirstFd(n.clients, fd);
    if i < |n.clients| {
      var pid := n.clients[i].pid;
      ReleaseLocksPending(PurgeAll(n.(clients := DropAt(n.clients, i)), n.id, pid), pid, order);
    }
  }

  lemma TellPending(n: Node, m: Msg)
    requires m.Grant? && m.res in n.locks && PendingOwn(n) && n.locks[m.res].state.Held?
    ensures PendingOwn(TellOwner(n, m).node)
  {
    var t := Put(n, m.res, n.locks[m.res].(localId := n.lockid + 1)).(lockid := n.lockid + 1);
    assert PendingOwn(t);
  }

  lemma PassPending(n: Node, m: Msg)
    requires m.Grant? && m.res in n.locks && PendingOwn(n)
    ensures PendingOwn(PassOn(n, m).node)
  {
    assert PendingOwn(Put(n, m.res, n.locks[m.res].(state := Free)));
  }

  lemma GrantPending(n: Node, m: Msg)
    requires m.Grant? && PendingOwn(n)
    ensures PendingOwn(ProcessGrant(n, m).node)
  {
    if n.joined && m.res in n.locks {
      var q := Record(n, m);
      assert PendingOwn(q);
      TellPending(q, m);
      PassPending(q, m);
    }
  }

  lemma MessagePending(n: Node, from: Addr, m: Msg)
    requires PendingOwn(n)
    ensures PendingOwn(ProcessMessage(n, from, m).node)
  {
    match m
    case Lock(_, _, _, _, _) =>
    case Grant(_, _, _, _) => GrantPending(n, m);
    case Unlock(_, _, _, _) =>
    case Nak(_, _, _, _) =>
    case Purge(_, _) =>
    case Join =>
  }

  lemma DeliverPending(base: seq<Addr>, log: seq<Event>, h: Host, order: seq<Resource>)
    requires WellFormedLog(base, log) && PlaceInv(base, log, h) && h.idx < |log| && PendingOwn(h.node)
    ensures PendingOwn(HostDeliver(h, log[h.idx], order).node)
  {
    match log[h.idx]
    case Message(from, m) => MessagePending(h.node, from, m);
    case View(members, left, joins) =>
      assert SoundAt(base, log, h.idx);
      RosterFacts(base, log, h.idx);
      LeaveAllPending(SeedView(h.node, members, joins), left, order);
  }

  lemma UnlockPending(n: Node, id: nat, order: seq<Resource>)
    requires PendingOwn(n)
    ensures PendingOwn(ClientUnlock(n, id, order).node)
  {
  }
}
