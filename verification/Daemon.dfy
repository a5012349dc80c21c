/**
 * The lock daemon as the program has it: one object whose fields the handlers update in
 * place, with loops that search, delete and walk. Every method is proved to do to the
 * whole state exactly what the corresponding function of module Protocol says.
 */
module Daemon {
  import opened Types
  import P = Protocol
  import opened Cluster
  import opened Membership

  /** What has been done so far, followed by one more handler. */
  function Then(before: Outcome, step: Outcome): Outcome {
    Outcome(step.node, before.sent + step.sent, before.replies + step.replies)
  }

  lemma ThenThen(before: Outcome, a: Outcome, b: Outcome)
    ensures Then(Then(before, a), b) == Then(before, Then(a, b))
  {
  }

  lemma ThenQuiet(before: Outcome, n: Node)
    ensures Then(before, P.Quiet(n)) == Outcome(n, before.sent, before.replies)
  {
  }

  /** A queue of which the first k requests have been looked at. */
  predicate PartlyPurged(q: seq<Request>, k: nat, node: NodeId, pid: Pid, i: nat, current: seq<Request>) {
    && k <= |q|
    && i == |P.PurgeQueue(q[..k], node, pid)|
    && current == P.PurgeQueue(q[..k], node, pid) + q[k..]
  }

  lemma PurgeStep(q: seq<Request>, k: nat, node: NodeId, pid: Pid, i: nat, current: seq<Request>)
    requires PartlyPurged(q, k, node, pid, i, current) && i < |current|
    ensures k < |q| && current[i] == q[k]
    ensures
      if P.Purged(current[i], node, pid) then PartlyPurged(q, k + 1, node, pid, i, current[..i] + current[i + 1..])
      else PartlyPurged(q, k + 1, node, pid, i + 1, current)
  {
    var done := P.PurgeQueue(q[..k], node, pid);
    assert q[..k + 1][..k] == q[..k];
    assert current[..i] == done && current[i + 1..] == q[k + 1..];
    assert current == done + [q[k]] + q[k + 1..];
  }

  /** A table of which the locks in done have been looked at. */
  ghost predicate Relabelled(was: map<Resource, LockRec>, now: map<Resource, LockRec>, done: seq<Resource>,
                             dead: NodeId, heir: Addr) {
    && now.Keys == was.Keys
    && forall r :: r in was ==>
         now[r] == if r in done && was[r].node == dead then was[r].(node := heir.id, pid := heir.pid) else was[r]
  }

  lemma RelabelStep(was: map<Resource, LockRec>, now: map<Resource, LockRec>, done: seq<Resource>, r: Resource,
                    dead: NodeId, heir: Addr)
    requires Relabelled(was, now, done, dead, heir) && r in was && r !in done
    ensures Relabelled(was, if now[r].node == dead then now[r := now[r].(node := heir.id, pid := heir.pid)] else now,
                       done + [r], dead, heir)
  {
  }

  lemma RelabelDone(was: map<Resource, LockRec>, now: map<Resource, LockRec>, order: seq<Resource>, dead: NodeId,
                    heir: Addr)
    requires Relabelled(was, now, order, dead, heir) && IsWalk(was, order)
    ensures now == P.Relabel(was, dead, heir)
  {
  }

  /** Recovery and release write nothing to clients. */
  lemma RecoverReplies(n: Node, dead: NodeId, order: seq<Resource>, r: Resource)
    ensures P.RecoverLocks(n, dead, order).replies == [] && P.RecoverLock(n, dead, r).replies == []
  {
  }

  lemma ReleaseReplies(n: Node, pid: Pid, order: seq<Resource>, r: Resource)
    ensures P.ReleaseLocks(n, pid, order).replies == [] && P.ReleaseLock(n, pid, r).replies == []
  {
  }

  lemma LeaveReplies(n: Node, left: seq<Addr>, order: seq<Resource>)
    ensures P.LeaveAll(n, left, order).replies == []
    ensures left != [] ==> P.Leave(P.LeaveAll(n, left[..|left| - 1], order).node, left[|left| - 1], order).replies == []
  {
  }

  /** The daemon, n at first, met its own address at position x of the leavers, having processed those before. */
  ghost predicate StoppedBy(before: Outcome, n: Node, left: seq<Addr>, order: seq<Resource>, x: nat, after: Outcome) {
    && x < |left| && left[x].id == n.id
    && after == Then(before, P.LeaveAll(n, left[..x], order))
    && left[x] in after.node.members
  }

  ghost predicate StoppedAt(before: Outcome, n: Node, left: seq<Addr>, order: seq<Resource>, after: Outcome) {
    exists x: nat :: StoppedBy(before, n, left, order, x, after)
  }

  /** What was sent before is all that matters of the earlier trace. */
  lemma StoppedSame(a: Outcome, b: Outcome, n: Node, left: seq<Addr>, order: seq<Resource>, after: Outcome)
    requires StoppedAt(a, n, left, order, after) && a.sent == b.sent && a.replies == b.replies
    ensures StoppedAt(b, n, left, order, after)
  {
    var x: nat :| StoppedBy(a, n, left, order, x, after);
    assert StoppedBy(b, n, left, order, x, after);
  }

  class Daemon {
    const id: NodeId
    const pid: Pid
    var joined: bool
    var total: nat
    var members: seq<Addr>
    var locks: map<Resource, LockRec>
    var requests: seq<Request>
    var clients: seq<Client>
    var lockid: nat
    var sent: seq<Msg>       // multicast so far
    var replies: seq<Reply>  // written to clients so far

    constructor (a: Addr)
      ensures id == a.id && pid == a.pid
      ensures Trace() == Outcome(FreshNode(a), [], [])
    {
      id, pid := a.id, a.pid;
      joined, total, members, locks, requests, clients, lockid := false, 0, [], map[], [], [], 0;
      sent, replies := [], [];
    }

    ghost function State(): Node
      reads this
    {
      Node(id, pid, joined, total, members, locks, requests, clients, lockid)
    }

    ghost function Trace(): Outcome
      reads this
    {
      Outcome(State(), sent, replies)
    }

    // ---------- queue ----------

    method GrantNext(r: Resource) returns (granted: bool)
      modifies this
      ensures Trace() == Then(old(Trace()), P.GrantNext(old(State()), r))
      ensures granted <==> P.GrantNext(old(State()), r).sent != []
    {
      var i := 0;
      while i < |requests|
        invariant 0 <= i <= |requests| && Trace() == old(Trace())
        invariant forall j :: 0 <= j < i ==> !P.IsWaiter(requests[j], r)
      {
        var q := requests[i];
        if q.res == r && !q.granted {
          assert i == P.FirstWaiter(requests, r);
          requests := requests[i := q.(granted := true)];
          sent := sent + [Grant(r, q.node, q.pid, q.tid)];
          return true;
        }
        i := i + 1;
      }
      assert P.FirstWaiter(requests, r) == |requests|;
      ThenQuiet(Trace(), State());
      return false;
    }

    /** grant_next, and the given message if nobody is waiting. */
    method GrantOrSend(r: Resource, m: Msg)
      modifies this
      ensures Trace() == Then(old(Trace()), P.GrantOr(old(State()), r, m))
    {
      var granted := GrantNext(r);
      if !granted { sent := sent + [m]; }
    }

    method PurgeRequests(node: NodeId, owner: Pid)
      modifies this
      ensures State() == P.PurgeAll(old(State()), node, owner) && sent == old(sent) && replies == old(replies)
    {
      ghost var q := requests;
      ghost var k := 0;
      var i := 0;
      assert q[..0] == [] && P.PurgeQueue(q[..0], node, owner) == [];
      while i < |requests|
        invariant PartlyPurged(q, k, node, owner, i, requests)
        invariant State() == old(State()).(requests := requests) && sent == old(sent) && replies == old(replies)
        decreases |q| - k
      {
        PurgeStep(q, k, node, owner, i, requests);
        if requests[i].node == node && (owner == 0 || requests[i].pid == owner) {
          requests := requests[..i] + requests[i + 1..];
        } else {
          i := i + 1;
        }
        k := k + 1;
      }
      assert q[..k] == q;
    }

    /** Take the request with this key off the queue. */
    method TakeRequest(r: Resource, node: NodeId, owner: Pid, tid: Tid) returns (found: bool)
      modifies this
      ensures var i := P.FirstMatch(old(requests), r, node, owner, tid);
        && State() == old(State()).(requests := P.DropAt(old(requests), i))
        && (found <==> i < |old(requests)|)
      ensures sent == old(sent) && replies == old(replies)
    {
      var i := 0;
      while i < |requests|
        invariant 0 <= i <= |requests| && Trace() == old(Trace())
        invariant forall j :: 0 <= j < i ==> !P.Matches(requests[j], r, node, owner, tid)
      {
        var q := requests[i];
        if q.res == r && q.node == node && q.pid == owner && q.tid == tid {
          assert i == P.FirstMatch(requests, r, node, owner, tid);
          requests := requests[..i] + requests[i + 1..];
          return true;
        }
        i := i + 1;
      }
      return false;
    }

    // ---------- lookups ----------

    method FindClient(owner: Pid) returns (found: bool)
      ensures found <==> P.HasClient(clients, owner)
    {
      var i := 0;
      while i < |clients|
        invariant 0 <= i <= |clients|
        invariant forall j :: 0 <= j < i ==> clients[j].pid != owner
      {
        if clients[i].pid == owner { return true; }
        i := i + 1;
      }
      return false;
    }

    method IsMember(node: NodeId) returns (found: bool)
      ensures found <==> P.IsMember(members, node)
    {
      var i := 0;
      while i < |members|
        invariant 0 <= i <= |members|
        invariant forall j :: 0 <= j < i ==> members[j].id != node
      {
        if members[i].id == node { return true; }
        i := i + 1;
      }
      return false;
    }

    /** Is this daemon the oldest member? An empty list has no oldest member. */
    method IsOldest() returns (oldest: bool)
      ensures oldest <==> P.OwnHead(State())
    {
      oldest := |members| > 0 && members[0].id == id;
    }

    /** find_lock_by_id: the first lock of a walk that carries the id. */
    method FindLockById(lock: nat, order: seq<Resource>) returns (r: Option<Resource>)
      ensures var i := P.FirstLockId(locks, lock, order);
        r == if i < |order| then Some(order[i]) else None
    {
      var i := 0;
      while i < |order|
        invariant 0 <= i <= |order|
        invariant forall j :: 0 <= j < i ==> !(order[j] in locks && locks[order[j]].localId == lock)
      {
        if order[i] in locks && locks[order[i]].localId == lock {
          assert i == P.FirstLockId(locks, lock, order);
          return Some(order[i]);
        }
        i := i + 1;
      }
      return None;
    }

    // ---------- messages ----------

    method ProcessLock(m: Msg)
      requires m.Lock?
      modifies this
      ensures Trace() == Then(old(Trace()), P.ProcessLock(old(State()), m))
    {
      if !joined {
        ThenQuiet(Trace(), State());
        return;
      }
      requests := requests + [Request(m.res, m.node, m.pid, m.tid, false)];
      ghost var q := Trace();
      if m.res in locks {
        var l := locks[m.res];
        if l.node == id {
          if l.state.Free? {
            locks := locks[m.res := l.(state := Pending)];
            var granted := GrantNext(m.res);
            if !granted { locks := locks[m.res := l.(state := Free)]; }
          } else if m.isTry {
            sent := sent + [Nak(m.res, m.node, m.pid, m.tid)];
          }
        }
      } else {
        var l := LockRec(Free, 0, 0, 0, 0);
        locks := locks[m.res := l];
        var oldest := IsOldest();
        if oldest {
          locks := locks[m.res := l.(state := Pending)];
          var granted := GrantNext(m.res);
          if !granted { locks := locks[m.res := l.(state := Free)]; }
        }
      }
    }

    /** grant_client: number the lock and tell its owner; fails if the owner has no connection. */
    method GrantClient(r: Resource) returns (told: bool)
      requires r in locks
      modifies this
      ensures told <==> P.HasClient(old(clients), old(locks)[r].pid)
      ensures var l := old(locks)[r].(localId := old(lockid) + 1);
        && State() == P.Put(old(State()), r, l).(lockid := l.localId)
        && sent == old(sent)
        && replies == old(replies) + if told then [Granted(l.pid, l.tid, r, l.localId)] else []
    {
      lockid := lockid + 1;
      var l := locks[r].(localId := lockid);
      locks := locks[r := l];
      told := FindClient(l.pid);
      if told { replies := replies + [Granted(l.pid, l.tid, r, lockid)]; }
    }

    method ProcessGrant(m: Msg)
      requires m.Grant?
      modifies this
      ensures Trace() == Then(old(Trace()), P.ProcessGrant(old(State()), m))
    {
      if !joined {
        ThenQuiet(Trace(), State());
        return;
      }
      if m.res !in locks {
        locks := locks[m.res := LockRec(Held, m.node, m.pid, m.tid, 0)];
        return;
      }
      if locks[m.res].state.Held? && (m.pid == 0 || m.node == 0) {
        ThenQuiet(Trace(), State());
        return;
      }
      locks := locks[m.res := locks[m.res].(state := Held, node := m.node, pid := m.pid, tid := m.tid)];
      var _ := TakeRequest(m.res, m.node, m.pid, m.tid);
      assert Trace() == Outcome(P.Record(old(State()), m), old(sent), old(replies));
      AfterRecord(m);
    }

    /** The owner's own daemon: tell the client, or pass the lock on if the client is gone. */
    method TellOwner(m: Msg) returns (told: bool)
      requires m.Grant? && m.res in locks && locks[m.res].pid == m.pid && locks[m.res].tid == m.tid
      modifies this
      ensures told <==> P.HasClient(old(clients), m.pid)
      ensures Trace() == Then(old(Trace()), P.TellOwner(old(State()), m)) && members == old(members)
    {
      told := GrantClient(m.res);
      if !told {
        PurgeRequests(id, m.pid);
        GrantOrSend(m.res, Unlock(m.res, m.node, m.pid, m.tid));
      }
    }

    method AfterRecord(m: Msg)
      requires m.Grant? && m.res in locks && locks[m.res].node == m.node && locks[m.res].pid == m.pid
      requires locks[m.res].tid == m.tid
      modifies this
      ensures Trace() == Then(old(Trace()),
        if m.node == id then P.TellOwner(old(State()), m)
        else if P.OwnHead(old(State())) && !P.IsMember(old(members), m.node) then P.PassOn(old(State()), m)
        else P.Quiet(old(State())))
    {
      if m.node == id {
        var told := TellOwner(m);
        if !told { return; }
      } else {
        ThenQuiet(Trace(), State());
      }
      var oldest := IsOldest();
      var member := IsMember(m.node);
      if oldest && !member {
        assert m.node != id;
        locks := locks[m.res := locks[m.res].(state := Free)];
        GrantOrSend(m.res, Unlock(m.res, m.node, m.pid, m.tid));
      }
    }

    method ProcessNak(m: Msg)
      requires m.Nak?
      modifies this
      ensures Trace() == Then(old(Trace()), P.ProcessNak(old(State()), m))
    {
      if joined {
        var found := TakeRequest(m.res, m.node, m.pid, m.tid);
        if found && m.node == id {
          var told := FindClient(m.pid);
          if told {
            replies := replies + [Refused(m.pid, m.tid, m.res)];
          } else {
            PurgeRequests(id, m.pid);
          }
        }
      }
    }

    /** The program walks the whole table looking for the one lock the message is about. */
    method ProcessUnlock(m: Msg, order: seq<Resource>)
      requires m.Unlock? && IsWalk(locks, order)
      modifies this
      ensures Trace() == Then(old(Trace()), P.ProcessUnlock(old(State()), m))
    {
      if !joined {
        ThenQuiet(Trace(), State());
        return;
      }
      ThenQuiet(Trace(), State());
      var k := 0;
      while k < |order|
        invariant 0 <= k <= |order| && locks.Keys == old(locks).Keys
        invariant Trace() ==
          if m.res in order[..k] then Then(old(Trace()), P.ProcessUnlock(old(State()), m)) else old(Trace())
      {
        var r := order[k];
        assert order[..k + 1] == order[..k] + [r];
        assert r in order;
        if r == m.res {
          assert m.res !in order[..k];
          var l := locks[r];
          if l.state.Held? && l.node == m.node && l.pid == m.pid {
            locks := locks[r := l.(state := Free)];
            if l.node == id {
              var granted := GrantNext(r);
              if granted { locks := locks[r := l.(state := Pending)]; }
            }
          }
        }
        k := k + 1;
      }
      assert order[..k] == order;
    }

    method ProcessJoin(from: Addr)
      modifies this
      ensures Trace() == Then(old(Trace()), P.ProcessJoin(old(State()), from))
    {
      var i := 0;
      while i < |members|
        invariant 0 <= i <= |members| && Trace() == old(Trace())
        invariant forall j :: 0 <= j < i ==> members[j].id != from.id
      {
        if members[i].id == from.id {
          assert i == P.FirstId(members, from.id);
          if members[i].pid == from.pid {
            members := members[..i] + members[i + 1..] + [from];
          }
          return;
        }
        i := i + 1;
      }
      if from.id == id { joined := true; }
      members := members + [from];
      total := total + 1;
    }

    /** process_request. */
    method Deliver(from: Addr, m: Msg, order: seq<Resource>)
      requires IsWalk(locks, order)
      modifies this
      ensures Trace() == Then(old(Trace()), P.ProcessMessage(old(State()), from, m))
    {
      match m
      case Lock(_, _, _, _, _) => ProcessLock(m);
      case Grant(_, _, _, _) => ProcessGrant(m);
      case Unlock(_, _, _, _) => ProcessUnlock(m, order);
      case Nak(_, _, _, _) => ProcessNak(m);
      case Purge(node, owner) => PurgeRequests(node, owner);
      case Join => ProcessJoin(from);
    }

    // ---------- views ----------

    /** The inner loop of the bootstrap branch: one entry per joiner other than the member itself. */
    method SeedMember(a: Addr, joins: seq<Addr>)
      modifies this`members
      ensures members == old(members) + P.SeedOne(a, joins, id)
    {
      var y := 0;
      assert joins[..0] == [];
      while y < |joins|
        invariant 0 <= y <= |joins|
        invariant members == old(members) + P.SeedOne(a, joins[..y], id)
      {
        assert joins[..y + 1][..y] == joins[..y];
        if joins[y].id != a.id && a.id != id {
          members := members + [a];
        }
        y := y + 1;
      }
      assert joins[..y] == joins;
    }

    /** The bootstrap branch of cpg_config_change. */
    method SeedMembers(view: seq<Addr>, joins: seq<Addr>)
      modifies this`members, this`total
      ensures members == old(members) + P.Seed(view, joins, id) && total == |view|
    {
      var x := 0;
      assert view[..0] == [];
      while x < |view|
        invariant 0 <= x <= |view|
        invariant members == old(members) + P.Seed(view[..x], joins, id)
      {
        assert view[..x + 1][..x] == view[..x];
        SeedMember(view[x], joins);
        x := x + 1;
      }
      assert view[..x] == view;
      total := |view|;
    }

    /** A survivor that is not the oldest hands the dead node's locks to the oldest. */
    method RelabelLocks(dead: NodeId, heir: Addr, order: seq<Resource>)
      requires IsWalk(locks, order)
      modifies this
      ensures State() == old(State()).(locks := P.Relabel(old(locks), dead, heir))
      ensures sent == old(sent) && replies == old(replies)
    {
      var k := 0;
      assert order[..0] == [];
      while k < |order|
        invariant 0 <= k <= |order| && Relabelled(old(locks), locks, order[..k], dead, heir)
        invariant State() == old(State()).(locks := locks) && sent == old(sent) && replies == old(replies)
      {
        var r := order[k];
        assert r in order && order[..k + 1] == order[..k] + [r];
        RelabelStep(old(locks), locks, order[..k], r, dead, heir);
        if locks[r].node == dead {
          locks := locks[r := locks[r].(node := heir.id, pid := heir.pid)];
        }
        k := k + 1;
      }
      assert order[..k] == order;
      RelabelDone(old(locks), locks, order, dead, heir);
    }

    method RecoverLock(dead: NodeId, r: Resource)
      requires r in locks
      modifies this
      ensures Trace() == Then(old(Trace()), P.RecoverLock(old(State()), dead, r))
      ensures locks.Keys == old(locks).Keys
    {
      var l := locks[r];
      if l.node == dead && l.state.Held? {
        locks := locks[r := l.(state := Free)];
        var granted := GrantNext(r);
        if !granted {
          locks := locks[r := l.(state := Free, node := id, pid := pid)];
          sent := sent + [Unlock(r, id, pid, 0)];
        }
      } else if l.node == dead && l.state.Free? {
        assert old(State()) == P.Put(old(State()), r, l);
        var granted := GrantNext(r);
        if !granted { locks := locks[r := l.(node := id, pid := pid)]; }
      }
    }

    /** The recovery walk of del_node. */
    method RecoverLocks(dead: NodeId, order: seq<Resource>)
      requires IsWalk(locks, order)
      modifies this
      ensures Trace() == Then(old(Trace()), P.RecoverLocks(old(State()), dead, order))
      ensures locks.Keys == old(locks).Keys
    {
      var k := 0;
      assert order[..0] == [];
      ThenQuiet(Trace(), State());
      while k < |order|
        invariant 0 <= k <= |order| && locks.Keys == old(locks).Keys
        invariant Trace() == Then(old(Trace()), P.RecoverLocks(old(State()), dead, order[..k]))
      {
        assert order[k] in order && order[..k + 1][..k] == order[..k];
        ghost var a := P.RecoverLocks(old(State()), dead, order[..k]);
        RecoverReplies(old(State()), dead, order[..k], order[k]);
        ThenThen(old(Trace()), a, P.RecoverLock(a.node, dead, order[k]));
        RecoverLock(dead, order[k]);
        k := k + 1;
      }
      assert order[..k] == order;
    }

    /** del_node. */
    method DelNode(dead: NodeId, order: seq<Resource>)
      requires IsWalk(locks, order)
      modifies this
      ensures Trace() == Then(old(Trace()), P.DelNode(old(State()), dead, order))
      ensures locks.Keys == old(locks).Keys
    {
      var oldest := IsOldest();
      if !oldest {
        if |members| > 0 { RelabelLocks(dead, members[0], order); }
        return;
      }
      PurgeRequests(dead, 0);
      sent := sent + [Purge(dead, 0)];
      RecoverReplies(State(), dead, order, 0);
      RecoverLocks(dead, order);
    }

    /** One leaver; stop means the program exits because it was told of its own departure. */
    method DropMember(a: Addr, order: seq<Resource>) returns (stop: bool)
      requires IsWalk(locks, order)
      modifies this
      ensures stop ==> a.id == id && a in old(members) && Trace() == old(Trace())
      ensures !stop ==> Trace() == Then(old(Trace()), P.Leave(old(State()), a, order))
      ensures !stop ==> (a.id == id ==> a !in old(members)) && locks.Keys == old(locks).Keys
    {
      var i := 0;
      while i < |members|
        invariant 0 <= i <= |members| && Trace() == old(Trace())
        invariant forall j :: 0 <= j < i ==> members[j] != a
      {
        if members[i].id == a.id && members[i].pid == a.pid {
          assert members[i] == a && i == P.FirstAddr(members, a);
          if a.id == id { return true; }
          members := members[..i] + members[i + 1..];
          DelNode(a.id, order);
          return false;
        }
        i := i + 1;
      }
      return false;
    }

    method DropMembers(left: seq<Addr>, order: seq<Resource>) returns (stop: bool)
      requires IsWalk(locks, order)
      modifies this
      ensures stop ==> StoppedAt(old(Trace()), old(State()), left, order, Trace())
      ensures !stop ==> Trace() == Then(old(Trace()), P.LeaveAll(old(State()), left, order))
    {
      var x := 0;
      assert left[..0] == [];
      ThenQuiet(Trace(), State());
      while x < |left|
        invariant 0 <= x <= |left| && IsWalk(locks, order)
        invariant Trace() == Then(old(Trace()), P.LeaveAll(old(State()), left[..x], order))
      {
        assert left[..x + 1][..x] == left[..x];
        ghost var a := P.LeaveAll(old(State()), left[..x], order);
        LeaveReplies(old(State()), left[..x + 1], order);
        stop := DropMember(left[x], order);
        if stop {
          assert StoppedBy(old(Trace()), old(State()), left, order, x, Trace());
          return true;
        }
        ThenThen(old(Trace()), a, P.Leave(a.node, left[x], order));
        x := x + 1;
      }
      assert left[..x] == left;
      return false;
    }

    /** cpg_config_change. */
    method ConfigChange(view: seq<Addr>, left: seq<Addr>, joins: seq<Addr>, order: seq<Resource>) returns (stop: bool)
      requires IsWalk(locks, order)
      modifies this
      ensures stop ==> StoppedAt(old(Trace()), P.SeedView(old(State()), view, joins), left, order, Trace())
      ensures !stop ==> Trace() == Then(old(Trace()), P.ConfigChange(old(State()), view, left, joins, order))
    {
      if total == 0 { SeedMembers(view, joins); }
      ghost var start := P.SeedView(old(State()), view, joins);
      assert Trace() == Outcome(start, old(sent), old(replies));
      ghost var seeded := Trace();
      var was := |members|;
      stop := DropMembers(left, order);
      if stop {
        StoppedSame(seeded, old(Trace()), start, left, order, Trace());
      } else {
        LeaveAllFrame(start, left, order);
        var removed := was - |members|;
        total := if removed <= total then total - removed else 0;
      }
    }

    // ---------- clients ----------

    method Connect(fd: nat)
      modifies this
      ensures State() == old(State()).(clients := old(clients) + [Client(fd, 0)]) && sent == old(sent)
      ensures replies == old(replies)
    {
      clients := clients + [Client(fd, 0)];
    }

    /** The position of a connection in the client list. */
    method FindFd(fd: nat) returns (i: nat)
      ensures i == P.FirstFd(clients, fd)
    {
      i := 0;
      while i < |clients|
        invariant 0 <= i <= |clients|
        invariant forall j :: 0 <= j < i ==> clients[j].fd != fd
      {
        if clients[i].fd == fd {
          assert i == P.FirstFd(clients, fd);
          return i;
        }
        i := i + 1;
      }
    }

    /** A lock request from a client. */
    method ClientLock(fd: nat, r: Resource, owner: Pid, tid: Tid, isTry: bool)
      modifies this
      ensures Trace() == Then(old(Trace()), P.ClientLock(old(State()), fd, r, owner, tid, isTry))
    {
      var i := FindFd(fd);
      if i < |clients| {
        clients := clients[i := Client(fd, owner)];
        sent := sent + [Lock(r, id, owner, tid, isTry)];
      }
    }

    /** An unlock request from a client. */
    method ClientUnlock(lock: nat, order: seq<Resource>)
      modifies this
      ensures Trace() == Then(old(Trace()), P.ClientUnlock(old(State()), lock, order))
    {
      var r := FindLockById(lock, order);
      if r.Some? {
        var l := locks[r.value];
        GrantOrSend(r.value, Unlock(r.value, l.node, l.pid, l.tid));
      }
    }

    /** The release walk of del_client. */
    method ReleaseLocks(owner: Pid, order: seq<Resource>)
      requires IsWalk(locks, order)
      modifies this
      ensures Trace() == Then(old(Trace()), P.ReleaseLocks(old(State()), owner, order))
    {
      var k := 0;
      assert order[..0] == [];
      ThenQuiet(Trace(), State());
      while k < |order|
        invariant 0 <= k <= |order| && locks.Keys == old(locks).Keys
        invariant Trace() == Then(old(Trace()), P.ReleaseLocks(old(State()), owner, order[..k]))
      {
        assert order[k] in order && order[..k + 1][..k] == order[..k];
        ghost var a := P.ReleaseLocks(old(State()), owner, order[..k]);
        ReleaseReplies(old(State()), owner, order[..k], order[k]);
        ThenThen(old(Trace()), a, P.ReleaseLock(a.node, owner, order[k]));
        ReleaseLock(owner, order[k]);
        k := k + 1;
      }
      assert order[..k] == order;
    }

    method ReleaseLock(owner: Pid, r: Resource)
      requires r in locks
      modifies this
      ensures Trace() == Then(old(Trace()), P.ReleaseLock(old(State()), owner, r))
      ensures locks.Keys == old(locks).Keys
    {
      if locks[r].node == id && locks[r].pid == owner && locks[r].state.Held? {
        locks := locks[r := locks[r].(state := Free)];
        GrantOrSend(r, Unlock(r, id, owner, 0));
      } else {
        ThenQuiet(Trace(), State());
      }
    }

    /** del_client. */
    method DelClient(fd: nat, order: seq<Resource>)
      requires IsWalk(locks, order)
      modifies this
      ensures Trace() == Then(old(Trace()), P.DelClient(old(State()), fd, order))
    {
      var i := FindFd(fd);
      if i == |clients| { return; }
      var owner := clients[i].pid;
      clients := clients[..i] + clients[i + 1..];
      if owner == 0 { return; }
      PurgeRequests(id, owner);
      sent := sent + [Purge(id, owner)];
      ReleaseReplies(State(), owner, order, 0);
      ReleaseLocks(owner, order);
    }
  }
}
