/**
 * A client vanishes: what del_client does, and exactly when it is safe.
 */
module Disconnect {
  import opened Types
  import opened Protocol
  import opened Group
  import opened Cluster
  import opened Slices
  import opened Membership
  import opened Invariant
  import opened TokenSlices
  import opened TokenLocal
  import opened Runs
  import opened Safety
  import opened ViewGuard

  // ---------- what del_client does, for any table and queue ----------

  /** The message that disposes of r: a grant to the first waiter, or else the release. */
  function Disposal(q: seq<Request>, r: Resource, release: Msg): Msg {
    var i := FirstWaiter(q, r);
    if i < |q| then Grant(r, q[i].node, q[i].pid, q[i].tid) else release
  }

  lemma FirstWaiterSame(a: seq<Request>, b: seq<Request>, r: Resource)
    requires SameWaiters(a, b, r)
    ensures FirstWaiter(a, r) == FirstWaiter(b, r)
  {
  }

  lemma ReleaseLockExact(n: Node, pid: Pid, q: Resource, r: Resource)
    ensures var o := ReleaseLock(n, pid, q);
      && SameKeys(n.requests, o.node.requests)
      && (q == r && HeldBy(n, r, pid) ==> Tokens(o.sent, r) == [Disposal(n.requests, r, Unlock(r, n.id, pid, 0))])
  {
    if HeldBy(n, q, pid) {
      GrantOrSlice(Put(n, q, n.locks[q].(state := Free)), q, Unlock(q, n.id, pid, 0));
    }
  }

  lemma ReleaseLocksExact(n: Node, pid: Pid, order: seq<Resource>, r: Resource)
    requires Distinct(order)
    ensures var o := ReleaseLocks(n, pid, order);
      && SameKeys(n.requests, o.node.requests)
      && (r in order && HeldBy(n, r, pid) ==> Tokens(o.sent, r) == [Disposal(n.requests, r, Unlock(r, n.id, pid, 0))])
  {
    if order != [] {
      var front, q := order[..|order| - 1], order[|order| - 1];
      assert order == front + [q];
      ReleaseLocksExact(n, pid, front, r);
      ReleaseLocksSlice(n, pid, front, r);
      var a := ReleaseLocks(n, pid, front);
      ReleaseLockExact(a.node, pid, q, r);
      ReleaseLockSlice(a.node, pid, q, r);
      TokensConcat(a.sent, ReleaseLock(a.node, pid, q).sent, r);
      if q == r {
        assert r !in front;
        FirstWaiterSame(n.requests, a.node.requests, r);
      }
    }
  }

  lemma PurgeLeavesNone(q: seq<Request>, node: NodeId, pid: Pid)
    ensures forall i :: 0 <= i < |PurgeQueue(q, node, pid)| ==> !Purged(PurgeQueue(q, node, pid)[i], node, pid)
  {
    if q != [] { PurgeLeavesNone(q[..|q| - 1], node, pid); }
  }

  /**
   * For every table, queue and walk: afterwards the process holds nothing and waits for
   * nothing; each lock it held is free and was disposed of by exactly one message, a grant to
   * the earliest other waiter or else a release; other locks are untouched, and the remaining
   * requests keep their order.
   */
  lemma DelClientExact(n: Node, fd: nat, order: seq<Resource>, r: Resource)
    requires IsWalk(n.locks, order) && ClientPid(n, fd) != 0
    ensures var pid := ClientPid(n, fd);
      var o, rest := DelClient(n, fd, order), PurgeQueue(n.requests, n.id, pid);
      && !HeldBy(o.node, r, pid)
      && SameKeys(rest, o.node.requests)
      && (forall i :: 0 <= i < |o.node.requests| ==>
            !(o.node.requests[i].node == n.id && o.node.requests[i].pid == pid))
      && (if HeldBy(n, r, pid) then
            && r in o.node.locks && o.node.locks[r] == n.locks[r].(state := Free)
            && Tokens(o.sent, r) == [Disposal(rest, r, Unlock(r, n.id, pid, 0))]
          else SameEntry(n, o.node, r) && Tokens(o.sent, r) == [])
  {
    var i := FirstFd(n.clients, fd);
    var pid := n.clients[i].pid;
    var p := PurgeAll(n.(clients := DropAt(n.clients, i)), n.id, pid);
    DelClientSlice(n, fd, order, r);
    ReleaseLocksExact(p, pid, order, r);
    PurgeLeavesNone(n.requests, n.id, pid);
    var o := DelClient(n, fd, order);
    var u := [Msg.Purge(n.id, pid)];
    TokensConcat(u, ReleaseLocks(p, pid, order).sent, r);
    assert u[1..] == [];
    assert Tokens(u, r) == [];
    forall j | 0 <= j < |o.node.requests| ensures !(o.node.requests[j].node == n.id && o.node.requests[j].pid == pid) {
      assert KeyOf(p.requests[j]) == KeyOf(o.node.requests[j]);
      assert !Purged(p.requests[j], n.id, pid);
    }
  }

  /**
   * A later grant to the vanished process is passed on by exactly one message, to the earliest
   * other waiter or else as a release; the lock stays held in its name until that is delivered.
   */
  lemma VanishedGrant(n: Node, m: Msg, r: Resource)
    requires m.Grant? && n.joined && m.res in n.locks && m.node == n.id && n.id != 0 && m.pid != 0
    requires !HasClient(n.clients, m.pid)
    ensures var rest := PurgeQueue(DropAt(n.requests, FirstMatch(n.requests, m.res, m.node, m.pid, m.tid)), n.id,
                                   m.pid);
      var o := ProcessGrant(n, m);
      && o.replies == []
      && o.sent == [Disposal(rest, m.res, Unlock(m.res, m.node, m.pid, m.tid))]
      && HeldBy(o.node, m.res, m.pid)
      && (r != m.res ==> SameEntry(n, o.node, r))
      && SameKeys(rest, o.node.requests)
      && (forall i :: 0 <= i < |o.node.requests| ==>
            !(o.node.requests[i].node == n.id && o.node.requests[i].pid == m.pid))
  {
    var q := Record(n, m);
    var t := Put(q, m.res, q.locks[m.res].(localId := q.lockid + 1)).(lockid := q.lockid + 1);
    var p := PurgeAll(t, n.id, m.pid);
    PurgeLeavesNone(q.requests, n.id, m.pid);
    GrantOrSlice(p, m.res, Unlock(m.res, m.node, m.pid, m.tid));
    var o := ProcessGrant(n, m);
    assert o == GrantOr(p, m.res, Unlock(m.res, m.node, m.pid, m.tid));
    forall i | 0 <= i < |o.node.requests|
      ensures !(o.node.requests[i].node == n.id && o.node.requests[i].pid == m.pid)
    {
      assert KeyOf(p.requests[i]) == KeyOf(o.node.requests[i]);
      assert !Purged(p.requests[i], n.id, m.pid);
    }
  }

  /**
   * A grant to a node that is gone is passed on by the oldest member, and by no other, with exactly one
   * message, to the earliest other waiter or else as a release; the oldest shows the lock as free at
   * once, the others as held by that node.
   */
  lemma DepartedGrant(n: Node, m: Msg)
    requires m.Grant? && n.joined && m.res in n.locks && m.node != n.id && m.node != 0 && m.pid != 0
    requires !IsMember(n.members, m.node)
    ensures var rest := DropAt(n.requests, FirstMatch(n.requests, m.res, m.node, m.pid, m.tid));
      var o, passes := ProcessGrant(n, m), OwnHead(n);
      && o.replies == []
      && o.sent == (if passes then [Disposal(rest, m.res, Unlock(m.res, m.node, m.pid, m.tid))] else [])
      && SameKeys(rest, o.node.requests)
      && m.res in o.node.locks && o.node.locks[m.res].node == m.node && o.node.locks[m.res].pid == m.pid
      && (if passes then o.node.locks[m.res].state.Free? else o.node.locks[m.res].state.Held?)
      && forall r :: r != m.res ==> SameEntry(n, o.node, r)
  {
    var q := Record(n, m);
    GrantOrSlice(Put(q, m.res, q.locks[m.res].(state := Free)), m.res, Unlock(m.res, m.node, m.pid, m.tid));
  }

  // ---------- when it is safe ----------

  /** A grant ahead before the disconnect is still ahead, and a remaining waiter is sent one. */
  lemma UnsafeVanish(log: seq<Event>, h: Host, fd: nat, order: seq<Resource>, r: Resource)
    requires IsWalk(h.node.locks, order) && ClientPid(h.node, fd) != 0 && HeldBy(h.node, r, ClientPid(h.node, fd))
    requires !NoGrantAhead(log, h, r) || !NoWaiterBeside(h.node, r, ClientPid(h.node, fd))
    ensures !NoGrantAhead(log, HostDisconnect(h, fd, order), r)
  {
    var k, o, pid := HostDisconnect(h, fd, order), DelClient(h.node, fd, order), ClientPid(h.node, fd);
    DelClientExact(h.node, fd, order, r);
    if !NoGrantAhead(log, h, r) {
      assert forall i :: 0 <= i < |h.outbox| ==> k.outbox[i] == h.outbox[i];
    } else {
      var g := Tokens(o.sent, r)[0];
      assert g in Tokens(o.sent, r) && g.Grant?;
      var i :| 0 <= i < |o.sent| && o.sent[i] == g;
      assert k.outbox[|h.outbox| + i] == g;
    }
  }

  lemma UnsafeState(s: Sys, n: NodeId, fd: nat, order: seq<Resource>)
    requires Enabled(s, Step.Disconnect(n, fd, order)) && s.hosts[n].node.id == n
    requires ClientPid(s.hosts[n].node, fd) != 0
    requires !MayVanish(s.log, s.hosts[n], ClientPid(s.hosts[n].node, fd))
    ensures !FreeIsFree(Apply(s, Step.Disconnect(n, fd, order)))
  {
    var h, pid, u := s.hosts[n], ClientPid(s.hosts[n].node, fd), Apply(s, Step.Disconnect(n, fd, order));
    var r :| HeldBy(h.node, r, pid) && !(NoGrantAhead(s.log, h, r) && NoWaiterBeside(h.node, r, pid));
    UnsafeVanish(s.log, h, fd, order, r);
    DelClientSlice(h.node, fd, order, r);
    assert u.hosts[n] == HostDisconnect(h, fd, order);
    assert FreeHere(u.hosts[n].node, r);
  }

  /**
   * In every state of a run, losing a client keeps "free is free" (and with it the whole safety
   * invariant) if and only if none of its locks has a handover on the way or another waiter.
   */
  lemma DisconnectExact(base: seq<Addr>, run: seq<Step>, s: Sys, n: NodeId, fd: nat, order: seq<Resource>)
    requires Reaches(Guarded, base, run, s) && Enabled(s, Step.Disconnect(n, fd, order))
    requires ClientPid(s.hosts[n].node, fd) != 0
    ensures FreeIsFree(Apply(s, Step.Disconnect(n, fd, order))) <==>
      MayVanish(s.log, s.hosts[n], ClientPid(s.hosts[n].node, fd))
    ensures MayVanish(s.log, s.hosts[n], ClientPid(s.hosts[n].node, fd)) ==>
      Inv(false, Apply(s, Step.Disconnect(n, fd, order)))
  {
    ReachesInv(false, base, run, s);
    var t := Step.Disconnect(n, fd, order);
    if MayVanish(s.log, s.hosts[n], ClientPid(s.hosts[n].node, fd)) {
      StepKeeps(false, s, t);
      InvFreeIsFree(Apply(s, t));
    } else {
      UnsafeState(s, n, fd, order);
    }
  }

  /**
   * In every run, whatever a daemon is delivered next (a release of a vanished process that is still on
   * its way, or anything else), every client it has told keeps its lock, under the same id.
   */
  lemma ToldIsKept(base: seq<Addr>, run: seq<Step>, s: Sys, n: NodeId, order: seq<Resource>, x: Hold)
    requires Reaches(Guarded, base, run, s) && Enabled(s, Deliver(n, order)) && x in s.hosts[n].holds
    ensures var k := HostDeliver(s.hosts[n], s.log[s.hosts[n].idx], order);
      x in k.holds && HeldBy(k.node, x.res, x.pid) && k.node.locks[x.res].localId == x.id
  {
    ReachesInv(false, base, run, s);
    if s.log[s.hosts[n].idx].View? {
      ViewKeepsHold(s, n, order, x);
    } else {
      StepKeeps(false, s, Deliver(n, order));
      var u := Apply(s, Deliver(n, order));
      assert HostInv(false, u.base, u.log, u.hosts[n]);
      assert ResInv(false, u.base, u.log, u.hosts[n], x.res);
    }
  }

  /** A view leaves the daemon's own locks alone, whether or not recovering others' is safe. */
  lemma ViewKeepsHold(s: Sys, n: NodeId, order: seq<Resource>, x: Hold)
    requires Inv(false, s) && Enabled(s, Deliver(n, order)) && s.log[s.hosts[n].idx].View? && x in s.hosts[n].holds
    ensures var k := HostDeliver(s.hosts[n], s.log[s.hosts[n].idx], order);
      x in k.holds && HeldBy(k.node, x.res, x.pid) && k.node.locks[x.res].localId == x.id
  {
    var h, e := s.hosts[n], s.log[s.hosts[n].idx];
    assert HostInv(false, s.base, s.log, h) && ResInv(false, s.base, s.log, h, x.res);
    ViewSlice(s.base, s.log, h, order, x.res);
    var t := SeedView(h.node, e.members, e.joins);
    LeaveAllFrame(t, e.left, order);
    GoneLeaves(t.members, e.left, n);
  }
}
