/**
 * The token invariant under what clients do: ask, release, vanish.
 */
module TokenLocal {
  import opened Types
  import opened Protocol
  import opened Group
  import opened Cluster
  import opened Slices
  import opened Invariant
  import opened TokenSlices
  import opened TokenSteps
  import opened LockIds

  /** Nothing about r changes, at the same position. */
  lemma LocalStill(tidy: bool, base: seq<Addr>, log: seq<Event>, h: Host, k: Host, r: Resource)
    requires ResInv(tidy, base, log, h, r)
    requires k.idx == h.idx && k.node.id == h.node.id && k.node.joined == h.node.joined
    requires SameEntry(h.node, k.node, r) && NoNewHolds(h, k, r) && Tokens(k.outbox, r) == Tokens(h.outbox, r)
    ensures ResInv(tidy, base, log, k, r)
  {
    StillStep(tidy, base, log, h, k, r);
  }

  lemma AskLockRes(tidy: bool, base: seq<Addr>, log: seq<Event>, h: Host, fd: nat, q: Resource, pid: Pid, tid: Tid,
                   isTry: bool, r: Resource)
    requires ResInv(tidy, base, log, h, r)
    ensures ResInv(tidy, base, log, HostAskLock(h, fd, q, pid, tid, isTry), r)
  {
    var k := HostAskLock(h, fd, q, pid, tid, isTry);
    var sent := [Lock(q, h.node.id, pid, tid, isTry)];
    TokensConcat(h.outbox, sent, r);
    assert sent[1..] == [];
    assert Tokens(sent, r) == [];
    assert h.outbox + [] == h.outbox;
    LocalStill(tidy, base, log, h, k, r);
  }

  // ---------- release by the holder ----------

  /** A hold leads to its lock, and the release built from it is for that lock and owner. */
  lemma HoldResolves(log: seq<Event>, h: Host, hold: Hold, order: seq<Resource>)
    requires IdInv(h) && HoldInv(log, h, hold.res) && hold in h.holds && IsWalk(h.node.locks, order)
    ensures HeldBy(h.node, hold.res, hold.pid)
    ensures ClientUnlock(h.node, hold.id, order) ==
      GrantOr(h.node, hold.res, Unlock(hold.res, h.node.id, hold.pid, hold.tid))
  {
    IdResolves(h.node, hold.res, order);
  }

  lemma OnlyHold(log: seq<Event>, h: Host, hold: Hold)
    requires HoldInv(log, h, hold.res) && hold in h.holds
    ensures forall x :: x in h.holds && x.res == hold.res ==> x == hold
  {
  }

  lemma AskUnlockRes(tidy: bool, base: seq<Addr>, log: seq<Event>, h: Host, hold: Hold, order: seq<Resource>,
                     r: Resource)
    requires ResInv(tidy, base, log, h, r) && ResInv(tidy, base, log, h, hold.res)
    requires IdInv(h) && hold in h.holds && IsWalk(h.node.locks, order)
    ensures ResInv(tidy, base, log, HostAskUnlock(h, hold, order), r)
  {
    var k := HostAskUnlock(h, hold, order);
    var release := Unlock(hold.res, h.node.id, hold.pid, hold.tid);
    HoldResolves(log, h, hold, order);
    GrantOrSlice(h.node, hold.res, release);
    var o := GrantOr(h.node, hold.res, release);
    TokensConcat(h.outbox, o.sent, r);
    if r != hold.res {
      LocalStill(tidy, base, log, h, k, r);
    } else {
      OnlyHold(log, h, hold);
      ReleaseStep(tidy, base, log, h, k, hold, o.sent);
    }
  }

  lemma ReleaseStep(tidy: bool, base: seq<Addr>, log: seq<Event>, h: Host, k: Host, hold: Hold, ts: seq<Msg>)
    requires ResInv(tidy, base, log, h, hold.res) && hold in h.holds
    requires k.idx == h.idx && k.node.id == h.node.id && k.node.joined == h.node.joined && k.node.locks == h.node.locks
    requires k.holds == h.holds - {hold}
    requires Tokens(k.outbox, hold.res) == Tokens(h.outbox, hold.res) + ts
    requires |ts| == 1 && (ts[0].Grant? || ts[0].Unlock?)
    ensures ResInv(tidy, base, log, k, hold.res)
  {
    var r := hold.res;
    assert HeldBy(h.node, r, hold.pid) && HoldsRes(h, r);
    assert Mine(base, log, h, r) && Potent(tidy, base, log, h, r);
    OnlyHold(log, h, hold);
    assert !HoldsRes(k, r);
    NoHolds(log, k, r);
    if ts[0].Grant? {
      if Releasing(log, k, r, hold.pid) { ReleasingBefore(log, h, k, r, hold.pid); }
    }
    ActStep(tidy, base, log, h, k, r, ts);
  }

  // ---------- a process vanishes ----------

  ghost predicate NoWaiter(q: seq<Request>, r: Resource) {
    forall i :: 0 <= i < |q| ==> !IsWaiter(q[i], r)
  }

  lemma NoWaiterFirst(q: seq<Request>, r: Resource)
    ensures NoWaiter(q, r) <==> FirstWaiter(q, r) == |q|
  {
  }

  /** Releasing one lock: what happens to a resource r. */
  lemma ReleaseLockSlice(n: Node, pid: Pid, q: Resource, r: Resource)
    ensures var o := ReleaseLock(n, pid, q);
      && SameFrame(n, o.node) && o.replies == []
      && (q != r ==> SameWaiters(n.requests, o.node.requests, r))
      && (if q == r && HeldBy(n, r, pid) then
            && r in o.node.locks && o.node.locks[r] == n.locks[r].(state := Free)
            && (if NoWaiter(n.requests, r) then Tokens(o.sent, r) == [Unlock(r, n.id, pid, 0)]
                else OneGrant(Tokens(o.sent, r), r))
          else SameEntry(n, o.node, r) && Tokens(o.sent, r) == [])
  {
    if HeldBy(n, q, pid) {
      var f := Put(n, q, n.locks[q].(state := Free));
      GrantOrSlice(f, q, Unlock(q, n.id, pid, 0));
      NoWaiterFirst(n.requests, q);
    }
  }

  lemma ReleaseLocksSlice(n: Node, pid: Pid, order: seq<Resource>, r: Resource)
    requires Distinct(order)
    ensures var o := ReleaseLocks(n, pid, order);
      && SameFrame(n, o.node) && o.replies == []
      && (r !in order ==> SameWaiters(n.requests, o.node.requests, r))
      && (if r in order && HeldBy(n, r, pid) then
            && r in o.node.locks && o.node.locks[r] == n.locks[r].(state := Free)
            && (if NoWaiter(n.requests, r) then Tokens(o.sent, r) == [Unlock(r, n.id, pid, 0)]
                else OneGrant(Tokens(o.sent, r), r))
          else SameEntry(n, o.node, r) && Tokens(o.sent, r) == [])
  {
    if order != [] {
      var front, q := order[..|order| - 1], order[|order| - 1];
      ReleaseLocksSlice(n, pid, front, r);
      var a := ReleaseLocks(n, pid, front);
      ReleaseLockSlice(a.node, pid, q, r);
      TokensConcat(a.sent, ReleaseLock(a.node, pid, q).sent, r);
      assert order == front + [q];
      if q == r {
        assert r !in front;
        assert NoWaiter(n.requests, r) <==> NoWaiter(a.node.requests, r);
      }
    }
  }

  /** del_client, for one resource. */
  lemma DelClientSlice(n: Node, fd: nat, order: seq<Resource>, r: Resource)
    requires IsWalk(n.locks, order)
    ensures var o, pid := DelClient(n, fd, order), ClientPid(n, fd);
      && o.node.id == n.id && o.node.joined == n.joined && o.node.members == n.members && o.node.total == n.total
      && o.replies == []
      && (if pid != 0 && HeldBy(n, r, pid) then
            && r in o.node.locks && o.node.locks[r] == n.locks[r].(state := Free)
            && (if NoWaiter(PurgeQueue(n.requests, n.id, pid), r) then Tokens(o.sent, r) == [Unlock(r, n.id, pid, 0)]
                else OneGrant(Tokens(o.sent, r), r))
          else SameEntry(n, o.node, r) && Tokens(o.sent, r) == [])
  {
    var i := FirstFd(n.clients, fd);
    if i < |n.clients| && n.clients[i].pid != 0 {
      var pid := n.clients[i].pid;
      var p := PurgeAll(n.(clients := DropAt(n.clients, i)), n.id, pid);
      ReleaseLocksSlice(p, pid, order, r);
      var u := [Msg.Purge(n.id, pid)];
      TokensConcat(u, ReleaseLocks(p, pid, order).sent, r);
      assert u[1..] == [];
      assert Tokens(u, r) == [];
    }
  }

  lemma DelClientFrame(n: Node, fd: nat, order: seq<Resource>)
    requires IsWalk(n.locks, order)
    ensures var o := DelClient(n, fd, order);
      && (n.locks == map[] ==> o.node.locks == map[])
      && IdsKept(n, o.node)
  {
    var o := DelClient(n, fd, order);
    forall r ensures r in o.node.locks ==> r in n.locks && o.node.locks[r].node == n.locks[r].node {
      DelClientSlice(n, fd, order, r);
    }
    var i := FirstFd(n.clients, fd);
    if i < |n.clients| && n.clients[i].pid != 0 {
      var pid := n.clients[i].pid;
      ReleaseLocksIds(PurgeAll(n.(clients := DropAt(n.clients, i)), n.id, pid), pid, order);
    }
  }

  lemma DisconnectRes(tidy: bool, base: seq<Addr>, log: seq<Event>, h: Host, fd: nat, order: seq<Resource>, r: Resource)
    requires ResInv(tidy, base, log, h, r) && IsWalk(h.node.locks, order)
    requires ClientPid(h.node, fd) != 0 ==> MayVanish(log, h, ClientPid(h.node, fd))
    ensures ResInv(tidy, base, log, HostDisconnect(h, fd, order), r)
  {
    var k, o, pid := HostDisconnect(h, fd, order), DelClient(h.node, fd, order), ClientPid(h.node, fd);
    DelClientSlice(h.node, fd, order, r);
    TokensConcat(h.outbox, o.sent, r);
    if pid != 0 && HeldBy(h.node, r, pid) {
      NoWaiterFirst(PurgeQueue(h.node.requests, h.node.id, pid), r);
      VanishStep(tidy, base, log, h, k, r, pid, Tokens(o.sent, r));
    } else {
      LocalStill(tidy, base, log, h, k, r);
    }
  }

  lemma VanishStep(tidy: bool, base: seq<Addr>, log: seq<Event>, h: Host, k: Host, r: Resource, pid: Pid, ts: seq<Msg>)
    requires ResInv(tidy, base, log, h, r) && HeldBy(h.node, r, pid) && NoGrantAhead(log, h, r)
    requires k.idx == h.idx && k.node.id == h.node.id && k.node.joined == h.node.joined
    requires k.holds == set x | x in h.holds && x.pid != pid
    requires Tokens(k.outbox, r) == Tokens(h.outbox, r) + ts && |ts| == 1 && ts[0].Unlock?
    ensures ResInv(tidy, base, log, k, r)
  {
    assert Mine(base, log, h, r);
    assert !HoldsRes(k, r);
    NoHolds(log, k, r);
    NoneInOutbox(log, h, r);
    ActStep(tidy, base, log, h, k, r, ts);
  }
}
