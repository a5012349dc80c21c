/**
 * What no handler does: change its identity, invent requests, or speak for others.
 */
module Frames {
  import opened Types
  import opened Protocol
  import opened Slices

  /** Every request of a is one of b, up to its mark. */
  ghost predicate Derived(a: seq<Request>, b: seq<Request>) {
    forall k :: HasKey(a, k) ==> HasKey(b, k)
  }

  ghost predicate AnswersAny(m: Msg, q: seq<Request>) {
    m.Grant? && Answers(m, m.res, q)
  }

  ghost predicate Speaks(n: Node, m: Msg) {
    match m
    case Grant(_, _, _, _) => AnswersAny(m, n.requests)
    case Unlock(_, node, _, _) => node == n.id
    case Nak(_, _, _, _) => HasKey(n.requests, MsgKey(m))
    case Lock(_, _, _, _, _) => false
    case Join => false
    case Purge(_, _) => true
  }

  ghost predicate Orderly(n: Node, o: Outcome) {
    && o.node.id == n.id && o.node.daemonPid == n.daemonPid
    && Derived(o.node.requests, n.requests)
    && (forall i :: 0 <= i < |o.sent| ==> Speaks(n, o.sent[i]))
  }

  lemma OrderlyThen(n: Node, a: Outcome, b: Outcome, o: Outcome)
    requires Orderly(n, a) && Orderly(a.node, b)
    requires o.node == b.node && o.sent == a.sent + b.sent
    ensures Orderly(n, o)
  {
    forall i | 0 <= i < |o.sent| ensures Speaks(n, o.sent[i]) {
      if i < |a.sent| {
        assert o.sent[i] == a.sent[i];
      } else {
        assert o.sent[i] == b.sent[i - |a.sent|];
      }
    }
  }

  lemma DropAtDerived(q: seq<Request>, i: nat)
    ensures Derived(DropAt(q, i), q)
  {
    forall k | HasKey(DropAt(q, i), k) ensures HasKey(q, k) {
      var j :| 0 <= j < |DropAt(q, i)| && KeyOf(DropAt(q, i)[j]) == k;
      assert KeyOf(q[if i < |q| && j >= i then j + 1 else j]) == k;
    }
  }

  lemma PurgeDerived(q: seq<Request>, node: NodeId, pid: Pid)
    ensures Derived(PurgeQueue(q, node, pid), q)
  {
    if q != [] {
      var front, p := q[..|q| - 1], PurgeQueue(q, node, pid);
      PurgeDerived(front, node, pid);
      forall k | HasKey(p, k) ensures HasKey(q, k) {
        var i :| 0 <= i < |p| && KeyOf(p[i]) == k;
        if i < |PurgeQueue(front, node, pid)| {
          assert HasKey(PurgeQueue(front, node, pid), k);
          var j :| 0 <= j < |front| && KeyOf(front[j]) == k;
          assert KeyOf(q[j]) == k;
        } else {
          assert KeyOf(q[|q| - 1]) == k;
        }
      }
    }
  }

  lemma GrantNextOrderly(n: Node, r: Resource)
    ensures Orderly(n, GrantNext(n, r))
  {
    GrantNextSlice(n, r);
    var g := GrantNext(n, r);
    forall k | HasKey(g.node.requests, k) ensures HasKey(n.requests, k) {
      var i :| 0 <= i < |g.node.requests| && KeyOf(g.node.requests[i]) == k;
      assert KeyOf(n.requests[i]) == k;
    }
  }

  lemma GrantOrOrderly(n: Node, r: Resource, m: Msg)
    requires m.Unlock? && m.res == r
    ensures var g := GrantOr(n, r, m);
      && g.node.id == n.id && g.node.daemonPid == n.daemonPid && Derived(g.node.requests, n.requests)
      && |g.sent| == 1 && (g.sent[0] == m || AnswersAny(g.sent[0], n.requests))
  {
    GrantNextOrderly(n, r);
    GrantOrSlice(n, r, m);
  }

  lemma RecoverLockOrderly(n: Node, dead: NodeId, r: Resource)
    ensures Orderly(n, RecoverLock(n, dead, r))
  {
    if r in n.locks {
      GrantNextOrderly(Put(n, r, n.locks[r].(state := Free)), r);
    }
  }

  lemma RecoverLocksOrderly(n: Node, dead: NodeId, order: seq<Resource>)
    ensures Orderly(n, RecoverLocks(n, dead, order))
  {
    if order != [] {
      var a := RecoverLocks(n, dead, order[..|order| - 1]);
      RecoverLocksOrderly(n, dead, order[..|order| - 1]);
      var b := RecoverLock(a.node, dead, order[|order| - 1]);
      RecoverLockOrderly(a.node, dead, order[|order| - 1]);
      OrderlyThen(n, a, b, RecoverLocks(n, dead, order));
    }
  }

  lemma DelNodeOrderly(n: Node, dead: NodeId, order: seq<Resource>)
    ensures Orderly(n, DelNode(n, dead, order))
  {
    PurgeDerived(n.requests, dead, 0);
    var p := PurgeAll(n, dead, 0);
    RecoverLocksOrderly(p, dead, order);
    if OwnHead(n) {
      OrderlyThen(n, Outcome(p, [Purge(dead, 0)], []), RecoverLocks(p, dead, order), DelNode(n, dead, order));
    }
  }

  lemma LeaveAllOrderly(n: Node, left: seq<Addr>, order: seq<Resource>)
    ensures Orderly(n, LeaveAll(n, left, order))
  {
    if left != [] {
      var a := LeaveAll(n, left[..|left| - 1], order);
      LeaveAllOrderly(n, left[..|left| - 1], order);
      var d := left[|left| - 1];
      var i := FirstAddr(a.node.members, d);
      DelNodeOrderly(a.node.(members := DropAt(a.node.members, i)), d.id, order);
      OrderlyThen(n, a, Leave(a.node, d, order), LeaveAll(n, left, order));
    }
  }

  lemma ConfigChangeOrderly(n: Node, members: seq<Addr>, left: seq<Addr>, joins: seq<Addr>, order: seq<Resource>)
    ensures Orderly(n, ConfigChange(n, members, left, joins, order))
  {
    LeaveAllOrderly(SeedView(n, members, joins), left, order);
  }

  lemma ReleaseLocksOrderly(n: Node, pid: Pid, order: seq<Resource>)
    ensures Orderly(n, ReleaseLocks(n, pid, order))
  {
    if order != [] {
      var a := ReleaseLocks(n, pid, order[..|order| - 1]);
      ReleaseLocksOrderly(n, pid, order[..|order| - 1]);
      var r := order[|order| - 1];
      if r in a.node.locks {
        GrantOrOrderly(Put(a.node, r, a.node.locks[r].(state := Free)), r, Unlock(r, n.id, pid, 0));
      }
      OrderlyThen(n, a, ReleaseLock(a.node, pid, r), ReleaseLocks(n, pid, order));
    }
  }

  lemma DelClientOrderly(n: Node, fd: nat, order: seq<Resource>)
    ensures Orderly(n, DelClient(n, fd, order))
  {
    var i := FirstFd(n.clients, fd);
    if i < |n.clients| && n.clients[i].pid != 0 {
      var c := n.(clients := DropAt(n.clients, i));
      var p := PurgeAll(c, n.id, n.clients[i].pid);
      PurgeDerived(n.requests, n.id, n.clients[i].pid);
      ReleaseLocksOrderly(p, n.clients[i].pid, order);
      OrderlyThen(n, Outcome(p, [Purge(n.id, n.clients[i].pid)], []),
                  ReleaseLocks(p, n.clients[i].pid, order), DelClient(n, fd, order));
    }
  }

  /** The queue a message handler starts from: a lock request is appended first. */
  function WithArrival(n: Node, m: Msg): Node {
    if m.Lock? then n.(requests := n.requests + [Request(m.res, m.node, m.pid, m.tid, false)]) else n
  }

  lemma ProcessMessageOrderly(n: Node, from: Addr, m: Msg)
    requires !(m.Grant? && n.joined && m.node != n.id && !IsMember(n.members, m.node))
    ensures Orderly(WithArrival(n, m), ProcessMessage(n, from, m))
  {
    var w := WithArrival(n, m);
    match m
    case Lock(r, _, _, _, _) =>
      GrantNextOrderly(w, r);
      forall k | HasKey(n.requests, k) ensures HasKey(w.requests, k) {
        var i :| 0 <= i < |n.requests| && KeyOf(n.requests[i]) == k;
        assert KeyOf(w.requests[i]) == k;
      }
      assert KeyOf(w.requests[|n.requests|]) == MsgKey(m);
    case Grant(r, _, _, _) => ProcessGrantOrderly(n, m);
    case Unlock(r, _, _, _) => GrantNextOrderly(n, r);
    case Nak(r, node, pid, tid) =>
      var q := DropAt(n.requests, FirstMatch(n.requests, r, node, pid, tid));
      DropAtDerived(n.requests, FirstMatch(n.requests, r, node, pid, tid));
      PurgeDerived(q, n.id, pid);
    case Purge(node, pid) => PurgeDerived(n.requests, node, pid);
    case Join =>
  }

  lemma RecordDerived(n: Node, m: Msg)
    requires m.Grant? && m.res in n.locks
    ensures Derived(Record(n, m).requests, n.requests)
  {
    DropAtDerived(n.requests, FirstMatch(n.requests, m.res, m.node, m.pid, m.tid));
  }

  /** A grant handler speaks only for the target of the grant, and never for a member other than itself. */
  lemma ProcessGrantOrderly(n: Node, m: Msg)
    requires m.Grant?
    ensures var o := ProcessGrant(n, m);
      && o.node.id == n.id && o.node.daemonPid == n.daemonPid && Derived(o.node.requests, n.requests)
      && (forall i :: 0 <= i < |o.sent| ==>
            || AnswersAny(o.sent[i], n.requests)
            || (o.sent[i] == Unlock(m.res, m.node, m.pid, m.tid) && n.joined
                && (m.node == n.id || !IsMember(n.members, m.node))))
  {
    if n.joined && m.res in n.locks {
      RecordDerived(n, m);
      if m.node == n.id { TellOrderly(Record(n, m), m); } else { PassOrderly(Record(n, m), m); }
    }
  }

  /** A handler that answers requests of the queue or releases the granted lock. */
  ghost predicate AnswersOrReleases(n: Node, o: Outcome, release: Msg) {
    && o.node.id == n.id && o.node.daemonPid == n.daemonPid && Derived(o.node.requests, n.requests)
    && (forall i :: 0 <= i < |o.sent| ==> AnswersAny(o.sent[i], n.requests) || o.sent[i] == release)
  }

  lemma TellOrderly(n: Node, m: Msg)
    requires m.Grant? && m.res in n.locks
    ensures AnswersOrReleases(n, TellOwner(n, m), Unlock(m.res, m.node, m.pid, m.tid))
  {
    var t := Put(n, m.res, n.locks[m.res].(localId := n.lockid + 1)).(lockid := n.lockid + 1);
    PurgeDerived(n.requests, n.id, m.pid);
    GrantOrOrderly(PurgeAll(t, n.id, m.pid), m.res, Unlock(m.res, m.node, m.pid, m.tid));
  }

  lemma PassOrderly(n: Node, m: Msg)
    requires m.Grant? && m.res in n.locks
    ensures AnswersOrReleases(n, PassOn(n, m), Unlock(m.res, m.node, m.pid, m.tid))
  {
    GrantOrOrderly(Put(n, m.res, n.locks[m.res].(state := Free)), m.res, Unlock(m.res, m.node, m.pid, m.tid));
  }
}
