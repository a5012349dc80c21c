/**
 * Local lock ids: which entries carry one, and that they tell locks apart.
 */
module LockIds {
  import opened Types
  import opened Protocol
  import opened Cluster
  import opened Slices
  import opened Frames
  import opened Membership

  /** Ids are bounded by the counter, and no two locks share one. */
  ghost predicate NodeIds(n: Node) {
    && (forall r :: r in n.locks ==> n.locks[r].localId <= n.lockid)
    && (forall a, b :: a in n.locks && b in n.locks && a != b && n.locks[a].localId == n.locks[b].localId ==>
          n.locks[a].localId == 0)
  }

  ghost predicate IdInv(h: Host) {
    NodeIds(h.node) && forall x :: x in h.holds ==> x.id != 0
  }

  /** No entry gets a new id. */
  ghost predicate IdsKept(a: Node, b: Node) {
    && b.lockid == a.lockid
    && (forall r :: r in b.locks ==>
          b.locks[r].localId == 0 || (r in a.locks && a.locks[r].localId == b.locks[r].localId))
  }

  lemma RecoverLocksIds(n: Node, dead: NodeId, order: seq<Resource>)
    ensures IdsKept(n, RecoverLocks(n, dead, order).node)
  {
    if order != [] {
      RecoverLocksIds(n, dead, order[..|order| - 1]);
      var a, r := RecoverLocks(n, dead, order[..|order| - 1]).node, order[|order| - 1];
      if r in a.locks { GrantNextSlice(Put(a, r, a.locks[r].(state := Free)), r); }
    }
  }

  lemma LeaveAllIds(n: Node, left: seq<Addr>, order: seq<Resource>)
    ensures IdsKept(n, LeaveAll(n, left, order).node)
  {
    if left != [] {
      var front, d := left[..|left| - 1], left[|left| - 1];
      LeaveAllIds(n, front, order);
      var a := LeaveAll(n, front, order).node;
      var b := a.(members := DropAt(a.members, FirstAddr(a.members, d)));
      RecoverLocksIds(PurgeAll(b, d.id, 0), d.id, order);
    }
  }

  lemma ReleaseLocksIds(n: Node, pid: Pid, order: seq<Resource>)
    ensures IdsKept(n, ReleaseLocks(n, pid, order).node)
  {
    if order != [] {
      ReleaseLocksIds(n, pid, order[..|order| - 1]);
      var a, r := ReleaseLocks(n, pid, order[..|order| - 1]).node, order[|order| - 1];
      if r in a.locks { GrantOrSlice(Put(a, r, a.locks[r].(state := Free)), r, Unlock(r, a.id, pid, 0)); }
    }
  }

  lemma KeptIds(a: Node, b: Node)
    requires NodeIds(a) && IdsKept(a, b)
    ensures NodeIds(b)
  {
  }

  /** One lock gets the next id. */
  lemma NextId(a: Node, b: Node, r: Resource)
    requires NodeIds(a) && b.lockid == a.lockid + 1
    requires r in b.locks && b.locks[r].localId == b.lockid
    requires forall q :: q in b.locks && q != r ==> q in a.locks && a.locks[q].localId == b.locks[q].localId
    ensures NodeIds(b)
  {
  }

  lemma GrantIds(n: Node, m: Msg)
    requires m.Grant? && NodeIds(n)
    ensures NodeIds(ProcessGrant(n, m).node)
  {
    var o, r := ProcessGrant(n, m), m.res;
    if n.joined && r in n.locks && !(n.locks[r].state.Held? && (m.pid == 0 || m.node == 0)) {
      KeptIds(n, Record(n, m));
      if m.node == n.id { TellIds(Record(n, m), m); } else { PassIds(Record(n, m), m); }
    } else {
      KeptIds(n, o.node);
    }
  }

  lemma TellIds(n: Node, m: Msg)
    requires m.Grant? && m.res in n.locks && NodeIds(n)
    ensures NodeIds(TellOwner(n, m).node)
  {
    var t := Put(n, m.res, n.locks[m.res].(localId := n.lockid + 1)).(lockid := n.lockid + 1);
    GrantOrSlice(PurgeAll(t, n.id, m.pid), m.res, Unlock(m.res, m.node, m.pid, m.tid));
    NextId(n, TellOwner(n, m).node, m.res);
  }

  lemma PassIds(n: Node, m: Msg)
    requires m.Grant? && m.res in n.locks && NodeIds(n)
    ensures NodeIds(PassOn(n, m).node)
  {
    GrantOrSlice(Put(n, m.res, n.locks[m.res].(state := Free)), m.res, Unlock(m.res, m.node, m.pid, m.tid));
    KeptIds(n, PassOn(n, m).node);
  }

  lemma ToldIds(n: Node, m: Msg)
    requires m.Grant?
    ensures forall x :: x in Told(ProcessGrant(n, m).replies) ==> x.id != 0
  {
    var r := m.res;
    if n.joined && r in n.locks {
      var a := Record(n, m);
      var t := Put(a, r, a.locks[r].(localId := a.lockid + 1)).(lockid := a.lockid + 1);
      GrantOrSlice(PurgeAll(t, n.id, m.pid), r, Unlock(r, m.node, m.pid, m.tid));
      GrantOrSlice(Put(a, r, a.locks[r].(state := Free)), r, Unlock(r, m.node, m.pid, m.tid));
    }
  }

  lemma MessageIds(n: Node, from: Addr, m: Msg)
    requires !m.Grant?
    ensures IdsKept(n, ProcessMessage(n, from, m).node)
    ensures Told(ProcessMessage(n, from, m).replies) == {}
  {
    match m
    case Lock(r, _, _, _, _) => GrantNextSlice(WithArrival(n, m), r);
    case Unlock(r, _, _, _) => GrantNextSlice(n, r);
    case Nak(_, _, _, _) =>
    case Purge(_, _) =>
    case Join =>
  }

  lemma HandleIds(n: Node, e: Event, order: seq<Resource>)
    requires NodeIds(n)
    ensures var o := Handle(n, e, order);
      NodeIds(o.node) && forall x :: x in Told(o.replies) ==> x.id != 0
  {
    match e
    case Message(from, m) =>
      if m.Grant? {
        GrantIds(n, m);
        ToldIds(n, m);
      } else {
        MessageIds(n, from, m);
        KeptIds(n, ProcessMessage(n, from, m).node);
      }
    case View(members, left, joins) =>
      var s := SeedView(n, members, joins);
      LeaveAllIds(s, left, order);
      LeaveAllFrame(s, left, order);
      KeptIds(s, LeaveAll(s, left, order).node);
  }

  /** Whatever the order of the walk, an id that is in use leads to the one lock carrying it. */
  lemma IdResolves(n: Node, r: Resource, order: seq<Resource>)
    requires NodeIds(n) && IsWalk(n.locks, order)
    requires r in n.locks && n.locks[r].localId != 0
    ensures var i := FirstLockId(n.locks, n.locks[r].localId, order); i < |order| && order[i] == r
  {
    var j :| 0 <= j < |order| && order[j] == r;
  }
}
