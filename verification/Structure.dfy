/**
 * The part of the invariant that is about membership and about who may be named where.
 */
module Structure {
  import opened Types
  import opened Protocol
  import opened Group
  import opened Cluster
  import opened Slices
  import opened Frames
  import opened Membership

  /** The daemon's first view is the next event it will see. */
  ghost predicate Waiting(log: seq<Event>, h: Host) {
    h.idx < |log| && log[h.idx].View? && h.node.id in Ids(log[h.idx].joins)
  }

  ghost predicate PlaceInv(base: seq<Addr>, log: seq<Event>, h: Host) {
    && h.idx <= |log|
    && h.node.id != 0
    && Stays(log, h.idx, h.node.id)
    && (h.node.joined <==> h.node.id in RosterAt(base, log, h.idx).age)
    && (h.node.id in RosterAt(base, log, h.idx).mem || Waiting(log, h))
    && (!h.node.joined ==> h.node.locks == map[] && !IsMember(h.node.members, h.node.id))
    && (Waiting(log, h) ==> h.node.members == [] && h.node.total == 0 && h.node.requests == [])
  }

  /** Every joined member is listed, and those older than the daemon come before it. */
  ghost predicate ListInv(base: seq<Addr>, log: seq<Event>, h: Host)
    requires h.idx <= |log|
  {
    var g, n := RosterAt(base, log, h.idx), h.node.id;
    && (n in g.mem ==> forall k :: k in g.age ==> IsMember(h.node.members, k))
    && (forall k :: Older(g.age, k, n) ==> Before(h.node.members, k, n))
  }

  ghost predicate QueueInv(q: seq<Request>) {
    forall k :: HasKey(q, k) ==> k.node != 0 && k.pid != 0
  }

  /** Requests and grants are for processes of nodes. */
  ghost predicate FlightInv(log: seq<Event>) {
    forall p :: 0 <= p < |log| ==> FlightItem(log[p])
  }

  ghost predicate FlightItem(e: Event) {
    e.Message? && (e.m.Lock? || e.m.Grant?) ==> e.m.node != 0 && e.m.pid != 0
  }

  /** What may be in an outbox. */
  ghost predicate OutboxItem(base: seq<Addr>, log: seq<Event>, h: Host, i: nat)
    requires i < |h.outbox|
  {
    match h.outbox[i]
    case Lock(_, node, pid, _, _) => node == h.node.id && pid != 0
    case Grant(_, node, pid, _) => node != 0 && pid != 0
    case Join =>
      && h.node.id !in RosterAt(base, log, |log|).age
      && forall j :: 0 <= j < |h.outbox| && j != i ==> !h.outbox[j].Join?
    case _ => true
  }

  ghost predicate OutboxInv(base: seq<Addr>, log: seq<Event>, h: Host) {
    forall i :: 0 <= i < |h.outbox| ==> OutboxItem(base, log, h, i)
  }

  ghost predicate StructInv(base: seq<Addr>, log: seq<Event>, h: Host) {
    && PlaceInv(base, log, h)
    && ListInv(base, log, h)
    && QueueInv(h.node.requests)
    && OutboxInv(base, log, h)
  }

  /** A daemon that heads its own list is the oldest joined member. */
  lemma OwnHeadIsOldest(base: seq<Addr>, log: seq<Event>, h: Host)
    requires WellFormedLog(base, log)
    requires PlaceInv(base, log, h) && ListInv(base, log, h) && h.node.joined && OwnHead(h.node)
    ensures Oldest(RosterAt(base, log, h.idx).age) == Some(h.node.id)
  {
    var age, n := RosterAt(base, log, h.idx).age, h.node.id;
    var j :| 0 <= j < |age| && age[j] == n;
    FirstIdIs(h.node.members, n, 0);
    if j > 0 {
      assert Older(age, age[0], n);
      assert false;
    }
  }

  // ---------- names ----------

  lemma GrantFrame(n: Node, m: Msg)
    requires m.Grant?
    ensures var k := ProcessGrant(n, m).node;
      && k.id == n.id && k.members == n.members && k.joined == n.joined && k.total == n.total && k.clients == n.clients
      && (!n.joined ==> k.locks == n.locks)
  {
    if n.joined && m.res in n.locks {
      TellFrame(Record(n, m), m);
      PassFrame(Record(n, m), m);
    }
  }

  lemma TellFrame(n: Node, m: Msg)
    requires m.Grant? && m.res in n.locks
    ensures var k := TellOwner(n, m).node;
      k.id == n.id && k.members == n.members && k.joined == n.joined && k.total == n.total && k.clients == n.clients
  {
    var t := Put(n, m.res, n.locks[m.res].(localId := n.lockid + 1)).(lockid := n.lockid + 1);
    GrantOrSlice(PurgeAll(t, n.id, m.pid), m.res, Unlock(m.res, m.node, m.pid, m.tid));
  }

  lemma PassFrame(n: Node, m: Msg)
    requires m.Grant? && m.res in n.locks
    ensures var k := PassOn(n, m).node;
      k.id == n.id && k.members == n.members && k.joined == n.joined && k.total == n.total && k.clients == n.clients
  {
    GrantOrSlice(Put(n, m.res, n.locks[m.res].(state := Free)), m.res, Unlock(m.res, m.node, m.pid, m.tid));
  }

  lemma MessageFrame(n: Node, from: Addr, m: Msg)
    requires !m.Join?
    ensures var k := ProcessMessage(n, from, m).node;
      && k.id == n.id && k.members == n.members && k.joined == n.joined && k.total == n.total && k.clients == n.clients
      && (!n.joined ==> k.locks == n.locks)
  {
    match m
    case Lock(r, _, _, _, _) => GrantNextSlice(WithArrival(n, m), r);
    case Grant(_, _, _, _) => GrantFrame(n, m);
    case Unlock(r, _, _, _) => GrantNextSlice(n, r);
    case Nak(_, _, _, _) =>
    case Purge(_, _) =>
  }
}
