/**
 * A cluster of lock daemons above a group-communication service that delivers
 * messages and views in one agreed order.
 *
 * Every daemon has an outbox (multicast but not yet ordered, first in first out)
 * and a position in the agreed order up to which it has been delivered events.
 * Daemons may be at different positions.
 */
module Cluster {
  import opened Types
  import opened Protocol
  import opened Group
  import opened Membership

  /** A client that was told it has a lock and has not released it. */
  datatype Hold = Hold(pid: Pid, tid: Tid, res: Resource, id: nat)

  datatype Host = Host(node: Node, idx: nat, outbox: seq<Msg>, holds: set<Hold>)

  /** base is the group as it was formed at the beginning, in JOIN order (possibly empty). */
  datatype Sys = Sys(base: seq<Addr>, hosts: map<NodeId, Host>, log: seq<Event>)

  datatype Step =
    | Connect(n: NodeId, fd: nat)
    | AskLock(n: NodeId, fd: nat, res: Resource, pid: Pid, tid: Tid, isTry: bool)
    | AskUnlock(n: NodeId, hold: Hold, order: seq<Resource>)
    | Disconnect(n: NodeId, fd: nat, order: seq<Resource>)
    | Sequence(n: NodeId)
    | Deliver(n: NodeId, order: seq<Resource>)
    | ChangeView(members: seq<Addr>, left: seq<Addr>, joins: seq<Addr>)

  // ---------- initial states ----------

  function FreshNode(a: Addr): Node {
    Node(a.id, a.pid, false, 0, [], map[], [], [], 0)
  }

  function FormedNode(base: seq<Addr>, id: NodeId): Node
    requires id in Ids(base)
  {
    var i := FirstId(base, id);
    Node(id, if i < |base| then base[i].pid else 0, true, |base| + 1, base, map[], [], [], 0)
  }

  function Formed(base: seq<Addr>): Sys {
    Sys(base, map id | id in Ids(base) :: Host(FormedNode(base, id), 0, [], {}), [])
  }

  // ---------- helpers ----------

  /** A complete walk over the lock table. */
  ghost predicate IsWalk(locks: map<Resource, LockRec>, order: seq<Resource>) {
    Distinct(order) && (forall r :: r in order <==> r in locks)
  }

  function Told(replies: seq<Reply>): set<Hold> {
    set i | 0 <= i < |replies| && replies[i].Granted? ::
      Hold(replies[i].pid, replies[i].tid, replies[i].res, replies[i].id)
  }

  function Handle(n: Node, e: Event, order: seq<Resource>): Outcome {
    match e
    case Message(from, m) => ProcessMessage(n, from, m)
    case View(members, left, joins) => ConfigChange(n, members, left, joins, order)
  }

  function After(h: Host, o: Outcome): Host {
    Host(o.node, h.idx, h.outbox + o.sent, h.holds + Told(o.replies))
  }

  function HostDeliver(h: Host, e: Event, order: seq<Resource>): Host {
    After(h, Handle(h.node, e, order)).(idx := h.idx + 1)
  }

  /** The process behind a connection; 0 if there is none or it never asked for a lock. */
  function ClientPid(n: Node, fd: nat): Pid {
    var i := FirstFd(n.clients, fd);
    if i < |n.clients| then n.clients[i].pid else 0
  }

  function HostDisconnect(h: Host, fd: nat, order: seq<Resource>): Host {
    After(h.(holds := set x | x in h.holds && x.pid != ClientPid(h.node, fd)), DelClient(h.node, fd, order))
  }

  function HostAskUnlock(h: Host, hold: Hold, order: seq<Resource>): Host {
    After(h.(holds := h.holds - {hold}), ClientUnlock(h.node, hold.id, order))
  }

  function HostAskLock(h: Host, fd: nat, r: Resource, pid: Pid, tid: Tid, isTry: bool): Host {
    After(h, Protocol.ClientLock(h.node, fd, r, pid, tid, isTry))
  }

  function HostConnect(h: Host, fd: nat): Host {
    h.(node := h.node.(clients := h.node.clients + [Client(fd, 0)]))
  }

  function Self(h: Host): Addr {
    Addr(h.node.id, h.node.daemonPid)
  }

  // ---------- steps ----------

  /** One connection per process: its pid is set once and no other connection has it. */
  predicate MayUsePid(clients: seq<Client>, fd: nat, pid: Pid) {
    && pid != 0
    && (exists i :: 0 <= i < |clients| && clients[i].fd == fd)
    && (forall i :: 0 <= i < |clients| ==>
          if clients[i].fd == fd then clients[i].pid == 0 || clients[i].pid == pid
          else clients[i].pid != pid)
  }

  function Now(s: Sys): Roster {
    RosterAt(s.base, s.log, |s.log|)
  }

  /** What the environment can do at all. */
  ghost predicate Enabled(s: Sys, t: Step) {
    match t
    case Connect(n, fd) =>
      n in s.hosts && forall i :: 0 <= i < |s.hosts[n].node.clients| ==> s.hosts[n].node.clients[i].fd != fd
    case AskLock(n, fd, res, pid, tid, isTry) =>
      n in s.hosts && MayUsePid(s.hosts[n].node.clients, fd, pid)
    case AskUnlock(n, hold, order) =>
      n in s.hosts && hold in s.hosts[n].holds && IsWalk(s.hosts[n].node.locks, order)
    case Disconnect(n, fd, order) =>
      n in s.hosts && IsWalk(s.hosts[n].node.locks, order)
    case Sequence(n) =>
      n in s.hosts && s.hosts[n].outbox != []
    case Deliver(n, order) =>
      n in s.hosts && s.hosts[n].idx < |s.log| && IsWalk(s.hosts[n].node.locks, order)
    case ChangeView(members, left, joins) =>
      && SoundEvent(Now(s), View(members, left, joins))
      && Distinct(IdSeq(joins)) && Distinct(IdSeq(members))
  }

  function NewHost(joins: seq<Addr>, id: NodeId, at: nat): Host {
    var i := FirstId(joins, id);
    Host(FreshNode(Addr(id, if i < |joins| then joins[i].pid else 0)), at, [Join], {})
  }

  function HostsAfter(hosts: map<NodeId, Host>, left: seq<Addr>, joins: seq<Addr>, at: nat): map<NodeId, Host> {
    map n | n in (hosts.Keys - Ids(left)) + Ids(joins) ::
      if n in Ids(joins) then NewHost(joins, n, at) else hosts[n]
  }

  ghost function Apply(s: Sys, t: Step): Sys
    requires Enabled(s, t)
  {
    match t
    case Connect(n, fd) =>
      s.(hosts := s.hosts[n := HostConnect(s.hosts[n], fd)])
    case AskLock(n, fd, res, pid, tid, isTry) =>
      s.(hosts := s.hosts[n := HostAskLock(s.hosts[n], fd, res, pid, tid, isTry)])
    case AskUnlock(n, hold, order) =>
      s.(hosts := s.hosts[n := HostAskUnlock(s.hosts[n], hold, order)])
    case Disconnect(n, fd, order) =>
      s.(hosts := s.hosts[n := HostDisconnect(s.hosts[n], fd, order)])
    case Sequence(n) =>
      var h := s.hosts[n];
      Sys(s.base, s.hosts[n := h.(outbox := h.outbox[1..])], s.log + [Message(Self(h), h.outbox[0])])
    case Deliver(n, order) =>
      var h := s.hosts[n];
      s.(hosts := s.hosts[n := HostDeliver(h, s.log[h.idx], order)])
    case ChangeView(members, left, joins) =>
      Sys(s.base, HostsAfter(s.hosts, left, joins, |s.log|), s.log + [View(members, left, joins)])
  }

  // ---------- hypotheses ----------

  predicate HeldBy(n: Node, r: Resource, pid: Pid) {
    r in n.locks && n.locks[r].state.Held? && n.locks[r].node == n.id && n.locks[r].pid == pid
  }

  /** No grant for r is on its way past this host: none in its outbox, none undelivered to it. */
  ghost predicate NoGrantAhead(log: seq<Event>, h: Host, r: Resource) {
    && NoGrantFrom(log, h.idx, r)
    && (forall i :: 0 <= i < |h.outbox| ==> !(h.outbox[i].Grant? && h.outbox[i].res == r))
  }

  /** Nobody else waits for r once the requests of pid are purged. */
  predicate NoWaiterBeside(n: Node, r: Resource, pid: Pid) {
    FirstWaiter(PurgeQueue(n.requests, n.id, pid), r) == |PurgeQueue(n.requests, n.id, pid)|
  }

  /** Every lock the process holds has neither a handover on its way nor another waiter. */
  ghost predicate MayVanish(log: seq<Event>, h: Host, pid: Pid) {
    forall r :: HeldBy(h.node, r, pid) ==> NoGrantAhead(log, h, r) && NoWaiterBeside(h.node, r, pid)
  }

  /** One of the addresses that leave is on the list and has this id. */
  ghost predicate Gone(list: seq<Addr>, left: seq<Addr>, id: NodeId) {
    exists i :: 0 <= i < |left| && left[i] in list && left[i].id == id
  }

  /**
   * In this view the daemon will recover r: it heads what the view leaves of its list, and its
   * table records r as a listed leaver's.
   */
  ghost predicate Recovers(n: Node, e: Event, r: Resource)
    requires e.View?
  {
    var list := SeedView(n, e.members, e.joins).members;
    OwnHead(n.(members := DropAll(list, e.left))) && r in n.locks && Gone(list, e.left, n.locks[r].node)
  }

  /** No lock the daemon recovers in this view has a grant on its way past the daemon. */
  ghost predicate MayRecover(log: seq<Event>, h: Host, e: Event) {
    e.View? ==> forall r :: Recovers(h.node, e, r) ==> NoGrantAhead(log, h, r)
  }

  /** The departure of z, or a grant to it or release in its name. */
  predicate Touches(e: Event, z: NodeId) {
    match e
    case Message(from, m) => (m.Grant? || m.Unlock?) && m.node == z
    case View(members, left, joins) => z in Ids(left)
  }

  /** No recovery message about z is on its way past this host, and no grant of a lock recorded as its own. */
  ghost predicate RecoveredHere(log: seq<Event>, h: Host, z: NodeId) {
    && (forall p :: h.idx <= p < |log| ==> !Touches(log[p], z))
    && (forall i :: 0 <= i < |h.outbox| && h.outbox[i].Unlock? ==> h.outbox[i].node != z)
    && (forall r :: r in h.node.locks && h.node.locks[r].node == z ==> NoGrantAhead(log, h, r))
  }

  /** The daemon has no request of z in its queue and none to come, and no grant to z in its outbox. */
  ghost predicate Unheard(log: seq<Event>, h: Host, z: NodeId) {
    && (forall i :: 0 <= i < |h.node.requests| ==> h.node.requests[i].node != z)
    && (forall i :: 0 <= i < |h.outbox| && h.outbox[i].Grant? ==> h.outbox[i].node != z)
    && (forall p :: h.idx <= p < |log| ==> !Concerning(log[p], z))
  }

  /** A request or grant for z. */
  predicate Concerning(e: Event, z: NodeId) {
    e.Message? && (e.m.Lock? || e.m.Grant?) && e.m.node == z
  }

  /** A grant is to a node that has left the group, or to one that has announced itself. */
  predicate ToAnnounced(g: Roster, m: Msg) {
    m.Grant? && m.node in g.mem ==> m.node in g.age
  }
}
