/**
 * The handlers of the lock daemon as functions on its state.
 *
 * A walk over the lock table visits the table in the order of the argument
 * `order`, which callers may choose freely.
 */
module Protocol {
  import opened Types

  // ---------- queue ----------

  predicate IsWaiter(q: Request, r: Resource) {
    q.res == r && !q.granted
  }

  /** Position of the first request for r not yet answered, or the queue's length. */
  function FirstWaiter(q: seq<Request>, r: Resource): (i: nat)
    ensures i <= |q|
    ensures i < |q| ==> IsWaiter(q[i], r)
    ensures forall j :: 0 <= j < i ==> !IsWaiter(q[j], r)
  {
    if q == [] then 0
    else if IsWaiter(q[0], r) then 0
    else 1 + FirstWaiter(q[1..], r)
  }

  predicate Matches(q: Request, r: Resource, node: NodeId, pid: Pid, tid: Tid) {
    q.res == r && q.node == node && q.pid == pid && q.tid == tid
  }

  /** Position of the first request with the given key, or the queue's length. */
  function FirstMatch(q: seq<Request>, r: Resource, node: NodeId, pid: Pid, tid: Tid): (i: nat)
    ensures i <= |q|
    ensures i < |q| ==> Matches(q[i], r, node, pid, tid)
    ensures forall j :: 0 <= j < i ==> !Matches(q[j], r, node, pid, tid)
  {
    if q == [] then 0
    else if Matches(q[0], r, node, pid, tid) then 0
    else 1 + FirstMatch(q[1..], r, node, pid, tid)
  }

  function DropAt<T>(q: seq<T>, i: nat): seq<T> {
    if i < |q| then q[..i] + q[i + 1..] else q
  }

  predicate Purged(q: Request, node: NodeId, pid: Pid) {
    q.node == node && (pid == 0 || q.pid == pid)
  }

  /** The queue without the requests of a process, or of a whole node when pid is 0. */
  function PurgeQueue(q: seq<Request>, node: NodeId, pid: Pid): seq<Request> {
    if q == [] then []
    else
      var rest := PurgeQueue(q[..|q| - 1], node, pid);
      if Purged(q[|q| - 1], node, pid) then rest else rest + [q[|q| - 1]]
  }

  // ---------- lookups ----------

  predicate OwnHead(n: Node) {
    |n.members| > 0 && n.members[0].id == n.id
  }

  predicate IsMember(members: seq<Addr>, id: NodeId) {
    exists i :: 0 <= i < |members| && members[i].id == id
  }

  predicate HasClient(clients: seq<Client>, pid: Pid) {
    exists i :: 0 <= i < |clients| && clients[i].pid == pid
  }

  function FirstId(members: seq<Addr>, id: NodeId): (i: nat)
    ensures i <= |members|
    ensures i < |members| ==> members[i].id == id
    ensures forall j :: 0 <= j < i ==> members[j].id != id
  {
    if members == [] then 0
    else if members[0].id == id then 0
    else 1 + FirstId(members[1..], id)
  }

  function FirstAddr(members: seq<Addr>, a: Addr): (i: nat)
    ensures i <= |members|
    ensures i < |members| ==> members[i] == a
    ensures forall j :: 0 <= j < i ==> members[j] != a
  {
    if members == [] then 0
    else if members[0] == a then 0
    else 1 + FirstAddr(members[1..], a)
  }

  function FirstFd(clients: seq<Client>, fd: nat): (i: nat)
    ensures i <= |clients|
    ensures i < |clients| ==> clients[i].fd == fd
    ensures forall j :: 0 <= j < i ==> clients[j].fd != fd
  {
    if clients == [] then 0
    else if clients[0].fd == fd then 0
    else 1 + FirstFd(clients[1..], fd)
  }

  /** Position in the walk of the first lock carrying a local id, or the walk's length. */
  function FirstLockId(locks: map<Resource, LockRec>, id: nat, order: seq<Resource>): (i: nat)
    ensures i <= |order|
    ensures i < |order| ==> order[i] in locks && locks[order[i]].localId == id
    ensures forall j :: 0 <= j < i ==> !(order[j] in locks && locks[order[j]].localId == id)
  {
    if order == [] then 0
    else if order[0] in locks && locks[order[0]].localId == id then 0
    else 1 + FirstLockId(locks, id, order[1..])
  }

  // ---------- pieces of handlers ----------

  function Quiet(n: Node): Outcome {
    Outcome(n, [], [])
  }

  function Put(n: Node, r: Resource, l: LockRec): Node {
    n.(locks := n.locks[r := l])
  }

  /** grant_next: mark the first waiter for r and multicast its grant. */
  function GrantNext(n: Node, r: Resource): Outcome {
    var i := FirstWaiter(n.requests, r);
    if i < |n.requests| then
      var q := n.requests[i];
      Outcome(n.(requests := n.requests[i := q.(granted := true)]), [Grant(r, q.node, q.pid, q.tid)], [])
    else
      Quiet(n)
  }

  /** grant_next, and the given message if there was nobody to grant to. */
  function GrantOr(n: Node, r: Resource, otherwise: Msg): Outcome {
    var g := GrantNext(n, r);
    if g.sent == [] then Outcome(g.node, [otherwise], []) else g
  }

  function PurgeAll(n: Node, node: NodeId, pid: Pid): Node {
    n.(requests := PurgeQueue(n.requests, node, pid))
  }

  // ---------- messages from the group ----------

  function ProcessLock(n: Node, m: Msg): Outcome
    requires m.Lock?
  {
    if !n.joined then Quiet(n)
    else
      var q := n.(requests := n.requests + [Request(m.res, m.node, m.pid, m.tid, false)]);
      if m.res in n.locks then
        var l := n.locks[m.res];
        if l.node == n.id then
          if l.state.Free? then
            var g := GrantNext(q, m.res);
            Outcome(Put(g.node, m.res, l.(state := if g.sent == [] then Free else Pending)), g.sent, [])
          else
            Outcome(q, if m.isTry then [Nak(m.res, m.node, m.pid, m.tid)] else [], [])
        else Quiet(q)
      else
        var l := LockRec(Free, 0, 0, 0, 0);
        if OwnHead(n) then
          var g := GrantNext(q, m.res);
          Outcome(Put(g.node, m.res, l.(state := if g.sent == [] then Free else Pending)), g.sent, [])
        else Quiet(Put(q, m.res, l))
  }

  /** Enter the target of a grant as owner and take its request off the queue. */
  function Record(n: Node, m: Msg): Node
    requires m.Grant? && m.res in n.locks
  {
    var i := FirstMatch(n.requests, m.res, m.node, m.pid, m.tid);
    Put(n.(requests := DropAt(n.requests, i)), m.res,
        n.locks[m.res].(state := Held, node := m.node, pid := m.pid, tid := m.tid))
  }

  /** grant_client on the owner's node; a vanished process passes the lock on. */
  function TellOwner(n: Node, m: Msg): Outcome
    requires m.Grant? && m.res in n.locks
  {
    var id := n.lockid + 1;
    var t := Put(n, m.res, n.locks[m.res].(localId := id)).(lockid := id);
    if HasClient(n.clients, m.pid) then Outcome(t, [], [Granted(m.pid, m.tid, m.res, id)])
    else GrantOr(PurgeAll(t, n.id, m.pid), m.res, Unlock(m.res, m.node, m.pid, m.tid))
  }

  /** The oldest member passes on a lock granted to a node that is gone. */
  function PassOn(n: Node, m: Msg): Outcome
    requires m.Grant? && m.res in n.locks
  {
    GrantOr(Put(n, m.res, n.locks[m.res].(state := Free)), m.res, Unlock(m.res, m.node, m.pid, m.tid))
  }

  /**
   * The grant handler once the lock is in the table and the grant has been accepted.
   * The test for an owner that is no longer a member cannot succeed on the owner itself:
   * a node that heads its own member list is on that list.
   */
  function AcceptGrant(n: Node, m: Msg): Outcome
    requires m.Grant? && m.res in n.locks
  {
    var q := Record(n, m);
    if m.node == n.id then TellOwner(q, m)
    else if OwnHead(n) && !IsMember(n.members, m.node) then PassOn(q, m)
    else Quiet(q)
  }

  function ProcessGrant(n: Node, m: Msg): Outcome
    requires m.Grant?
  {
    if !n.joined then Quiet(n)
    else if m.res in n.locks then
      if n.locks[m.res].state.Held? && (m.pid == 0 || m.node == 0) then Quiet(n)
      else AcceptGrant(n, m)
    else Quiet(Put(n, m.res, LockRec(Held, m.node, m.pid, m.tid, 0)))
  }

  function ProcessNak(n: Node, m: Msg): Outcome
    requires m.Nak?
  {
    if !n.joined then Quiet(n)
    else
      var i := FirstMatch(n.requests, m.res, m.node, m.pid, m.tid);
      if i == |n.requests| then Quiet(n)
      else
        var q := n.(requests := DropAt(n.requests, i));
        if m.node != n.id then Quiet(q)
        else if HasClient(n.clients, m.pid) then Outcome(q, [], [Refused(m.pid, m.tid, m.res)])
        else Quiet(PurgeAll(q, n.id, m.pid))
  }

  predicate Releases(l: LockRec, m: Msg)
    requires m.Unlock?
  {
    l.state.Held? && l.node == m.node && l.pid == m.pid
  }

  function ProcessUnlock(n: Node, m: Msg): Outcome
    requires m.Unlock?
  {
    if !n.joined || m.res !in n.locks || !Releases(n.locks[m.res], m) then Quiet(n)
    else
      var l := n.locks[m.res];
      if l.node == n.id then
        var g := GrantNext(n, m.res);
        Outcome(Put(g.node, m.res, l.(state := if g.sent == [] then Free else Pending)), g.sent, [])
      else Quiet(Put(n, m.res, l.(state := Free)))
  }

  function ProcessJoin(n: Node, from: Addr): Outcome {
    var i := FirstId(n.members, from.id);
    if i < |n.members| then
      if n.members[i] == from then Quiet(n.(members := DropAt(n.members, i) + [from])) else Quiet(n)
    else
      Quiet(n.(joined := n.joined || from.id == n.id,
               members := n.members + [from],
               total := n.total + 1))
  }

  function ProcessMessage(n: Node, from: Addr, m: Msg): Outcome {
    match m
    case Lock(_, _, _, _, _) => ProcessLock(n, m)
    case Grant(_, _, _, _) => ProcessGrant(n, m)
    case Unlock(_, _, _, _) => ProcessUnlock(n, m)
    case Nak(_, _, _, _) => ProcessNak(n, m)
    case Purge(node, pid) => Quiet(PurgeAll(n, node, pid))
    case Join => ProcessJoin(n, from)
  }

  // ---------- views ----------

  /** The entries the first view adds for one member: one per joiner other than that member. */
  function SeedOne(a: Addr, joins: seq<Addr>, me: NodeId): seq<Addr> {
    if joins == [] then []
    else
      SeedOne(a, joins[..|joins| - 1], me) +
      (if joins[|joins| - 1].id == a.id || a.id == me then [] else [a])
  }

  function Seed(members: seq<Addr>, joins: seq<Addr>, me: NodeId): seq<Addr> {
    if members == [] then []
    else Seed(members[..|members| - 1], joins, me) + SeedOne(members[|members| - 1], joins, me)
  }

  /** Non-oldest survivor: the oldest member becomes the owner of a dead node's locks. */
  function Relabel(locks: map<Resource, LockRec>, dead: NodeId, heir: Addr): map<Resource, LockRec> {
    map r | r in locks ::
      if locks[r].node == dead then locks[r].(node := heir.id, pid := heir.pid) else locks[r]
  }

  /** Oldest survivor: recover one lock of a dead node. */
  function RecoverLock(n: Node, dead: NodeId, r: Resource): Outcome {
    if r !in n.locks || n.locks[r].node != dead || n.locks[r].state.Pending? then Quiet(n)
    else
      var l := n.locks[r];
      var g := GrantNext(Put(n, r, l.(state := Free)), r);
      if g.sent != [] then g
      else
        var mine := l.(state := Free, node := n.id, pid := n.daemonPid);
        Outcome(Put(g.node, r, mine),
                if l.state.Held? then [Unlock(r, n.id, n.daemonPid, 0)] else [], [])
  }

  function RecoverLocks(n: Node, dead: NodeId, order: seq<Resource>): Outcome {
    if order == [] then Quiet(n)
    else
      var a := RecoverLocks(n, dead, order[..|order| - 1]);
      var b := RecoverLock(a.node, dead, order[|order| - 1]);
      Outcome(b.node, a.sent + b.sent, [])
  }

  /** del_node, after the member has been taken off the list. */
  function DelNode(n: Node, dead: NodeId, order: seq<Resource>): Outcome {
    if !OwnHead(n) then
      if |n.members| == 0 then Quiet(n)
      else Quiet(n.(locks := Relabel(n.locks, dead, n.members[0])))
    else
      var o := RecoverLocks(PurgeAll(n, dead, 0), dead, order);
      Outcome(o.node, [Purge(dead, 0)] + o.sent, [])
  }

  function Leave(n: Node, a: Addr, order: seq<Resource>): Outcome {
    var i := FirstAddr(n.members, a);
    if i < |n.members| then DelNode(n.(members := DropAt(n.members, i)), a.id, order) else Quiet(n)
  }

  function LeaveAll(n: Node, left: seq<Addr>, order: seq<Resource>): Outcome {
    if left == [] then Quiet(n)
    else
      var a := LeaveAll(n, left[..|left| - 1], order);
      var b := Leave(a.node, left[|left| - 1], order);
      Outcome(b.node, a.sent + b.sent, [])
  }

  function SeedView(n: Node, members: seq<Addr>, joins: seq<Addr>): Node {
    if n.total == 0 then
      n.(members := n.members + Seed(members, joins, n.id), total := |members|)
    else n
  }

  /** cpg_config_change. */
  function ConfigChange(n: Node, members: seq<Addr>, left: seq<Addr>, joins: seq<Addr>, order: seq<Resource>): Outcome {
    var s := SeedView(n, members, joins);
    var o := LeaveAll(s, left, order);
    var removed := |s.members| - |o.node.members|;
    o.(node := o.node.(total := if removed <= s.total then s.total - removed else 0))
  }

  // ---------- clients ----------

  function ClientLock(n: Node, fd: nat, r: Resource, pid: Pid, tid: Tid, isTry: bool): Outcome {
    var i := FirstFd(n.clients, fd);
    if i == |n.clients| then Quiet(n)
    else
      Outcome(n.(clients := n.clients[i := Client(fd, pid)]), [Lock(r, n.id, pid, tid, isTry)], [])
  }

  function ClientUnlock(n: Node, id: nat, order: seq<Resource>): Outcome {
    var i := FirstLockId(n.locks, id, order);
    if i == |order| then Quiet(n)
    else
      var l := n.locks[order[i]];
      GrantOr(n, order[i], Unlock(order[i], l.node, l.pid, l.tid))
  }

  /** del_client: release one lock of a vanished process. */
  function ReleaseLock(n: Node, pid: Pid, r: Resource): Outcome {
    if r !in n.locks || n.locks[r].node != n.id || n.locks[r].pid != pid || !n.locks[r].state.Held? then Quiet(n)
    else GrantOr(Put(n, r, n.locks[r].(state := Free)), r, Unlock(r, n.id, pid, 0))
  }

  function ReleaseLocks(n: Node, pid: Pid, order: seq<Resource>): Outcome {
    if order == [] then Quiet(n)
    else
      var a := ReleaseLocks(n, pid, order[..|order| - 1]);
      var b := ReleaseLock(a.node, pid, order[|order| - 1]);
      Outcome(b.node, a.sent + b.sent, [])
  }

  /** del_client. */
  function DelClient(n: Node, fd: nat, order: seq<Resource>): Outcome {
    var i := FirstFd(n.clients, fd);
    if i == |n.clients| then Quiet(n)
    else
      var pid := n.clients[i].pid;
      var c := n.(clients := DropAt(n.clients, i));
      if pid == 0 then Quiet(c)
      else
        var o := ReleaseLocks(PurgeAll(c, n.id, pid), pid, order);
        Outcome(o.node, [Purge(n.id, pid)] + o.sent, [])
  }
}
