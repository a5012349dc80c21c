/**
 * Values exchanged and stored by the lock daemons.
 *
 * Resource names are only ever compared for equality, so they are modelled as
 * numbers. Node ids, process ids and sequence numbers are unbounded; the
 * counters of the program are assumed not to wrap.
 */
module Types {
  type NodeId = nat
  type Pid = nat
  type Tid = nat
  type Resource = nat

  datatype Option<+T> = None | Some(value: T)

  /** A group member: the address CPG reports, node id and daemon pid. */
  datatype Addr = Addr(id: NodeId, pid: Pid)

  datatype LockState = Free | Pending | Held

  /** One entry of the lock table; node 0 means "owner not known yet". */
  datatype LockRec = LockRec(state: LockState, node: NodeId, pid: Pid, tid: Tid, localId: nat)

  /** One entry of the request queue; granted marks a request this daemon has already answered. */
  datatype Request = Request(res: Resource, node: NodeId, pid: Pid, tid: Tid, granted: bool)

  /** A connection; pid is 0 until the first lock request arrives on it. */
  datatype Client = Client(fd: nat, pid: Pid)

  /** Messages multicast in the group. */
  datatype Msg =
    | Lock(res: Resource, node: NodeId, pid: Pid, tid: Tid, isTry: bool)
    | Grant(res: Resource, node: NodeId, pid: Pid, tid: Tid)
    | Unlock(res: Resource, node: NodeId, pid: Pid, tid: Tid)
    | Nak(res: Resource, node: NodeId, pid: Pid, tid: Tid)
    | Purge(node: NodeId, pid: Pid)
    | Join

  /** What a daemon writes to one of its clients. */
  datatype Reply =
    | Granted(pid: Pid, tid: Tid, res: Resource, id: nat)
    | Refused(pid: Pid, tid: Tid, res: Resource)

  /** The state of one daemon. */
  datatype Node = Node(
    id: NodeId,
    daemonPid: Pid,
    joined: bool,
    total: nat,
    members: seq<Addr>,
    locks: map<Resource, LockRec>,
    requests: seq<Request>,
    clients: seq<Client>,
    lockid: nat)

  /** A handler's result: the new state, messages multicast, and replies written to clients. */
  datatype Outcome = Outcome(node: Node, sent: seq<Msg>, replies: seq<Reply>)

  /** An entry of the agreed total order: a message with its sender, or a membership view. */
  datatype Event =
    | Message(from: Addr, m: Msg)
    | View(members: seq<Addr>, left: seq<Addr>, joins: seq<Addr>)
}
