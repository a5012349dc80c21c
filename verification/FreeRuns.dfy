/**
 * What holds in every state of every run the environment can produce at all: clients vanish
 * at any time, node ids come back at any time. Nothing here is about tokens.
 */
module FreeRuns {
  import opened Types
  import opened Protocol
  import opened Group
  import opened Cluster
  import opened Slices
  import opened Frames
  import opened Structure
  import opened StructureSteps
  import opened StructureAppend
  import opened TokenLocal
  import opened LockIds
  import opened PendingOwner
  import opened Runs

  // ---------- the invariant ----------

  ghost predicate FreeHost(base: seq<Addr>, log: seq<Event>, h: Host) {
    StructInv(base, log, h) && PendingOwn(h.node) && NodeIds(h.node)
  }

  ghost predicate FreeHosts(base: seq<Addr>, log: seq<Event>, hosts: map<NodeId, Host>) {
    forall n :: n in hosts ==> hosts[n].node.id == n && FreeHost(base, log, hosts[n])
  }

  ghost predicate FreeInv(s: Sys) {
    && WellFormedLog(s.base, s.log) && FlightInv(s.log)
    && s.hosts.Keys == Now(s).mem
    && FreeHosts(s.base, s.log, s.hosts)
  }

  // ---------- steps of one daemon ----------

  /** Identity, membership and position stay, and what is sent may be. */
  ghost predicate KeepsPlace(h: Host, k: Host, sent: seq<Msg>) {
    && k.idx == h.idx && k.outbox == h.outbox + sent
    && k.node.id == h.node.id && k.node.joined == h.node.joined && k.node.members == h.node.members
    && k.node.total == h.node.total
    && (!h.node.joined ==> k.node.locks == h.node.locks)
    && Derived(k.node.requests, h.node.requests)
    && MayAddAll(h.node, sent)
    && PendingOwn(k.node) && NodeIds(k.node)
  }

  lemma KeptPlace(base: seq<Addr>, log: seq<Event>, h: Host, k: Host, sent: seq<Msg>)
    requires FreeHost(base, log, h) && KeepsPlace(h, k, sent)
    ensures FreeHost(base, log, k)
  {
    LocalStruct(base, log, h, k, sent);
  }

  lemma ConnectPlace(h: Host, fd: nat)
    requires PendingOwn(h.node) && NodeIds(h.node)
    ensures KeepsPlace(h, HostConnect(h, fd), [])
  {
  }

  lemma AskLockPlace(h: Host, fd: nat, r: Resource, pid: Pid, tid: Tid, isTry: bool)
    requires PendingOwn(h.node) && NodeIds(h.node) && pid != 0
    ensures KeepsPlace(h, HostAskLock(h, fd, r, pid, tid, isTry),
                       Protocol.ClientLock(h.node, fd, r, pid, tid, isTry).sent)
  {
  }

  lemma AskUnlockPlace(h: Host, hold: Hold, order: seq<Resource>)
    requires PendingOwn(h.node) && NodeIds(h.node)
    ensures KeepsPlace(h, HostAskUnlock(h, hold, order), ClientUnlock(h.node, hold.id, order).sent)
  {
    var i := FirstLockId(h.node.locks, hold.id, order);
    UnlockPending(h.node, hold.id, order);
    if i < |order| {
      var l := h.node.locks[order[i]];
      GrantOrSlice(h.node, order[i], Unlock(order[i], l.node, l.pid, l.tid));
      GrantOrOrderly(h.node, order[i], Unlock(order[i], l.node, l.pid, l.tid));
    }
  }

  lemma DisconnectPlace(h: Host, fd: nat, order: seq<Resource>)
    requires PendingOwn(h.node) && NodeIds(h.node) && IsWalk(h.node.locks, order)
    requires !h.node.joined ==> h.node.locks == map[]
    ensures KeepsPlace(h, HostDisconnect(h, fd, order), DelClient(h.node, fd, order).sent)
  {
    var o := DelClient(h.node, fd, order);
    DelClientFrame(h.node, fd, order);
    DelClientOrderly(h.node, fd, order);
    DelClientSlice(h.node, fd, order, 0);
    DelClientPending(h.node, fd, order);
    KeptIds(h.node, o.node);
    forall i | 0 <= i < |o.sent| ensures MayAdd(h.node, o.sent[i]) { assert Speaks(h.node, o.sent[i]); }
  }

  lemma DeliverFree(base: seq<Addr>, log: seq<Event>, h: Host, order: seq<Resource>)
    requires WellFormedLog(base, log) && FlightInv(log) && FreeHost(base, log, h) && h.idx < |log|
    ensures FreeHost(base, log, HostDeliver(h, log[h.idx], order))
    ensures HostDeliver(h, log[h.idx], order).node.id == h.node.id
  {
    DeliverStruct(base, log, h, order);
    DeliverPending(base, log, h, order);
    HandleIds(h.node, log[h.idx], order);
    HandleId(h.node, log[h.idx], order);
  }

  // ---------- the agreed order grows ----------

  lemma NewHostFree(base: seq<Addr>, log: seq<Event>, e: Event, z: NodeId)
    requires WellFormedLog(base, log) && SoundEvent(RosterAt(base, log, |log|), e) && e.View? && z in Ids(e.joins)
    ensures FreeHost(base, log + [e], NewHost(e.joins, z, |log|))
  {
    NewHostStruct(base, log, e, z);
  }

  lemma ExtendedFree(s: Sys, e: Event, hosts: map<NodeId, Host>)
    requires WellFormedLog(s.base, s.log) && FlightInv(s.log) && SoundEvent(Now(s), e) && FlightItem(e)
    requires hosts.Keys == NextRoster(Now(s), e).mem && FreeHosts(s.base, s.log + [e], hosts)
    ensures FreeInv(Sys(s.base, hosts, s.log + [e]))
  {
    AppendWellFormed(s.base, s.log, e);
    AppendRoster(s.base, s.log, e);
  }

  lemma SequenceFree(s: Sys, n: NodeId, k: Host, e: Event)
    requires FreeInv(s) && n in s.hosts && s.hosts[n].outbox != []
    requires k == s.hosts[n].(outbox := s.hosts[n].outbox[1..]) && e == Message(Self(s.hosts[n]), s.hosts[n].outbox[0])
    ensures FreeInv(Sys(s.base, s.hosts[n := k], s.log + [e]))
  {
    SequenceStruct(s.base, s.log, s.hosts[n]);
    forall x | x in s.hosts && x != n ensures FreeHost(s.base, s.log + [e], s.hosts[x]) {
      AppendStruct(s.base, s.log, e, s.hosts[x]);
    }
    ExtendedFree(s, e, s.hosts[n := k]);
  }

  lemma ViewFree(s: Sys, e: Event)
    requires FreeInv(s) && e.View? && SoundEvent(Now(s), e)
    ensures FreeInv(Sys(s.base, HostsAfter(s.hosts, e.left, e.joins, |s.log|), s.log + [e]))
  {
    var hosts := HostsAfter(s.hosts, e.left, e.joins, |s.log|);
    forall x | x in hosts ensures hosts[x].node.id == x && FreeHost(s.base, s.log + [e], hosts[x]) {
      if x in Ids(e.joins) { NewHostFree(s.base, s.log, e, x); } else { AppendStruct(s.base, s.log, e, s.hosts[x]); }
    }
    ExtendedFree(s, e, hosts);
  }

  // ---------- runs ----------

  lemma LocalFree(s: Sys, n: NodeId, k: Host, u: Sys)
    requires FreeInv(s) && n in s.hosts && k.node.id == n && FreeHost(s.base, s.log, k)
    requires u == s.(hosts := s.hosts[n := k])
    ensures FreeInv(u)
  {
  }

  lemma QuietFree(s: Sys, n: NodeId, k: Host, sent: seq<Msg>, u: Sys)
    requires FreeInv(s) && n in s.hosts && KeepsPlace(s.hosts[n], k, sent) && u == s.(hosts := s.hosts[n := k])
    ensures FreeInv(u)
  {
    KeptPlace(s.base, s.log, s.hosts[n], k, sent);
    LocalFree(s, n, k, u);
  }

  lemma ClientFree(s: Sys, t: Step)
    requires FreeInv(s) && Enabled(s, t) && (t.Connect? || t.AskLock? || t.AskUnlock? || t.Disconnect?)
    ensures FreeInv(Apply(s, t))
  {
    var h := s.hosts[t.n];
    match t
    case Connect(n, fd) =>
      ConnectPlace(h, fd);
      QuietFree(s, n, HostConnect(h, fd), [], Apply(s, t));
    case AskLock(n, fd, res, pid, tid, isTry) =>
      AskLockPlace(h, fd, res, pid, tid, isTry);
      QuietFree(s, n, HostAskLock(h, fd, res, pid, tid, isTry),
                Protocol.ClientLock(h.node, fd, res, pid, tid, isTry).sent, Apply(s, t));
    case AskUnlock(n, hold, order) =>
      AskUnlockPlace(h, hold, order);
      QuietFree(s, n, HostAskUnlock(h, hold, order), ClientUnlock(h.node, hold.id, order).sent, Apply(s, t));
    case Disconnect(n, fd, order) =>
      DisconnectPlace(h, fd, order);
      QuietFree(s, n, HostDisconnect(h, fd, order), DelClient(h.node, fd, order).sent, Apply(s, t));
  }

  lemma StepFree(s: Sys, t: Step)
    requires FreeInv(s) && Enabled(s, t)
    ensures FreeInv(Apply(s, t))
  {
    match t
    case Sequence(n) =>
      var h := s.hosts[n];
      SequenceFree(s, n, h.(outbox := h.outbox[1..]), Message(Self(h), h.outbox[0]));
    case Deliver(n, order) =>
      DeliverFree(s.base, s.log, s.hosts[n], order);
      LocalFree(s, n, HostDeliver(s.hosts[n], s.log[s.hosts[n].idx], order), Apply(s, t));
    case ChangeView(members, left, joins) => ViewFree(s, View(members, left, joins));
    case _ => ClientFree(s, t);
  }

  lemma {:induction false} RunFree(s: Sys, run: seq<Step>)
    requires FreeInv(s) && IsRun(Any, s, run)
    ensures FreeInv(Exec(Any, s, run))
    decreases |run|
  {
    if run != [] {
      StepFree(s, run[0]);
      RunFree(Apply(s, run[0]), run[1..]);
    }
  }

  lemma FormedFree(base: seq<Addr>)
    requires Distinct(IdSeq(base)) && 0 !in Ids(base)
    ensures FreeInv(Formed(base))
  {
    forall n | n in Ids(base) ensures FreeHost(base, [], Formed(base).hosts[n]) { FormedStruct(base, n); }
  }

  lemma ReachesFree(kind: Kind, base: seq<Addr>, run: seq<Step>, s: Sys)
    requires Reaches(kind, base, run, s)
    ensures FreeInv(s)
  {
    FormedFree(base);
    RunIsAny(kind, Formed(base), run);
    RunFree(Formed(base), run);
  }

  // ---------- theorems ----------

  lemma OldestStays(base: seq<Addr>, log: seq<Event>, i: nat, j: nat, n: NodeId)
    requires i <= j <= |log| && Stays(log, i, n)
    requires Oldest(RosterAt(base, log, i).age) == Some(n)
    ensures Oldest(RosterAt(base, log, j).age) == Some(n)
  {
    if i < j {
      OldestStays(base, log, i, j - 1, n);
    }
  }

  /** At most one joined daemon heads its own member list, at whatever positions they are. */
  lemma UniqueLeader(base: seq<Addr>, run: seq<Step>, s: Sys, n: NodeId, m: NodeId)
    requires Reaches(Any, base, run, s)
    requires n in s.hosts && s.hosts[n].node.joined && OwnHead(s.hosts[n].node)
    requires m in s.hosts && s.hosts[m].node.joined && OwnHead(s.hosts[m].node)
    ensures n == m
  {
    ReachesFree(Any, base, run, s);
    OwnHeadIsOldest(s.base, s.log, s.hosts[n]);
    OwnHeadIsOldest(s.base, s.log, s.hosts[m]);
    OldestStays(s.base, s.log, s.hosts[n].idx, |s.log|, n);
    OldestStays(s.base, s.log, s.hosts[m].idx, |s.log|, m);
  }

  /** A pending lock belongs to the daemon itself or to nobody yet. */
  lemma PendingIsOwn(base: seq<Addr>, run: seq<Step>, s: Sys, n: NodeId, r: Resource)
    requires Reaches(Any, base, run, s)
    requires n in s.hosts && r in s.hosts[n].node.locks && s.hosts[n].node.locks[r].state.Pending?
    ensures s.hosts[n].node.locks[r].node == n || s.hosts[n].node.locks[r].node == 0
  {
    ReachesFree(Any, base, run, s);
    assert FreeHost(s.base, s.log, s.hosts[n]);
  }

  /** The ids in use at a daemon are bounded by its counter, and no two locks share one. */
  lemma IdsDistinct(base: seq<Addr>, run: seq<Step>, s: Sys, n: NodeId, a: Resource, b: Resource)
    requires Reaches(Any, base, run, s) && n in s.hosts && a in s.hosts[n].node.locks && b in s.hosts[n].node.locks
    ensures s.hosts[n].node.locks[a].localId <= s.hosts[n].node.lockid
    ensures a != b && s.hosts[n].node.locks[a].localId != 0 ==>
      s.hosts[n].node.locks[a].localId != s.hosts[n].node.locks[b].localId
  {
    ReachesFree(Any, base, run, s);
    assert FreeHost(s.base, s.log, s.hosts[n]);
  }
}
