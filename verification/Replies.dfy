/**
 * What daemons write to their clients. In a group nobody joins and whose clients stay it is, to
 * the last reply, what the agreed order says: one numbered grant for each grant to the node, and
 * one refusal for each refusal of one of its requests that is still waiting.
 */
module Replies {
  import opened Types
  import opened Protocol
  import opened Group
  import opened Cluster
  import opened Slices
  import opened Membership
  import opened StructureSteps
  import opened Runs
  import opened Survivors
  import opened LocalState
  import opened Askers
  import opened CrashQueue
  import opened CrashSteps
  import opened CrashRuns

  // ---------- one refusal ----------

  /**
   * A refusal for a process of this node is written to it if it is connected and its request is
   * still queued, and otherwise nothing is written.
   */
  lemma NakWrites(n: Node, from: Addr, r: Resource, pid: Pid, tid: Tid)
    ensures
      var queued, connected := HasKey(n.requests, Key(r, n.id, pid, tid)), exists c :: c in n.clients && c.pid == pid;
      ProcessMessage(n, from, Nak(r, n.id, pid, tid)).replies ==
        if n.joined && queued && connected then [Refused(pid, tid, r)] else []
  {
    var i := FirstMatch(n.requests, r, n.id, pid, tid);
    if i < |n.requests| { assert KeyOf(n.requests[i]) == Key(r, n.id, pid, tid); }
  }

  lemma KeepIgnores(q: seq<Key>, k: Key, out: set<Msg>)
    requires !Kept(k, out)
    ensures Keep(DropAt(q, FirstKey(q, k)), out) == Keep(q, out)
  {
    KeepDrop(q, k, out);
    KeepIn(q, out);
  }

  /** A refusal for a process that has gone takes all its requests off the queue, and no others. */
  lemma NakOfVanished(n: Node, from: Addr, r: Resource, pid: Pid, tid: Tid)
    requires n.joined && HasKey(n.requests, Key(r, n.id, pid, tid)) && !HasClient(n.clients, pid) && pid != 0
    ensures var o := ProcessMessage(n, from, Nak(r, n.id, pid, tid));
      && o.sent == [] && o.replies == [] && o.node == n.(requests := o.node.requests)
      && Keys(o.node.requests) == Keep(Keys(n.requests), {Msg.Purge(n.id, pid)})
  {
    var i, k, p := FirstMatch(n.requests, r, n.id, pid, tid), Key(r, n.id, pid, tid), Msg.Purge(n.id, pid);
    assert i < |n.requests| by { KeysHave(n.requests, k); MatchIsFirst(n.requests, r, n.id, pid, tid); }
    assert ProcessMessage(n, from, Nak(r, n.id, pid, tid)) ==
      Quiet(PurgeAll(n.(requests := DropAt(n.requests, i)), n.id, pid));
    MatchIsFirst(n.requests, r, n.id, pid, tid);
    PurgeKeeps(DropAt(n.requests, i), n.id, pid);
    assert p in {p} && PurgesKey(p, k);
    KeepIgnores(Keys(n.requests), k, {p});
  }

  // ---------- what is written along a run ----------

  /** What n writes to its clients in a step. */
  ghost function Writes(s: Sys, t: Step, n: NodeId): seq<Reply>
    requires Enabled(s, t)
  {
    match t
    case Deliver(m, order) =>
      if m == n then Handle(s.hosts[n].node, s.log[s.hosts[n].idx], order).replies else []
    case AskLock(m, fd, res, pid, tid, isTry) =>
      if m == n then Protocol.ClientLock(s.hosts[n].node, fd, res, pid, tid, isTry).replies else []
    case AskUnlock(m, hold, order) =>
      if m == n then ClientUnlock(s.hosts[n].node, hold.id, order).replies else []
    case Disconnect(m, fd, order) =>
      if m == n then DelClient(s.hosts[n].node, fd, order).replies else []
    case _ => []
  }

  ghost function Written(kind: Kind, s: Sys, run: seq<Step>, n: NodeId): seq<Reply>
    requires IsRun(kind, s, run)
    decreases |run|
  {
    if run == [] then [] else Writes(s, run[0], n) + Written(kind, Apply(s, run[0]), run[1..], n)
  }

  // ---------- what the order says ----------

  function GrantsTo(log: seq<Event>, n: NodeId, i: nat): nat
    requires i <= |log|
  {
    if i == 0 then 0
    else GrantsTo(log, n, i - 1) + if log[i - 1].Message? && log[i - 1].m.Grant? && log[i - 1].m.node == n then 1 else 0
  }

  predicate IsRefusal(e: Event, k: Key) {
    e.Message? && e.m.Nak? && MsgKey(e.m) == k
  }

  /** What the event at position i has n write to its clients. */
  ghost function DueAt(log: seq<Event>, n: NodeId, i: nat): seq<Reply>
    requires i < |log|
  {
    match log[i]
    case Message(_, m) =>
      if m.Grant? && m.node == n then [Granted(m.pid, m.tid, m.res, 1 + GrantsTo(log, n, i))]
      else if m.Nak? && m.node == n && MsgKey(m) in QueueAt(log, i) then [Refused(m.pid, m.tid, m.res)]
      else []
    case View(_, _, _) => []
  }

  /** What the order up to position i has n write to its clients. */
  ghost function Due(log: seq<Event>, n: NodeId, i: nat): seq<Reply>
    requires i <= |log|
  {
    if i == 0 then [] else Due(log, n, i - 1) + DueAt(log, n, i - 1)
  }

  lemma {:induction false} GrantsPrefix(log: seq<Event>, e: Event, n: NodeId, i: nat)
    requires i <= |log|
    ensures GrantsTo(log + [e], n, i) == GrantsTo(log, n, i)
  {
    if i > 0 { GrantsPrefix(log, e, n, i - 1); }
  }

  lemma DueAtPrefix(log: seq<Event>, e: Event, n: NodeId, i: nat)
    requires i < |log|
    ensures DueAt(log + [e], n, i) == DueAt(log, n, i)
  {
    assert (log + [e])[i] == log[i];
    GrantsPrefix(log, e, n, i);
    QueuePrefix(log, e, i);
  }

  lemma {:induction false} DuePrefix(log: seq<Event>, e: Event, n: NodeId, i: nat)
    requires i <= |log|
    ensures Due(log + [e], n, i) == Due(log, n, i)
  {
    if i > 0 {
      DuePrefix(log, e, n, i - 1);
      DueAtPrefix(log, e, n, i - 1);
    }
  }

  // ---------- one daemon ----------

  /** Everything a handler writes when all its clients are connected, and its counter of lock ids. */
  lemma MessageWrites(n: Node, from: Addr, m: Msg)
    requires n.joined && Connected(n, m)
    ensures var o := ProcessMessage(n, from, m);
      if m.Grant? && m.node == n.id then
        o.replies == [Granted(m.pid, m.tid, m.res, n.lockid + 1)] && o.node.lockid == n.lockid + 1
      else
        && o.node.lockid == n.lockid
        && o.replies == if m.Nak? && m.node == n.id && HasKey(n.requests, MsgKey(m)) then [Refused(m.pid, m.tid, m.res)]
                        else []
  {
    if m.Nak? && m.node == n.id { NakWrites(n, from, m.res, m.pid, m.tid); }
  }

  /** The daemon's own requests are queued exactly if the order says so. */
  lemma OwnQueued(base: seq<Addr>, log: seq<Event>, h: Host, k: Key)
    requires h.idx <= |log| && QueueFollows(log, h) && PurgesGone(base, log, h)
    requires k.node in RosterAt(base, log, h.idx).mem
    ensures HasKey(h.node.requests, k) <==> k in QueueAt(log, h.idx)
  {
    KeysHave(h.node.requests, k);
    KeepIn(QueueAt(log, h.idx), InFlight(log, h));
    forall m | m in InFlight(log, h) ensures !PurgesKey(m, k) { }
  }

  /** The daemon has written what was due and has numbered its grants. */
  ghost predicate UpToDate(log: seq<Event>, h: Host, n: NodeId, written: seq<Reply>) {
    h.idx <= |log| && written == Due(log, n, h.idx) && h.node.lockid == GrantsTo(log, n, h.idx)
  }

  lemma MessageDue(base: seq<Addr>, log: seq<Event>, h: Host)
    requires Arrives(base, log, h) && log[h.idx].Message? && h.node.lockid == GrantsTo(log, h.node.id, h.idx)
    ensures var o := ProcessMessage(h.node, log[h.idx].from, log[h.idx].m);
      o.replies == DueAt(log, h.node.id, h.idx) && o.node.lockid == GrantsTo(log, h.node.id, h.idx + 1)
  {
    var e := log[h.idx];
    MessageWrites(h.node, e.from, e.m);
    if e.m.Nak? && e.m.node == h.node.id {
      RosterFacts(base, log, h.idx);
      OwnQueued(base, log, h, MsgKey(e.m));
    }
  }

  lemma DeliverDue(base: seq<Addr>, log: seq<Event>, h: Host, order: seq<Resource>, written: seq<Reply>)
    requires Arrives(base, log, h) && UpToDate(log, h, h.node.id, written)
    ensures UpToDate(log, HostDeliver(h, log[h.idx], order), h.node.id,
                     written + Handle(h.node, log[h.idx], order).replies)
  {
    HandleDue(base, log, h, order);
  }

  lemma HandleDue(base: seq<Addr>, log: seq<Event>, h: Host, order: seq<Resource>)
    requires Arrives(base, log, h) && h.node.lockid == GrantsTo(log, h.node.id, h.idx)
    ensures var o := Handle(h.node, log[h.idx], order);
      o.replies == DueAt(log, h.node.id, h.idx) && o.node.lockid == GrantsTo(log, h.node.id, h.idx + 1)
  {
    var e := log[h.idx];
    if e.Message? { MessageDue(base, log, h); } else { ViewWrites(h.node, e, order); }
  }

  lemma ViewWrites(n: Node, e: Event, order: seq<Resource>)
    requires e.View?
    ensures Handle(n, e, order).replies == [] && Handle(n, e, order).node.lockid == n.lockid
  {
    LeaveAllFrame(SeedView(n, e.members, e.joins), e.left, order);
  }

  // ---------- runs ----------

  /** The daemon, if it is there, has written what was due. */
  ghost predicate DueIn(s: Sys, n: NodeId, written: seq<Reply>) {
    n in s.hosts ==> s.hosts[n].node.id == n && UpToDate(s.log, s.hosts[n], n, written)
  }

  /** The host has the same position and counter. */
  lemma SameDue(log: seq<Event>, h: Host, k: Host, n: NodeId, written: seq<Reply>)
    requires UpToDate(log, h, n, written) && k.idx == h.idx && k.node.lockid == h.node.lockid
    ensures UpToDate(log, k, n, written)
  {
  }

  lemma GrowsDue(log: seq<Event>, e: Event, h: Host, n: NodeId, written: seq<Reply>)
    requires UpToDate(log, h, n, written)
    ensures UpToDate(log + [e], h, n, written)
  {
    DuePrefix(log, e, n, h.idx);
    GrantsPrefix(log, e, n, h.idx);
  }

  lemma ClientWrites(n: Node, fd: nat, r: Resource, pid: Pid, tid: Tid, isTry: bool, id: nat, order: seq<Resource>)
    ensures Protocol.ClientLock(n, fd, r, pid, tid, isTry).replies == [] && ClientUnlock(n, id, order).replies == []
    ensures Protocol.ClientLock(n, fd, r, pid, tid, isTry).node.lockid == n.lockid
    ensures ClientUnlock(n, id, order).node.lockid == n.lockid
  {
  }

  lemma ConnectDue(h: Host, fd: nat)
    ensures HostConnect(h, fd).idx == h.idx && HostConnect(h, fd).node.lockid == h.node.lockid
  {
  }

  lemma LocalDue(s: Sys, m: NodeId, k: Host, u: Sys, n: NodeId, written: seq<Reply>, more: seq<Reply>)
    requires DueIn(s, n, written) && m in s.hosts && u == s.(hosts := s.hosts[m := k])
    requires if m == n then k.node.id == n && UpToDate(s.log, k, n, written + more) else more == []
    ensures DueIn(u, n, written + more)
  {
    assert written + [] == written;
  }

  /** A client's step: the daemon writes nothing and numbers nothing. */
  lemma ClientDue(s: Sys, m: NodeId, k: Host, u: Sys, n: NodeId, written: seq<Reply>)
    requires DueIn(s, n, written) && m in s.hosts && u == s.(hosts := s.hosts[m := k])
    requires k.idx == s.hosts[m].idx && k.node.id == s.hosts[m].node.id && k.node.lockid == s.hosts[m].node.lockid
    ensures DueIn(u, n, written + [])
  {
    assert written + [] == written;
  }

  lemma ClientStepDue(s: Sys, t: Step, n: NodeId, written: seq<Reply>, u: Sys)
    requires DueIn(s, n, written) && May(Crash, s, t) && u == Apply(s, t) && (t.Connect? || t.AskLock? || t.AskUnlock?)
    ensures DueIn(u, n, written + Writes(s, t, n))
  {
    var h := s.hosts[t.n];
    match t
    case Connect(m, fd) => ClientDue(s, m, HostConnect(h, fd), u, n, written);
    case AskLock(m, fd, res, pid, tid, isTry) =>
      ClientWrites(h.node, fd, res, pid, tid, isTry, 0, []);
      ClientDue(s, m, HostAskLock(h, fd, res, pid, tid, isTry), u, n, written);
    case AskUnlock(m, hold, order) =>
      ClientWrites(h.node, 0, 0, 0, 0, false, hold.id, order);
      ClientDue(s, m, HostAskUnlock(h, hold, order), u, n, written);
  }

  lemma DeliverStepDue(s: Sys, t: Step, n: NodeId, written: seq<Reply>, u: Sys)
    requires CrashInv(s) && DueIn(s, n, written) && May(Crash, s, t) && t.Deliver? && u == Apply(s, t)
    ensures DueIn(u, n, written + Writes(s, t, n))
  {
    var h := s.hosts[t.n];
    if t.n == n { DeliverHereDue(s, n, t.order, written); }
    LocalDue(s, t.n, HostDeliver(h, s.log[h.idx], t.order), u, n, written, Writes(s, t, n));
  }

  lemma DeliverHereDue(s: Sys, n: NodeId, order: seq<Resource>, written: seq<Reply>)
    requires CrashInv(s) && DueIn(s, n, written) && n in s.hosts && s.hosts[n].idx < |s.log|
    ensures var h := s.hosts[n];
      var e := s.log[h.idx];
      && HostDeliver(h, e, order).node.id == n
      && UpToDate(s.log, HostDeliver(h, e, order), n, written + Handle(h.node, e, order).replies)
  {
    ArrivesConnected(s, n);
    HandleId(s.hosts[n].node, s.log[s.hosts[n].idx], order);
    DeliverDue(s.base, s.log, s.hosts[n], order, written);
  }

  lemma OrderDue(s: Sys, t: Step, n: NodeId, written: seq<Reply>, u: Sys)
    requires DueIn(s, n, written) && May(Crash, s, t) && (t.Sequence? || t.ChangeView?) && u == Apply(s, t)
    ensures DueIn(u, n, written + Writes(s, t, n))
  {
    assert Writes(s, t, n) == [] && written + [] == written;
    if n in u.hosts {
      if t.ChangeView? { assert Ids(t.joins) == {}; }
      var e := u.log[|s.log|];
      assert u.log == s.log + [e];
      GrowsDue(s.log, e, s.hosts[n], n, written);
      SameDue(u.log, s.hosts[n], u.hosts[n], n, written);
    }
  }

  lemma StepDue(s: Sys, t: Step, n: NodeId, written: seq<Reply>)
    requires CrashInv(s) && DueIn(s, n, written) && May(Crash, s, t)
    ensures DueIn(Apply(s, t), n, written + Writes(s, t, n))
  {
    if t.Deliver? {
      DeliverStepDue(s, t, n, written, Apply(s, t));
    } else if t.Sequence? || t.ChangeView? {
      OrderDue(s, t, n, written, Apply(s, t));
    } else {
      ClientStepDue(s, t, n, written, Apply(s, t));
    }
  }

  lemma {:induction false} RunDue(s: Sys, run: seq<Step>, n: NodeId, written: seq<Reply>) returns (all: seq<Reply>)
    requires CrashInv(s) && DueIn(s, n, written) && IsRun(Crash, s, run)
    ensures all == written + Written(Crash, s, run, n) && DueIn(Exec(Crash, s, run), n, all)
    decreases |run|
  {
    if run == [] {
      all := written;
    } else {
      StepCrash(s, run[0]);
      StepDue(s, run[0], n, written);
      all := RunDue(Apply(s, run[0]), run[1..], n, written + Writes(s, run[0], n));
      Grouped(written, Writes(s, run[0], n), Written(Crash, Apply(s, run[0]), run[1..], n));
    }
  }

  lemma Grouped(a: seq<Reply>, b: seq<Reply>, c: seq<Reply>)
    ensures a + b + c == a + (b + c)
  {
  }

  // ---------- theorems ----------

  /**
   * In every crash run, what a daemon has written to its clients is exactly what the order up to its
   * position says, in that order: for each grant to the node one reply with the next lock id, and for
   * each refusal of one of its requests that is still waiting one refusal.
   */
  lemma RepliesExact(base: seq<Addr>, run: seq<Step>, s: Sys, n: NodeId)
    requires Reaches(Crash, base, run, s) && n in s.hosts
    ensures s.hosts[n].idx <= |s.log| && Written(Crash, Formed(base), run, n) == Due(s.log, n, s.hosts[n].idx)
  {
    FormedCrash(base);
    var all := RunDue(Formed(base), run, n, []);
    assert [] + Written(Crash, Formed(base), run, n) == Written(Crash, Formed(base), run, n);
  }

  lemma OneAsk(log: seq<Event>, i: nat, j: nat, k: Key)
    requires UniqueAsks(log) && i <= j < |log| && exists p :: 0 <= p < i && IsAsk(log[p], k)
    ensures !IsAsk(log[j], k)
  {
  }

  /** A request that is not waiting any more does not come back. */
  lemma {:induction false} NotAgain(log: seq<Event>, i: nat, j: nat, k: Key)
    requires UniqueAsks(log) && i <= j <= |log| && k !in QueueAt(log, i)
    requires exists p :: 0 <= p < i && IsAsk(log[p], k)
    ensures k !in QueueAt(log, j)
    decreases j
  {
    if i < j {
      NotAgain(log, i, j - 1, k);
      var q := QueueAt(log, j - 1);
      if log[j - 1].Message? {
        var m := log[j - 1].m;
        if m.Lock? {
          OneAsk(log, i, j - 1, k);
        } else if m.Grant? || m.Nak? {
          DropIn(q, FirstKey(q, MsgKey(m)));
        } else if m.Purge? {
          KeepIn(q, {m});
        }
      }
    }
  }

  /** The refusal at p finds its request still waiting. */
  ghost predicate Refuses(log: seq<Event>, p: nat, k: Key) {
    p < |log| && IsRefusal(log[p], k) && k in QueueAt(log, p)
  }

  lemma RefusesOnce(log: seq<Event>, p: nat, q: nat, k: Key)
    requires UniqueAsks(log) && p < q && Refuses(log, p, k)
    ensures !Refuses(log, q, k)
  {
    if q < |log| {
      QueueAsked(log, p);
      DropIn(QueueAt(log, p), FirstKey(QueueAt(log, p), k));
      NotAgain(log, p + 1, q, k);
    }
  }

  /** How often the order up to position i has the refusal of a request written. */
  ghost function Refusals(log: seq<Event>, k: Key, i: nat): nat
    requires i <= |log|
  {
    multiset(Due(log, k.node, i))[Refused(k.pid, k.tid, k.res)]
  }

  lemma DueCount(log: seq<Event>, i: nat, k: Key)
    requires i < |log|
    ensures multiset(DueAt(log, k.node, i))[Refused(k.pid, k.tid, k.res)] == if Refuses(log, i, k) then 1 else 0
  {
  }

  lemma RefusalsGrow(log: seq<Event>, i: nat, k: Key)
    requires i < |log|
    ensures Refusals(log, k, i + 1) == Refusals(log, k, i) + if Refuses(log, i, k) then 1 else 0
  {
    DueCount(log, i, k);
  }

  lemma NoRefusalsAtFirst(log: seq<Event>, k: Key)
    ensures Refusals(log, k, 0) == 0
  {
  }

  lemma NoRefusal(log: seq<Event>, i: nat, k: Key)
    requires i < |log| && !Refuses(log, i, k) && Refusals(log, k, i) == 0
    ensures Refusals(log, k, i + 1) == 0
  {
    RefusalsGrow(log, i, k);
  }

  lemma {:induction false} NotDue(log: seq<Event>, i: nat, k: Key)
    requires i <= |log| && forall p: nat :: p < i ==> !Refuses(log, p, k)
    ensures Refusals(log, k, i) == 0
  {
    if i == 0 {
      NoRefusalsAtFirst(log, k);
    } else {
      NotDue(log, i - 1, k);
      NoRefusal(log, i - 1, k);
    }
  }

  lemma FirstDue(log: seq<Event>, p: nat, k: Key)
    requires UniqueAsks(log) && Refuses(log, p, k)
    ensures Refusals(log, k, p + 1) == 1
  {
    forall q: nat | q < p ensures !Refuses(log, q, k) {
      if Refuses(log, q, k) { RefusesOnce(log, q, p, k); }
    }
    NotDue(log, p, k);
    RefusalsGrow(log, p, k);
  }

  lemma LaterDue(log: seq<Event>, p: nat, j: nat, k: Key)
    requires UniqueAsks(log) && p < j < |log| && Refuses(log, p, k)
    ensures Refusals(log, k, j + 1) == Refusals(log, k, j)
  {
    RefusesOnce(log, p, j, k);
    RefusalsGrow(log, j, k);
  }

  lemma {:induction false} DueOnce(log: seq<Event>, p: nat, j: nat, k: Key)
    requires UniqueAsks(log) && p <= j < |log| && Refuses(log, p, k)
    ensures Refusals(log, k, j + 1) == 1
    decreases j
  {
    if p == j {
      FirstDue(log, p, k);
    } else {
      DueOnce(log, p, j - 1, k);
      LaterDue(log, p, j, k);
    }
  }

  /**
   * In every crash run a daemon has written the refusal of a request exactly once if a refusal that
   * found the request waiting has been delivered to it, and otherwise not at all.
   */
  lemma RefusalWritten(base: seq<Addr>, run: seq<Step>, s: Sys, k: Key)
    requires Reaches(Crash, base, run, s) && k.node in s.hosts
    ensures multiset(Written(Crash, Formed(base), run, k.node))[Refused(k.pid, k.tid, k.res)] ==
      if RefusedWaiting(s.log, s.hosts[k.node].idx, k) then 1 else 0
  {
    CrashReaches(base, run, s);
    RepliesExact(base, run, s, k.node);
    RefusalsExact(s.log, s.hosts[k.node].idx, k);
  }

  /** Before position i a refusal of the request was ordered while it was waiting. */
  ghost predicate RefusedWaiting(log: seq<Event>, i: nat, k: Key) {
    exists p: nat :: p < i && Refuses(log, p, k)
  }

  lemma RefusalsExact(log: seq<Event>, i: nat, k: Key)
    requires UniqueAsks(log) && i <= |log|
    ensures Refusals(log, k, i) == if RefusedWaiting(log, i, k) then 1 else 0
  {
    if p: nat :| p < i && Refuses(log, p, k) { DueOnce(log, p, i - 1, k); } else { NotDue(log, i, k); }
  }
}
