/**
 * Where queued requests come from, in every run the environment can produce: a daemon's queue
 * is part of the requests it was delivered since it announced itself, in the agreed order.
 */
module Queues {
  import opened Types
  import opened Protocol
  import opened Group
  import opened Cluster
  import opened Slices
  import opened Structure
  import opened StructureSteps
  import C = Claims
  import opened TokenLocal
  import opened Runs
  import opened FreeRuns
  import opened Disconnect
  import opened CrashQueue

  // ---------- parts of a sequence ----------

  /** a is b without some of its elements. */
  ghost predicate Part(a: seq<Key>, b: seq<Key>)
    decreases |b|
  {
    || a == []
    || (b != [] && Part(a, b[..|b| - 1]))
    || (b != [] && a[|a| - 1] == b[|b| - 1] && Part(a[..|a| - 1], b[..|b| - 1]))
  }

  lemma {:induction false} PartSelf(a: seq<Key>)
    ensures Part(a, a)
    decreases |a|
  {
    if a != [] { PartSelf(a[..|a| - 1]); }
  }

  lemma {:induction false} PartTrans(a: seq<Key>, b: seq<Key>, c: seq<Key>)
    requires Part(a, b) && Part(b, c)
    ensures Part(a, c)
    decreases |c|
  {
    if a != [] && !Part(a, c[..|c| - 1]) {
      var b', c' := b[..|b| - 1], c[..|c| - 1];
      if Part(b, c') {
        PartTrans(a, b, c');
      } else if Part(a, b') {
        PartTrans(a, b', c');
      } else {
        PartTrans(a[..|a| - 1], b', c');
      }
    }
  }

  lemma PartSnoc(a: seq<Key>, b: seq<Key>, x: Key)
    requires Part(a, b)
    ensures Part(a + [x], b + [x])
  {
    assert (a + [x])[..|a|] == a && (b + [x])[..|b|] == b;
  }

  lemma {:induction false} DropIsPart(q: seq<Key>, i: nat)
    ensures Part(DropAt(q, i), q)
    decreases |q|
  {
    if i >= |q| {
      PartSelf(q);
    } else if i == |q| - 1 {
      assert DropAt(q, i) == q[..|q| - 1];
      PartSelf(q[..|q| - 1]);
    } else {
      var front, x := q[..|q| - 1], q[|q| - 1];
      DropIsPart(front, i);
      assert DropAt(q, i) == DropAt(front, i) + [x] && q == front + [x];
      PartSnoc(DropAt(front, i), front, x);
    }
  }

  lemma {:induction false} KeepIsPart(q: seq<Key>, out: set<Msg>)
    ensures Part(Keep(q, out), q)
    decreases |q|
  {
    if q != [] {
      var front, x := q[..|q| - 1], q[|q| - 1];
      KeepIsPart(front, out);
      PartSnoc(Keep(front, out), front, x);
      assert q == front + [x];
    }
  }

  lemma {:induction false} PartIn(a: seq<Key>, b: seq<Key>, k: Key)
    requires Part(a, b) && k in a
    ensures k in b
    decreases |b|
  {
    if Part(a, b[..|b| - 1]) {
      PartIn(a, b[..|b| - 1], k);
    } else if k != a[|a| - 1] {
      assert a == a[..|a| - 1] + [a[|a| - 1]];
      PartIn(a[..|a| - 1], b[..|b| - 1], k);
    }
  }

  // ---------- what a daemon has heard ----------

  /** The requests ordered before position i while n was a member that had announced itself. */
  function Heard(base: seq<Addr>, log: seq<Event>, n: NodeId, i: nat): seq<Key>
    requires i <= |log|
  {
    if i == 0 then []
    else
      var before := Heard(base, log, n, i - 1);
      match log[i - 1]
      case Message(_, m) => if m.Lock? && n in RosterAt(base, log, i - 1).age then before + [MsgKey(m)] else before
      case View(_, left, joins) => if n in Ids(left) + Ids(joins) then [] else before
  }

  lemma {:induction false} HeardPrefix(base: seq<Addr>, log: seq<Event>, e: Event, n: NodeId, i: nat)
    requires i <= |log|
    ensures Heard(base, log + [e], n, i) == Heard(base, log, n, i)
  {
    if i > 0 {
      HeardPrefix(base, log, e, n, i - 1);
      RosterPrefix(base, log, e, i - 1);
    }
  }

  lemma {:induction false} UnjoinedHeardNothing(base: seq<Addr>, log: seq<Event>, n: NodeId, i: nat)
    requires i <= |log| && n !in RosterAt(base, log, i).age
    ensures Heard(base, log, n, i) == []
  {
    if i > 0 && !(log[i - 1].View? && n in Ids(log[i - 1].left) + Ids(log[i - 1].joins)) {
      if log[i - 1].View? { WithoutMembers(RosterAt(base, log, i - 1).age, Ids(log[i - 1].left)); }
      UnjoinedHeardNothing(base, log, n, i - 1);
    }
  }

  /** n was a joined member when the request was ordered at p, and has not left before i. */
  ghost predicate HeardAt(base: seq<Addr>, log: seq<Event>, n: NodeId, i: nat, k: Key, p: nat) {
    && p < i <= |log| && IsAsk(log[p], k) && n in RosterAt(base, log, p).age
    && forall j :: p <= j < i && log[j].View? ==> n !in Ids(log[j].left)
  }

  ghost predicate WasHeard(base: seq<Addr>, log: seq<Event>, n: NodeId, i: nat, k: Key) {
    exists p :: HeardAt(base, log, n, i, k, p)
  }

  lemma {:induction false} HeardSomewhere(base: seq<Addr>, log: seq<Event>, n: NodeId, i: nat, k: Key) returns (p: nat)
    requires i <= |log| && k in Heard(base, log, n, i)
    ensures HeardAt(base, log, n, i, k, p)
  {
    if log[i - 1].Message? && log[i - 1].m.Lock? && n in RosterAt(base, log, i - 1).age && MsgKey(log[i - 1].m) == k {
      p := i - 1;
    } else {
      p := HeardSomewhere(base, log, n, i - 1, k);
    }
  }

  // ---------- handlers ----------

  lemma PurgeIsPart(q: seq<Request>, node: NodeId, pid: Pid)
    ensures Part(Keys(PurgeQueue(q, node, pid)), Keys(q))
  {
    PurgeKeeps(q, node, pid);
    KeepIsPart(Keys(q), {Msg.Purge(node, pid)});
  }

  lemma MatchIsPart(q: seq<Request>, m: Msg)
    requires Keyed(m)
    ensures Part(Keys(DropAt(q, FirstMatch(q, m.res, m.node, m.pid, m.tid))), Keys(q))
  {
    DropKeys(q, FirstMatch(q, m.res, m.node, m.pid, m.tid));
    DropIsPart(Keys(q), FirstMatch(q, m.res, m.node, m.pid, m.tid));
  }

  lemma AcceptKeys(n: Node, m: Msg)
    requires m.Grant? && m.res in n.locks
    ensures var q := Record(n, m).requests;
      SameKeys(if m.node == n.id && !HasClient(n.clients, m.pid) then PurgeQueue(q, n.id, m.pid) else q,
               AcceptGrant(n, m).node.requests)
  {
  }

  lemma AcceptIsPart(n: Node, m: Msg)
    requires m.Grant? && m.res in n.locks
    ensures Part(Keys(AcceptGrant(n, m).node.requests), Keys(n.requests))
  {
    var q, o := Record(n, m).requests, AcceptGrant(n, m).node.requests;
    AcceptKeys(n, m);
    MatchIsPart(n.requests, m);
    PurgeIsPart(q, n.id, m.pid);
    PartTrans(Keys(PurgeQueue(q, n.id, m.pid)), Keys(q), Keys(n.requests));
    SameKeysSame(if m.node == n.id && !HasClient(n.clients, m.pid) then PurgeQueue(q, n.id, m.pid) else q, o);
  }

  lemma GrantIsPart(n: Node, m: Msg)
    requires m.Grant?
    ensures Part(Keys(ProcessGrant(n, m).node.requests), Keys(n.requests))
  {
    PartSelf(Keys(n.requests));
    if m.res in n.locks { AcceptIsPart(n, m); }
  }

  lemma NakIsPart(n: Node, m: Msg)
    requires m.Nak?
    ensures Part(Keys(ProcessNak(n, m).node.requests), Keys(n.requests))
  {
    PartSelf(Keys(n.requests));
    var q := DropAt(n.requests, FirstMatch(n.requests, m.res, m.node, m.pid, m.tid));
    MatchIsPart(n.requests, m);
    PurgeIsPart(q, n.id, m.pid);
    PartTrans(Keys(PurgeQueue(q, n.id, m.pid)), Keys(q), Keys(n.requests));
  }

  lemma MessageIsPart(n: Node, from: Addr, m: Msg, heard: seq<Key>)
    requires Part(Keys(n.requests), heard)
    ensures Part(Keys(ProcessMessage(n, from, m).node.requests),
                 if m.Lock? && n.joined then heard + [MsgKey(m)] else heard)
  {
    var o := ProcessMessage(n, from, m).node.requests;
    match m
    case Lock(r, node, pid, tid, _) =>
      if n.joined {
        var q := n.requests + [Request(r, node, pid, tid, false)];
        SameKeysSame(q, o);
        assert Keys(q) == Keys(n.requests) + [MsgKey(m)];
        PartSnoc(Keys(n.requests), heard, MsgKey(m));
      }
    case Grant(_, _, _, _) =>
      GrantIsPart(n, m);
      PartTrans(Keys(o), Keys(n.requests), heard);
    case Unlock(_, _, _, _) => SameKeysSame(n.requests, o);
    case Nak(_, _, _, _) =>
      NakIsPart(n, m);
      PartTrans(Keys(o), Keys(n.requests), heard);
    case Purge(node, pid) =>
      PurgeIsPart(n.requests, node, pid);
      PartTrans(Keys(o), Keys(n.requests), heard);
    case Join =>
  }

  lemma VanishIsPart(n: Node, fd: nat, order: seq<Resource>, heard: seq<Key>)
    requires Part(Keys(n.requests), heard) && IsWalk(n.locks, order)
    ensures Part(Keys(DelClient(n, fd, order).node.requests), heard)
  {
    var pid := ClientPid(n, fd);
    if pid != 0 {
      DelClientExact(n, fd, order, 0);
      SameKeysSame(PurgeQueue(n.requests, n.id, pid), DelClient(n, fd, order).node.requests);
      PurgeIsPart(n.requests, n.id, pid);
      PartTrans(Keys(PurgeQueue(n.requests, n.id, pid)), Keys(n.requests), heard);
    }
  }

  // ---------- runs ----------

  ghost predicate HeardHost(base: seq<Addr>, log: seq<Event>, h: Host) {
    h.idx <= |log| && Part(Keys(h.node.requests), Heard(base, log, h.node.id, h.idx))
  }

  ghost predicate HeardInv(s: Sys) {
    FreeInv(s) && forall n :: n in s.hosts ==> HeardHost(s.base, s.log, s.hosts[n])
  }

  lemma DeliverHeard(base: seq<Addr>, log: seq<Event>, h: Host, order: seq<Resource>)
    requires WellFormedLog(base, log) && FreeHost(base, log, h) && h.idx < |log| && HeardHost(base, log, h)
    ensures HeardHost(base, log, HostDeliver(h, log[h.idx], order))
  {
    var e, n, heard := log[h.idx], h.node, Heard(base, log, h.node.id, h.idx);
    HandleId(n, e, order);
    if e.Message? {
      MessageIsPart(n, e.from, e.m, heard);
    } else {
      var s := SeedView(n, e.members, e.joins);
      var o := LeaveAll(s, e.left, order);
      LeaveKeeps(s, e.left, order);
      KeepIsPart(Keys(n.requests), C.Sent(o.sent));
      PartTrans(Keys(o.node.requests), Keys(n.requests), heard);
      if n.id in Ids(e.joins) { assert Waiting(log, h) && Keys(n.requests) == []; }
      assert Stays(log, h.idx, n.id);
    }
  }

  /** The queue after a step of a client, and everything that matters to it. */
  lemma ClientHeard(base: seq<Addr>, log: seq<Event>, h: Host, k: Host)
    requires HeardHost(base, log, h) && k.idx == h.idx && k.node.id == h.node.id
    requires Part(Keys(k.node.requests), Heard(base, log, h.node.id, h.idx))
    ensures HeardHost(base, log, k)
  {
  }

  lemma LocalHeard(s: Sys, n: NodeId, k: Host, u: Sys)
    requires HeardInv(s) && n in s.hosts && u == s.(hosts := s.hosts[n := k]) && FreeInv(u)
    requires HeardHost(s.base, s.log, k)
    ensures HeardInv(u)
  {
  }

  lemma ClientStepHeard(s: Sys, t: Step, u: Sys)
    requires HeardInv(s) && Enabled(s, t) && (t.Connect? || t.AskLock? || t.AskUnlock?)
    requires u == Apply(s, t) && FreeInv(u)
    ensures HeardInv(u)
  {
    var h, k := s.hosts[t.n], u.hosts[t.n];
    assert SameKeys(h.node.requests, k.node.requests) by {
      if t.AskUnlock? { UnlockKeys(h.node, t.hold.id, t.order); }
    }
    SameKeysSame(h.node.requests, k.node.requests);
    ClientHeard(s.base, s.log, h, k);
    LocalHeard(s, t.n, k, u);
  }

  lemma UnlockKeys(n: Node, id: nat, order: seq<Resource>)
    ensures SameKeys(n.requests, ClientUnlock(n, id, order).node.requests)
  {
  }

  lemma AppendHeard(base: seq<Addr>, log: seq<Event>, e: Event, h: Host)
    requires HeardHost(base, log, h)
    ensures HeardHost(base, log + [e], h)
  {
    HeardPrefix(base, log, e, h.node.id, h.idx);
  }

  lemma SequenceHeard(s: Sys, n: NodeId, k: Host, e: Event, u: Sys)
    requires HeardInv(s) && n in s.hosts && k.node == s.hosts[n].node && k.idx == s.hosts[n].idx
    requires u == Sys(s.base, s.hosts[n := k], s.log + [e]) && FreeInv(u)
    ensures HeardInv(u)
  {
    forall x | x in u.hosts ensures HeardHost(u.base, u.log, u.hosts[x]) {
      AppendHeard(s.base, s.log, e, s.hosts[x]);
    }
  }

  lemma ViewHeard(s: Sys, e: Event, u: Sys)
    requires HeardInv(s) && e.View?
    requires u == Sys(s.base, HostsAfter(s.hosts, e.left, e.joins, |s.log|), s.log + [e]) && FreeInv(u)
    ensures HeardInv(u)
  {
    forall x | x in u.hosts ensures HeardHost(u.base, u.log, u.hosts[x]) {
      if x !in Ids(e.joins) { AppendHeard(s.base, s.log, e, s.hosts[x]); }
    }
  }

  lemma StepHeard(s: Sys, t: Step)
    requires HeardInv(s) && Enabled(s, t)
    ensures HeardInv(Apply(s, t))
  {
    StepFree(s, t);
    if t.Sequence? {
      var h := s.hosts[t.n];
      SequenceHeard(s, t.n, h.(outbox := h.outbox[1..]), Message(Self(h), h.outbox[0]), Apply(s, t));
    } else if t.ChangeView? {
      ViewHeard(s, View(t.members, t.left, t.joins), Apply(s, t));
    } else if t.Deliver? {
      DeliverHeard(s.base, s.log, s.hosts[t.n], t.order);
      LocalHeard(s, t.n, HostDeliver(s.hosts[t.n], s.log[s.hosts[t.n].idx], t.order), Apply(s, t));
    } else if t.Disconnect? {
      DisconnectHeard(s, t, Apply(s, t));
    } else {
      ClientStepHeard(s, t, Apply(s, t));
    }
  }

  lemma DisconnectHeard(s: Sys, t: Step, u: Sys)
    requires HeardInv(s) && Enabled(s, t) && t.Disconnect? && u == Apply(s, t) && FreeInv(u)
    ensures HeardInv(u)
  {
    var h := s.hosts[t.n];
    VanishIsPart(h.node, t.fd, t.order, Heard(s.base, s.log, h.node.id, h.idx));
    DelClientSlice(h.node, t.fd, t.order, 0);
    ClientHeard(s.base, s.log, h, HostDisconnect(h, t.fd, t.order));
    LocalHeard(s, t.n, HostDisconnect(h, t.fd, t.order), u);
  }

  lemma {:induction false} RunHeard(s: Sys, run: seq<Step>)
    requires HeardInv(s) && IsRun(Any, s, run)
    ensures HeardInv(Exec(Any, s, run))
    decreases |run|
  {
    if run != [] {
      StepHeard(s, run[0]);
      RunHeard(Apply(s, run[0]), run[1..]);
    }
  }

  lemma ReachesHeard(base: seq<Addr>, run: seq<Step>, s: Sys)
    requires Reaches(Any, base, run, s)
    ensures HeardInv(s)
  {
    FormedFree(base);
    assert HeardInv(Formed(base));
    RunHeard(Formed(base), run);
  }

  // ---------- theorem ----------

  lemma EmptyBefore(base: seq<Addr>, log: seq<Event>, h: Host)
    requires HeardHost(base, log, h) && h.node.id !in RosterAt(base, log, h.idx).age
    ensures h.node.requests == []
  {
    UnjoinedHeardNothing(base, log, h.node.id, h.idx);
    assert |Keys(h.node.requests)| == 0;
  }

  lemma AllHeard(base: seq<Addr>, log: seq<Event>, h: Host)
    requires HeardHost(base, log, h)
    ensures forall i :: 0 <= i < |h.node.requests| ==>
      WasHeard(base, log, h.node.id, h.idx, KeyOf(h.node.requests[i]))
  {
    forall i | 0 <= i < |h.node.requests|
      ensures WasHeard(base, log, h.node.id, h.idx, KeyOf(h.node.requests[i]))
    {
      var k := KeyOf(h.node.requests[i]);
      assert Keys(h.node.requests)[i] == k;
      PartIn(Keys(h.node.requests), Heard(base, log, h.node.id, h.idx), k);
      var p := HeardSomewhere(base, log, h.node.id, h.idx, k);
    }
  }

  /**
   * In every state of every run a daemon's queue is part of the requests it was delivered since its
   * own JOIN, in the agreed order; so each queued request was ordered when the daemon had announced
   * itself and at a position it has been delivered, none is queued twice for one LOCK, and a daemon
   * that has not announced itself has no queue.
   */
  lemma QueueIsHeard(base: seq<Addr>, run: seq<Step>, s: Sys, n: NodeId)
    requires Reaches(Any, base, run, s) && n in s.hosts
    ensures var h := s.hosts[n];
      && h.idx <= |s.log|
      && Part(Keys(h.node.requests), Heard(s.base, s.log, n, h.idx))
      && (!h.node.joined ==> h.node.requests == [])
      && (forall i :: 0 <= i < |h.node.requests| ==> WasHeard(s.base, s.log, n, h.idx, KeyOf(h.node.requests[i])))
  {
    ReachesHeard(base, run, s);
    assert FreeHost(s.base, s.log, s.hosts[n]) && HeardHost(s.base, s.log, s.hosts[n]) && s.hosts[n].node.id == n;
    if !s.hosts[n].node.joined { EmptyBefore(s.base, s.log, s.hosts[n]); }
    AllHeard(s.base, s.log, s.hosts[n]);
  }
}
