/**
 * Refusals of try-locks in a fixed group: exactly which requests are refused, and what can
 * still happen to a request that has been refused.
 */
module Refusal {
  import opened Types
  import opened Protocol
  import opened Group
  import opened Cluster
  import opened Slices
  import opened Structure
  import opened Invariant
  import opened TokenSlices
  import opened TokenLocal
  import opened Runs
  import opened Safety
  import opened LocalState
  import opened Askers
  import opened Replica
  import opened FixedGroup
  import opened FixedDeliver
  import opened FixedRuns
  import opened Fifo

  // ---------- what the agreed order says ----------

  predicate Waits(q: seq<Item>, r: Resource) {
    exists j :: 0 <= j < |q| && q[j].key.res == r
  }

  predicate Effective(s: Shared, m: Msg)
    requires m.Unlock?
  {
    m.res in s.table && s.table[m.res].held && s.table[m.res].node == m.node && s.table[m.res].pid == m.pid
  }

  /** r has been asked for or granted since it was last released with nobody waiting. */
  function Busy(log: seq<Event>, i: nat, r: Resource): bool
    requires i <= |log|
  {
    if i == 0 then false
    else if !log[i - 1].Message? then Busy(log, i - 1, r)
    else
      match log[i - 1].m
      case Lock(q, _, _, _, _) => q == r || Busy(log, i - 1, r)
      case Grant(q, _, _, _) => q == r || Busy(log, i - 1, r)
      case Unlock(q, _, _, _) =>
        if q == r && Effective(Replay(log, i - 1), log[i - 1].m) then Waits(Replay(log, i).queue, r)
          else Busy(log, i - 1, r)
      case _ => Busy(log, i - 1, r)
  }

  /** The request ordered at a is a try, and the lock has an owner and is busy. */
  ghost predicate Refusable(log: seq<Event>, a: nat) {
    && a < |log| && log[a].Message? && log[a].m.Lock? && log[a].m.isTry
    && var r, table := log[a].m.res, Replay(log, a).table;
       r in table && table[r].node != 0 && Busy(log, a, r)
  }

  predicate IsNak(e: Event, k: Key) {
    e.Message? && e.m.Nak? && MsgKey(e.m) == k
  }

  lemma BusyPrefix(log: seq<Event>, e: Event, i: nat, r: Resource)
    requires i <= |log|
    ensures Busy(log + [e], i, r) == Busy(log, i, r)
  {
    ReplayPrefix(log, e, i);
    if i > 0 {
      ReplayPrefix(log, e, i - 1);
      BusyPrefix(log, e, i - 1, r);
    }
  }

  lemma RefusablePrefix(log: seq<Event>, e: Event, a: nat)
    requires a < |log|
    ensures Refusable(log + [e], a) <==> Refusable(log, a)
  {
    ReplayPrefix(log, e, a);
    if log[a].Message? && log[a].m.Lock? { BusyPrefix(log, e, a, log[a].m.res); }
  }

  // ---------- the owner knows ----------

  /** A daemon's own lock is free exactly when the order says it is not busy. */
  ghost predicate KnowsBusy(log: seq<Event>, h: Host, r: Resource) {
    h.idx <= |log| && (r in h.node.locks && h.node.locks[r].node == h.node.id ==>
      (h.node.locks[r].state.Free? <==> !Busy(log, h.idx, r)))
  }

  lemma WaitsIsAsking(n: Node, s: Shared, r: Resource)
    requires QueueAgrees(n.requests, s.queue)
    ensures Waits(s.queue, r) <==> Asking(n.requests, r)
  {
    if Waits(s.queue, r) {
      var j :| 0 <= j < |s.queue| && s.queue[j].key.res == r;
      assert n.requests[j].res == r;
    }
    if Asking(n.requests, r) {
      var j :| 0 <= j < |n.requests| && n.requests[j].res == r;
      assert s.queue[j].key.res == r;
    }
  }

  lemma UnlockBusy(base: seq<Addr>, log: seq<Event>, h: Host, k: Host, o: Outcome, r: Resource)
    requires h.idx < |log| && log[h.idx].Message? && log[h.idx].m.Unlock? && log[h.idx].m.res == r && h.node.joined
    requires o == ProcessUnlock(h.node, log[h.idx].m) && k.node == o.node && k.idx == h.idx + 1
    requires k.node.id == h.node.id
    requires KnowsBusy(log, h, r) && ResInv(true, base, log, h, r) && MarksInv(log, h)
    requires Agrees(h.node, Replay(log, h.idx)) && Agrees(k.node, Replay(log, k.idx))
    ensures KnowsBusy(log, k, r)
  {
    var m, n := log[h.idx].m, h.node;
    UnlockSlice(n, m);
    if r in n.locks {
      assert OwnerOf(n.locks[r]) == Replay(log, h.idx).table[r];
      assert Effective(Replay(log, h.idx), m) <==> Releases(n.locks[r], m);
      if Releases(n.locks[r], m) && n.locks[r].node == n.id { OwnUnlockBusy(base, log, h, k, o, r); }
    }
  }

  lemma OwnUnlockBusy(base: seq<Addr>, log: seq<Event>, h: Host, k: Host, o: Outcome, r: Resource)
    requires h.idx < |log| && log[h.idx].Message? && log[h.idx].m.Unlock? && log[h.idx].m.res == r && h.node.joined
    requires o == ProcessUnlock(h.node, log[h.idx].m) && k.node == o.node && k.idx == h.idx + 1
    requires r in h.node.locks && Releases(h.node.locks[r], log[h.idx].m) && h.node.locks[r].node == h.node.id
    requires ResInv(true, base, log, h, r) && MarksInv(log, h) && Agrees(k.node, Replay(log, k.idx))
    ensures r in k.node.locks && (k.node.locks[r].state.Free? <==> !Waits(Replay(log, k.idx).queue, r))
  {
    var m, n := log[h.idx].m, h.node;
    UnlockSlice(n, m);
    assert ReleaseAt(log, h, h.idx, r, m.pid);
    assert NoGrantFrom(log, h.idx, r) && NoGrantIn(Tokens(h.outbox, r));
    WaitsIsAsking(k.node, Replay(log, k.idx), r);
    UnlockQueue(n, m);
    if o.sent == [] {
      NobodyAsks(log, h, r);
    } else {
      var i := FirstWaiter(n.requests, r);
      assert k.node.requests[i].res == r;
    }
  }

  lemma LockBusy(log: seq<Event>, h: Host, k: Host, r: Resource)
    requires h.idx < |log| && log[h.idx].Message? && log[h.idx].m.Lock? && log[h.idx].m.res == r && h.node.joined
    requires k.node == ProcessLock(h.node, log[h.idx].m).node && k.idx == h.idx + 1 && h.node.id != 0
    requires KnowsBusy(log, h, r)
    ensures KnowsBusy(log, k, r)
  {
    var n, m := h.node, log[h.idx].m;
    LockSlice(n, m);
    GrantNextSlice(n.(requests := n.requests + [Request(m.res, m.node, m.pid, m.tid, false)]), m.res);
    if r in n.locks && n.locks[r].node == n.id && n.locks[r].state.Free? { LockGrants(n, m); }
  }

  lemma DeliverBusy(base: seq<Addr>, log: seq<Event>, h: Host, order: seq<Resource>, r: Resource)
    requires CleanLog(log) && GrantsAnswer(log) && h.idx < |log| && FixedHost(base, log, h)
    requires KnowsBusy(log, h, r)
    requires ResInv(true, base, log, h, r) && h.node.id != 0 && Ordinary(h.node, log[h.idx].m)
    requires FixedHost(base, log, HostDeliver(h, log[h.idx], order))
    ensures KnowsBusy(log, HostDeliver(h, log[h.idx], order), r)
  {
    var e := log[h.idx];
    var m, o, k := e.m, ProcessMessage(h.node, e.from, e.m), HostDeliver(h, e, order);
    MessageFrame(h.node, e.from, m);
    if m.Lock? && m.res == r { LockBusy(log, h, k, r); }
    else if m.Unlock? && m.res == r { UnlockBusy(base, log, h, k, o, r); }
    else { OtherBusy(log, h, k, r); }
  }

  lemma OtherBusy(log: seq<Event>, h: Host, k: Host, r: Resource)
    requires h.idx < |log| && log[h.idx].Message? && h.node.joined && Ordinary(h.node, log[h.idx].m)
    requires log[h.idx].m.Lock? || log[h.idx].m.Unlock? ==> log[h.idx].m.res != r
    requires k.node == ProcessMessage(h.node, log[h.idx].from, log[h.idx].m).node && k.idx == h.idx + 1
    requires KnowsBusy(log, h, r) && k.node.id == h.node.id
    ensures KnowsBusy(log, k, r)
  {
    var m := log[h.idx].m;
    if m.Grant? && m.res == r {
      GrantSlice(h.node, m);
      if r in h.node.locks { GrantHeld(h.node, m); }
    } else {
      OtherMessageSlice(h.node, log[h.idx].from, m, r);
    }
  }

  // ---------- a refused request is gone ----------

  ghost predicate NotQueued(log: seq<Event>, i: nat, key: Key)
    requires i <= |log|
  {
    forall j :: 0 <= j < |Replay(log, i).queue| ==> Replay(log, i).queue[j].key != key
  }

  lemma NakTakes(log: seq<Event>, p: nat, key: Key)
    requires CleanLog(log) && UniqueAsks(log) && p < |log| && IsNak(log[p], key)
    ensures NotQueued(log, p + 1, key)
  {
    var s, t := Replay(log, p), Replay(log, p + 1);
    TakeSub(s.queue, key);
    var f := FirstKey(s.queue, key);
    forall j | 0 <= j < |t.queue| ensures t.queue[j].key != key {
      var k := if j < f then j else j + 1;
      assert t.queue[j] == s.queue[k];
      if f < |s.queue| { OtherKeys(log, p, k, f); }
    }
  }

  lemma StaysGone(log: seq<Event>, i: nat, key: Key)
    requires CleanLog(log) && i < |log| && NotQueued(log, i, key) && !IsAsk(log[i], key)
    ensures NotQueued(log, i + 1, key)
  {
    var s, t := Replay(log, i), Replay(log, i + 1);
    TakeSub(s.queue, MsgKey(log[i].m));
    forall j | 0 <= j < |t.queue| ensures t.queue[j].key != key {
      if t.queue[j] in s.queue {
        var k :| 0 <= k < |s.queue| && s.queue[k] == t.queue[j];
      } else {
        assert IsAsk(log[i], t.queue[j].key);
      }
    }
  }

  lemma {:induction false} NakGone(log: seq<Event>, a: nat, p: nat, i: nat, key: Key)
    requires CleanLog(log) && UniqueAsks(log) && a < p < i <= |log| && IsAsk(log[a], key) && IsNak(log[p], key)
    ensures NotQueued(log, i, key)
    decreases i
  {
    if i == p + 1 {
      NakTakes(log, p, key);
    } else {
      NakGone(log, a, p, i - 1, key);
      StaysGone(log, i - 1, key);
    }
  }

  // ---------- the invariant ----------

  /** The request k was ordered before position i and could be refused there. */
  ghost predicate Justified(log: seq<Event>, k: Key, i: nat) {
    exists a :: 0 <= a < i && a < |log| && IsAsk(log[a], k) && Refusable(log, a)
  }

  ghost predicate NaksJustified(log: seq<Event>) {
    forall p :: 0 <= p < |log| && log[p].Message? && log[p].m.Nak? ==> Justified(log, MsgKey(log[p].m), p)
  }

  /** A refusal of k is in the outbox or has been ordered. */
  ghost predicate Refused(log: seq<Event>, h: Host, k: Key) {
    || (exists i :: 0 <= i < |h.outbox| && h.outbox[i].Nak? && MsgKey(h.outbox[i]) == k)
    || (exists p :: 0 <= p < |log| && IsNak(log[p], k))
  }

  /** If the request at a falls to this daemon to refuse, it has. */
  ghost predicate RefusedAt(log: seq<Event>, h: Host, a: nat)
    requires a < |log|
  {
    Refusable(log, a) && Replay(log, a).table[log[a].m.res].node == h.node.id ==> Refused(log, h, MsgKey(log[a].m))
  }

  /** A grant whose request is refused comes no later than the grants before the refusal. */
  ghost predicate FinalOut(log: seq<Event>, m: Msg)
    requires m.Grant?
  {
    forall p, q :: 0 <= p < |log| && 0 <= q < |log| && IsNak(log[p], MsgKey(m)) && IsGrant(log[q], m.res) ==> q < p
  }

  ghost predicate FinalLog(log: seq<Event>) {
    forall g, p, q :: 0 <= q < g < |log| && 0 <= p < |log| && log[g].Message? && log[g].m.Grant? ==>
      (IsGrant(log[q], log[g].m.res) && IsNak(log[p], MsgKey(log[g].m)) ==> q < p)
  }

  ghost predicate OutJustified(log: seq<Event>, m: Msg) {
    (m.Nak? ==> Justified(log, MsgKey(m), |log|)) && (m.Grant? ==> FinalOut(log, m))
  }

  ghost predicate RefuseHost(log: seq<Event>, h: Host) {
    && h.idx <= |log|
    && (forall r :: KnowsBusy(log, h, r))
    && (forall i :: 0 <= i < |h.outbox| ==> OutJustified(log, h.outbox[i]))
    && (forall a :: 0 <= a < h.idx ==> RefusedAt(log, h, a))
  }

  ghost predicate RefuseHosts(log: seq<Event>, hosts: map<NodeId, Host>) {
    forall n :: n in hosts ==> RefuseHost(log, hosts[n])
  }

  ghost predicate RefuseInv(s: Sys) {
    FifoInv(s) && NaksJustified(s.log) && FinalLog(s.log) && RefuseHosts(s.log, s.hosts)
  }

  // ---------- sending ----------

  /** A daemon grants only requests of which it has seen no refusal. */
  lemma NoNakSeen(log: seq<Event>, k: Host, key: Key)
    requires CleanLog(log) && UniqueAsks(log) && NaksJustified(log) && k.idx <= |log|
    requires Agrees(k.node, Replay(log, k.idx)) && FirstFor(k.node.requests, key)
    ensures forall p :: 0 <= p < k.idx ==> !IsNak(log[p], key)
  {
    var w :| 0 <= w < |k.node.requests| && KeyOf(k.node.requests[w]) == key;
    assert Replay(log, k.idx).queue[w].key == key;
    forall p | 0 <= p < k.idx ensures !IsNak(log[p], key) {
      if IsNak(log[p], key) {
        var a :| 0 <= a < p && IsAsk(log[a], key) && Refusable(log, a);
        NakGone(log, a, p, k.idx, key);
      }
    }
  }

  lemma GrantIsFinal(log: seq<Event>, k: Host, m: Msg)
    requires CleanLog(log) && UniqueAsks(log) && NaksJustified(log) && k.idx <= |log| && m.Grant?
    requires Agrees(k.node, Replay(log, k.idx)) && FirstFor(k.node.requests, MsgKey(m))
    requires NoGrantFrom(log, k.idx, m.res)
    ensures FinalOut(log, m)
  {
    NoNakSeen(log, k, MsgKey(m));
  }

  /** The host keeps its locks and position, and adds messages that are neither grants nor refusals. */
  lemma QuietRefuse(log: seq<Event>, h: Host, k: Host, sent: seq<Msg>)
    requires RefuseHost(log, h) && k.idx == h.idx && k.node.id == h.node.id && k.node.locks == h.node.locks
    requires k.outbox == h.outbox + sent && forall i :: 0 <= i < |sent| ==> OutJustified(log, sent[i])
    ensures RefuseHost(log, k)
  {
    forall r ensures KnowsBusy(log, k, r) { assert KnowsBusy(log, h, r); }
    AppendsJustified(log, h.outbox, sent);
    RefusedGrows(log, h, k, sent);
  }

  lemma RefusedGrows(log: seq<Event>, h: Host, k: Host, sent: seq<Msg>)
    requires h.idx <= |log| && k.outbox == h.outbox + sent && k.node.id == h.node.id
    requires forall a :: 0 <= a < h.idx ==> RefusedAt(log, h, a)
    ensures forall a :: 0 <= a < h.idx ==> RefusedAt(log, k, a)
  {
    forall x | Refused(log, h, x) ensures Refused(log, k, x) {
      if i :| 0 <= i < |h.outbox| && h.outbox[i].Nak? && MsgKey(h.outbox[i]) == x { assert k.outbox[i] == h.outbox[i]; }
    }
    forall a | 0 <= a < h.idx ensures RefusedAt(log, k, a) { assert RefusedAt(log, h, a); }
  }

  lemma UnlockRefuse(base: seq<Addr>, log: seq<Event>, h: Host, hold: Hold, order: seq<Resource>)
    requires CleanLog(log) && UniqueAsks(log) && NaksJustified(log) && RefuseHost(log, h)
    requires FixedHost(base, log, h) && HostInv(true, base, log, h) && hold in h.holds && IsWalk(h.node.locks, order)
    requires var k := HostAskUnlock(h, hold, order); FixedHost(base, log, k) && HostInv(true, base, log, k)
    ensures RefuseHost(log, HostAskUnlock(h, hold, order))
  {
    var k, release := HostAskUnlock(h, hold, order), Unlock(hold.res, h.node.id, hold.pid, hold.tid);
    assert ResInv(true, base, log, h, hold.res);
    HoldResolves(log, h, hold, order);
    GrantOrSlice(h.node, hold.res, release);
    var t := GrantOr(h.node, hold.res, release).sent[0];
    assert k.outbox == h.outbox + [t];
    if t.Grant? {
      assert ResInv(true, base, log, k, t.res);
      JustGranted(base, log, h, k, t);
      NothingMarked(base, log, h, hold.res);
      GrantNextFirst(h.node, hold.res);
      GrantIsFinal(log, k, t);
    }
    QuietRefuse(log, h, k, [t]);
  }

  /** When a daemon delivers a request: it refuses exactly what it must. */
  lemma NakSent(n: Node, m: Msg, from: Addr)
    requires n.joined && Ordinary(n, m) && Keyed(m)
    ensures var o := ProcessMessage(n, from, m);
      && (forall i :: 0 <= i < |o.sent| && o.sent[i].Nak? ==> m.Lock? && MsgKey(o.sent[i]) == MsgKey(m))
      && ((exists i :: 0 <= i < |o.sent| && o.sent[i].Nak?) <==>
            m.Lock? && m.isTry && m.res in n.locks && n.locks[m.res].node == n.id && !n.locks[m.res].state.Free?)
  {
    var o := ProcessMessage(n, from, m);
    match m
    case Lock(r, node, pid, tid, isTry) =>
      GrantNextSlice(n.(requests := n.requests + [Request(r, node, pid, tid, false)]), r);
      if isTry && r in n.locks && n.locks[r].node == n.id && !n.locks[r].state.Free? { assert o.sent[0].Nak?; }
    case Grant(_, _, _, _) => GrantMarks(n, m);
    case Unlock(r, _, _, _) => GrantNextSlice(n, r);
    case Nak(_, _, _, _) =>
  }

  lemma NakIsRefusable(base: seq<Addr>, log: seq<Event>, h: Host)
    requires CleanLog(log) && h.idx < |log| && FixedHost(base, log, h) && h.node.id != 0 && log[h.idx].m.Lock?
    requires KnowsBusy(log, h, log[h.idx].m.res)
    ensures var m := log[h.idx].m;
      (m.isTry && m.res in h.node.locks && h.node.locks[m.res].node == h.node.id &&
        !h.node.locks[m.res].state.Free?) <==>
      (Refusable(log, h.idx) && Replay(log, h.idx).table[m.res].node == h.node.id)
  {
    var m, table := log[h.idx].m, Replay(log, h.idx).table;
    if m.res in table { assert OwnerOf(h.node.locks[m.res]) == table[m.res]; }
  }

  lemma DeliverOutJustified(base: seq<Addr>, log: seq<Event>, h: Host, order: seq<Resource>)
    requires CleanLog(log) && UniqueAsks(log) && NaksJustified(log) && h.idx < |log| && RefuseHost(log, h)
    requires FixedHost(base, log, h) && h.node.id != 0 && Ordinary(h.node, log[h.idx].m)
    requires var k := HostDeliver(h, log[h.idx], order); FixedHost(base, log, k) && HostInv(true, base, log, k)
    ensures var o := ProcessMessage(h.node, log[h.idx].from, log[h.idx].m);
      forall i :: 0 <= i < |o.sent| ==> OutJustified(log, o.sent[i])
  {
    var e, k := log[h.idx], HostDeliver(h, log[h.idx], order);
    var o := ProcessMessage(h.node, e.from, e.m);
    OneAnswer(h.node, e.from, e.m);
    if o.sent != [] {
      var t := o.sent[0];
      assert o.sent == [t] && k.outbox == h.outbox + [t];
      if t.Grant? {
        assert ResInv(true, base, log, k, t.res);
        GrantsFirst(base, log, h, o, k, t);
        GrantIsFinal(log, k, t);
      } else if t.Nak? {
        NakJustified(base, log, h, o, t);
      }
    }
  }

  lemma NakJustified(base: seq<Addr>, log: seq<Event>, h: Host, o: Outcome, t: Msg)
    requires CleanLog(log) && h.idx < |log| && RefuseHost(log, h) && FixedHost(base, log, h) && h.node.id != 0
    requires Ordinary(h.node, log[h.idx].m) && o == ProcessMessage(h.node, log[h.idx].from, log[h.idx].m)
    requires o.sent == [t] && t.Nak?
    ensures OutJustified(log, t)
  {
    NakSent(h.node, log[h.idx].m, log[h.idx].from);
    assert KnowsBusy(log, h, log[h.idx].m.res);
    NakIsRefusable(base, log, h);
    assert IsAsk(log[h.idx], MsgKey(t));
  }

  lemma DeliverRefuse(base: seq<Addr>, log: seq<Event>, h: Host, order: seq<Resource>)
    requires CleanLog(log) && GrantsAnswer(log) && UniqueAsks(log) && NaksJustified(log)
    requires h.idx < |log| && RefuseHost(log, h)
    requires FixedHost(base, log, h) && HostInv(true, base, log, h) && h.node.id != 0 && Ordinary(h.node, log[h.idx].m)
    requires var k := HostDeliver(h, log[h.idx], order); FixedHost(base, log, k) && HostInv(true, base, log, k)
    ensures RefuseHost(log, HostDeliver(h, log[h.idx], order))
  {
    var e, k := log[h.idx], HostDeliver(h, log[h.idx], order);
    var o := ProcessMessage(h.node, e.from, e.m);
    MessageFrame(h.node, e.from, e.m);
    forall r ensures KnowsBusy(log, k, r) {
      assert KnowsBusy(log, h, r) && ResInv(true, base, log, h, r);
      DeliverBusy(base, log, h, order, r);
    }
    DeliverOutJustified(base, log, h, order);
    AppendsJustified(log, h.outbox, o.sent);
    RefusedGrows(log, h, k, o.sent);
    RefusesNow(base, log, h, k, o);
  }

  lemma AppendsJustified(log: seq<Event>, out: seq<Msg>, sent: seq<Msg>)
    requires forall i :: 0 <= i < |out| ==> OutJustified(log, out[i])
    requires forall i :: 0 <= i < |sent| ==> OutJustified(log, sent[i])
    ensures forall i :: 0 <= i < |out + sent| ==> OutJustified(log, (out + sent)[i])
  {
  }

  lemma RefusesNow(base: seq<Addr>, log: seq<Event>, h: Host, k: Host, o: Outcome)
    requires CleanLog(log) && h.idx < |log| && FixedHost(base, log, h) && h.node.id != 0
    requires Ordinary(h.node, log[h.idx].m)
    requires o == ProcessMessage(h.node, log[h.idx].from, log[h.idx].m) && k.outbox == h.outbox + o.sent
    requires k.node.id == h.node.id
    requires forall r :: KnowsBusy(log, h, r)
    ensures RefusedAt(log, k, h.idx)
  {
    var e := log[h.idx];
    if Refusable(log, h.idx) && Replay(log, h.idx).table[e.m.res].node == h.node.id {
      assert KnowsBusy(log, h, e.m.res);
      NakIsRefusable(base, log, h);
      NakSent(h.node, e.m, e.from);
      var i :| 0 <= i < |o.sent| && o.sent[i].Nak?;
      assert k.outbox[|h.outbox| + i] == o.sent[i];
    }
  }

  // ---------- ordering ----------

  lemma JustifiedPrefix(log: seq<Event>, e: Event, k: Key, i: nat)
    requires Justified(log, k, i)
    ensures Justified(log + [e], k, i)
  {
    var a :| 0 <= a < i && a < |log| && IsAsk(log[a], k) && Refusable(log, a);
    RefusablePrefix(log, e, a);
    assert IsAsk((log + [e])[a], k);
  }

  lemma OrderedJustified(log: seq<Event>, e: Event)
    requires NaksJustified(log) && e.Message? && OutJustified(log, e.m)
    ensures NaksJustified(log + [e])
  {
    var log' := log + [e];
    forall p | 0 <= p < |log'| && log'[p].Message? && log'[p].m.Nak? ensures Justified(log', MsgKey(log'[p].m), p) {
      if p < |log| { assert log'[p] == log[p]; }
      JustifiedPrefix(log, e, MsgKey(log'[p].m), p);
    }
  }

  lemma OrderedFinal(log: seq<Event>, e: Event)
    requires FinalLog(log) && e.Message? && OutJustified(log, e.m)
    ensures FinalLog(log + [e])
  {
    var log' := log + [e];
    assert forall p :: 0 <= p < |log| ==> log'[p] == log[p];
  }

  /** An outbox message stays justified when something is ordered that is not a grant of its resource. */
  lemma OutStaysJustified(log: seq<Event>, e: Event, m: Msg)
    requires OutJustified(log, m) && (m.Grant? ==> !IsGrant(e, m.res))
    ensures OutJustified(log + [e], m)
  {
    var log' := log + [e];
    assert forall p :: 0 <= p < |log| ==> log'[p] == log[p];
    if m.Nak? {
      JustifiedPrefix(log, e, MsgKey(m), |log|);
      var a :| 0 <= a < |log| && a < |log'| && IsAsk(log'[a], MsgKey(m)) && Refusable(log', a);
      assert Justified(log', MsgKey(m), |log'|);
    }
  }

  lemma AppendRefuse(log: seq<Event>, e: Event, h: Host, k: Host)
    requires RefuseHost(log, h) && e.Message? && k == h.(outbox := k.outbox)
    requires forall i :: 0 <= i < |k.outbox| ==>
      OutJustified(log, k.outbox[i]) && (k.outbox[i].Grant? ==> !IsGrant(e, k.outbox[i].res))
    requires forall x :: Refused(log, h, x) ==> Refused(log + [e], k, x)
    ensures RefuseHost(log + [e], k)
  {
    var log' := log + [e];
    forall r ensures KnowsBusy(log', k, r) {
      assert KnowsBusy(log, h, r);
      BusyPrefix(log, e, h.idx, r);
    }
    forall i | 0 <= i < |k.outbox| ensures OutJustified(log', k.outbox[i]) { OutStaysJustified(log, e, k.outbox[i]); }
    forall a | 0 <= a < k.idx ensures RefusedAt(log', k, a) {
      assert RefusedAt(log, h, a) && log'[a] == log[a];
      RefusablePrefix(log, e, a);
      ReplayPrefix(log, e, a);
    }
  }

  lemma RefusedAppends(log: seq<Event>, h: Host, e: Event, k: Host)
    requires (e.Message? && h.outbox != [] && e.m == h.outbox[0] && k == h.(outbox := h.outbox[1..])) || k == h
    ensures forall x :: Refused(log, h, x) ==> Refused(log + [e], k, x)
  {
    var log' := log + [e];
    forall x | Refused(log, h, x) ensures Refused(log', k, x) {
      if p :| 0 <= p < |log| && IsNak(log[p], x) {
        assert IsNak(log'[p], x);
      } else {
        var i :| 0 <= i < |h.outbox| && h.outbox[i].Nak? && MsgKey(h.outbox[i]) == x;
        if k != h {
          if i == 0 { assert IsNak(log'[|log|], x); } else { assert k.outbox[i - 1] == h.outbox[i]; }
        }
      }
    }
  }

  lemma SequenceOne(s: Sys, n: NodeId, x: NodeId, e: Event, l: Host)
    requires RefuseInv(s) && n in s.hosts && s.hosts[n].outbox != [] && x in s.hosts
    requires e == Message(Self(s.hosts[n]), s.hosts[n].outbox[0])
    requires l == if x == n then s.hosts[n].(outbox := s.hosts[n].outbox[1..]) else s.hosts[x]
    ensures RefuseHost(s.log + [e], l)
  {
    var h, k := s.hosts[n], s.hosts[x];
    forall i | 0 <= i < |l.outbox|
      ensures OutJustified(s.log, l.outbox[i]) && (l.outbox[i].Grant? ==> !IsGrant(e, l.outbox[i].res))
    {
      var j := if x == n then i + 1 else i;
      assert l.outbox[i] == k.outbox[j] && OutJustified(s.log, k.outbox[j]);
      if l.outbox[i].Grant? && IsGrant(e, l.outbox[i].res) { LoneGrant(s, n, 0, x, j); }
    }
    RefusedAppends(s.log, k, e, l);
    AppendRefuse(s.log, e, k, l);
  }

  lemma SequenceHostsRefuse(s: Sys, n: NodeId, e: Event, k: Host)
    requires RefuseInv(s) && n in s.hosts && s.hosts[n].outbox != []
    requires e == Message(Self(s.hosts[n]), s.hosts[n].outbox[0]) && k == s.hosts[n].(outbox := s.hosts[n].outbox[1..])
    ensures RefuseHosts(s.log + [e], s.hosts[n := k])
  {
    SequenceOne(s, n, n, e, k);
    forall x | x in s.hosts && x != n
      ensures RefuseHost(s.log + [e], s.hosts[x])
    {
      SequenceOne(s, n, x, e, s.hosts[x]);
    }
    AllRefuse(s.log + [e], s.hosts, n, k);
  }

  lemma AllRefuse(log: seq<Event>, hosts: map<NodeId, Host>, n: NodeId, k: Host)
    requires RefuseHost(log, k) && forall x :: x in hosts && x != n ==> RefuseHost(log, hosts[x])
    ensures RefuseHosts(log, hosts[n := k])
  {
  }

  lemma SequenceRefuse(s: Sys, t: Step)
    requires RefuseInv(s) && t.Sequence? && May(Fixed, s, t)
    ensures RefuseInv(Apply(s, t))
  {
    var h := s.hosts[t.n];
    var e, k := Message(Self(h), h.outbox[0]), h.(outbox := h.outbox[1..]);
    StepFifo(s, t);
    assert RefuseHost(s.log, h);
    OrderedJustified(s.log, e);
    OrderedFinal(s.log, e);
    SequenceHostsRefuse(s, t.n, e, k);
  }

  // ---------- runs ----------

  lemma LocalRefuse(s: Sys, n: NodeId, k: Host, u: Sys)
    requires RefuseInv(s) && n in s.hosts && u == s.(hosts := s.hosts[n := k]) && FifoInv(u) && RefuseHost(s.log, k)
    ensures RefuseInv(u)
  {
  }

  lemma ConnectRefuseHost(log: seq<Event>, h: Host, fd: nat)
    requires RefuseHost(log, h)
    ensures RefuseHost(log, HostConnect(h, fd))
  {
    assert h.outbox + [] == h.outbox;
    QuietRefuse(log, h, HostConnect(h, fd), []);
  }

  lemma AskRefuseHost(log: seq<Event>, h: Host, k: Host, m: Msg)
    requires RefuseHost(log, h) && k.outbox == h.outbox + [m] && m.Lock?
    requires k == h.(node := h.node.(clients := k.node.clients), outbox := k.outbox)
    ensures RefuseHost(log, k)
  {
    QuietRefuse(log, h, k, [m]);
  }

  lemma ConnectRefuse(s: Sys, t: Step)
    requires RefuseInv(s) && t.Connect? && May(Fixed, s, t) && FifoInv(Apply(s, t))
    ensures RefuseInv(Apply(s, t))
  {
    ConnectRefuseHost(s.log, s.hosts[t.n], t.fd);
    LocalRefuse(s, t.n, HostConnect(s.hosts[t.n], t.fd), Apply(s, t));
  }

  lemma AskLockRefuse(s: Sys, t: Step)
    requires RefuseInv(s) && t.AskLock? && May(Fixed, s, t) && FifoInv(Apply(s, t))
    ensures RefuseInv(Apply(s, t))
  {
    var h := s.hosts[t.n];
    var k := HostAskLock(h, t.fd, t.res, t.pid, t.tid, t.isTry);
    AskLockClients(h, t.fd, t.pid, k, t.res, t.tid, t.isTry);
    AskRefuseHost(s.log, h, k, Lock(t.res, h.node.id, t.pid, t.tid, t.isTry));
    LocalRefuse(s, t.n, k, Apply(s, t));
  }

  lemma AskUnlockRefuse(s: Sys, t: Step)
    requires RefuseInv(s) && t.AskUnlock? && May(Fixed, s, t) && FifoInv(Apply(s, t))
    ensures RefuseInv(Apply(s, t))
  {
    UnlockRefuse(s.base, s.log, s.hosts[t.n], t.hold, t.order);
    LocalRefuse(s, t.n, HostAskUnlock(s.hosts[t.n], t.hold, t.order), Apply(s, t));
  }

  lemma DeliverStepRefuse(s: Sys, t: Step)
    requires RefuseInv(s) && t.Deliver? && May(Fixed, s, t) && FifoInv(Apply(s, t))
    ensures RefuseInv(Apply(s, t))
  {
    var h := s.hosts[t.n];
    OrdinaryMessage(s, t.n);
    RosterFacts(s.base, s.log, |s.log|);
    DeliverRefuse(s.base, s.log, h, t.order);
    LocalRefuse(s, t.n, HostDeliver(h, s.log[h.idx], t.order), Apply(s, t));
  }

  lemma StepRefuse(s: Sys, t: Step)
    requires RefuseInv(s) && May(Fixed, s, t)
    ensures RefuseInv(Apply(s, t))
  {
    StepFifo(s, t);
    if t.Sequence? { SequenceRefuse(s, t); } else { HostRefuse(s, t); }
  }

  lemma ClientRefuse(s: Sys, t: Step)
    requires RefuseInv(s) && May(Fixed, s, t) && (t.Connect? || t.AskLock? || t.AskUnlock?) && FifoInv(Apply(s, t))
    ensures RefuseInv(Apply(s, t))
  {
    match t
    case Connect(_, _) => ConnectRefuse(s, t);
    case AskLock(_, _, _, _, _, _) => AskLockRefuse(s, t);
    case AskUnlock(_, _, _) => AskUnlockRefuse(s, t);
  }

  lemma HostRefuse(s: Sys, t: Step)
    requires RefuseInv(s) && May(Fixed, s, t) && !t.Sequence? && FifoInv(Apply(s, t))
    ensures RefuseInv(Apply(s, t))
  {
    if t.Deliver? { DeliverStepRefuse(s, t); } else { ClientRefuse(s, t); }
  }

  lemma {:induction false} RunRefuse(s: Sys, run: seq<Step>)
    requires RefuseInv(s) && IsRun(Fixed, s, run)
    ensures RefuseInv(Exec(Fixed, s, run))
    decreases |run|
  {
    if run != [] {
      StepRefuse(s, run[0]);
      RunRefuse(Apply(s, run[0]), run[1..]);
    }
  }
}
