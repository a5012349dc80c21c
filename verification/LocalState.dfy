/**
 * What no other daemon can see: marks in the queue and pending locks stand for the daemon's own
 * grants that are on their way, and a lock it owns is either in use or wanted by nobody.
 */
module LocalState {
  import opened Types
  import opened Protocol
  import opened Group
  import opened Cluster
  import opened Slices
  import opened Frames
  import opened Invariant
  import opened TokenSlices
  import opened TokenLocal
  import opened LockIds

  // ---------- definitions ----------

  /** The daemon's own grant for this request is on its way to it. */
  ghost predicate FlyKey(log: seq<Event>, h: Host, k: Key) {
    || (exists i :: 0 <= i < |h.outbox| && h.outbox[i].Grant? && MsgKey(h.outbox[i]) == k)
    || (exists p :: h.idx <= p < |log| && OwnGrant(log[p], h.node.id, k))
  }

  predicate OwnGrant(e: Event, n: NodeId, k: Key) {
    e.Message? && e.from.id == n && e.m.Grant? && MsgKey(e.m) == k
  }

  predicate OwnGrantOf(e: Event, n: NodeId, r: Resource) {
    IsGrant(e, r) && e.from.id == n
  }

  /** Some grant of r by the daemon itself is on its way to it. */
  ghost predicate FlyRes(log: seq<Event>, h: Host, r: Resource) {
    || (exists i :: 0 <= i < |h.outbox| && h.outbox[i].Grant? && h.outbox[i].res == r)
    || (exists p :: h.idx <= p < |log| && OwnGrantOf(log[p], h.node.id, r))
  }

  ghost predicate MarksInv(log: seq<Event>, h: Host) {
    forall i :: 0 <= i < |h.node.requests| && h.node.requests[i].granted ==> FlyKey(log, h, KeyOf(h.node.requests[i]))
  }

  predicate Asking(q: seq<Request>, r: Resource) {
    exists i :: 0 <= i < |q| && q[i].res == r
  }

  ghost predicate LocalRes(log: seq<Event>, h: Host, r: Resource) {
    r in h.node.locks ==>
      var l := h.node.locks[r];
      && (l.state.Pending? ==> FlyRes(log, h, r))
      && (l.node == h.node.id && l.state.Free? ==> !Asking(h.node.requests, r))
      && (l.node == h.node.id && l.state.Held? ==>
            HoldsRes(h, r) || Releasing(log, h, r, l.pid) || FlyRes(log, h, r))
  }

  /** At most one own grant per resource is ordered but not yet delivered. */
  ghost predicate OneFlying(log: seq<Event>, h: Host) {
    forall p, q, r :: h.idx <= p < |log| && h.idx <= q < |log| ==>
      OwnGrantOf(log[p], h.node.id, r) && OwnGrantOf(log[q], h.node.id, r) ==> p == q
  }

  // ---------- marks ----------

  /** Every mark was there before, or comes with its grant. */
  ghost predicate MarksExplained(a: seq<Request>, b: seq<Request>, sent: seq<Msg>) {
    forall i :: 0 <= i < |b| && b[i].granted ==> MarkExplained(a, b[i], sent)
  }

  ghost predicate MarkExplained(a: seq<Request>, q: Request, sent: seq<Msg>) {
    || q in a
    || (exists t :: t in sent && t.Grant? && MsgKey(t) == KeyOf(q))
  }

  lemma MarksOfGrantNext(n: Node, r: Resource, a: seq<Request>)
    requires forall i :: 0 <= i < |n.requests| && n.requests[i].granted ==> n.requests[i] in a
    ensures MarksExplained(a, GrantNext(n, r).node.requests, GrantNext(n, r).sent)
  {
    var g, w := GrantNext(n, r), FirstWaiter(n.requests, r);
    forall i | 0 <= i < |g.node.requests| && g.node.requests[i].granted
      ensures MarkExplained(a, g.node.requests[i], g.sent)
    {
      if i == w {
        assert g.sent[0] in g.sent && MsgKey(g.sent[0]) == KeyOf(g.node.requests[i]);
      } else {
        assert g.node.requests[i] == n.requests[i];
      }
    }
  }

  lemma DropMarks(a: seq<Request>, i: nat)
    ensures forall k :: 0 <= k < |DropAt(a, i)| ==> DropAt(a, i)[k] in a
  {
    forall k | 0 <= k < |DropAt(a, i)| ensures DropAt(a, i)[k] in a {
      assert a[if i < |a| && k >= i then k + 1 else k] == DropAt(a, i)[k];
    }
  }

  lemma {:induction false} PurgeMarks(a: seq<Request>, node: NodeId, pid: Pid)
    ensures forall q :: q in PurgeQueue(a, node, pid) ==> q in a
  {
    if a != [] { PurgeMarks(a[..|a| - 1], node, pid); }
  }

  lemma MarksThen(a: seq<Request>, b: seq<Request>, c: seq<Request>, s: seq<Msg>, t: seq<Msg>)
    requires MarksExplained(a, b, s) && MarksExplained(b, c, t)
    ensures MarksExplained(a, c, s + t)
  {
    forall i | 0 <= i < |c| && c[i].granted ensures MarkExplained(a, c[i], s + t) {
      assert MarkExplained(b, c[i], t);
      if c[i] in b {
        var j :| 0 <= j < |b| && b[j] == c[i];
        assert MarkExplained(a, b[j], s);
      }
      if m :| m in s && m.Grant? && MsgKey(m) == KeyOf(c[i]) { assert m in s + t; }
      if m :| m in t && m.Grant? && MsgKey(m) == KeyOf(c[i]) { assert m in s + t; }
    }
  }

  /** A grant handler of which no client has vanished. */
  predicate Connected(n: Node, m: Msg) {
    && (m.Grant? ==> m.node != 0 && m.pid != 0 && m.res in n.locks)
    && (m.Grant? || m.Nak? ==> m.node == n.id ==> HasClient(n.clients, m.pid))
  }

  lemma MessageMarks(n: Node, from: Addr, m: Msg)
    requires n.joined && Connected(n, m)
    ensures var o := ProcessMessage(n, from, m); MarksExplained(n.requests, o.node.requests, o.sent)
  {
    match m
    case Lock(r, _, _, _, _) =>
      var q := WithArrival(n, m);
      forall i | 0 <= i < |q.requests| && q.requests[i].granted ensures q.requests[i] in n.requests {
        assert n.requests[i] == q.requests[i];
      }
      MarksOfGrantNext(q, r, n.requests);
    case Grant(r, node, pid, tid) =>
      DropMarks(n.requests, FirstMatch(n.requests, r, node, pid, tid));
      MarksOfGrantNext(Put(Record(n, m), r, Record(n, m).locks[r].(state := Free)), r, n.requests);
    case Unlock(r, _, _, _) => MarksOfGrantNext(n, r, n.requests);
    case Nak(r, node, pid, tid) => DropMarks(n.requests, FirstMatch(n.requests, r, node, pid, tid));
    case Purge(node, pid) => PurgeMarks(n.requests, node, pid);
    case Join =>
  }

  lemma {:induction false} RecoverMarks(n: Node, dead: NodeId, order: seq<Resource>)
    ensures var o := RecoverLocks(n, dead, order); MarksExplained(n.requests, o.node.requests, o.sent)
  {
    if order != [] {
      var a, r := RecoverLocks(n, dead, order[..|order| - 1]), order[|order| - 1];
      RecoverMarks(n, dead, order[..|order| - 1]);
      var b := RecoverLock(a.node, dead, r);
      if r in a.node.locks { MarksOfGrantNext(Put(a.node, r, a.node.locks[r].(state := Free)), r, a.node.requests); }
      MarksThen(n.requests, a.node.requests, b.node.requests, a.sent, b.sent);
    }
  }

  lemma {:induction false} LeaveMarks(n: Node, left: seq<Addr>, order: seq<Resource>)
    ensures var o := LeaveAll(n, left, order); MarksExplained(n.requests, o.node.requests, o.sent)
  {
    if left != [] {
      var a, d := LeaveAll(n, left[..|left| - 1], order), left[|left| - 1];
      LeaveMarks(n, left[..|left| - 1], order);
      var c := a.node.(members := DropAt(a.node.members, FirstAddr(a.node.members, d)));
      var p := PurgeAll(c, d.id, 0);
      PurgeMarks(c.requests, d.id, 0);
      RecoverMarks(p, d.id, order);
      MarksThen(c.requests, p.requests, RecoverLocks(p, d.id, order).node.requests, [Purge(d.id, 0)],
                RecoverLocks(p, d.id, order).sent);
      var b := Leave(a.node, d, order);
      MarksThen(n.requests, a.node.requests, b.node.requests, a.sent, b.sent);
    }
  }

  // ---------- one event later ----------

  ghost predicate Moves(log: seq<Event>, h: Host, k: Host, sent: seq<Msg>) {
    && h.idx < |log| && k.idx == h.idx + 1 && k.node.id == h.node.id
    && k.outbox == h.outbox + sent && h.holds <= k.holds
  }

  lemma FlyKeyMoves(log: seq<Event>, h: Host, k: Host, sent: seq<Msg>, key: Key)
    requires Moves(log, h, k, sent) && FlyKey(log, h, key) && !OwnGrant(log[h.idx], h.node.id, key)
    ensures FlyKey(log, k, key)
  {
    if i :| 0 <= i < |h.outbox| && h.outbox[i].Grant? && MsgKey(h.outbox[i]) == key {
      assert k.outbox[i] == h.outbox[i];
    }
  }

  lemma FlyResMoves(log: seq<Event>, h: Host, k: Host, sent: seq<Msg>, r: Resource)
    requires Moves(log, h, k, sent) && FlyRes(log, h, r) && !IsGrant(log[h.idx], r)
    ensures FlyRes(log, k, r)
  {
    if i :| 0 <= i < |h.outbox| && h.outbox[i].Grant? && h.outbox[i].res == r {
      assert k.outbox[i] == h.outbox[i];
    }
  }

  lemma SentFlies(log: seq<Event>, h: Host, k: Host, sent: seq<Msg>, t: Msg)
    requires k.outbox == h.outbox + sent && t in sent && t.Grant?
    ensures FlyKey(log, k, MsgKey(t)) && FlyRes(log, k, t.res)
  {
    var i :| 0 <= i < |sent| && sent[i] == t;
    assert k.outbox[|h.outbox| + i] == t;
  }

  lemma ReleasingMoves(log: seq<Event>, h: Host, k: Host, sent: seq<Msg>, r: Resource, pid: Pid)
    requires Moves(log, h, k, sent) && Releasing(log, h, r, pid)
    requires !(IsRelease(log[h.idx], r, h.node.id) && log[h.idx].m.pid == pid)
    ensures Releasing(log, k, r, pid)
  {
    if t :| t in Tokens(h.outbox, r) && t.Unlock? && t.node == h.node.id && t.pid == pid {
      var i :| 0 <= i < |h.outbox| && h.outbox[i] == t;
      assert k.outbox[i] == t;
      assert t in Tokens(k.outbox, r);
    } else {
      var p :| h.idx <= p < |log| && ReleaseAt(log, h, p, r, pid);
      assert ReleaseAt(log, k, p, r, pid);
    }
  }

  /** Marks after an event, if the request a delivered grant of the daemon's own answers is gone. */
  lemma DeliverMarks(log: seq<Event>, h: Host, k: Host, sent: seq<Msg>)
    requires Moves(log, h, k, sent) && MarksInv(log, h)
    requires MarksExplained(h.node.requests, k.node.requests, sent)
    requires log[h.idx].Message? && log[h.idx].m.Grant? ==> !HasKey(k.node.requests, MsgKey(log[h.idx].m))
    ensures MarksInv(log, k)
  {
    forall i | 0 <= i < |k.node.requests| && k.node.requests[i].granted
      ensures FlyKey(log, k, KeyOf(k.node.requests[i]))
    {
      var q := k.node.requests[i];
      assert MarkExplained(h.node.requests, q, sent);
      if q in h.node.requests {
        var j :| 0 <= j < |h.node.requests| && h.node.requests[j] == q;
        assert FlyKey(log, h, KeyOf(q));
        FlyKeyMoves(log, h, k, sent, KeyOf(q));
      } else {
        var t :| t in sent && t.Grant? && MsgKey(t) == KeyOf(q);
        SentFlies(log, h, k, sent, t);
      }
    }
  }

  // ---------- one resource, one event later ----------

  lemma AskingDerived(a: seq<Request>, b: seq<Request>, r: Resource)
    requires Derived(a, b) && Asking(a, r)
    ensures Asking(b, r)
  {
    var i :| 0 <= i < |a| && a[i].res == r;
    assert HasKey(a, KeyOf(a[i]));
    var j :| 0 <= j < |b| && KeyOf(b[j]) == KeyOf(a[i]);
    assert b[j].res == r;
  }

  /** Nothing that matters to r happens. */
  lemma LocalStays(log: seq<Event>, h: Host, k: Host, sent: seq<Msg>, r: Resource)
    requires Moves(log, h, k, sent) && LocalRes(log, h, r)
    requires SameEntry(h.node, k.node, r) && !IsGrant(log[h.idx], r)
    requires Asking(k.node.requests, r) ==>
      || Asking(h.node.requests, r)
      || !(r in h.node.locks && h.node.locks[r].node == h.node.id && h.node.locks[r].state.Free?)
    requires r in h.node.locks && h.node.locks[r].state.Held? && h.node.locks[r].node == h.node.id ==>
      !(IsRelease(log[h.idx], r, h.node.id) && log[h.idx].m.pid == h.node.locks[r].pid)
    ensures LocalRes(log, k, r)
  {
    if r in h.node.locks {
      if FlyRes(log, h, r) { FlyResMoves(log, h, k, sent, r); }
      var l := h.node.locks[r];
      if l.node == h.node.id && l.state.Held? && Releasing(log, h, r, l.pid) {
        ReleasingMoves(log, h, k, sent, r, l.pid);
      }
      assert HoldsRes(h, r) ==> HoldsRes(k, r);
    }
  }

  lemma LocalPending(log: seq<Event>, h: Host, k: Host, sent: seq<Msg>, r: Resource)
    requires Moves(log, h, k, sent) && OneGrant(Tokens(sent, r), r)
    requires r in k.node.locks && k.node.locks[r].state.Pending?
    ensures LocalRes(log, k, r)
  {
    var t := Tokens(sent, r)[0];
    assert t in Tokens(sent, r);
    SentFlies(log, h, k, sent, t);
  }

  /** A request at a free lock of one's own, or new to the oldest, is granted at once. */
  lemma LockGrants(n: Node, m: Msg)
    requires m.Lock? && n.joined
    requires if m.res in n.locks then n.locks[m.res].node == n.id && n.locks[m.res].state.Free? else OwnHead(n)
    ensures var o := ProcessLock(n, m); OneGrant(Tokens(o.sent, m.res), m.res)
  {
    var q := n.(requests := n.requests + [Request(m.res, m.node, m.pid, m.tid, false)]);
    assert IsWaiter(q.requests[|n.requests|], m.res);
    GrantNextSlice(q, m.res);
  }

  lemma LockLocal(log: seq<Event>, h: Host, k: Host, o: Outcome, r: Resource)
    requires h.idx < |log| && log[h.idx].Message? && log[h.idx].m.Lock? && log[h.idx].m.res == r && h.node.joined
    requires o == ProcessLock(h.node, log[h.idx].m) && k.node == o.node
    requires Moves(log, h, k, o.sent) && LocalRes(log, h, r) && h.node.id != 0
    ensures LocalRes(log, k, r)
  {
    var m, n := log[h.idx].m, h.node;
    LockSlice(n, m);
    if (if r in n.locks then n.locks[r].node == n.id && n.locks[r].state.Free? else OwnHead(n)) {
      LockGrants(n, m);
      LocalPending(log, h, k, o.sent, r);
    } else if r in n.locks {
      LocalStays(log, h, k, o.sent, r);
    }
  }

  lemma FlyMeansGrant(log: seq<Event>, h: Host, k: Key)
    requires FlyKey(log, h, k)
    ensures !NoGrantFrom(log, h.idx, k.res) || !NoGrantIn(Tokens(h.outbox, k.res))
  {
    if j :| 0 <= j < |h.outbox| && h.outbox[j].Grant? && MsgKey(h.outbox[j]) == k {
      var ts := Tokens(h.outbox, k.res);
      assert h.outbox[j] in ts;
      var i :| 0 <= i < |ts| && ts[i] == h.outbox[j];
    } else {
      var p :| h.idx <= p < |log| && OwnGrant(log[p], h.node.id, k);
      assert IsGrant(log[p], k.res);
    }
  }

  /** With no grant ahead, nothing is marked, so a failed search means nobody asks. */
  lemma NobodyAsks(log: seq<Event>, h: Host, r: Resource)
    requires MarksInv(log, h) && NoGrantFrom(log, h.idx, r) && NoGrantIn(Tokens(h.outbox, r))
    requires NoWaiter(h.node.requests, r)
    ensures !Asking(h.node.requests, r)
  {
    if i :| 0 <= i < |h.node.requests| && h.node.requests[i].res == r {
      assert h.node.requests[i].granted by { assert !IsWaiter(h.node.requests[i], r); }
      var key := KeyOf(h.node.requests[i]);
      assert FlyKey(log, h, key);
      FlyMeansGrant(log, h, key);
      assert false;
    }
  }

  lemma UnlockLocal(tidy: bool, base: seq<Addr>, log: seq<Event>, h: Host, k: Host, o: Outcome, r: Resource)
    requires h.idx < |log| && log[h.idx].Message? && log[h.idx].m.Unlock? && log[h.idx].m.res == r && h.node.joined
    requires o == ProcessUnlock(h.node, log[h.idx].m) && k.node == o.node
    requires Moves(log, h, k, o.sent) && LocalRes(log, h, r)
    requires ResInv(tidy, base, log, h, r) && MarksInv(log, h)
    ensures LocalRes(log, k, r)
  {
    var m, n := log[h.idx].m, h.node;
    UnlockSlice(n, m);
    UnlockQueue(n, m);
    if r in n.locks && Releases(n.locks[r], m) {
      if n.locks[r].node == n.id {
        assert ReleaseAt(log, h, h.idx, r, m.pid);
        assert NoGrantFrom(log, h.idx, r) && NoGrantIn(Tokens(h.outbox, r));
        if OneGrant(Tokens(o.sent, r), r) { LocalPending(log, h, k, o.sent, r); } else { NobodyAsks(log, h, r); }
      }
    } else {
      LocalStays(log, h, k, o.sent, r);
    }
  }

  lemma UnlockQueue(n: Node, m: Msg)
    requires m.Unlock?
    ensures var o := ProcessUnlock(n, m);
      o.sent == [] ==>
        && o.node.requests == n.requests
        && (n.joined && m.res in n.locks && Releases(n.locks[m.res], m) && n.locks[m.res].node == n.id ==>
              NoWaiter(n.requests, m.res))
    ensures Tokens(ProcessUnlock(n, m).sent, m.res) == ProcessUnlock(n, m).sent
  {
    GrantNextSlice(n, m.res);
    NoWaiterFirst(n.requests, m.res);
  }

  lemma GrantLocal(log: seq<Event>, h: Host, k: Host, o: Outcome, r: Resource)
    requires h.idx < |log| && IsGrant(log[h.idx], r) && h.node.joined && Connected(h.node, log[h.idx].m)
    requires o == ProcessGrant(h.node, log[h.idx].m) && k == After(h, o).(idx := h.idx + 1)
    ensures LocalRes(log, k, r)
  {
    var m := log[h.idx].m;
    GrantSlice(h.node, m);
    GrantNextSlice(Put(Record(h.node, m), r, Record(h.node, m).locks[r].(state := Free)), r);
    ProcessGrantOrderly(h.node, m);
    if m.node == h.node.id {
      var x := Hold(m.pid, m.tid, r, o.node.locks[r].localId);
      assert o.replies[0].Granted?;
      assert x in Told(o.replies);
      assert x in k.holds && x.res == r;
    }
  }

  /** A message about another resource, a NAK or a purge. */
  lemma OtherLocal(log: seq<Event>, h: Host, k: Host, o: Outcome, r: Resource)
    requires h.idx < |log| && log[h.idx].Message? && h.node.joined
    requires o == ProcessMessage(h.node, log[h.idx].from, log[h.idx].m) && k == After(h, o).(idx := h.idx + 1)
    requires log[h.idx].m.Nak? || !Concerns(log[h.idx].m, r)
    requires LocalRes(log, h, r)
    ensures LocalRes(log, k, r)
  {
    var m, n := log[h.idx].m, h.node;
    OtherMessageSlice(n, log[h.idx].from, m, r);
    if m.Grant? { ProcessGrantOrderly(n, m); } else { ProcessMessageOrderly(n, log[h.idx].from, m); }
    if Asking(k.node.requests, r) {
      AskingDerived(k.node.requests, WithArrival(n, m).requests, r);
      ArrivalOther(n, m, r);
    }
    LocalStays(log, h, k, o.sent, r);
  }

  lemma ArrivalOther(n: Node, m: Msg, r: Resource)
    requires Asking(WithArrival(n, m).requests, r) && (m.Lock? ==> m.res != r)
    ensures Asking(n.requests, r)
  {
    var w := WithArrival(n, m).requests;
    var i :| 0 <= i < |w| && w[i].res == r;
    assert i < |n.requests| && n.requests[i] == w[i];
  }

  lemma MessageLocal(tidy: bool, base: seq<Addr>, log: seq<Event>, h: Host, k: Host, r: Resource)
    requires h.idx < |log| && log[h.idx].Message? && h.node.joined && h.node.id != 0
    requires k == After(h, ProcessMessage(h.node, log[h.idx].from, log[h.idx].m)).(idx := h.idx + 1)
    requires Connected(h.node, log[h.idx].m) && ResInv(tidy, base, log, h, r) && MarksInv(log, h) && LocalRes(log, h, r)
    ensures LocalRes(log, k, r)
  {
    var m, o := log[h.idx].m, ProcessMessage(h.node, log[h.idx].from, log[h.idx].m);
    if m.Grant? { ProcessGrantOrderly(h.node, m); } else { ProcessMessageOrderly(h.node, log[h.idx].from, m); }
    if m.Lock? && m.res == r {
      LockLocal(log, h, k, o, r);
    } else if m.Unlock? && m.res == r {
      UnlockLocal(tidy, base, log, h, k, o, r);
    } else if m.Grant? && m.res == r {
      GrantLocal(log, h, k, o, r);
    } else {
      OtherLocal(log, h, k, o, r);
    }
  }

  // ---------- a host adds to its outbox ----------

  lemma FlyGrows(log: seq<Event>, h: Host, k: Host, sent: seq<Msg>)
    requires k.idx == h.idx && k.node.id == h.node.id && k.outbox == h.outbox + sent
    ensures forall x :: FlyKey(log, h, x) ==> FlyKey(log, k, x)
    ensures forall r :: FlyRes(log, h, r) ==> FlyRes(log, k, r)
    ensures forall r, pid :: Releasing(log, h, r, pid) ==> Releasing(log, k, r, pid)
  {
    forall x | FlyKey(log, h, x) ensures FlyKey(log, k, x) {
      if i :| 0 <= i < |h.outbox| && h.outbox[i].Grant? && MsgKey(h.outbox[i]) == x {
        assert k.outbox[i] == h.outbox[i];
      }
    }
    forall r | FlyRes(log, h, r) ensures FlyRes(log, k, r) {
      if i :| 0 <= i < |h.outbox| && h.outbox[i].Grant? && h.outbox[i].res == r { assert k.outbox[i] == h.outbox[i]; }
    }
    forall r, pid | Releasing(log, h, r, pid) ensures Releasing(log, k, r, pid) {
      if t :| t in Tokens(h.outbox, r) && t.Unlock? && t.node == h.node.id && t.pid == pid {
        var i :| 0 <= i < |h.outbox| && h.outbox[i] == t;
        assert k.outbox[i] == t;
        assert t in Tokens(k.outbox, r);
      } else {
        var p :| h.idx <= p < |log| && ReleaseAt(log, h, p, r, pid);
        assert ReleaseAt(log, k, p, r, pid);
      }
    }
  }

  /** Table, queue and holds stay. */
  lemma LocalSame(log: seq<Event>, h: Host, k: Host, sent: seq<Msg>)
    requires k.idx == h.idx && k.node.id == h.node.id && k.outbox == h.outbox + sent
    requires k.node.locks == h.node.locks && k.node.requests == h.node.requests && k.holds == h.holds
    ensures MarksInv(log, h) ==> MarksInv(log, k)
    ensures forall r :: LocalRes(log, h, r) ==> LocalRes(log, k, r)
  {
    FlyGrows(log, h, k, sent);
    forall r | LocalRes(log, h, r) ensures LocalRes(log, k, r) { assert HoldsRes(h, r) ==> HoldsRes(k, r); }
  }

  lemma ReleasedMarks(log: seq<Event>, h: Host, k: Host, sent: seq<Msg>)
    requires MarksInv(log, h) && k.idx == h.idx && k.node.id == h.node.id && k.outbox == h.outbox + sent
    requires MarksExplained(h.node.requests, k.node.requests, sent)
    ensures MarksInv(log, k)
  {
    FlyGrows(log, h, k, sent);
    forall i | 0 <= i < |k.node.requests| && k.node.requests[i].granted
      ensures FlyKey(log, k, KeyOf(k.node.requests[i]))
    {
      var q := k.node.requests[i];
      assert MarkExplained(h.node.requests, q, sent);
      if q in h.node.requests {
        var j :| 0 <= j < |h.node.requests| && h.node.requests[j] == q;
      } else {
        var t :| t in sent && t.Grant? && MsgKey(t) == KeyOf(q);
        SentFlies(log, h, k, sent, t);
      }
    }
  }

  lemma ReleasedLocal(log: seq<Event>, h: Host, k: Host, hold: Hold, sent: seq<Msg>, r: Resource)
    requires LocalRes(log, h, r) && hold in h.holds && HeldBy(h.node, hold.res, hold.pid)
    requires k.idx == h.idx && k.node.id == h.node.id && k.node.locks == h.node.locks
    requires k.outbox == h.outbox + sent && k.holds == h.holds - {hold}
    requires SameKeys(h.node.requests, k.node.requests)
    requires |sent| == 1 && (sent[0].Grant? || sent[0] == Unlock(hold.res, h.node.id, hold.pid, hold.tid))
    requires sent[0].res == hold.res
    ensures LocalRes(log, k, r)
  {
    FlyGrows(log, h, k, sent);
    if i :| 0 <= i < |k.node.requests| && k.node.requests[i].res == r {
      assert KeyOf(h.node.requests[i]) == KeyOf(k.node.requests[i]);
      assert h.node.requests[i].res == r;
    }
    assert k.outbox[|h.outbox|] == sent[0];
    if r == hold.res {
      if sent[0].Grant? {
        assert FlyRes(log, k, r);
      } else {
        assert sent[0] in Tokens(k.outbox, r);
        assert Releasing(log, k, r, hold.pid);
      }
    } else if HoldsRes(h, r) {
      var x :| x in h.holds && x.res == r;
      assert x in k.holds;
    }
  }

  /** A holder releases. */
  lemma AskUnlockLocal(tidy: bool, base: seq<Addr>, log: seq<Event>, h: Host, hold: Hold, order: seq<Resource>)
    requires IdInv(h) && ResInv(tidy, base, log, h, hold.res) && hold in h.holds && IsWalk(h.node.locks, order)
    requires MarksInv(log, h)
    ensures var k := HostAskUnlock(h, hold, order);
      && SameKeys(h.node.requests, k.node.requests) && MarksInv(log, k)
      && forall r :: LocalRes(log, h, r) ==> LocalRes(log, k, r)
  {
    var k, release := HostAskUnlock(h, hold, order), Unlock(hold.res, h.node.id, hold.pid, hold.tid);
    HoldResolves(log, h, hold, order);
    var o := GrantOr(h.node, hold.res, release);
    GrantOrSlice(h.node, hold.res, release);
    MarksOfGrantNext(h.node, hold.res, h.node.requests);
    ReleasedMarks(log, h, k, o.sent);
    forall r | LocalRes(log, h, r) ensures LocalRes(log, k, r) { ReleasedLocal(log, h, k, hold, o.sent, r); }
  }

  // ---------- the agreed order grows ----------

  lemma FlyAppends(log: seq<Event>, e: Event, h: Host)
    requires h.idx <= |log|
    ensures forall x :: FlyKey(log, h, x) ==> FlyKey(log + [e], h, x)
    ensures forall r :: FlyRes(log, h, r) ==> FlyRes(log + [e], h, r)
    ensures forall r, pid :: Releasing(log, h, r, pid) ==> Releasing(log + [e], h, r, pid)
  {
    var log' := log + [e];
    assert forall p :: 0 <= p < |log| ==> log'[p] == log[p];
    forall x | FlyKey(log, h, x) ensures FlyKey(log', h, x) {
      if p :| h.idx <= p < |log| && OwnGrant(log[p], h.node.id, x) { assert OwnGrant(log'[p], h.node.id, x); }
    }
    forall r | FlyRes(log, h, r) ensures FlyRes(log', h, r) {
      if p :| h.idx <= p < |log| && OwnGrantOf(log[p], h.node.id, r) { assert OwnGrantOf(log'[p], h.node.id, r); }
    }
    forall r, pid | Releasing(log, h, r, pid) ensures Releasing(log', h, r, pid) {
      if p :| h.idx <= p < |log| && ReleaseAt(log, h, p, r, pid) { assert ReleaseAt(log', h, p, r, pid); }
    }
  }

  lemma AppendLocal(log: seq<Event>, e: Event, h: Host)
    requires h.idx <= |log|
    ensures MarksInv(log, h) ==> MarksInv(log + [e], h)
    ensures forall r :: LocalRes(log, h, r) ==> LocalRes(log + [e], h, r)
  {
    FlyAppends(log, e, h);
  }

  /** The host's own message is ordered: what was on its way still is. */
  lemma FlyMoves(log: seq<Event>, h: Host, k: Host)
    requires h.idx <= |log| && h.outbox != [] && k == h.(outbox := h.outbox[1..])
    requires h.outbox[0].Unlock? ==> NoGrantFrom(log, h.idx, h.outbox[0].res)
    ensures var log' := log + [Message(Self(h), h.outbox[0])];
      && (forall x :: FlyKey(log, h, x) ==> FlyKey(log', k, x))
      && (forall r :: FlyRes(log, h, r) ==> FlyRes(log', k, r))
      && (forall r, pid :: Releasing(log, h, r, pid) ==> Releasing(log', k, r, pid))
  {
    var e := Message(Self(h), h.outbox[0]);
    var log' := log + [e];
    FlyAppends(log, e, h);
    assert log'[|log|] == e;
    forall x | FlyKey(log', h, x) ensures FlyKey(log', k, x) {
      if i :| 0 <= i < |h.outbox| && h.outbox[i].Grant? && MsgKey(h.outbox[i]) == x {
        if i == 0 { assert OwnGrant(log'[|log|], h.node.id, x); } else { assert k.outbox[i - 1] == h.outbox[i]; }
      }
    }
    forall r | FlyRes(log', h, r) ensures FlyRes(log', k, r) {
      if i :| 0 <= i < |h.outbox| && h.outbox[i].Grant? && h.outbox[i].res == r {
        if i == 0 { assert OwnGrantOf(log'[|log|], h.node.id, r); } else { assert k.outbox[i - 1] == h.outbox[i]; }
      }
    }
    forall r, pid | Releasing(log, h, r, pid) ensures Releasing(log', k, r, pid) { ReleasingSent(log, h, k, r, pid); }
  }

  lemma ReleasingSent(log: seq<Event>, h: Host, k: Host, r: Resource, pid: Pid)
    requires h.idx <= |log| && h.outbox != [] && k == h.(outbox := h.outbox[1..]) && Releasing(log, h, r, pid)
    requires h.outbox[0].Unlock? ==> NoGrantFrom(log, h.idx, h.outbox[0].res)
    ensures Releasing(log + [Message(Self(h), h.outbox[0])], k, r, pid)
  {
    var log' := log + [Message(Self(h), h.outbox[0])];
    assert forall p :: 0 <= p < |log| ==> log'[p] == log[p];
    if t :| t in Tokens(h.outbox, r) && t.Unlock? && t.node == h.node.id && t.pid == pid {
      var i :| 0 <= i < |h.outbox| && h.outbox[i] == t;
      if i == 0 {
        assert ReleaseAt(log', k, |log|, r, pid);
      } else {
        assert k.outbox[i - 1] == t;
        assert t in Tokens(k.outbox, r);
      }
    } else {
      var p :| h.idx <= p < |log| && ReleaseAt(log, h, p, r, pid);
      assert ReleaseAt(log', k, p, r, pid);
    }
  }

  lemma AppendFlying(log: seq<Event>, e: Event, h: Host)
    requires OneFlying(log, h) && (e.Message? ==> e.from.id != h.node.id)
    ensures OneFlying(log + [e], h)
  {
    assert forall p :: 0 <= p < |log| ==> (log + [e])[p] == log[p];
  }

  lemma SequenceFlying(base: seq<Addr>, log: seq<Event>, h: Host)
    requires OneFlying(log, h) && h.outbox != [] && forall r :: OutInv(base, log, h, r)
    ensures OneFlying(log + [Message(Self(h), h.outbox[0])], h.(outbox := h.outbox[1..]))
  {
    var log' := log + [Message(Self(h), h.outbox[0])];
    assert forall p :: 0 <= p < |log| ==> log'[p] == log[p];
    forall p, q, r | h.idx <= p < |log'| && h.idx <= q < |log'| &&
                     OwnGrantOf(log'[p], h.node.id, r) && OwnGrantOf(log'[q], h.node.id, r)
      ensures p == q
    {
      assert OutInv(base, log, h, r);
      if p == |log| || q == |log| { assert h.outbox[0] in Tokens(h.outbox, r); }
    }
  }

  lemma SequenceLocal(base: seq<Addr>, log: seq<Event>, h: Host)
    requires h.idx <= |log| && h.outbox != [] && forall r :: OutInv(base, log, h, r)
    ensures var log', k := log + [Message(Self(h), h.outbox[0])], h.(outbox := h.outbox[1..]);
      && (MarksInv(log, h) ==> MarksInv(log', k))
      && (forall r :: LocalRes(log, h, r) ==> LocalRes(log', k, r))
  {
    var k := h.(outbox := h.outbox[1..]);
    if h.outbox[0].Unlock? {
      assert OutInv(base, log, h, h.outbox[0].res);
      assert h.outbox[0] in Tokens(h.outbox, h.outbox[0].res);
    }
    FlyMoves(log, h, k);
    forall r | LocalRes(log, h, r) ensures LocalRes(log + [Message(Self(h), h.outbox[0])], k, r) {
      assert HoldsRes(h, r) ==> HoldsRes(k, r);
    }
  }
}
