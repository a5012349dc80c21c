/**
 * A group from which members may leave but which nobody joins, and whose clients stay: what holds
 * of one daemon, and how events and steps keep it.
 */
module CrashSteps {
  import opened Types
  import opened Protocol
  import opened Group
  import opened Cluster
  import opened Slices
  import opened Frames
  import opened Membership
  import opened Structure
  import opened StructureSteps
  import opened Invariant
  import opened TokenSlices
  import opened TokenLocal
  import opened PendingOwner
  import opened Runs
  import opened FreeRuns
  import opened Safety
  import opened ViewGuard
  import opened Recovery
  import opened Claims
  import opened Survivors
  import opened LocalState
  import opened Askers
  import opened CrashQueue

  // ---------- the order ----------

  ghost predicate CrashLog(log: seq<Event>) {
    forall p :: 0 <= p < |log| ==> CrashEvent(log[p])
  }

  predicate CrashEvent(e: Event) {
    match e
    case Message(_, m) => !m.Join?
    case View(_, _, joins) => joins == []
  }

  /** Every member has announced itself. */
  lemma {:induction false} AllAnnounced(base: seq<Addr>, log: seq<Event>, i: nat)
    requires CrashLog(log) && i <= |log|
    ensures forall z :: z in RosterAt(base, log, i).mem ==> z in RosterAt(base, log, i).age && z in Ids(base)
  {
    if i == 0 {
      forall z | z in Ids(base) ensures z in IdSeq(base) {
        var j :| 0 <= j < |base| && base[j].id == z;
        assert IdSeq(base)[j] == z;
      }
    } else {
      AllAnnounced(base, log, i - 1);
      assert CrashEvent(log[i - 1]);
      if log[i - 1].View? {
        assert Ids(log[i - 1].joins) == {};
        WithoutMembers(RosterAt(base, log, i - 1).age, Ids(log[i - 1].left));
      }
    }
  }

  // ---------- one daemon ----------

  /** Whatever was asked for is in the table. */
  ghost predicate Known(log: seq<Event>, h: Host) {
    forall p, k :: 0 <= p < h.idx <= |log| && IsAsk(log[p], k) ==> k.res in h.node.locks
  }

  /** What the daemon purges ahead of the others are requests of nodes that are gone. */
  ghost predicate PurgesGone(base: seq<Addr>, log: seq<Event>, h: Host)
    requires h.idx <= |log|
  {
    forall m :: m in InFlight(log, h) && m.Purge? ==> m.node !in RosterAt(base, log, h.idx).mem
  }

  ghost predicate QueueFollows(log: seq<Event>, h: Host)
    requires h.idx <= |log|
  {
    Keys(h.node.requests) == Keep(QueueAt(log, h.idx), InFlight(log, h))
  }

  ghost predicate CrashHost(base: seq<Addr>, log: seq<Event>, h: Host) {
    && h.idx <= |log| && h.node.joined
    && (forall i :: 0 <= i < |h.outbox| ==> !h.outbox[i].Join?)
    && Known(log, h)
    && PurgesGone(base, log, h)
    && QueueFollows(log, h)
    && MarksInv(log, h)
    && OneFlying(log, h)
    && (forall r :: LocalRes(log, h, r))
  }

  // ---------- messages on their way ----------

  lemma FlightAfter(log: seq<Event>, h: Host, k: Host, sent: seq<Msg>)
    requires h.idx < |log| && k.idx == h.idx + 1 && k.node.id == h.node.id && k.outbox == h.outbox + sent
    ensures InFlight(log, k) <= InFlight(log, h) + Sent(sent)
  {
    SentConcat(h.outbox, sent);
  }

  lemma FlightGrows(log: seq<Event>, h: Host, k: Host, sent: seq<Msg>)
    requires k.idx == h.idx && k.node.id == h.node.id && k.outbox == h.outbox + sent
    ensures InFlight(log, k) == InFlight(log, h) + Sent(sent)
  {
    SentConcat(h.outbox, sent);
  }

  lemma FlightAppends(log: seq<Event>, e: Event, h: Host)
    requires h.idx <= |log| && (e.Message? ==> e.from.id != h.node.id)
    ensures InFlight(log + [e], h) == InFlight(log, h)
  {
    var log' := log + [e];
    assert forall p :: 0 <= p < |log| ==> log'[p] == log[p];
    forall x | x in InFlight(log, h) ensures x in InFlight(log', h) {
      if x !in Sent(h.outbox) {
        var p :| h.idx <= p < |log| && log[p].Message? && log[p].from.id == h.node.id && log[p].m == x;
        assert log'[p].m == x;
      }
    }
  }

  lemma FlightSent(log: seq<Event>, h: Host)
    requires h.idx <= |log| && h.outbox != []
    ensures InFlight(log + [Message(Self(h), h.outbox[0])], h.(outbox := h.outbox[1..])) == InFlight(log, h)
  {
    var log', k := log + [Message(Self(h), h.outbox[0])], h.(outbox := h.outbox[1..]);
    assert forall p :: 0 <= p < |log| ==> log'[p] == log[p];
    forall x | x in InFlight(log, h) ensures x in InFlight(log', k) {
      if x in Sent(h.outbox) {
        var i :| 0 <= i < |h.outbox| && h.outbox[i] == x;
        if i == 0 { assert log'[|log|].m == x; } else { assert k.outbox[i - 1] == x; }
      } else {
        var p :| h.idx <= p < |log| && log[p].Message? && log[p].from.id == h.node.id && log[p].m == x;
        assert log'[p].m == x;
      }
    }
    forall x | x in InFlight(log', k) ensures x in InFlight(log, h) {
      if x in Sent(k.outbox) {
        var i :| 0 <= i < |k.outbox| && k.outbox[i] == x;
        assert h.outbox[i + 1] == x;
      }
    }
  }

  // ---------- a message is delivered ----------

  lemma MessageSilent(n: Node, from: Addr, m: Msg)
    ensures forall x :: x in Sent(ProcessMessage(n, from, m).sent) ==> !x.Purge?
  {
  }

  /** The table only grows. */
  lemma MessageKnows(n: Node, from: Addr, m: Msg, r: Resource)
    requires n.joined && (r in n.locks || (m.Lock? && m.res == r)) && (m.Grant? ==> m.node != 0 && m.pid != 0)
    ensures r in ProcessMessage(n, from, m).node.locks
  {
    if m.Lock? && m.res == r {
      LockSlice(n, m);
    } else if m.Unlock? && m.res == r {
      UnlockSlice(n, m);
    } else if m.Grant? && m.res == r {
      GrantSlice(n, m);
    } else {
      OtherMessageSlice(n, from, m, r);
    }
  }

  /** The event at hand, as a daemon in such a group sees it. */
  ghost predicate Arrives(base: seq<Addr>, log: seq<Event>, h: Host) {
    && WellFormedLog(base, log) && CrashLog(log) && AskLog(log)
    && HostInv(true, base, log, h) && CrashHost(base, log, h) && h.idx < |log|
    && (log[h.idx].Message? ==> Connected(h.node, log[h.idx].m))
  }

  lemma QueueDistinct(log: seq<Event>, h: Host)
    requires UniqueAsks(log) && h.idx <= |log| && QueueFollows(log, h)
    ensures Distinct(Keys(h.node.requests)) && QueueOrdered(log, h.node.requests)
  {
    QueueAsked(log, h.idx);
    KeepIn(QueueAt(log, h.idx), InFlight(log, h));
    forall k | HasKey(h.node.requests, k) ensures Ordered(log, k) { KeysHave(h.node.requests, k); }
  }

  lemma FirstInQueue(q: seq<Key>, k: Key)
    requires Distinct(q)
    ensures k !in DropAt(q, FirstKey(q, k))
  {
    DropIn(q, FirstKey(q, k));
  }

  lemma DeliverMessageQueue(base: seq<Addr>, log: seq<Event>, h: Host, k: Host)
    requires Arrives(base, log, h) && log[h.idx].Message?
    requires k == After(h, ProcessMessage(h.node, log[h.idx].from, log[h.idx].m)).(idx := h.idx + 1)
    requires k.node.id == h.node.id
    ensures PurgesGone(base, log, k) && QueueFollows(log, k)
    ensures log[h.idx].m.Grant? ==> !HasKey(k.node.requests, MsgKey(log[h.idx].m))
  {
    var from, m := log[h.idx].from, log[h.idx].m;
    var o := ProcessMessage(h.node, from, m);
    assert SoundAt(base, log, h.idx) && CrashEvent(log[h.idx]);
    MessageNext(h.node, from, m);
    MessageSilent(h.node, from, m);
    FlightAfter(log, h, k, o.sent);
    DeliveredFlight(log, h, k, o.sent);
    assert RosterAt(base, log, k.idx).mem == RosterAt(base, log, h.idx).mem;
    NextKeeps(QueueAt(log, h.idx), m, InFlight(log, h), InFlight(log, k));
    QueueDistinct(log, h);
    if m.Grant? {
      FirstInQueue(Keys(h.node.requests), MsgKey(m));
      KeysHave(k.node.requests, MsgKey(m));
    }
  }

  lemma DeliverMessageCrash(base: seq<Addr>, log: seq<Event>, h: Host, order: seq<Resource>)
    requires Arrives(base, log, h) && log[h.idx].Message?
    ensures CrashHost(base, log, HostDeliver(h, log[h.idx], order))
  {
    var e, k := log[h.idx], HostDeliver(h, log[h.idx], order);
    var o := ProcessMessage(h.node, e.from, e.m);
    HandleId(h.node, e, order);
    HandleSpeaks(h.node, e, order);
    MessageFrame(h.node, e.from, e.m) by { assert CrashEvent(e); }
    DeliverMessageQueue(base, log, h, k);
    MessageMarks(h.node, e.from, e.m);
    DeliverMarks(log, h, k, o.sent);
    forall r ensures LocalRes(log, k, r) {
      assert ResInv(true, base, log, h, r) && LocalRes(log, h, r);
      MessageLocal(true, base, log, h, k, r);
    }
    forall p, x | 0 <= p < k.idx && IsAsk(log[p], x) ensures x.res in k.node.locks {
      MessageKnows(h.node, e.from, e.m, x.res);
    }
    forall i | 0 <= i < |k.outbox| ensures !k.outbox[i].Join? {
      if i >= |h.outbox| { assert Spoken(h.node, e, o.sent[i - |h.outbox|]); }
    }
  }

  // ---------- a view is delivered ----------

  lemma StillNoWaiter(a: seq<Request>, b: seq<Request>, r: Resource)
    requires NoWaiter(a, r) && forall i :: 0 <= i < |b| ==> b[i] in a || b[i].granted
    ensures NoWaiter(b, r)
  {
  }

  /** Recovering locks makes no request wait that did not. */
  lemma {:induction false} RecoverNoWaiter(n: Node, dead: NodeId, order: seq<Resource>, r: Resource)
    requires NoWaiter(n.requests, r)
    ensures NoWaiter(RecoverLocks(n, dead, order).node.requests, r)
  {
    if order != [] {
      var a, q := RecoverLocks(n, dead, order[..|order| - 1]).node, order[|order| - 1];
      RecoverNoWaiter(n, dead, order[..|order| - 1], r);
      StillNoWaiter(a.requests, RecoverLock(a, dead, q).node.requests, r);
    }
  }

  /** A lock is taken over only if nobody waits for it. */
  lemma {:induction false} TakenOverQuietly(n: Node, dead: NodeId, order: seq<Resource>, r: Resource)
    requires r in n.locks && n.locks[r].node != n.id && dead != n.id
    ensures var o := RecoverLocks(n, dead, order).node;
      r in o.locks && o.id == n.id && (o.locks[r].node == n.id ==> NoWaiter(o.requests, r))
  {
    if order != [] {
      var front, q := order[..|order| - 1], order[|order| - 1];
      TakenOverQuietly(n, dead, front, r);
      var a := RecoverLocks(n, dead, front).node;
      if a.locks[r].node == n.id {
        StillNoWaiter(a.requests, RecoverLock(a, dead, q).node.requests, r);
      } else {
        NoWaiterFirst(a.requests, r);
      }
    }
  }

  lemma LeaveQuietly(n: Node, d: Addr, order: seq<Resource>, r: Resource)
    requires r in n.locks && d.id != n.id && (n.locks[r].node == n.id ==> NoWaiter(n.requests, r))
    ensures var o := Leave(n, d, order).node;
      r in o.locks && o.id == n.id && (o.locks[r].node == n.id ==> NoWaiter(o.requests, r))
  {
    var p := PurgeAll(n.(members := DropAt(n.members, FirstAddr(n.members, d))), d.id, 0);
    PurgeMarks(n.requests, d.id, 0);
    if n.locks[r].node == n.id {
      StillNoWaiter(n.requests, p.requests, r);
      RecoverNoWaiter(p, d.id, order, r);
      KeysStay(p, d.id, order, r);
    } else {
      TakenOverQuietly(p, d.id, order, r);
    }
  }

  lemma {:induction false} KeysStay(n: Node, dead: NodeId, order: seq<Resource>, r: Resource)
    requires r in n.locks
    ensures var o := RecoverLocks(n, dead, order).node; r in o.locks && o.id == n.id
  {
    if order != [] { KeysStay(n, dead, order[..|order| - 1], r); }
  }

  lemma {:induction false} LeaversQuietly(n: Node, left: seq<Addr>, order: seq<Resource>, r: Resource)
    requires r in n.locks && n.id !in Ids(left) && (n.locks[r].node == n.id ==> NoWaiter(n.requests, r))
    ensures var o := LeaveAll(n, left, order).node;
      r in o.locks && o.id == n.id && (o.locks[r].node == n.id ==> NoWaiter(o.requests, r))
  {
    if left != [] {
      IdsSplit(left);
      LeaversQuietly(n, left[..|left| - 1], order, r);
      LeaveQuietly(LeaveAll(n, left[..|left| - 1], order).node, left[|left| - 1], order, r);
    }
  }

  /** The table keeps its resources in a view. */
  lemma ViewKnows(base: seq<Addr>, log: seq<Event>, h: Host, order: seq<Resource>, r: Resource)
    requires WellFormedLog(base, log) && FreeHost(base, log, h) && h.node.joined && h.idx < |log| && log[h.idx].View?
    requires IsWalk(h.node.locks, order) && r in h.node.locks
    ensures r in HostDeliver(h, log[h.idx], order).node.locks
  {
    ViewSlice(base, log, h, order, r);
  }

  /** What a view does to a lock of the daemon's own, or one it takes over. */
  lemma ViewLocal(base: seq<Addr>, log: seq<Event>, h: Host, k: Host, order: seq<Resource>, r: Resource)
    requires Arrives(base, log, h) && log[h.idx].View? && IsWalk(h.node.locks, order)
    requires k == HostDeliver(h, log[h.idx], order) && MarksInv(log, k) && k.node.id == h.node.id
    requires MayRecover(log, h, log[h.idx])
    ensures LocalRes(log, k, r)
  {
    var e := log[h.idx];
    var s := SeedView(h.node, e.members, e.joins);
    var o := LeaveAll(s, e.left, order);
    assert SoundAt(base, log, h.idx) && LocalRes(log, h, r);
    RosterFacts(base, log, h.idx);
    ViewSlice(base, log, h, order, r);
    LeaveAllFrame(s, e.left, order);
    assert Moves(log, h, k, o.sent);
    if r in s.locks && Gone(s.members, e.left, s.locks[r].node) {
      GoneLeaves(s.members, e.left, s.locks[r].node);
      if OwnHead(Rest(s, e.left)) { TakenLocal(log, h, k, s, o, order, r); }
    } else {
      ViewStays(log, h, k, s, order, r);
    }
  }

  lemma ViewStays(log: seq<Event>, h: Host, k: Host, s: Node, order: seq<Resource>, r: Resource)
    requires h.idx < |log| && log[h.idx].View? && LocalRes(log, h, r)
    requires s == SeedView(h.node, log[h.idx].members, log[h.idx].joins)
    requires var o := LeaveAll(s, log[h.idx].left, order);
      && Moves(log, h, k, o.sent) && SameEntry(s, o.node, r) && k.node.locks == o.node.locks
      && k.node.requests == o.node.requests
    ensures LocalRes(log, k, r)
  {
    var o := LeaveAll(s, log[h.idx].left, order);
    LeaveAllOrderly(s, log[h.idx].left, order);
    if Asking(k.node.requests, r) { AskingDerived(k.node.requests, h.node.requests, r); }
    LocalStays(log, h, k, o.sent, r);
  }

  /** The oldest survivor has taken care of the lock: if it took it over, nobody asks for it. */
  lemma TakenLocal(log: seq<Event>, h: Host, k: Host, s: Node, o: Outcome, order: seq<Resource>, r: Resource)
    requires h.idx < |log| && log[h.idx].View? && MarksInv(log, k) && PendingOwn(h.node)
    requires s == SeedView(h.node, log[h.idx].members, log[h.idx].joins) && h.node.id !in Ids(log[h.idx].left)
    requires 0 !in Ids(log[h.idx].left)
    requires o == LeaveAll(s, log[h.idx].left, order) && Moves(log, h, k, o.sent)
    requires k.node.locks == o.node.locks && k.node.requests == o.node.requests
    requires r in s.locks && s.locks[r].node in Ids(log[h.idx].left)
    requires TakenCareOf(s, o, log[h.idx].left, r) && NoGrantAhead(log, h, r)
    ensures LocalRes(log, k, r)
  {
    if k.node.locks[r].node == h.node.id {
      LeaversQuietly(s, log[h.idx].left, order, r);
      NothingSent(log, h, k, o.sent, r);
      NobodyAsks(log, k, r);
    }
  }

  ghost predicate TakenCareOf(n: Node, o: Outcome, left: seq<Addr>, r: Resource) {
    r in n.locks && r in o.node.locks && TakenCare(n, o, left, r)
  }

  lemma NothingSent(log: seq<Event>, h: Host, k: Host, sent: seq<Msg>, r: Resource)
    requires Moves(log, h, k, sent) && NoGrantAhead(log, h, r) && NoGrantIn(Tokens(sent, r))
    ensures NoGrantFrom(log, k.idx, r) && NoGrantIn(Tokens(k.outbox, r))
  {
    TokensConcat(h.outbox, sent, r);
    var a, b, c := Tokens(h.outbox, r), Tokens(sent, r), Tokens(k.outbox, r);
    forall i | 0 <= i < |c| ensures !c[i].Grant? {
      if i < |a| { assert a[i] in a; assert a[i] in h.outbox; } else { assert c[i] == b[i - |a|]; }
    }
  }

  lemma ViewFlight(log: seq<Event>, h: Host, k: Host, sent: seq<Msg>)
    requires h.idx < |log| && log[h.idx].View?
    requires k.idx == h.idx + 1 && k.node.id == h.node.id && k.outbox == h.outbox + sent
    ensures InFlight(log, k) == InFlight(log, h) + Sent(sent)
  {
    FlightAfter(log, h, k, sent);
    DeliveredFlight(log, h, k, sent);
  }

  lemma ViewPurges(base: seq<Addr>, log: seq<Event>, h: Host, k: Host, sent: seq<Msg>)
    requires h.idx < |log| && PurgesGone(base, log, h) && CrashEvent(log[h.idx]) && log[h.idx].View?
    requires k.idx == h.idx + 1 && InFlight(log, k) == InFlight(log, h) + Sent(sent)
    requires forall i :: 0 <= i < |sent| && sent[i].Purge? ==> sent[i].node in Ids(log[h.idx].left)
    ensures PurgesGone(base, log, k)
  {
    assert Ids(log[h.idx].joins) == {};
    forall m | m in InFlight(log, k) && m.Purge? ensures m.node !in RosterAt(base, log, k.idx).mem {
      if m in Sent(sent) { var i :| 0 <= i < |sent| && sent[i] == m; }
    }
  }

  lemma ViewQueue(log: seq<Event>, h: Host, k: Host, sent: seq<Msg>)
    requires h.idx < |log| && log[h.idx].View? && k.idx == h.idx + 1 && QueueFollows(log, h)
    requires InFlight(log, k) == InFlight(log, h) + Sent(sent)
    requires Keys(k.node.requests) == Keep(Keys(h.node.requests), Sent(sent))
    ensures QueueFollows(log, k)
  {
    KeepBoth(QueueAt(log, h.idx), InFlight(log, h), Sent(sent));
  }

  lemma DeliverViewQueue(base: seq<Addr>, log: seq<Event>, h: Host, k: Host, order: seq<Resource>)
    requires h.idx < |log| && WellFormedLog(base, log) && log[h.idx].View? && CrashEvent(log[h.idx])
    requires k == HostDeliver(h, log[h.idx], order) && k.node.id == h.node.id
    requires PurgesGone(base, log, h) && QueueFollows(log, h)
    ensures PurgesGone(base, log, k) && QueueFollows(log, k)
  {
    var e := log[h.idx];
    var s := SeedView(h.node, e.members, e.joins);
    var sent := LeaveAll(s, e.left, order).sent;
    assert SoundAt(base, log, h.idx);
    LeaveAllSends(s, e.left, order);
    ViewFlight(log, h, k, sent);
    ViewPurges(base, log, h, k, sent);
    LeaveKeeps(s, e.left, order);
    ViewQueue(log, h, k, sent);
  }

  lemma DeliverViewCrash(base: seq<Addr>, log: seq<Event>, h: Host, order: seq<Resource>)
    requires Arrives(base, log, h) && log[h.idx].View? && IsWalk(h.node.locks, order)
    requires MayRecover(log, h, log[h.idx])
    ensures CrashHost(base, log, HostDeliver(h, log[h.idx], order))
  {
    var e, k := log[h.idx], HostDeliver(h, log[h.idx], order);
    var s := SeedView(h.node, e.members, e.joins);
    var o := LeaveAll(s, e.left, order);
    HandleId(h.node, e, order);
    HandleSpeaks(h.node, e, order);
    LeaveAllFrame(s, e.left, order);
    assert CrashEvent(e);
    DeliverViewQueue(base, log, h, k, order);
    LeaveMarks(s, e.left, order);
    DeliverMarks(log, h, k, o.sent);
    forall r ensures LocalRes(log, k, r) { ViewLocal(base, log, h, k, order, r); }
    forall p, x | 0 <= p < k.idx && IsAsk(log[p], x) ensures x.res in k.node.locks {
      ViewKnows(base, log, h, order, x.res);
    }
    forall i | 0 <= i < |k.outbox| ensures !k.outbox[i].Join? {
      if i >= |h.outbox| { assert Spoken(h.node, e, o.sent[i - |h.outbox|]); }
    }
  }

  // ---------- local steps ----------

  /** Table, queue and holds stay, and no purge is sent. */
  lemma LocalCrash(base: seq<Addr>, log: seq<Event>, h: Host, k: Host, sent: seq<Msg>)
    requires CrashHost(base, log, h) && k.idx == h.idx && k.node.id == h.node.id && k.node.joined
    requires k.node.locks == h.node.locks && k.node.requests == h.node.requests && k.holds == h.holds
    requires k.outbox == h.outbox + sent && forall i :: 0 <= i < |sent| ==> !sent[i].Purge? && !sent[i].Join?
    ensures CrashHost(base, log, k)
  {
    LocalSame(log, h, k, sent);
    SameFlights(base, log, h, k, sent);
  }

  lemma SameFlights(base: seq<Addr>, log: seq<Event>, h: Host, k: Host, sent: seq<Msg>)
    requires CrashHost(base, log, h) && k.idx == h.idx && k.node.id == h.node.id
    requires SameKeys(h.node.requests, k.node.requests)
    requires k.outbox == h.outbox + sent && forall i :: 0 <= i < |sent| ==> !sent[i].Purge?
    ensures PurgesGone(base, log, k) && QueueFollows(log, k)
  {
    FlightGrows(log, h, k, sent);
    SameKeysSame(h.node.requests, k.node.requests);
    KeepSame(QueueAt(log, h.idx), InFlight(log, h), InFlight(log, k));
  }

  lemma AskUnlockCrash(base: seq<Addr>, log: seq<Event>, h: Host, hold: Hold, order: seq<Resource>)
    requires HostInv(true, base, log, h) && CrashHost(base, log, h) && hold in h.holds && IsWalk(h.node.locks, order)
    ensures CrashHost(base, log, HostAskUnlock(h, hold, order))
  {
    var k := HostAskUnlock(h, hold, order);
    assert ResInv(true, base, log, h, hold.res);
    AskUnlockLocal(true, base, log, h, hold, order);
    HoldResolves(log, h, hold, order);
    GrantOrSlice(h.node, hold.res, Unlock(hold.res, h.node.id, hold.pid, hold.tid));
    SameFlights(base, log, h, k, ClientUnlock(h.node, hold.id, order).sent);
  }

  // ---------- the agreed order grows ----------

  lemma AppendCrash(base: seq<Addr>, log: seq<Event>, e: Event, h: Host)
    requires CrashHost(base, log, h) && (e.Message? ==> e.from.id != h.node.id)
    ensures CrashHost(base, log + [e], h)
  {
    FlightAppends(log, e, h);
    KnownAppends(base, log, e, h);
    AppendLocal(log, e, h);
    AppendFlying(log, e, h);
  }

  lemma KnownAppends(base: seq<Addr>, log: seq<Event>, e: Event, h: Host)
    requires h.idx <= |log| && Known(log, h)
    ensures Known(log + [e], h) && QueueAt(log + [e], h.idx) == QueueAt(log, h.idx)
    ensures RosterAt(base, log + [e], h.idx) == RosterAt(base, log, h.idx)
  {
    QueuePrefix(log, e, h.idx);
    RosterPrefix(base, log, e, h.idx);
    assert forall p :: 0 <= p < |log| ==> (log + [e])[p] == log[p];
  }

  lemma SenderCrash(base: seq<Addr>, log: seq<Event>, h: Host)
    requires HostInv(true, base, log, h) && CrashHost(base, log, h) && h.outbox != []
    ensures CrashHost(base, log + [Message(Self(h), h.outbox[0])], h.(outbox := h.outbox[1..]))
  {
    var e, k := Message(Self(h), h.outbox[0]), h.(outbox := h.outbox[1..]);
    forall r ensures OutInv(base, log, h, r) { assert ResInv(true, base, log, h, r); }
    FlightSent(log, h);
    KnownAppends(base, log, e, h);
    SequenceLocal(base, log, h);
    SequenceFlying(base, log, h);
  }
}
