/**
 * Delivery keeps the token invariant: the cases of the event put together.
 */
module TokenDeliver {
  import opened Types
  import opened Protocol
  import opened Group
  import opened Cluster
  import opened Slices
  import opened Membership
  import opened Structure
  import opened Newcomers
  import opened StructureSteps
  import opened Invariant
  import opened TokenSlices
  import opened TokenSteps

  lemma ToldNothingHolds(h: Host, o: Outcome, r: Resource)
    requires ToldNothing(o, r)
    ensures NoNewHolds(h, After(h, o), r)
  {
  }

  lemma DeliverNext(h: Host, e: Event, order: seq<Resource>, r: Resource)
    ensures Next(h, HostDeliver(h, e, order), r, Tokens(Handle(h.node, e, order).sent, r))
  {
    HandleId(h.node, e, order);
    TokensConcat(h.outbox, Handle(h.node, e, order).sent, r);
  }

  lemma DeliverMessageRes(tidy: bool, base: seq<Addr>, log: seq<Event>, h: Host, order: seq<Resource>, r: Resource)
    requires Ready(tidy, base, log, h, r) && log[h.idx].Message? && !log[h.idx].m.Join?
    requires FlightItem(log[h.idx]) && (tidy ==> AnnouncedAt(base, log, h.idx) && NewcomerInv(log, h))
    ensures ResInv(tidy, base, log, HostDeliver(h, log[h.idx], order), r)
  {
    var e := log[h.idx];
    var k, o, m := HostDeliver(h, e, order), Handle(h.node, e, order), e.m;
    var ts := Tokens(o.sent, r);
    DeliverNext(h, e, order, r);
    MessageFrame(h.node, e.from, m);
    if !h.node.joined {
      UnjoinedQuiet(h.node, e.from, m);
      ToldNothingHolds(h, o, r);
      DeliverUnjoined(tidy, base, log, h, k, r);
    } else if m.Lock? && m.res == r {
      LockSlice(h.node, m);
      if r in h.node.locks && !(h.node.locks[r].node == h.node.id && h.node.locks[r].state.Free?) {
        DeliverOther(tidy, base, log, h, k, r);
      } else {
        DeliverLock(tidy, base, log, h, k, r, ts);
      }
    } else if m.Unlock? && m.res == r {
      UnlockSlice(h.node, m);
      if HeldBy(h.node, r, m.pid) && m.node == h.node.id {
        DeliverRelease(tidy, base, log, h, k, r, ts);
      } else {
        DeliverOther(tidy, base, log, h, k, r);
      }
    } else if m.Grant? && m.res == r {
      DeliverGrantRes(tidy, base, log, h, k, o, r);
    } else {
      OtherMessageSlice(h.node, e.from, m, r);
      ToldNothingHolds(h, o, r);
      DeliverOther(tidy, base, log, h, k, r);
    }
  }

  lemma UnjoinedQuiet(n: Node, from: Addr, m: Msg)
    requires !n.joined && !m.Join?
    ensures ProcessMessage(n, from, m).sent == [] && ProcessMessage(n, from, m).replies == []
  {
  }

  lemma DeliverGrantRes(tidy: bool, base: seq<Addr>, log: seq<Event>, h: Host, k: Host, o: Outcome, r: Resource)
    requires Ready(tidy, base, log, h, r) && IsGrant(log[h.idx], r) && h.node.joined
    requires FlightItem(log[h.idx]) && (tidy ==> AnnouncedAt(base, log, h.idx) && NewcomerInv(log, h))
    requires o == ProcessGrant(h.node, log[h.idx].m) && k == After(h, o).(idx := h.idx + 1)
    requires Next(h, k, r, Tokens(o.sent, r)) && k.node.joined
    ensures ResInv(tidy, base, log, k, r)
  {
    var m := log[h.idx].m;
    GrantSlice(h.node, m);
    if m.node == h.node.id {
      DeliverGrantSelf(tidy, base, log, h, k, r, Tokens(o.sent, r), Told(o.replies));
    } else {
      DeliverGrantOther(tidy, base, log, h, k, r, Tokens(o.sent, r));
    }
  }

  lemma ViewTaken(tidy: bool, base: seq<Addr>, log: seq<Event>, h: Host, k: Host, s: Node, l: Outcome, r: Resource)
    requires Ready(tidy, base, log, h, r) && log[h.idx].View? && (tidy ==> NewcomerInv(log, h))
    requires h.node.joined && k.node.joined && NoNewHolds(h, k, r) && Next(h, k, r, Tokens(l.sent, r))
    requires s.id == h.node.id && s.locks == h.node.locks && k.node.locks == l.node.locks
    requires forall a, b :: Before(h.node.members, a, b) ==> Before(s.members, a, b)
    requires ViewOutcome(s, l, log[h.idx].left, r) && r in s.locks && Gone(s.members, log[h.idx].left, s.locks[r].node)
    requires !tidy && OwnHead(Rest(s, log[h.idx].left)) ==> NoGrantAhead(log, h, r)
    ensures ResInv(tidy, base, log, k, r)
  {
    var left := log[h.idx].left;
    GoneLeaves(s.members, left, s.locks[r].node);
    var acted := OwnHead(Rest(s, left));
    if acted { HeadIsNext(base, log, h, s); }
    ViewTouched(tidy, base, log, h, k, r, Tokens(l.sent, r), acted);
  }

  /** The daemon that heads the list after the view is the oldest member left. */
  lemma HeadIsNext(base: seq<Addr>, log: seq<Event>, h: Host, s: Node)
    requires h.idx < |log| && log[h.idx].View? && PlaceInv(base, log, h) && ListInv(base, log, h) && h.node.joined
    requires s.id == h.node.id && forall a, b :: Before(h.node.members, a, b) ==> Before(s.members, a, b)
    requires OwnHead(Rest(s, log[h.idx].left))
    ensures Oldest(RosterAt(base, log, h.idx + 1).age) == Some(h.node.id)
    ensures forall x :: Older(RosterAt(base, log, h.idx).age, x, h.node.id) ==> x in Ids(log[h.idx].left)
  {
    RestIsOldest(RosterAt(base, log, h.idx).age, s, log[h.idx].left);
  }

  lemma ViewRes(tidy: bool, base: seq<Addr>, log: seq<Event>, h: Host, k: Host, s: Node, l: Outcome, r: Resource)
    requires Ready(tidy, base, log, h, r) && log[h.idx].View? && (tidy ==> NewcomerInv(log, h))
    requires h.node.joined && k.node.joined && NoNewHolds(h, k, r) && Next(h, k, r, Tokens(l.sent, r))
    requires s.id == h.node.id && s.locks == h.node.locks && k.node.locks == l.node.locks
    requires forall a, b :: Before(h.node.members, a, b) ==> Before(s.members, a, b)
    requires ViewOutcome(s, l, log[h.idx].left, r)
    requires (!tidy && OwnHead(Rest(s, log[h.idx].left)) && r in s.locks &&
              Gone(s.members, log[h.idx].left, s.locks[r].node)) ==> NoGrantAhead(log, h, r)
    ensures ResInv(tidy, base, log, k, r)
  {
    var left := log[h.idx].left;
    if r in s.locks && Gone(s.members, left, s.locks[r].node) {
      ViewTaken(tidy, base, log, h, k, s, l, r);
    } else {
      ViewUntouched(tidy, base, log, h, k, r);
    }
  }

  lemma DeliverViewRes(tidy: bool, base: seq<Addr>, log: seq<Event>, h: Host, order: seq<Resource>, r: Resource)
    requires Ready(tidy, base, log, h, r) && log[h.idx].View? && (tidy ==> NewcomerInv(log, h))
    requires IsWalk(h.node.locks, order) && (!tidy ==> MayRecover(log, h, log[h.idx]))
    ensures ResInv(tidy, base, log, HostDeliver(h, log[h.idx], order), r)
  {
    var e := log[h.idx];
    var k := HostDeliver(h, e, order);
    assert SoundAt(base, log, h.idx);
    DeliverNext(h, e, order, r);
    var s := SeedView(h.node, e.members, e.joins);
    var l := LeaveAll(s, e.left, order);
    LeaveAllFrame(s, e.left, order);
    ToldNothingHolds(h, Handle(h.node, e, order), r);
    SeedViewLists(h.node, e.members, e.joins);
    if !h.node.joined {
      LeaveAllEmpty(s, e.left, order);
      SilentUnlessHead(s, e.left, order);
      DropAllNames(s.members, e.left, s.id);
      DeliverUnjoined(tidy, base, log, h, k, r);
    } else {
      RosterFacts(base, log, h.idx);
      assert IsMember(s.members, s.id);
      LeaveAllSlice(s, e.left, order, r);
      if !tidy && Recovers(h.node, e, r) { assert NoGrantAhead(log, h, r); }
      ViewRes(tidy, base, log, h, k, s, l, r);
    }
  }

  lemma DeliverJoinRes(tidy: bool, base: seq<Addr>, log: seq<Event>, h: Host, order: seq<Resource>, r: Resource)
    requires Ready(tidy, base, log, h, r) && log[h.idx].Message? && log[h.idx].m.Join?
    ensures ResInv(tidy, base, log, HostDeliver(h, log[h.idx], order), r)
  {
    var k := HostDeliver(h, log[h.idx], order);
    DeliverNext(h, log[h.idx], order, r);
    OwnJoinOnly(h.node, log[h.idx].from);
    DeliverJoin(tidy, base, log, h, k, r);
  }

  lemma DeliverRes(tidy: bool, base: seq<Addr>, log: seq<Event>, h: Host, order: seq<Resource>, r: Resource)
    requires h.idx < |log| && WellFormedLog(base, log) && FlightInv(log)
    requires PlaceInv(base, log, h) && ListInv(base, log, h) && ResInv(tidy, base, log, h, r)
    requires tidy ==> NewcomerInv(log, h) && AnnouncedInv(base, log)
    requires IsWalk(h.node.locks, order) && (!tidy ==> MayRecover(log, h, log[h.idx]))
    ensures ResInv(tidy, base, log, HostDeliver(h, log[h.idx], order), r)
  {
    assert FlightItem(log[h.idx]);
    if log[h.idx].View? {
      DeliverViewRes(tidy, base, log, h, order, r);
    } else if log[h.idx].m.Join? {
      DeliverJoinRes(tidy, base, log, h, order, r);
    } else {
      assert tidy ==> AnnouncedAt(base, log, h.idx);
      DeliverMessageRes(tidy, base, log, h, order, r);
    }
  }
}
