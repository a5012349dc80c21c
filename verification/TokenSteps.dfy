/**
 * The token invariant of one host and one resource is kept when the host is
 * delivered the next event.
 */
module TokenSteps {
  import opened Types
  import opened Protocol
  import opened Group
  import opened Cluster
  import opened Slices
  import opened Membership
  import opened Structure
  import opened Newcomers
  import opened Invariant
  import opened TokenSlices

  /** k is h one event later, having sent ts for r. */
  ghost predicate Next(h: Host, k: Host, r: Resource, ts: seq<Msg>) {
    k.idx == h.idx + 1 && k.node.id == h.node.id && Tokens(k.outbox, r) == Tokens(h.outbox, r) + ts
  }

  /** What the lemmas below assume of the host before the event. */
  ghost predicate Ready(tidy: bool, base: seq<Addr>, log: seq<Event>, h: Host, r: Resource) {
    && h.idx < |log| && WellFormedLog(base, log) && PlaceInv(base, log, h) && ListInv(base, log, h)
    && ResInv(tidy, base, log, h, r)
  }

  /** An ordinary message moves neither the roster nor responsibility. */
  lemma QuietMessage(base: seq<Addr>, log: seq<Event>, r: Resource, i: nat)
    requires i < |log| && log[i].Message? && !log[i].m.Join? && !IsGrant(log[i], r)
    ensures RosterAt(base, log, i + 1) == RosterAt(base, log, i)
    ensures RespAt(base, log, r, i + 1) == RespAt(base, log, r, i)
  {
    RespFacts(base, log, r, i);
  }

  lemma OldestOrOlder(age: seq<NodeId>, n: NodeId)
    requires n in age
    ensures Oldest(age) == Some(n) || (Oldest(age).Some? && Older(age, age[0], n))
  {
    var j :| 0 <= j < |age| && age[j] == n;
    if j > 0 { assert age[0] == age[0] && age[j] == n; }
  }

  /** Without holds on r, the hold invariant is trivial. */
  lemma NoHolds(log: seq<Event>, k: Host, r: Resource)
    requires !HoldsRes(k, r)
    ensures HoldInv(log, k, r)
  {
    assert forall x :: x in k.holds && x.res == r ==> HoldsRes(k, r);
  }

  lemma HoldMeansHeld(log: seq<Event>, h: Host, r: Resource)
    requires HoldInv(log, h, r) && HoldsRes(h, r)
    ensures r in h.node.locks && h.node.locks[r].state.Held? && h.node.locks[r].node == h.node.id
  {
  }

  // ---------- messages ----------

  lemma DeliverOther(tidy: bool, base: seq<Addr>, log: seq<Event>, h: Host, k: Host, r: Resource)
    requires Ready(tidy, base, log, h, r) && Next(h, k, r, [])
    requires log[h.idx].Message? && !log[h.idx].m.Join? && !IsGrant(log[h.idx], r)
    requires SameLabel(h.node, k.node, r) && NoNewHolds(h, k, r) && k.node.joined == h.node.joined
    ensures ResInv(tidy, base, log, k, r)
  {
    QuietMessage(base, log, r, h.idx);
    StillStep(tidy, base, log, h, k, r);
  }

  /** A daemon that has not joined has nothing at stake. */
  lemma DeliverUnjoined(tidy: bool, base: seq<Addr>, log: seq<Event>, h: Host, k: Host, r: Resource)
    requires Ready(tidy, base, log, h, r) && Next(h, k, r, []) && !h.node.joined
    requires !k.node.joined && k.node.locks == map[] && NoNewHolds(h, k, r)
    ensures ResInv(tidy, base, log, k, r)
  {
    assert HoldsRes(k, r) ==> HoldsRes(h, r);
    if HoldsRes(h, r) { HoldMeansHeld(log, h, r); }
    IdleStep(tidy, base, log, h, k, r);
  }

  /** A lock request for r: the daemon had the right to grant, or changes nothing that matters. */
  lemma DeliverLock(tidy: bool, base: seq<Addr>, log: seq<Event>, h: Host, k: Host, r: Resource, ts: seq<Msg>)
    requires Ready(tidy, base, log, h, r) && Next(h, k, r, ts) && h.node.joined && k.node.joined
    requires log[h.idx].Message? && log[h.idx].m.Lock?
    requires NoNewHolds(h, k, r)
    requires r in k.node.locks
    requires r in h.node.locks ==> h.node.locks[r].node == h.node.id && h.node.locks[r].state.Free?
    requires var l := if r in h.node.locks then h.node.locks[r] else LockRec(Free, 0, 0, 0, 0);
      || (k.node.locks[r] == l && ts == [])
      || (k.node.locks[r] == l.(state := Pending) && OneGrant(ts, r) && (r in h.node.locks || OwnHead(h.node)))
    ensures ResInv(tidy, base, log, k, r)
  {
    QuietMessage(base, log, r, h.idx);
    RosterFacts(base, log, h.idx);
    NobodyZero(base, log, k.idx);
    assert !HoldsRes(h, r) by { if HoldsRes(h, r) { HoldMeansHeld(log, h, r); } }
    assert HoldsRes(k, r) ==> HoldsRes(h, r);
    NoHolds(log, k, r);
    if r !in h.node.locks && OwnHead(h.node) {
      OwnHeadIsOldest(base, log, h);
      assert Mine(base, log, h, r);
    }
    if Mine(base, log, h, r) {
      ActStep(tidy, base, log, h, k, r, ts);
    } else {
      IdleStep(tidy, base, log, h, k, r);
    }
  }

  /** A release for r that takes effect on a lock of this daemon. */
  lemma DeliverRelease(tidy: bool, base: seq<Addr>, log: seq<Event>, h: Host, k: Host, r: Resource, ts: seq<Msg>)
    requires Ready(tidy, base, log, h, r) && Next(h, k, r, ts) && h.node.joined && k.node.joined
    requires IsRelease(log[h.idx], r, h.node.id)
    requires HeldBy(h.node, r, log[h.idx].m.pid) && NoNewHolds(h, k, r)
    requires r in k.node.locks
    requires || (k.node.locks[r] == h.node.locks[r].(state := Free) && ts == [])
             || (k.node.locks[r] == h.node.locks[r].(state := Pending) && OneGrant(ts, r))
    ensures ResInv(tidy, base, log, k, r)
  {
    QuietMessage(base, log, r, h.idx);
    assert ReleaseAt(log, h, h.idx, r, log[h.idx].m.pid);
    assert !HoldsRes(h, r);
    assert HoldsRes(k, r) ==> HoldsRes(h, r);
    NoHolds(log, k, r);
    ActStep(tidy, base, log, h, k, r, ts);
  }

  /** Before a grant of r to this daemon is delivered nothing is on its way to release r. */
  lemma NoReleaseBehind(base: seq<Addr>, log: seq<Event>, h: Host, k: Host, r: Resource, pid: Pid)
    requires h.idx < |log| && k.idx == h.idx + 1 && k.node.id == h.node.id && IsGrant(log[h.idx], r)
    requires RespAt(base, log, r, k.idx) == Some(h.node.id)
    requires ReleaseInv(base, log, h, r) && NoUnlockIn(Tokens(k.outbox, r))
    ensures !Releasing(log, k, r, pid)
  {
  }

  ghost predicate NoUnlockIn(ts: seq<Msg>) {
    forall t :: t in ts ==> !t.Unlock?
  }

  /** A grant of r to this daemon. */
  lemma DeliverGrantSelf(tidy: bool, base: seq<Addr>, log: seq<Event>, h: Host, k: Host, r: Resource, ts: seq<Msg>,
                         told: set<Hold>)
    requires Ready(tidy, base, log, h, r) && Next(h, k, r, ts) && h.node.joined && k.node.joined
    requires IsGrant(log[h.idx], r) && log[h.idx].m.node == h.node.id
    requires HeldBy(k.node, r, log[h.idx].m.pid) && k.holds == h.holds + told
    requires forall x :: x in told ==>
      x.res == r && x.pid == k.node.locks[r].pid && x.tid == k.node.locks[r].tid && x.id == k.node.locks[r].localId
    requires ts == [] || (told == {} && (OneGrant(ts, r) || (|ts| == 1 && ts[0].Unlock?)))
    ensures ResInv(tidy, base, log, k, r)
  {
    GrantAheadMeansNothing(tidy, base, log, h, r);
    GrantTakesOver(base, log, h, k, r);
    assert Tokens(k.outbox, r) == ts;
    GrantedUnreleased(base, log, h, k, r, ts, told);
    GrantedHolds(log, h, k, r, ts, told);
    GrantedPotent(tidy, base, log, k, r, ts, told);
    ActStep(tidy, base, log, h, k, r, ts);
  }

  /** Unless the daemon has just sent a release, none is out, and only a told client holds the lock. */
  lemma GrantedUnreleased(base: seq<Addr>, log: seq<Event>, h: Host, k: Host, r: Resource, ts: seq<Msg>,
                          told: set<Hold>)
    requires h.idx < |log| && k.idx == h.idx + 1 && k.node.id == h.node.id && IsGrant(log[h.idx], r)
    requires RespAt(base, log, r, k.idx) == Some(h.node.id)
    requires ReleaseInv(base, log, h, r) && Tokens(k.outbox, r) == ts && r in k.node.locks
    requires ts == [] || (told == {} && (OneGrant(ts, r) || (|ts| == 1 && ts[0].Unlock?)))
    requires !HoldsRes(h, r) && k.holds == h.holds + told
    ensures told != {} || OneGrant(ts, r) ==> !Releasing(log, k, r, k.node.locks[r].pid)
    ensures OneGrant(ts, r) ==> !HoldsRes(k, r)
  {
    if NoUnlockIn(ts) { NoReleaseBehind(base, log, h, k, r, k.node.locks[r].pid); }
    if told == {} { assert HoldsRes(k, r) ==> HoldsRes(h, r); }
  }

  lemma GrantTakesOver(base: seq<Addr>, log: seq<Event>, h: Host, k: Host, r: Resource)
    requires h.idx < |log| && PlaceInv(base, log, h) && TakeInv(base, log, h, r) && k.idx == h.idx + 1
    requires IsGrant(log[h.idx], r) && log[h.idx].m.node == h.node.id && h.node.joined && k.node.joined
    requires k.node.id == h.node.id
    ensures Mine(base, log, k, r) && NoGrantFrom(log, k.idx, r)
  {
    assert Takeover(base, log, r, h.idx) && RespAt(base, log, r, k.idx) == Some(h.node.id);
  }

  /** A daemon that passes a grant on cannot grant again. */
  lemma GrantedPotent(tidy: bool, base: seq<Addr>, log: seq<Event>, k: Host, r: Resource, ts: seq<Msg>, told: set<Hold>)
    requires k.idx <= |log| && r in k.node.locks && HeldBy(k.node, r, k.node.locks[r].pid)
    requires OneGrant(ts, r) ==> !HoldsRes(k, r) && !Releasing(log, k, r, k.node.locks[r].pid)
    requires ts == [] || OneGrant(ts, r) || (|ts| == 1 && ts[0].Unlock?)
    ensures NoGrantIn(ts) || !Potent(tidy, base, log, k, r)
  {
  }

  /** The only hold on r after a grant is the one just told. */
  lemma GrantedHolds(log: seq<Event>, h: Host, k: Host, r: Resource, ts: seq<Msg>, told: set<Hold>)
    requires !HoldsRes(h, r) && k.holds == h.holds + told && r in k.node.locks && HeldBy(k.node, r, k.node.locks[r].pid)
    requires forall x :: x in told ==>
      x.res == r && x.pid == k.node.locks[r].pid && x.tid == k.node.locks[r].tid && x.id == k.node.locks[r].localId
    requires told != {} ==> !Releasing(log, k, r, k.node.locks[r].pid)
    ensures HoldInv(log, k, r)
  {
    forall x | x in k.holds && x.res == r ensures x in told { assert x in h.holds ==> HoldsRes(h, r); }
  }

  /** A grant of r to somebody else. */
  lemma DeliverGrantOther(tidy: bool, base: seq<Addr>, log: seq<Event>, h: Host, k: Host, r: Resource, ts: seq<Msg>)
    requires Ready(tidy, base, log, h, r) && Next(h, k, r, ts) && h.node.joined && k.node.joined
    requires IsGrant(log[h.idx], r) && log[h.idx].m.node != h.node.id
    requires tidy ==> AnnouncedAt(base, log, h.idx) && NewcomerInv(log, h)
    requires r in k.node.locks && k.node.locks[r].node == log[h.idx].m.node
    requires NoNewHolds(h, k, r) && |ts| <= 1
    requires ts != [] ==> OwnHead(h.node) && !IsMember(h.node.members, log[h.idx].m.node)
    ensures ResInv(tidy, base, log, k, r)
  {
    var g, n, x := RosterAt(base, log, h.idx), h.node.id, log[h.idx].m.node;
    GrantAheadMeansNothing(tidy, base, log, h, r);
    assert HoldsRes(k, r) ==> HoldsRes(h, r);
    NoHolds(log, k, r);
    assert RosterAt(base, log, k.idx) == g;
    RosterFacts(base, log, h.idx);
    OldestOrOlder(g.age, n);
    if ts != [] { OwnHeadIsOldest(base, log, h); }
    if tidy { TouchedStaysAway(log, h, x); }
    if RespAt(base, log, r, k.idx) == Some(n) {
      assert Takeover(base, log, r, h.idx);
      assert NoGrantFrom(log, k.idx, r);
      ActStep(tidy, base, log, h, k, r, ts);
    } else {
      IdleStep(tidy, base, log, h, k, r);
    }
  }

  // ---------- joining ----------

  lemma DeliverJoin(tidy: bool, base: seq<Addr>, log: seq<Event>, h: Host, k: Host, r: Resource)
    requires Ready(tidy, base, log, h, r) && Next(h, k, r, [])
    requires log[h.idx].Message? && log[h.idx].m.Join?
    requires SameEntry(h.node, k.node, r) && NoNewHolds(h, k, r)
    requires k.node.joined == (h.node.joined || log[h.idx].from.id == h.node.id)
    ensures ResInv(tidy, base, log, k, r)
  {
    var g, n, x := RosterAt(base, log, h.idx), h.node.id, log[h.idx].from.id;
    assert SoundAt(base, log, h.idx);
    var age' := g.age + [x];
    assert RosterAt(base, log, k.idx) == g.(age := age');
    RespFacts(base, log, r, h.idx);
    var who := RespAt(base, log, r, h.idx);
    if h.node.joined {
      assert who.Some?;
      if Older(g.age, who.value, n) {
        var i, j :| 0 <= i < j < |g.age| && g.age[i] == who.value && g.age[j] == n;
        assert age'[i] == who.value && age'[j] == n;
      }
      StillStep(tidy, base, log, h, k, r);
    } else {
      assert HoldsRes(k, r) ==> HoldsRes(h, r);
      if HoldsRes(h, r) { HoldMeansHeld(log, h, r); }
      NoHolds(log, k, r);
      if Mine(base, log, k, r) {
        assert Takeover(base, log, r, h.idx);
        ActStep(tidy, base, log, h, k, r, []);
      } else {
        if x == n {
          var w := RespAt(base, log, r, k.idx);
          RespFacts(base, log, r, k.idx);
          var i :| 0 <= i < |age'| && age'[i] == w.value;
          assert i < |g.age| && age'[|g.age|] == n;
          assert Older(age', w.value, n);
        }
        IdleStep(tidy, base, log, h, k, r);
      }
    }
  }

  // ---------- views ----------

  lemma WithoutKeepsOlder(s: seq<NodeId>, gone: set<NodeId>, a: NodeId, b: NodeId)
    requires Older(s, a, b) && a !in gone && b !in gone
    ensures Older(Without(s, gone), a, b)
  {
    var i, j :| 0 <= i < j < |s| && s[i] == a && s[j] == b;
    var w, t := Without(s, gone), Without(s[1..], gone);
    if i > 0 {
      assert s[1..][i - 1] == a && s[1..][j - 1] == b;
      WithoutKeepsOlder(s[1..], gone, a, b);
      var x, y :| 0 <= x < y < |t| && t[x] == a && t[y] == b;
      if s[0] !in gone { assert w[x + 1] == a && w[y + 1] == b; }
    } else {
      WithoutMembers(s[1..], gone);
      assert s[1..][j - 1] == b;
      var y :| 0 <= y < |t| && t[y] == b;
      assert w[0] == a && w[y + 1] == b;
    }
  }

  lemma WithoutHead(s: seq<NodeId>, gone: set<NodeId>, n: NodeId)
    requires n in s && n !in gone
    requires forall x :: Older(s, x, n) ==> x in gone
    ensures Oldest(Without(s, gone)) == Some(n)
  {
    if s[0] != n {
      var j :| 0 <= j < |s| && s[j] == n;
      assert Older(s, s[0], n);
      forall x | Older(s[1..], x, n) ensures x in gone {
        var a, b :| 0 <= a < b < |s[1..]| && s[1..][a] == x && s[1..][b] == n;
        assert s[a + 1] == x && s[b + 1] == n;
        assert Older(s, x, n);
      }
      assert s[1..][j - 1] == n;
      WithoutHead(s[1..], gone, n);
    }
  }

  /** Whoever heads the list a view leaves is the oldest member after it. */
  lemma RestIsOldest(age: seq<NodeId>, n: Node, left: seq<Addr>)
    requires n.id in age && n.id !in Ids(left)
    requires forall x :: Older(age, x, n.id) ==> Before(n.members, x, n.id)
    requires OwnHead(Rest(n, left))
    ensures forall x :: Older(age, x, n.id) ==> x in Ids(left)
    ensures Oldest(Without(age, Ids(left))) == Some(n.id)
  {
    FirstIdIs(DropAll(n.members, left), n.id, 0);
    forall x | Older(age, x, n.id) ensures x in Ids(left) {
      if x !in Ids(left) {
        DropAllKeeps(n.members, left, x, n.id);
        assert false;
      }
    }
    WithoutHead(age, Ids(left), n.id);
  }

  /** A view, for a joined daemon and a resource whose recorded owner stays. */
  lemma ViewUntouched(tidy: bool, base: seq<Addr>, log: seq<Event>, h: Host, k: Host, r: Resource)
    requires Ready(tidy, base, log, h, r) && Next(h, k, r, []) && h.node.joined && k.node.joined
    requires log[h.idx].View?
    requires SameEntry(h.node, k.node, r) && NoNewHolds(h, k, r)
    ensures ResInv(tidy, base, log, k, r)
  {
    var e, n, g, g' := log[h.idx], h.node.id, RosterAt(base, log, h.idx), RosterAt(base, log, k.idx);
    var who, who' := RespAt(base, log, r, h.idx), RespAt(base, log, r, k.idx);
    WithoutMembers(g.age, Ids(e.left));
    RespFacts(base, log, r, h.idx);
    assert n in g'.age;
    if who == who' {
      if Older(g.age, who.value, n) { WithoutKeepsOlder(g.age, Ids(e.left), who.value, n); }
      StillStep(tidy, base, log, h, k, r);
    } else {
      assert who != Some(n);
      assert HoldsRes(k, r) ==> HoldsRes(h, r);
      if HoldsRes(h, r) { HoldMeansHeld(log, h, r); }
      NoHolds(log, k, r);
      OldestOrOlder(g'.age, n);
      if who' == Some(n) {
        assert Takeover(base, log, r, h.idx);
        ActStep(tidy, base, log, h, k, r, []);
      } else {
        IdleStep(tidy, base, log, h, k, r);
      }
    }
  }

  /** A view, for a joined daemon and a resource it records as a leaver's. */
  lemma ViewTouched(tidy: bool, base: seq<Addr>, log: seq<Event>, h: Host, k: Host, r: Resource, ts: seq<Msg>,
                    acted: bool)
    requires Ready(tidy, base, log, h, r) && Next(h, k, r, ts) && h.node.joined && k.node.joined
    requires log[h.idx].View? && r in h.node.locks && h.node.locks[r].node in Ids(log[h.idx].left)
    requires r in k.node.locks && NoNewHolds(h, k, r)
    requires tidy ==> NewcomerInv(log, h)
    requires acted && !tidy ==> NoGrantAhead(log, h, r)
    requires acted ==> Oldest(RosterAt(base, log, k.idx).age) == Some(h.node.id)
    requires acted ==> forall x :: Older(RosterAt(base, log, h.idx).age, x, h.node.id) ==> x in Ids(log[h.idx].left)
    requires || (ts == [] && k.node.locks[r].node != h.node.id)
             || (acted && OneGrant(ts, r) && k.node.locks[r].node in Ids(log[h.idx].left))
             || (acted && |ts| <= 1 && NoGrantIn(ts))
    ensures ResInv(tidy, base, log, k, r)
  {
    var e, n, g, g' := log[h.idx], h.node.id, RosterAt(base, log, h.idx), RosterAt(base, log, k.idx);
    var who, who' := RespAt(base, log, r, h.idx), RespAt(base, log, r, k.idx);
    assert SoundAt(base, log, h.idx);
    WithoutMembers(g.age, Ids(e.left));
    RespFacts(base, log, r, h.idx);
    assert n in g'.age && h.node.locks[r].node != n;
    OldestOrOlder(g'.age, n);
    assert HoldsRes(k, r) ==> HoldsRes(h, r);
    if HoldsRes(h, r) { HoldMeansHeld(log, h, r); }
    NoHolds(log, k, r);
    if acted { assert who' == Some(n); }
    if tidy && k.node.locks[r].node in Ids(e.left) { TouchedStaysAway(log, h, k.node.locks[r].node); }
    if who' == Some(n) && who == Some(n) && !tidy && !acted {
      InertStep(base, log, h, k, r);
    } else if who' == Some(n) {
      ViewActs(tidy, base, log, h, k, r, acted);
      ActStep(tidy, base, log, h, k, r, ts);
    } else {
      if who == who' && Older(g.age, who.value, n) { WithoutKeepsOlder(g.age, Ids(e.left), who.value, n); }
      IdleStep(tidy, base, log, h, k, r);
    }
  }

  /** Nothing is ahead of a daemon that becomes responsible in a view, or acts in it, or may come to. */
  lemma ViewActs(tidy: bool, base: seq<Addr>, log: seq<Event>, h: Host, k: Host, r: Resource, acted: bool)
    requires Ready(tidy, base, log, h, r) && k.idx == h.idx + 1 && k.node.id == h.node.id && h.node.joined
    requires log[h.idx].View? && r in h.node.locks && h.node.locks[r].node in Ids(log[h.idx].left)
    requires h.node.id !in Ids(log[h.idx].left) && Ids(log[h.idx].left) <= RosterAt(base, log, h.idx).mem
    requires RespAt(base, log, r, k.idx) == Some(h.node.id)
    requires acted && !tidy ==> NoGrantAhead(log, h, r)
    requires RespAt(base, log, r, h.idx) == Some(h.node.id) ==> tidy || acted
    ensures NoGrantIn(Tokens(h.outbox, r)) && NoGrantFrom(log, k.idx, r)
  {
    if RespAt(base, log, r, h.idx) == Some(h.node.id) {
      if tidy { assert Potent(tidy, base, log, h, r); } else { NoneInOutbox(log, h, r); }
    } else {
      assert Takeover(base, log, r, h.idx);
    }
  }

  lemma NoneInOutbox(log: seq<Event>, h: Host, r: Resource)
    requires NoGrantAhead(log, h, r)
    ensures NoGrantFrom(log, h.idx, r) && NoGrantIn(Tokens(h.outbox, r))
  {
    var ts := Tokens(h.outbox, r);
    forall i | 0 <= i < |ts| ensures !ts[i].Grant? {
      assert ts[i] in ts;
      var j :| 0 <= j < |h.outbox| && h.outbox[j] == ts[i];
    }
  }
}
