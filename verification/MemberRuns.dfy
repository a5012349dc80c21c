/**
 * Convergence of member lists over whole runs.
 */
module MemberRuns {
  import opened Types
  import opened Protocol
  import opened Group
  import opened Cluster
  import opened Slices
  import opened Frames
  import opened Membership
  import opened Structure
  import opened StructureSteps
  import opened TokenLocal
  import opened Runs
  import opened FreeRuns
  import opened Recovery
  import opened Convergence
  import opened MemberLists

  // ---------- the invariant ----------

  ghost predicate RegularEvent(book: map<NodeId, Pid>, age: seq<NodeId>, e: Event) {
    match e
    case Message(from, m) => m.Join? ==> InBook(book, from)
    case View(members, left, joins) =>
      && |joins| <= 1
      && Ids(joins) !! book.Keys
      && Distinct(IdSeq(members))
      && Matching(book, left)
      && Matching(NextBook(book, e), members)
      && (joins != [] ==>
            && joins[0] in members && joins[0].id !in age
            && Among(IdSeq(members), Without(age, Ids(left))) == Without(age, Ids(left)))
  }

  ghost predicate RegularAt(base: seq<Addr>, log: seq<Event>, p: nat)
    requires p < |log|
  {
    RegularEvent(BookAt(base, log, p), RosterAt(base, log, p).age, log[p])
  }

  ghost predicate RegularLog(base: seq<Addr>, log: seq<Event>) {
    forall p :: 0 <= p < |log| ==> RegularAt(base, log, p)
  }

  /** The daemon's list and count at its position, once it has seen its first view. */
  ghost predicate GoodList(base: seq<Addr>, log: seq<Event>, h: Host) {
    && h.idx <= |log|
    && (Waiting(log, h) ==> log[h.idx].joins == [Self(h)])
    && (!Waiting(log, h) ==>
          Counted(h.node) && Listed(BookAt(base, log, h.idx), RosterAt(base, log, h.idx).age, h.node.members))
  }

  ghost predicate ListsInv(s: Sys) {
    FreeInv(s) && GoodLists(s)
  }

  ghost predicate GoodLists(s: Sys) {
    && RegularLog(s.base, s.log)
    && Booked(BookAt(s.base, s.log, |s.log|), s.hosts)
    && AllListed(s.base, s.log, s.hosts)
  }

  ghost predicate Booked(book: map<NodeId, Pid>, hosts: map<NodeId, Host>) {
    book.Keys == hosts.Keys && forall n :: n in hosts ==> BookedAs(book, n, hosts[n])
  }

  ghost predicate BookedAs(book: map<NodeId, Pid>, n: NodeId, h: Host) {
    h.node.id == n && InBook(book, Self(h))
  }

  ghost predicate AllListed(base: seq<Addr>, log: seq<Event>, hosts: map<NodeId, Host>) {
    forall n :: n in hosts ==> GoodList(base, log, hosts[n])
  }

  lemma UpdateListed(base: seq<Addr>, log: seq<Event>, hosts: map<NodeId, Host>, n: NodeId, k: Host)
    requires AllListed(base, log, hosts) && GoodList(base, log, k)
    ensures AllListed(base, log, hosts[n := k])
  {
  }

  lemma UpdateBooked(book: map<NodeId, Pid>, hosts: map<NodeId, Host>, n: NodeId, k: Host)
    requires Booked(book, hosts) && n in hosts && Self(k) == Self(hosts[n])
    ensures Booked(book, hosts[n := k])
  {
    assert BookedAs(book, n, hosts[n]);
  }

  // ---------- delivery ----------

  lemma DeliverMessage(base: seq<Addr>, log: seq<Event>, h: Host, k: Host)
    requires WellFormedLog(base, log) && RegularLog(base, log) && PlaceInv(base, log, h) && GoodList(base, log, h)
    requires h.idx < |log| && log[h.idx].Message? && k.idx == h.idx + 1 && k.node.id == h.node.id
    requires k.node == ProcessMessage(h.node, log[h.idx].from, log[h.idx].m).node
    requires !Waiting(log, k)
    ensures GoodList(base, log, k)
  {
    var e := log[h.idx];
    assert SoundAt(base, log, h.idx) && RegularAt(base, log, h.idx);
    MessageCount(h.node, e.from, e.m);
    if e.m.Join? {
      JoinListed(BookAt(base, log, h.idx), RosterAt(base, log, h.idx).age, h.node, e.from);
    } else {
      MessageFrame(h.node, e.from, e.m);
    }
  }

  lemma DeliverLater(base: seq<Addr>, log: seq<Event>, h: Host, k: Host, order: seq<Resource>)
    requires RegularLog(base, log) && GoodList(base, log, h) && !Waiting(log, h)
    requires h.idx < |log| && log[h.idx].View? && k.idx == h.idx + 1
    requires k.node == ConfigChange(h.node, log[h.idx].members, log[h.idx].left, log[h.idx].joins, order).node
    requires !Waiting(log, k)
    ensures GoodList(base, log, k)
  {
    var e := log[h.idx];
    LaterView(h.node, e, order);
    LaterListed(base, log, h.idx, h.node.members);
  }

  lemma LaterView(n: Node, e: Event, order: seq<Resource>)
    requires e.View? && Counted(n)
    ensures var o := ConfigChange(n, e.members, e.left, e.joins, order);
      Counted(o.node) && o.node.members == DropAll(n.members, e.left)
  {
    ViewCount(n, e.members, e.left, e.joins, order);
    LeaveAllFrame(n, e.left, order);
  }

  lemma LaterListed(base: seq<Addr>, log: seq<Event>, i: nat, list: seq<Addr>)
    requires RegularLog(base, log) && i < |log| && log[i].View?
    requires Listed(BookAt(base, log, i), RosterAt(base, log, i).age, list)
    ensures Listed(BookAt(base, log, i + 1), RosterAt(base, log, i + 1).age, DropAll(list, log[i].left))
  {
    assert RegularAt(base, log, i);
    LeaveListed(BookAt(base, log, i), RosterAt(base, log, i).age, list, log[i].left, log[i].joins);
  }

  lemma DeliverFirst(base: seq<Addr>, log: seq<Event>, h: Host, k: Host, order: seq<Resource>)
    requires WellFormedLog(base, log) && RegularLog(base, log) && PlaceInv(base, log, h) && GoodList(base, log, h)
    requires Waiting(log, h)
    requires k.idx == h.idx + 1
    requires k.node == ConfigChange(h.node, log[h.idx].members, log[h.idx].left, log[h.idx].joins, order).node
    requires !Waiting(log, k)
    ensures GoodList(base, log, k)
  {
    var e, me := log[h.idx], Self(h);
    var book, age := BookAt(base, log, h.idx + 1), RosterAt(base, log, h.idx + 1).age;
    assert RegularAt(base, log, h.idx) && SoundAt(base, log, h.idx);
    FirstViewCount(me, h.node, e.members, e.left, order);
    WithoutMembers(RosterAt(base, log, h.idx).age, Ids(e.left));
    SeedListed(book, age, e.members, me);
    var t := SeedView(h.node, e.members, e.joins);
    assert t.members == Seed(e.members, [me], me.id);
    LeaveAllFrame(t, e.left, order);
    NobodyLeft(book, t.members, e);
    DropAllNothing(t.members, e.left);
  }

  lemma NobodyLeft(book: map<NodeId, Pid>, list: seq<Addr>, e: Event)
    requires e.View? && Matching(book, list) && book.Keys !! (Ids(e.left) - Ids(e.joins)) && Ids(e.left) !! Ids(e.joins)
    ensures forall i :: 0 <= i < |list| ==> list[i].id !in Ids(e.left)
  {
    forall i | 0 <= i < |list| ensures list[i].id !in Ids(e.left) { assert InBook(book, list[i]); }
  }

  lemma DeliverList(base: seq<Addr>, log: seq<Event>, h: Host, order: seq<Resource>)
    requires WellFormedLog(base, log) && RegularLog(base, log) && PlaceInv(base, log, h) && ListInv(base, log, h)
    requires GoodList(base, log, h) && h.idx < |log|
    ensures GoodList(base, log, HostDeliver(h, log[h.idx], order))
  {
    var k := HostDeliver(h, log[h.idx], order);
    HandleId(h.node, log[h.idx], order);
    assert SoundAt(base, log, h.idx);
    NotWaitingNext(base, log, h, k);
    if log[h.idx].Message? {
      DeliverMessage(base, log, h, k);
    } else if Waiting(log, h) {
      DeliverFirst(base, log, h, k, order);
    } else {
      DeliverLater(base, log, h, k, order);
    }
  }

  // ---------- the agreed order grows ----------

  lemma AppendRegular(base: seq<Addr>, log: seq<Event>, e: Event)
    requires RegularLog(base, log) && RegularEvent(BookAt(base, log, |log|), RosterAt(base, log, |log|).age, e)
    ensures RegularLog(base, log + [e])
  {
    forall p | 0 <= p < |log + [e]| ensures RegularAt(base, log + [e], p) {
      BookPrefix(base, log, e, p);
      RosterPrefix(base, log, e, p);
      if p < |log| { assert RegularAt(base, log, p); }
    }
  }

  lemma AppendList(base: seq<Addr>, log: seq<Event>, e: Event, h: Host)
    requires GoodList(base, log, h) && (e.View? ==> h.node.id !in Ids(e.joins))
    ensures GoodList(base, log + [e], h)
  {
    BookPrefix(base, log, e, h.idx);
    RosterPrefix(base, log, e, h.idx);
    assert Waiting(log + [e], h) <==> Waiting(log, h);
  }

  lemma AppendBook(base: seq<Addr>, log: seq<Event>, e: Event)
    ensures BookAt(base, log + [e], |log| + 1) == NextBook(BookAt(base, log, |log|), e)
  {
    BookPrefix(base, log, e, |log|);
  }

  lemma ExtendedLists(s: Sys, e: Event, hosts: map<NodeId, Host>)
    requires RegularLog(s.base, s.log) && RegularEvent(BookAt(s.base, s.log, |s.log|), Now(s).age, e)
    requires Booked(NextBook(BookAt(s.base, s.log, |s.log|), e), hosts)
    requires AllListed(s.base, s.log + [e], hosts)
    ensures GoodLists(Sys(s.base, hosts, s.log + [e]))
  {
    AppendRegular(s.base, s.log, e);
    AppendBook(s.base, s.log, e);
  }

  lemma OrderedLists(base: seq<Addr>, log: seq<Event>, e: Event, hosts: map<NodeId, Host>)
    requires AllListed(base, log, hosts) && e.Message?
    ensures AllListed(base, log + [e], hosts)
  {
    forall x | x in hosts ensures GoodList(base, log + [e], hosts[x]) { AppendList(base, log, e, hosts[x]); }
  }

  lemma MessageBook(book: map<NodeId, Pid>, e: Event)
    requires e.Message?
    ensures NextBook(book, e) == book
  {
  }

  lemma SequenceLists(s: Sys, n: NodeId, e: Event, k: Host)
    requires GoodLists(s) && n in s.hosts && e.Message? && e.from == Self(s.hosts[n])
    requires k == s.hosts[n].(outbox := k.outbox)
    ensures GoodLists(Sys(s.base, s.hosts[n := k], s.log + [e]))
  {
    OrderedLists(s.base, s.log, e, s.hosts);
    SameList(s.base, s.log + [e], s.hosts[n], k);
    UpdateListed(s.base, s.log + [e], s.hosts, n, k);
    var book := BookAt(s.base, s.log, |s.log|);
    assert InBook(book, e.from) by { assert BookedAs(book, n, s.hosts[n]); }
    UpdateBooked(book, s.hosts, n, k);
    MessageBook(book, e);
    assert RegularEvent(book, Now(s).age, e);
    ExtendedLists(s, e, s.hosts[n := k]);
  }

  lemma SameList(base: seq<Addr>, log: seq<Event>, h: Host, k: Host)
    requires GoodList(base, log, h) && k.idx == h.idx && Self(k) == Self(h)
    requires k.node.members == h.node.members && k.node.total == h.node.total
    ensures GoodList(base, log, k)
  {
  }

  lemma JoinBook(joins: seq<Addr>, z: NodeId, at: nat)
    requires z in Ids(joins)
    ensures InBook(BookOf(joins), Self(NewHost(joins, z, at)))
  {
  }

  lemma ViewBook(s: Sys, e: Event, hosts: map<NodeId, Host>)
    requires GoodLists(s) && (forall n :: n in s.hosts ==> s.hosts[n].node.id == n) && e.View?
    requires hosts == HostsAfter(s.hosts, e.left, e.joins, |s.log|)
    ensures var book := NextBook(BookAt(s.base, s.log, |s.log|), e);
      Booked(book, hosts)
  {
    var book := BookAt(s.base, s.log, |s.log|);
    var book' := (book - Ids(e.left)) + BookOf(e.joins);
    assert book'.Keys == hosts.Keys;
    forall n | n in hosts ensures BookedAs(book', n, hosts[n]) {
      if n in Ids(e.joins) {
        JoinBook(e.joins, n, |s.log|);
      } else {
        assert BookedAs(book, n, s.hosts[n]) && hosts[n] == s.hosts[n];
      }
    }
  }

  lemma JoinerListed(s: Sys, e: Event)
    requires e.View? && e.joins != [] && RegularView(s, e.members, e.left, e.joins) && s.hosts.Keys == Now(s).mem
    requires SoundEvent(Now(s), e)
    ensures e.joins[0] in e.members
  {
    assert e.joins[0].id in Ids(e.joins);
    assert e.joins[0].id in Ids(e.members);
    var j :| 0 <= j < |e.members| && e.members[j].id == e.joins[0].id;
    assert e.members[j] in e.joins || IsHost(s, e.members[j]);
    assert e.members[j] == e.joins[0];
  }

  lemma ListedInBook(s: Sys, e: Event, i: nat)
    requires e.View? && RegularView(s, e.members, e.left, e.joins) && i < |e.members| && SoundEvent(Now(s), e)
    requires GoodLists(s)
    requires s.hosts.Keys == Now(s).mem
    ensures InBook(NextBook(BookAt(s.base, s.log, |s.log|), e), e.members[i])
  {
    var a, book := e.members[i], BookAt(s.base, s.log, |s.log|);
    assert a.id in Ids(e.members);
    if a in e.joins {
      JoinerInBook(book, e, a);
    } else {
      assert IsHost(s, a) && BookedAs(book, a.id, s.hosts[a.id]);
      StayerInBook(book, e, a);
    }
  }

  lemma JoinerInBook(book: map<NodeId, Pid>, e: Event, a: Addr)
    requires e.View? && |e.joins| <= 1 && a in e.joins
    ensures InBook(NextBook(book, e), a)
  {
    assert a == e.joins[0];
    assert FirstId(e.joins, a.id) == 0;
    assert a.id in Ids(e.joins);
  }

  lemma StayerInBook(book: map<NodeId, Pid>, e: Event, a: Addr)
    requires e.View? && InBook(book, a) && a.id !in Ids(e.left) && a.id !in Ids(e.joins)
    ensures InBook(NextBook(book, e), a)
  {
  }

  lemma LeaversInBook(s: Sys, e: Event, i: nat)
    requires e.View? && RegularView(s, e.members, e.left, e.joins) && i < |e.left| && GoodLists(s)
    ensures InBook(BookAt(s.base, s.log, |s.log|), e.left[i])
  {
    var a := e.left[i];
    assert IsHost(s, a) && BookedAs(BookAt(s.base, s.log, |s.log|), a.id, s.hosts[a.id]);
  }

  lemma ViewRegular(s: Sys, e: Event)
    requires WellFormedLog(s.base, s.log) && s.hosts.Keys == Now(s).mem
    requires GoodLists(s) && e.View? && RegularView(s, e.members, e.left, e.joins)
    requires SoundEvent(Now(s), e) && Distinct(IdSeq(e.members))
    ensures RegularEvent(BookAt(s.base, s.log, |s.log|), Now(s).age, e)
  {
    var book := BookAt(s.base, s.log, |s.log|);
    RosterFacts(s.base, s.log, |s.log|);
    if e.joins != [] {
      JoinerListed(s, e);
      assert e.joins[0].id in Ids(e.joins);
    }
    forall i | 0 <= i < |e.left| ensures InBook(book, e.left[i]) { LeaversInBook(s, e, i); }
    forall i | 0 <= i < |e.members| ensures InBook(NextBook(book, e), e.members[i]) { ListedInBook(s, e, i); }
  }

  lemma RegularViewLists(s: Sys, e: Event)
    requires WellFormedLog(s.base, s.log) && s.hosts.Keys == Now(s).mem && GoodLists(s)
    requires forall n :: n in s.hosts ==> s.hosts[n].node.id == n
    requires e.View? && RegularView(s, e.members, e.left, e.joins) && SoundEvent(Now(s), e)
    requires Distinct(IdSeq(e.members))
    ensures GoodLists(Sys(s.base, HostsAfter(s.hosts, e.left, e.joins, |s.log|), s.log + [e]))
  {
    var hosts := HostsAfter(s.hosts, e.left, e.joins, |s.log|);
    ViewRegular(s, e);
    ViewBook(s, e, hosts);
    forall x | x in hosts ensures GoodList(s.base, s.log + [e], hosts[x]) {
      if x in Ids(e.joins) {
        NewList(s.base, s.log, e, hosts[x]);
      } else {
        AppendList(s.base, s.log, e, s.hosts[x]);
      }
    }
    ExtendedLists(s, e, hosts);
  }

  lemma NewList(base: seq<Addr>, log: seq<Event>, e: Event, k: Host)
    requires e.View? && |e.joins| <= 1 && k.node.id in Ids(e.joins) && k == NewHost(e.joins, k.node.id, |log|)
    ensures GoodList(base, log + [e], k)
  {
    var i :| 0 <= i < |e.joins| && e.joins[i].id == k.node.id;
    assert FirstId(e.joins, k.node.id) == 0;
    assert e.joins == [e.joins[0]];
    assert (log + [e])[|log|] == e;
  }

  // ---------- runs ----------

  lemma LocalLists(s: Sys, n: NodeId, k: Host)
    requires GoodLists(s) && n in s.hosts && Self(k) == Self(s.hosts[n]) && GoodList(s.base, s.log, k)
    ensures GoodLists(s.(hosts := s.hosts[n := k]))
  {
    UpdateListed(s.base, s.log, s.hosts, n, k);
    UpdateBooked(BookAt(s.base, s.log, |s.log|), s.hosts, n, k);
  }

  lemma SameLists(s: Sys, n: NodeId, k: Host)
    requires GoodLists(s) && n in s.hosts && KeepsList(s.hosts[n], k)
    ensures GoodLists(s.(hosts := s.hosts[n := k]))
  {
    SameList(s.base, s.log, s.hosts[n], k);
    LocalLists(s, n, k);
  }

  lemma DisconnectSame(h: Host, fd: nat, order: seq<Resource>)
    requires IsWalk(h.node.locks, order)
    ensures KeepsList(h, HostDisconnect(h, fd, order))
  {
    DelClientOrderly(h.node, fd, order);
    DelClientSlice(h.node, fd, order, 0);
  }

  /** A step that leaves identity, position, list and count of the host alone. */
  ghost predicate KeepsList(h: Host, k: Host) {
    k.idx == h.idx && Self(k) == Self(h) && k.node.members == h.node.members && k.node.total == h.node.total
  }

  lemma AskUnlockSame(h: Host, hold: Hold, order: seq<Resource>)
    ensures KeepsList(h, HostAskUnlock(h, hold, order))
  {
    var i := FirstLockId(h.node.locks, hold.id, order);
    if i < |order| {
      var l := h.node.locks[order[i]];
      GrantOrSlice(h.node, order[i], Unlock(order[i], l.node, l.pid, l.tid));
    }
  }

  lemma AskLockSame(h: Host, fd: nat, r: Resource, pid: Pid, tid: Tid, isTry: bool)
    ensures KeepsList(h, HostAskLock(h, fd, r, pid, tid, isTry))
  {
  }

  lemma QuietStep(s: Sys, t: Step, n: NodeId, k: Host)
    requires GoodLists(s) && Enabled(s, t) && n in s.hosts && KeepsList(s.hosts[n], k)
    requires Apply(s, t) == s.(hosts := s.hosts[n := k])
    ensures GoodLists(Apply(s, t))
  {
    SameLists(s, n, k);
  }

  lemma AskUnlockLists(s: Sys, t: Step)
    requires GoodLists(s) && Enabled(s, t) && t.AskUnlock?
    ensures GoodLists(Apply(s, t))
  {
    AskUnlockSame(s.hosts[t.n], t.hold, t.order);
    QuietStep(s, t, t.n, HostAskUnlock(s.hosts[t.n], t.hold, t.order));
  }

  lemma DisconnectLists(s: Sys, t: Step)
    requires GoodLists(s) && Enabled(s, t) && t.Disconnect?
    ensures GoodLists(Apply(s, t))
  {
    DisconnectSame(s.hosts[t.n], t.fd, t.order);
    QuietStep(s, t, t.n, HostDisconnect(s.hosts[t.n], t.fd, t.order));
  }

  lemma AskLockLists(s: Sys, t: Step)
    requires GoodLists(s) && Enabled(s, t) && t.AskLock?
    ensures GoodLists(Apply(s, t))
  {
    AskLockSame(s.hosts[t.n], t.fd, t.res, t.pid, t.tid, t.isTry);
    QuietStep(s, t, t.n, HostAskLock(s.hosts[t.n], t.fd, t.res, t.pid, t.tid, t.isTry));
  }

  lemma QuietLists(s: Sys, t: Step)
    requires GoodLists(s) && Enabled(s, t) && (t.Connect? || t.AskLock? || t.AskUnlock? || t.Disconnect?)
    ensures GoodLists(Apply(s, t))
  {
    match t
    case Connect(n, fd) => QuietStep(s, t, n, HostConnect(s.hosts[n], fd));
    case AskLock(_, _, _, _, _, _) => AskLockLists(s, t);
    case AskUnlock(_, _, _) => AskUnlockLists(s, t);
    case Disconnect(_, _, _) => DisconnectLists(s, t);
  }

  lemma DeliverLists(s: Sys, n: NodeId, order: seq<Resource>)
    requires ListsInv(s) && Enabled(s, Deliver(n, order))
    ensures GoodLists(Apply(s, Deliver(n, order)))
  {
    var h := s.hosts[n];
    assert FreeHost(s.base, s.log, h);
    DeliverList(s.base, s.log, h, order);
    HandleId(h.node, s.log[h.idx], order);
    LocalLists(s, n, HostDeliver(h, s.log[h.idx], order));
    assert Apply(s, Deliver(n, order)) == s.(hosts := s.hosts[n := HostDeliver(h, s.log[h.idx], order)]);
  }

  lemma StepLists(s: Sys, t: Step)
    requires ListsInv(s) && May(Regular, s, t)
    ensures GoodLists(Apply(s, t))
  {
    match t
    case Sequence(n) =>
      var h := s.hosts[n];
      var e, k := Message(Self(h), h.outbox[0]), h.(outbox := h.outbox[1..]);
      SequenceLists(s, n, e, k);
      assert Apply(s, t) == Sys(s.base, s.hosts[n := k], s.log + [e]);
    case Deliver(n, order) => DeliverLists(s, n, order);
    case ChangeView(members, left, joins) =>
      RegularViewLists(s, View(members, left, joins));
    case _ => QuietLists(s, t);
  }

  lemma {:induction false} RunLists(s: Sys, run: seq<Step>)
    requires ListsInv(s) && IsRun(Regular, s, run)
    ensures ListsInv(Exec(Regular, s, run))
    decreases |run|
  {
    if run != [] {
      StepFree(s, run[0]);
      StepLists(s, run[0]);
      RunLists(Apply(s, run[0]), run[1..]);
    }
  }

  lemma FormedBook(base: seq<Addr>)
    requires Distinct(IdSeq(base))
    ensures Matching(BookOf(base), base)
  {
    forall i | 0 <= i < |base| ensures InBook(BookOf(base), base[i]) {
      FirstIdMember(base, base[i].id);
      assert IdSeq(base)[i] == base[i].id && IdSeq(base)[FirstId(base, base[i].id)] == base[i].id;
      assert base[i].id in Ids(base);
    }
  }

  lemma FormedList(base: seq<Addr>, n: NodeId)
    requires Distinct(IdSeq(base)) && n in Ids(base)
    ensures GoodList(base, [], Formed(base).hosts[n]) && BookedAs(BookOf(base), n, Formed(base).hosts[n])
  {
    AmongAll(IdSeq(base), IdSeq(base));
    FormedBook(base);
    var h := Formed(base).hosts[n];
    assert h.idx == 0 && h.node.members == base;
    assert BookAt(base, [], 0) == BookOf(base) && RosterAt(base, [], 0).age == IdSeq(base);
  }

  lemma FormedLists(base: seq<Addr>)
    requires Distinct(IdSeq(base))
    ensures GoodLists(Formed(base))
  {
    forall n | n in Ids(base)
      ensures GoodList(base, [], Formed(base).hosts[n]) && BookedAs(BookOf(base), n, Formed(base).hosts[n])
    {
      FormedList(base, n);
    }
  }

  lemma ReachesLists(base: seq<Addr>, run: seq<Step>, s: Sys)
    requires Reaches(Regular, base, run, s)
    ensures ListsInv(s)
  {
    FormedFree(base);
    FormedLists(base);
    RunLists(Formed(base), run);
  }

  /**
   * Once every member at a daemon's position has sent its JOIN, the daemon's list is exactly the
   * members in JOIN order, so daemons at the same position have the same list and the same oldest member.
   */
  lemma MembersConverge(base: seq<Addr>, run: seq<Step>, s: Sys, n: NodeId)
    requires Reaches(Regular, base, run, s)
    requires n in s.hosts && !Waiting(s.log, s.hosts[n])
    ensures var h := s.hosts[n];
      && h.idx <= |s.log|
      && h.node.total == |h.node.members| + 1
      && Among(IdSeq(h.node.members), RosterAt(s.base, s.log, h.idx).age) == RosterAt(s.base, s.log, h.idx).age
      && ((forall x :: x in RosterAt(s.base, s.log, h.idx).mem ==> x in RosterAt(s.base, s.log, h.idx).age) ==>
            IdSeq(h.node.members) == RosterAt(s.base, s.log, h.idx).age)
  {
    ReachesLists(base, run, s);
    var h := s.hosts[n];
    assert GoodList(s.base, s.log, h);
    var g := RosterAt(s.base, s.log, h.idx);
    if forall x :: x in g.mem ==> x in g.age {
      BookIsRoster(s.base, s.log, h.idx);
      forall x | x in IdSeq(h.node.members) ensures x in g.age {
        var i :| 0 <= i < |h.node.members| && IdSeq(h.node.members)[i] == x;
        assert InBook(BookAt(s.base, s.log, h.idx), h.node.members[i]);
      }
      AmongAll(IdSeq(h.node.members), g.age);
    }
  }

  /**
   * In a regular run a joined daemon that is not the oldest after a view ends up with no lock of a
   * leaver, whatever it recorded before: the head of its list is no leaver.
   */
  lemma NoStaleOwner(base: seq<Addr>, run: seq<Step>, s: Sys, n: NodeId, order: seq<Resource>, r: Resource)
    requires Reaches(Regular, base, run, s) && n in s.hosts && s.hosts[n].node.joined
    requires s.hosts[n].idx < |s.log| && s.log[s.hosts[n].idx].View? && IsWalk(s.hosts[n].node.locks, order)
    requires !OwnHead(Handle(s.hosts[n].node, s.log[s.hosts[n].idx], order).node)
    requires r in s.hosts[n].node.locks
    requires IsMember(s.hosts[n].node.members, s.hosts[n].node.locks[r].node)
    ensures var k := Handle(s.hosts[n].node, s.log[s.hosts[n].idx], order).node;
      r in k.locks && k.locks[r].node !in Ids(s.log[s.hosts[n].idx].left)
  {
    ReachesLists(base, run, s);
    RunIsAny(Regular, Formed(base), run);
    HeirExact(base, run, s, n, order, r);
    var h, e := s.hosts[n], s.log[s.hosts[n].idx];
    assert FreeHost(s.base, s.log, h) && GoodList(s.base, s.log, h) && SoundAt(s.base, s.log, h.idx);
    RosterFacts(s.base, s.log, h.idx);
    ListedLeave(s.base, s.log, h, order);
    if h.node.locks[r].node in Ids(e.left) {
      ListedIsGone(BookAt(s.base, s.log, h.idx), h.node.members, e.left, h.node.locks[r].node);
    }
  }

  /** In a regular run no leaver stays listed, and nobody is listed afresh. */
  lemma ListedLeave(base: seq<Addr>, log: seq<Event>, h: Host, order: seq<Resource>)
    requires RegularLog(base, log) && GoodList(base, log, h) && h.idx < |log| && log[h.idx].View? && !Waiting(log, h)
    ensures var e := log[h.idx];
      && SeedView(h.node, e.members, e.joins) == h.node
      && Matching(BookAt(base, log, h.idx), h.node.members) && Matching(BookAt(base, log, h.idx), e.left)
      && forall x :: x in Handle(h.node, e, order).node.members ==> x.id !in Ids(e.left)
  {
    var e := log[h.idx];
    assert RegularAt(base, log, h.idx);
    LeaveAllFrame(h.node, e.left, order);
    DropAllIds(BookAt(base, log, h.idx), h.node.members, e.left);
    WithoutMembers(IdSeq(h.node.members), Ids(e.left));
    var list := DropAll(h.node.members, e.left);
    forall x | x in list ensures x.id !in Ids(e.left) {
      var i :| 0 <= i < |list| && list[i] == x;
      assert IdSeq(list)[i] == x.id;
    }
  }

  /** Whoever is listed and leaves, leaves with the listed address. */
  lemma ListedIsGone(book: map<NodeId, Pid>, list: seq<Addr>, left: seq<Addr>, z: NodeId)
    requires Matching(book, list) && Matching(book, left) && IsMember(list, z) && z in Ids(left)
    ensures Gone(list, left, z)
  {
    var i :| 0 <= i < |list| && list[i].id == z;
    var j :| 0 <= j < |left| && left[j].id == z;
    assert InBook(book, list[i]) && InBook(book, left[j]);
    assert left[j] in list && left[j].id == z;
  }

  lemma {:induction false} BookIsRoster(base: seq<Addr>, log: seq<Event>, i: nat)
    requires i <= |log|
    ensures BookAt(base, log, i).Keys == RosterAt(base, log, i).mem
  {
    if i > 0 { BookIsRoster(base, log, i - 1); }
  }
}
