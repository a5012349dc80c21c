/**
 * A condition a caller can check when a node comes back: if no queue, no outbox and nothing undelivered
 * names it, no grant to it is ever ordered before its JOIN.
 */
module CalmRuns {
  import opened Types
  import opened Protocol
  import opened Group
  import opened Cluster
  import opened Slices
  import opened Frames
  import opened Structure
  import opened StructureSteps
  import opened StructureAppend
  import opened Runs
  import opened FreeRuns

  // ---------- the invariant ----------

  /** The daemon has announced itself or is about to, and asks for locks only behind that. */
  ghost predicate AsksLater(base: seq<Addr>, log: seq<Event>, h: Host) {
    h.node.id in RosterAt(base, log, |log|).age ||
    exists j :: 0 <= j < |h.outbox| && JoinBeforeAsks(h, j)
  }

  ghost predicate JoinBeforeAsks(h: Host, j: nat)
    requires j < |h.outbox|
  {
    h.outbox[j].Join? && forall i :: 0 <= i < j ==> !h.outbox[i].Lock?
  }

  /** Nothing is heard of a member that has yet to announce itself. */
  ghost predicate UnheardInv(s: Sys) {
    forall z, n :: z in Now(s).mem && z !in Now(s).age && n in s.hosts ==> Unheard(s.log, s.hosts[n], z)
  }

  ghost predicate CalmInv(s: Sys) {
    && FreeInv(s) && UnheardInv(s)
    && forall n :: n in s.hosts ==> AsksLater(s.base, s.log, s.hosts[n])
  }

  // ---------- one daemon ----------

  lemma UnheardKeys(q: seq<Request>, w: seq<Request>, z: NodeId)
    requires Derived(q, w) && forall i :: 0 <= i < |w| ==> w[i].node != z
    ensures forall i :: 0 <= i < |q| ==> q[i].node != z
  {
    forall i | 0 <= i < |q| ensures q[i].node != z {
      assert HasKey(q, KeyOf(q[i]));
      var j :| 0 <= j < |w| && KeyOf(w[j]) == KeyOf(q[i]);
    }
  }

  lemma AnswersOthers(m: Msg, q: seq<Request>, z: NodeId)
    requires AnswersAny(m, q) && forall i :: 0 <= i < |q| ==> q[i].node != z
    ensures m.node != z
  {
    var j :| 0 <= j < |q| && KeyOf(q[j]) == Key(m.res, m.node, m.pid, m.tid);
  }

  lemma DeliverUnheard(log: seq<Event>, h: Host, order: seq<Resource>, z: NodeId)
    requires Unheard(log, h, z) && h.idx < |log|
    ensures Unheard(log, HostDeliver(h, log[h.idx], order), z)
  {
    var e, k := log[h.idx], HostDeliver(h, log[h.idx], order);
    var o, w := Handle(h.node, e, order), Arrived(h.node, e).requests;
    HandleSpeaks(h.node, e, order);
    assert !Concerning(log[h.idx], z);
    UnheardKeys(o.node.requests, w, z);
    forall i | 0 <= i < |k.outbox| && k.outbox[i].Grant? ensures k.outbox[i].node != z {
      if i >= |h.outbox| {
        assert Spoken(h.node, e, o.sent[i - |h.outbox|]);
        AnswersOthers(k.outbox[i], w, z);
      }
    }
  }

  lemma LocalUnheard(log: seq<Event>, h: Host, k: Host, sent: seq<Msg>, z: NodeId)
    requires Unheard(log, h, z) && KeepsPlace(h, k, sent)
    ensures Unheard(log, k, z)
  {
    UnheardKeys(k.node.requests, h.node.requests, z);
    forall i | 0 <= i < |k.outbox| && k.outbox[i].Grant? ensures k.outbox[i].node != z {
      if i >= |h.outbox| {
        assert MayAdd(h.node, sent[i - |h.outbox|]);
        AnswersOthers(k.outbox[i], h.node.requests, z);
      }
    }
  }

  lemma AddsLater(base: seq<Addr>, log: seq<Event>, h: Host, k: Host, sent: seq<Msg>)
    requires AsksLater(base, log, h) && k.node.id == h.node.id && k.outbox == h.outbox + sent
    ensures AsksLater(base, log, k)
  {
    if j :| 0 <= j < |h.outbox| && JoinBeforeAsks(h, j) { assert JoinBeforeAsks(k, j); }
  }

  // ---------- steps ----------

  lemma LocalCalm(s: Sys, n: NodeId, k: Host, u: Sys)
    requires CalmInv(s) && n in s.hosts && u == s.(hosts := s.hosts[n := k]) && FreeInv(u)
    requires AsksLater(s.base, s.log, k)
    requires forall z :: Unheard(s.log, s.hosts[n], z) ==> Unheard(s.log, k, z)
    ensures CalmInv(u)
  {
  }

  lemma QuietCalm(s: Sys, n: NodeId, k: Host, sent: seq<Msg>, u: Sys)
    requires CalmInv(s) && n in s.hosts && u == s.(hosts := s.hosts[n := k]) && FreeInv(u)
    requires KeepsPlace(s.hosts[n], k, sent)
    ensures CalmInv(u)
  {
    forall z | Unheard(s.log, s.hosts[n], z)
      ensures Unheard(s.log, k, z)
    {
      LocalUnheard(s.log, s.hosts[n], k, sent, z);
    }
    AddsLater(s.base, s.log, s.hosts[n], k, sent);
    LocalCalm(s, n, k, u);
  }

  lemma ClientCalm(s: Sys, t: Step)
    requires CalmInv(s) && Enabled(s, t) && (t.Connect? || t.AskLock? || t.AskUnlock? || t.Disconnect?)
    ensures CalmInv(Apply(s, t))
  {
    var h := s.hosts[t.n];
    assert FreeHost(s.base, s.log, h);
    StepFree(s, t);
    match t
    case Connect(n, fd) =>
      ConnectPlace(h, fd);
      QuietCalm(s, n, HostConnect(h, fd), [], Apply(s, t));
    case AskLock(n, fd, res, pid, tid, isTry) =>
      AskLockPlace(h, fd, res, pid, tid, isTry);
      QuietCalm(s, n, HostAskLock(h, fd, res, pid, tid, isTry),
                Protocol.ClientLock(h.node, fd, res, pid, tid, isTry).sent, Apply(s, t));
    case AskUnlock(n, hold, order) =>
      AskUnlockPlace(h, hold, order);
      QuietCalm(s, n, HostAskUnlock(h, hold, order), ClientUnlock(h.node, hold.id, order).sent, Apply(s, t));
    case Disconnect(n, fd, order) =>
      DisconnectPlace(h, fd, order);
      QuietCalm(s, n, HostDisconnect(h, fd, order), DelClient(h.node, fd, order).sent, Apply(s, t));
  }

  lemma DeliverCalm(s: Sys, n: NodeId, order: seq<Resource>)
    requires CalmInv(s) && Enabled(s, Deliver(n, order))
    ensures CalmInv(Apply(s, Deliver(n, order)))
  {
    var h := s.hosts[n];
    var k := HostDeliver(h, s.log[h.idx], order);
    StepFree(s, Deliver(n, order));
    HandleId(h.node, s.log[h.idx], order);
    forall z | Unheard(s.log, h, z) ensures Unheard(s.log, k, z) { DeliverUnheard(s.log, h, order, z); }
    AddsLater(s.base, s.log, h, k, Handle(h.node, s.log[h.idx], order).sent);
    LocalCalm(s, n, k, Apply(s, Deliver(n, order)));
  }

  lemma AppendUnheard(log: seq<Event>, e: Event, h: Host, z: NodeId)
    requires Unheard(log, h, z) && !Concerning(e, z)
    ensures Unheard(log + [e], h, z)
  {
    assert forall p :: 0 <= p < |log| ==> (log + [e])[p] == log[p];
  }

  lemma AppendLater(base: seq<Addr>, log: seq<Event>, e: Event, h: Host)
    requires AsksLater(base, log, h) && (e.View? ==> h.node.id !in Ids(e.left))
    ensures AsksLater(base, log + [e], h)
  {
    AppendRoster(base, log, e);
    if e.View? { WithoutMembers(RosterAt(base, log, |log|).age, Ids(e.left)); }
  }

  /** The first message of a member that has yet to announce itself is no request. */
  lemma SendsLater(base: seq<Addr>, log: seq<Event>, h: Host)
    requires AsksLater(base, log, h) && h.outbox != []
    ensures h.outbox[0].Lock? ==> h.node.id in RosterAt(base, log, |log|).age
    ensures AsksLater(base, log + [Message(Self(h), h.outbox[0])], h.(outbox := h.outbox[1..]))
  {
    var e, k := Message(Self(h), h.outbox[0]), h.(outbox := h.outbox[1..]);
    AppendRoster(base, log, e);
    assert forall i :: 0 <= i < |k.outbox| ==> k.outbox[i] == h.outbox[i + 1];
    if j :| 0 <= j < |h.outbox| && JoinBeforeAsks(h, j) {
      if j > 0 { assert JoinBeforeAsks(k, j - 1); }
    }
  }

  /** What is ordered is not about a member that has yet to announce itself. */
  lemma OrderedUnheard(s: Sys, n: NodeId, z: NodeId)
    requires CalmInv(s) && n in s.hosts && s.hosts[n].outbox != []
    requires z in Now(s).mem && z !in Now(s).age
    ensures !Concerning(Message(Self(s.hosts[n]), s.hosts[n].outbox[0]), z)
  {
    var h := s.hosts[n];
    SendsLater(s.base, s.log, h);
    assert FreeHost(s.base, s.log, h) && h.node.id == n;
    assert OutboxItem(s.base, s.log, h, 0) && Unheard(s.log, h, z);
  }

  lemma SenderUnheard(log: seq<Event>, h: Host, z: NodeId)
    requires Unheard(log, h, z) && h.outbox != [] && !Concerning(Message(Self(h), h.outbox[0]), z)
    ensures Unheard(log + [Message(Self(h), h.outbox[0])], h.(outbox := h.outbox[1..]), z)
  {
    assert forall i :: 0 <= i < |h.outbox[1..]| ==> h.outbox[1..][i] == h.outbox[i + 1];
    AppendUnheard(log, Message(Self(h), h.outbox[0]), h.(outbox := h.outbox[1..]), z);
  }

  lemma SequenceUnheard(s: Sys, n: NodeId, x: NodeId, z: NodeId)
    requires CalmInv(s) && n in s.hosts && s.hosts[n].outbox != [] && x in s.hosts
    requires z in Now(s).mem && z !in Now(s).age
    ensures var h, e := s.hosts[n], Message(Self(s.hosts[n]), s.hosts[n].outbox[0]);
      Unheard(s.log + [e], if x == n then h.(outbox := h.outbox[1..]) else s.hosts[x], z)
  {
    var e := Message(Self(s.hosts[n]), s.hosts[n].outbox[0]);
    OrderedUnheard(s, n, z);
    assert Unheard(s.log, s.hosts[x], z);
    if x == n { SenderUnheard(s.log, s.hosts[n], z); } else { AppendUnheard(s.log, e, s.hosts[x], z); }
  }

  lemma SequenceCalm(s: Sys, n: NodeId, k: Host, e: Event, u: Sys)
    requires CalmInv(s) && n in s.hosts && s.hosts[n].outbox != []
    requires k == s.hosts[n].(outbox := s.hosts[n].outbox[1..]) && e == Message(Self(s.hosts[n]), s.hosts[n].outbox[0])
    requires u == Sys(s.base, s.hosts[n := k], s.log + [e]) && FreeInv(u)
    ensures CalmInv(u)
  {
    AppendRoster(s.base, s.log, e);
    SendsLater(s.base, s.log, s.hosts[n]);
    forall x | x in u.hosts ensures AsksLater(u.base, u.log, u.hosts[x]) {
      if x != n { AppendLater(s.base, s.log, e, s.hosts[x]); }
    }
    OthersUnheard(s, n, k, e, u);
  }

  lemma OthersUnheard(s: Sys, n: NodeId, k: Host, e: Event, u: Sys)
    requires CalmInv(s) && n in s.hosts && s.hosts[n].outbox != []
    requires k == s.hosts[n].(outbox := s.hosts[n].outbox[1..]) && e == Message(Self(s.hosts[n]), s.hosts[n].outbox[0])
    requires u == Sys(s.base, s.hosts[n := k], s.log + [e]) && FreeInv(u)
    ensures forall z, x :: z in Now(u).mem && z !in Now(u).age && x in u.hosts ==> Unheard(u.log, u.hosts[x], z)
  {
    AppendRoster(s.base, s.log, e);
    forall z, x | z in Now(u).mem && z !in Now(u).age && x in u.hosts ensures Unheard(u.log, u.hosts[x], z) {
      SequenceUnheard(s, n, x, z);
    }
  }

  lemma NewcomerCalm(base: seq<Addr>, log: seq<Event>, e: Event, x: NodeId, z: NodeId)
    requires e.View? && x in Ids(e.joins)
    ensures AsksLater(base, log + [e], NewHost(e.joins, x, |log|)) && Unheard(log + [e], NewHost(e.joins, x, |log|), z)
  {
    assert JoinBeforeAsks(NewHost(e.joins, x, |log|), 0);
  }

  lemma ViewCalm(s: Sys, e: Event, u: Sys)
    requires CalmInv(s) && e.View? && SoundEvent(Now(s), e)
    requires forall z, n :: z in Ids(e.joins) && n in s.hosts ==> Unheard(s.log, s.hosts[n], z)
    requires u == Sys(s.base, HostsAfter(s.hosts, e.left, e.joins, |s.log|), s.log + [e]) && FreeInv(u)
    ensures CalmInv(u)
  {
    AppendRoster(s.base, s.log, e);
    WithoutMembers(Now(s).age, Ids(e.left));
    forall x | x in u.hosts ensures AsksLater(u.base, u.log, u.hosts[x]) {
      if x in Ids(e.joins) { NewcomerCalm(s.base, s.log, e, x, 0); } else { AppendLater(s.base, s.log, e, s.hosts[x]); }
    }
    forall z, x | z in Now(u).mem && z !in Now(u).age && x in u.hosts ensures Unheard(u.log, u.hosts[x], z) {
      if x in Ids(e.joins) {
        NewcomerCalm(s.base, s.log, e, x, z);
      } else {
        assert Unheard(s.log, s.hosts[x], z);
        AppendUnheard(s.log, e, s.hosts[x], z);
      }
    }
  }

  lemma StepCalm(s: Sys, t: Step)
    requires CalmInv(s) && May(Calm, s, t)
    ensures CalmInv(Apply(s, t)) && May(Tidy, s, t)
  {
    StepFree(s, t);
    match t
    case Sequence(n) =>
      var h := s.hosts[n];
      SequenceCalm(s, n, h.(outbox := h.outbox[1..]), Message(Self(h), h.outbox[0]), Apply(s, t));
      if h.outbox[0].Grant? && h.outbox[0].node in Now(s).mem && h.outbox[0].node !in Now(s).age {
        OrderedUnheard(s, n, h.outbox[0].node);
      }
    case Deliver(n, order) => DeliverCalm(s, n, order);
    case ChangeView(members, left, joins) => ViewCalm(s, View(members, left, joins), Apply(s, t));
    case _ => ClientCalm(s, t);
  }

  // ---------- runs ----------

  lemma {:induction false} CalmIsTidy(s: Sys, run: seq<Step>)
    requires CalmInv(s) && IsRun(Calm, s, run)
    ensures IsRun(Tidy, s, run) && Exec(Tidy, s, run) == Exec(Calm, s, run)
    decreases |run|
  {
    if run != [] {
      StepCalm(s, run[0]);
      CalmIsTidy(Apply(s, run[0]), run[1..]);
    }
  }

  lemma FormedCalm(base: seq<Addr>)
    requires Distinct(IdSeq(base)) && 0 !in Ids(base)
    ensures CalmInv(Formed(base))
  {
    FormedFree(base);
    forall z | z in Ids(base) ensures z in IdSeq(base) { FormedListed(base, z); }
  }

  /**
   * A run in which nothing that is queued or on its way names a node when it comes back is a tidy run:
   * no grant to a node is ordered between its return and its JOIN.
   */
  lemma CalmReaches(base: seq<Addr>, run: seq<Step>, s: Sys)
    requires Reaches(Calm, base, run, s)
    ensures Reaches(Tidy, base, run, s)
  {
    FormedCalm(base);
    CalmIsTidy(Formed(base), run);
  }
}
