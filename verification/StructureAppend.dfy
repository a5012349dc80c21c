/**
 * Membership and naming invariants when the agreed order grows.
 */
module StructureAppend {
  import opened Types
  import opened Protocol
  import opened Group
  import opened Cluster
  import opened Slices
  import opened Frames
  import opened Membership
  import opened Structure

  lemma AppendWellFormed(base: seq<Addr>, log: seq<Event>, e: Event)
    requires WellFormedLog(base, log) && SoundEvent(RosterAt(base, log, |log|), e)
    ensures WellFormedLog(base, log + [e])
  {
    forall p | 0 <= p < |log + [e]| ensures SoundAt(base, log + [e], p) {
      RosterPrefix(base, log, e, p);
      if p < |log| { assert SoundAt(base, log, p); }
    }
  }

  /** The last position of the longer log. */
  lemma AppendRoster(base: seq<Addr>, log: seq<Event>, e: Event)
    ensures RosterAt(base, log + [e], |log| + 1) == NextRoster(RosterAt(base, log, |log|), e)
  {
    RosterPrefix(base, log, e, |log|);
  }

  lemma StillMember(base: seq<Addr>, log: seq<Event>, h: Host)
    requires WellFormedLog(base, log) && PlaceInv(base, log, h) && h.idx == |log|
    ensures h.node.id in RosterAt(base, log, |log|).mem
  {
  }

  lemma AppendPlace(base: seq<Addr>, log: seq<Event>, e: Event, h: Host)
    requires WellFormedLog(base, log) && SoundEvent(RosterAt(base, log, |log|), e)
    requires PlaceInv(base, log, h) && ListInv(base, log, h) && (e.View? ==> h.node.id !in Ids(e.left))
    ensures PlaceInv(base, log + [e], h) && ListInv(base, log + [e], h)
  {
    RosterPrefix(base, log, e, h.idx);
    if h.idx == |log| { StillMember(base, log, h); }
    assert forall p :: 0 <= p < |log| ==> (log + [e])[p] == log[p];
  }

  lemma AppendOutbox(base: seq<Addr>, log: seq<Event>, e: Event, h: Host)
    requires OutboxInv(base, log, h) && (e.View? ==> h.node.id !in Ids(e.left))
    requires e.Message? && e.m.Join? && e.from.id == h.node.id ==>
      forall i :: 0 <= i < |h.outbox| ==> !h.outbox[i].Join?
    ensures OutboxInv(base, log + [e], h)
  {
    AppendRoster(base, log, e);
    if e.View? { WithoutMembers(RosterAt(base, log, |log|).age, Ids(e.left)); }
    forall i | 0 <= i < |h.outbox| ensures OutboxItem(base, log + [e], h, i) { assert OutboxItem(base, log, h, i); }
  }

  lemma AppendStruct(base: seq<Addr>, log: seq<Event>, e: Event, h: Host)
    requires WellFormedLog(base, log) && SoundEvent(RosterAt(base, log, |log|), e) && StructInv(base, log, h)
    requires e.View? ==> h.node.id !in Ids(e.left)
    requires e.Message? && e.m.Join? && e.from.id == h.node.id ==>
      forall i :: 0 <= i < |h.outbox| ==> !h.outbox[i].Join?
    ensures StructInv(base, log + [e], h)
  {
    AppendPlace(base, log, e, h);
    AppendOutbox(base, log, e, h);
  }

  /** The sender of a newly ordered message: what it sent was sound, and the rest of its outbox stays so. */
  lemma SequenceStruct(base: seq<Addr>, log: seq<Event>, h: Host)
    requires WellFormedLog(base, log) && StructInv(base, log, h) && h.outbox != []
    requires h.node.id in RosterAt(base, log, |log|).mem
    ensures var e := Message(Self(h), h.outbox[0]);
      && SoundEvent(RosterAt(base, log, |log|), e) && FlightItem(e)
      && StructInv(base, log + [e], h.(outbox := h.outbox[1..]))
  {
    var k := h.(outbox := h.outbox[1..]);
    assert OutboxItem(base, log, h, 0);
    assert forall i :: 0 <= i < |k.outbox| ==> k.outbox[i] == h.outbox[i + 1];
    forall i | 0 <= i < |k.outbox| ensures OutboxItem(base, log, k, i) { assert OutboxItem(base, log, h, i + 1); }
    AppendStruct(base, log, Message(Self(h), h.outbox[0]), k);
  }

  /** A daemon that has just joined the group. */
  lemma NewHostStruct(base: seq<Addr>, log: seq<Event>, e: Event, z: NodeId)
    requires WellFormedLog(base, log) && SoundEvent(RosterAt(base, log, |log|), e)
    requires e.View? && z in Ids(e.joins)
    ensures StructInv(base, log + [e], NewHost(e.joins, z, |log|))
  {
    var h, log' := NewHost(e.joins, z, |log|), log + [e];
    RosterPrefix(base, log, e, |log|);
    AppendRoster(base, log, e);
    RosterFacts(base, log, |log|);
    var g := RosterAt(base, log, |log|);
    WithoutMembers(g.age, Ids(e.left));
    assert z !in g.mem && z !in g.age;
    assert OutboxItem(base, log', h, 0);
  }

  /** A message a daemon may add to its outbox on its own. */
  ghost predicate MayAdd(n: Node, m: Msg) {
    match m
    case Lock(_, node, pid, _, _) => node == n.id && pid != 0
    case Grant(_, _, _, _) => AnswersAny(m, n.requests)
    case Join => false
    case _ => true
  }

  ghost predicate MayAddAll(n: Node, sent: seq<Msg>) {
    forall i :: 0 <= i < |sent| ==> MayAdd(n, sent[i])
  }

  /** Local steps: identity, membership and position stay, requests shrink, own messages are added. */
  lemma LocalStruct(base: seq<Addr>, log: seq<Event>, h: Host, k: Host, sent: seq<Msg>)
    requires StructInv(base, log, h)
    requires k.idx == h.idx && k.outbox == h.outbox + sent
    requires k.node.id == h.node.id && k.node.joined == h.node.joined && k.node.members == h.node.members
    requires k.node.total == h.node.total
    requires !h.node.joined ==> k.node.locks == h.node.locks
    requires Derived(k.node.requests, h.node.requests) && MayAddAll(h.node, sent)
    ensures StructInv(base, log, k)
  {
    if h.node.requests == [] && k.node.requests != [] {
      assert HasKey(k.node.requests, KeyOf(k.node.requests[0]));
      assert false;
    }
    assert forall j :: 0 <= j < |h.outbox| ==> k.outbox[j] == h.outbox[j];
    assert forall j :: |h.outbox| <= j < |k.outbox| ==> k.outbox[j] == sent[j - |h.outbox|];
    forall i | 0 <= i < |k.outbox| ensures OutboxItem(base, log, k, i) {
      if i < |h.outbox| {
        assert OutboxItem(base, log, h, i);
      } else {
        assert MayAdd(h.node, sent[i - |h.outbox|]);
      }
    }
  }

  // ---------- the beginning ----------

  lemma FormedListed(base: seq<Addr>, n: NodeId)
    requires Distinct(IdSeq(base)) && n in Ids(base)
    ensures n in IdSeq(base) && IsMember(base, n)
    ensures forall k :: k in IdSeq(base) ==> IsMember(base, k)
    ensures forall k :: Older(IdSeq(base), k, n) ==> Before(base, k, n)
  {
    var i :| 0 <= i < |base| && base[i].id == n;
    assert IdSeq(base)[i] == n;
    forall k | k in IdSeq(base) ensures IsMember(base, k) {
      var j :| 0 <= j < |base| && IdSeq(base)[j] == k;
      assert base[j].id == k;
    }
    forall k | Older(IdSeq(base), k, n) ensures Before(base, k, n) {
      var a, b :| 0 <= a < b < |base| && IdSeq(base)[a] == k && IdSeq(base)[b] == n;
      assert forall j :: 0 <= j < |base| ==> IdSeq(base)[j] == base[j].id;
      FirstIdIs(base, k, a);
      FirstIdIs(base, n, b);
    }
  }

  lemma FormedStruct(base: seq<Addr>, n: NodeId)
    requires Distinct(IdSeq(base)) && 0 !in Ids(base) && n in Ids(base)
    ensures StructInv(base, [], Formed(base).hosts[n])
  {
    FormedListed(base, n);
    assert RosterAt(base, [], 0) == Roster(Ids(base), IdSeq(base));
  }
}
