/**
 * Tidy runs: before the view in which a node comes back, a daemon sees nothing more about its
 * departure, and grants are to nodes that have announced themselves or are gone.
 */
module Newcomers {
  import opened Types
  import opened Group
  import opened Cluster
  import opened StructureSteps

  // ---------- the invariant ----------

  /** Before the view in which a node joins, its earlier departure has been dealt with. */
  ghost predicate NewcomerInv(log: seq<Event>, h: Host) {
    forall p, z :: h.idx <= p < |log| && log[p].View? && z in Ids(log[p].joins) && z != h.node.id ==>
      Unknown(log, h, p, z)
  }

  ghost predicate Unknown(log: seq<Event>, h: Host, p: nat, z: NodeId)
    requires p <= |log|
  {
    (forall q :: h.idx <= q < p ==> !Touches(log[q], z)) && !OwnReleaseAhead(log, h, z)
  }

  /** A release in z's name that this daemon has sent has not come back to it yet. */
  ghost predicate OwnReleaseAhead(log: seq<Event>, h: Host, z: NodeId) {
    || (exists i :: 0 <= i < |h.outbox| && h.outbox[i].Unlock? && h.outbox[i].node == z)
    || (exists p :: h.idx <= p < |log| && OwnRelease(log[p], h.node.id, z))
  }

  predicate OwnRelease(e: Event, n: NodeId, z: NodeId) {
    e.Message? && e.from.id == n && e.m.Unlock? && e.m.node == z
  }

  ghost predicate AnnouncedInv(base: seq<Addr>, log: seq<Event>) {
    forall p :: 0 <= p < |log| && log[p].Message? ==> AnnouncedAt(base, log, p)
  }

  ghost predicate AnnouncedAt(base: seq<Addr>, log: seq<Event>, p: nat)
    requires p < |log| && log[p].Message?
  {
    ToAnnounced(RosterAt(base, log, p), log[p].m)
  }

  /** Whoever has been granted a lock, or has left, in the event at hand does not join again later. */
  lemma TouchedStaysAway(log: seq<Event>, h: Host, z: NodeId)
    requires h.idx < |log| && NewcomerInv(log, h) && Touches(log[h.idx], z) && z != h.node.id
    ensures !WillJoin(log, h.idx + 1, z)
  {
    forall p, x | h.idx < p < |log| && log[p].View? && x in Ids(log[p].joins) && x != h.node.id
      ensures !Touches(log[h.idx], x)
    {
      assert Unknown(log, h, p, x);
    }
  }

  // ---------- delivery ----------

  /** A daemon does not speak in the name of a node that has yet to join. */
  lemma DeliverNewcomer(log: seq<Event>, h: Host, order: seq<Resource>)
    requires NewcomerInv(log, h) && h.idx < |log|
    ensures NewcomerInv(log, HostDeliver(h, log[h.idx], order))
  {
    var k, sent := HostDeliver(h, log[h.idx], order), Handle(h.node, log[h.idx], order).sent;
    HandleSpeaks(h.node, log[h.idx], order);
    HandleId(h.node, log[h.idx], order);
    forall p, z | k.idx <= p < |log| && log[p].View? && z in Ids(log[p].joins) && z != k.node.id
      ensures Unknown(log, k, p, z)
    {
      assert Unknown(log, h, p, z);
      assert !Touches(log[h.idx], z);
      forall i | 0 <= i < |k.outbox| && k.outbox[i].Unlock? ensures k.outbox[i].node != z {
        if i < |h.outbox| {
          assert k.outbox[i] == h.outbox[i];
        } else {
          assert k.outbox[i] == sent[i - |h.outbox|] && Spoken(h.node, log[h.idx], sent[i - |h.outbox|]);
        }
      }
    }
  }

  // ---------- local steps ----------

  ghost predicate OwnReleases(n: Node, sent: seq<Msg>) {
    forall i :: 0 <= i < |sent| && sent[i].Unlock? ==> sent[i].node == n.id
  }

  lemma LocalNewcomer(log: seq<Event>, h: Host, k: Host, sent: seq<Msg>)
    requires NewcomerInv(log, h) && k.idx == h.idx && k.node.id == h.node.id && k.outbox == h.outbox + sent
    requires OwnReleases(h.node, sent)
    ensures NewcomerInv(log, k)
  {
    forall p, z | h.idx <= p < |log| && log[p].View? && z in Ids(log[p].joins) && z != k.node.id
      ensures Unknown(log, k, p, z)
    {
      assert Unknown(log, h, p, z);
      forall i | 0 <= i < |k.outbox| && k.outbox[i].Unlock? ensures k.outbox[i].node != z {
        assert k.outbox[i] == if i < |h.outbox| then h.outbox[i] else sent[i - |h.outbox|];
      }
    }
  }

  // ---------- the agreed order grows ----------

  lemma AppendNewcomer(log: seq<Event>, e: Event, h: Host)
    requires NewcomerInv(log, h) && h.idx <= |log|
    requires e.View? ==> forall z :: z in Ids(e.joins) ==> RecoveredHere(log, h, z)
    requires e.Message? && e.m.Unlock? && e.from.id == h.node.id ==>
      !WillJoin(log, h.idx, e.m.node) || e.m.node == h.node.id
    ensures NewcomerInv(log + [e], h)
  {
    var log' := log + [e];
    forall p, z | h.idx <= p < |log'| && log'[p].View? && z in Ids(log'[p].joins) && z != h.node.id
      ensures Unknown(log', h, p, z)
    {
      assert forall q :: h.idx <= q < |log| ==> log'[q] == log[q];
      if p < |log| {
        assert Unknown(log, h, p, z);
        assert WillJoin(log, h.idx, z);
      } else {
        assert RecoveredHere(log, h, z);
        forall q | h.idx <= q < |log'|
          ensures !OwnRelease(log'[q], h.node.id, z)
        {
          assert q < |log| ==> !Touches(log[q], z);
        }
      }
    }
  }

  /** The message just ordered is no release in the name of a node that has yet to join. */
  lemma SequenceNewcomer(log: seq<Event>, h: Host)
    requires NewcomerInv(log, h) && h.idx <= |log| && h.outbox != []
    ensures NewcomerInv(log + [Message(Self(h), h.outbox[0])], h.(outbox := h.outbox[1..]))
  {
    var e, k := Message(Self(h), h.outbox[0]), h.(outbox := h.outbox[1..]);
    assert forall i :: 0 <= i < |k.outbox| ==> k.outbox[i] == h.outbox[i + 1];
    forall p, z | h.idx <= p < |log| && log[p].View? && z in Ids(log[p].joins) && z != h.node.id
      ensures Unknown(log, k, p, z) && !OwnReleaseAhead(log, h, z)
    {
      assert Unknown(log, h, p, z);
    }
    AppendNewcomer(log, e, k);
  }

  lemma NewHostNewcomer(log: seq<Event>, e: Event, z: NodeId)
    requires e.View? && z in Ids(e.joins)
    ensures NewcomerInv(log + [e], NewHost(e.joins, z, |log|))
  {
    var log', h := log + [e], NewHost(e.joins, z, |log|);
    forall p, y | h.idx <= p < |log'| && log'[p].View? && y in Ids(log'[p].joins) && y != h.node.id
      ensures Unknown(log', h, p, y)
    {
      assert log'[|log|] == e && !OwnReleaseAhead(log', h, y);
    }
  }

  lemma AppendAnnounced(base: seq<Addr>, log: seq<Event>, e: Event)
    requires AnnouncedInv(base, log) && (e.Message? ==> ToAnnounced(RosterAt(base, log, |log|), e.m))
    ensures AnnouncedInv(base, log + [e])
  {
    forall p | 0 <= p < |log + [e]| && (log + [e])[p].Message? ensures AnnouncedAt(base, log + [e], p) {
      RosterPrefix(base, log, e, p);
      if p < |log| { assert AnnouncedAt(base, log, p); }
    }
  }
}
