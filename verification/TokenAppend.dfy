/**
 * The token invariant when the agreed order grows.
 */
module TokenAppend {
  import opened Types
  import opened Group
  import opened Cluster
  import opened Slices
  import opened Invariant

  /** Everything the invariant says about positions of the old log carries over. */
  lemma AppendFacts(base: seq<Addr>, log: seq<Event>, e: Event, r: Resource)
    ensures forall i :: 0 <= i <= |log| ==> RosterAt(base, log + [e], i) == RosterAt(base, log, i)
    ensures forall i :: 0 <= i <= |log| ==> RespAt(base, log + [e], r, i) == RespAt(base, log, r, i)
    ensures forall p :: 0 <= p < |log| ==> Takeover(base, log + [e], r, p) == Takeover(base, log, r, p)
  {
    forall i | 0 <= i <= |log| ensures RosterAt(base, log + [e], i) == RosterAt(base, log, i) {
      RosterPrefix(base, log, e, i);
    }
    forall i | 0 <= i <= |log| ensures RespAt(base, log + [e], r, i) == RespAt(base, log, r, i) {
      RespPrefix(base, log, e, r, i);
    }
    forall p | 0 <= p < |log| ensures Takeover(base, log + [e], r, p) == Takeover(base, log, r, p) {
      RespPrefix(base, log, e, r, p);
      RespPrefix(base, log, e, r, p + 1);
    }
  }

  lemma SameRelease(log: seq<Event>, e: Event, h: Host, p: nat, r: Resource, pid: Pid)
    requires h.idx <= p < |log|
    ensures ReleaseAt(log + [e], h, p, r, pid) <==> ReleaseAt(log, h, p, r, pid)
  {
    assert forall q :: 0 <= q < |log| ==> (log + [e])[q] == log[q];
  }

  lemma AppendReleasing(log: seq<Event>, e: Event, h: Host, r: Resource, pid: Pid)
    requires Releasing(log + [e], h, r, pid) && !IsRelease(e, r, h.node.id)
    ensures Releasing(log, h, r, pid)
  {
    if p :| h.idx <= p < |log + [e]| && ReleaseAt(log + [e], h, p, r, pid) {
      assert p < |log|;
      SameRelease(log, e, h, p, r, pid);
    }
  }

  /** An event that is neither a grant of r nor a release by this host. */
  lemma AppendOther(tidy: bool, base: seq<Addr>, log: seq<Event>, e: Event, h: Host, r: Resource)
    requires ResInv(tidy, base, log, h, r) && !IsGrant(e, r) && !IsRelease(e, r, h.node.id)
    requires tidy && e.View? && r in h.node.locks && h.node.locks[r].node in Ids(e.joins) ==>
      NoGrantFrom(log, h.idx, r) && NoGrantIn(Tokens(h.outbox, r))
    ensures ResInv(tidy, base, log + [e], h, r)
  {
    var log' := log + [e];
    AppendFacts(base, log, e, r);
    if r in h.node.locks { AppendAround(base, log, e, h.idx, h.node.locks[r].node); }
    assert forall p :: 0 <= p < |log| ==> log'[p] == log[p];
    forall pid | Releasing(log', h, r, pid) ensures Releasing(log, h, r, pid) { AppendReleasing(log, e, h, r, pid); }
    assert TakeInv(base, log', h, r) by {
      forall p | h.idx <= p < |log'| && Takeover(base, log', r, p) && RespAt(base, log', r, p + 1) == Some(h.node.id)
        ensures NoGrantFrom(log', p + 1, r)
      {
        if p < |log| {
          assert RespAt(base, log', r, p + 1) == RespAt(base, log, r, p + 1);
          assert NoGrantFrom(log, p + 1, r);
        }
      }
    }
    assert PotentInv(tidy, base, log', h, r) by {
      if Mine(base, log', h, r) && Potent(tidy, base, log', h, r) {
        assert Mine(base, log, h, r);
        assert Potent(tidy, base, log, h, r) || (e.View? && h.node.locks[r].node in Ids(e.joins));
      }
    }
  }

  /** Only a view brings somebody back. */
  lemma AppendAround(base: seq<Addr>, log: seq<Event>, e: Event, i: nat, z: NodeId)
    requires i <= |log|
    ensures Around(base, log + [e], i, z) ==> Around(base, log, i, z) || (e.View? && z in Ids(e.joins))
  {
    var log' := log + [e];
    RosterPrefix(base, log, e, i);
    if WillJoin(log', i, z) {
      var p :| i <= p < |log'| && log'[p].View? && z in Ids(log'[p].joins);
      if p < |log| { assert log[p] == log'[p]; }
    }
  }

  /** Whoever has nothing ahead while another node is responsible in the end is not responsible. */
  lemma NotMineNow(base: seq<Addr>, log: seq<Event>, h: Host, r: Resource, s: NodeId)
    requires Stays(log, h.idx, h.node.id) && h.idx <= |log|
    requires RespAt(base, log, r, |log|) == Some(s) && s != h.node.id
    ensures !(Mine(base, log, h, r) && NoGrantFrom(log, h.idx, r))
    ensures TakeInv(base, log, h, r) ==>
      forall p :: h.idx <= p < |log| && Takeover(base, log, r, p) ==> RespAt(base, log, r, p + 1) != Some(h.node.id)
  {
    if Mine(base, log, h, r) && NoGrantFrom(log, h.idx, r) {
      RespStays(base, log, r, h.idx, |log|, h.node.id);
      assert false;
    }
    forall p | TakeInv(base, log, h, r) && h.idx <= p < |log| && Takeover(base, log, r, p)
      ensures RespAt(base, log, r, p + 1) != Some(h.node.id)
    {
      if RespAt(base, log, r, p + 1) == Some(h.node.id) {
        assert NoGrantFrom(log, p + 1, r);
        RespStays(base, log, r, p + 1, |log|, h.node.id);
        assert false;
      }
    }
  }

  /** A release in this host's name, ordered by the responsible node s. */
  lemma AppendForeignRelease(tidy: bool, base: seq<Addr>, log: seq<Event>, e: Event, h: Host, r: Resource, s: NodeId)
    requires ResInv(tidy, base, log, h, r) && IsRelease(e, r, h.node.id) && Stays(log, h.idx, h.node.id)
    requires RespAt(base, log, r, |log|) == Some(s) && s != h.node.id
    ensures ResInv(tidy, base, log + [e], h, r)
  {
    var log' := log + [e];
    AppendFacts(base, log, e, r);
    if r in h.node.locks { AppendAround(base, log, e, h.idx, h.node.locks[r].node); }
    NotMineNow(base, log, h, r, s);
    assert forall p :: 0 <= p < |log| ==> log'[p] == log[p];
    assert !HoldsRes(h, r);
    assert forall x :: x in h.holds && x.res == r ==> HoldsRes(h, r);
    forall pid | Releasing(log', h, r, pid) && !NoGrantFrom(log, h.idx, r) ensures Releasing(log, h, r, pid) {
      ForeignRelease(log, e, h, r, pid);
    }
    assert PotentInv(tidy, base, log', h, r) by {
      if Mine(base, log', h, r) && Potent(tidy, base, log', h, r) {
        assert Potent(tidy, base, log, h, r);
        assert false;
      }
    }
    assert TakeInv(base, log', h, r) by {
      forall p | h.idx <= p < |log'| && Takeover(base, log', r, p) && RespAt(base, log', r, p + 1) == Some(h.node.id)
        ensures NoGrantFrom(log', p + 1, r)
      {
        if p < |log| { assert false; }
      }
    }
    forall p | h.idx <= p < |log| && IsGrant(log[p], r) ensures RespAt(base, log, r, p + 1) != Some(h.node.id) {
      assert Takeover(base, log, r, p);
    }
    assert ReleaseInv(base, log', h, r);
  }

  /** Behind a grant the host has not seen, a release does not count. */
  lemma ForeignRelease(log: seq<Event>, e: Event, h: Host, r: Resource, pid: Pid)
    requires h.idx <= |log| && Releasing(log + [e], h, r, pid) && !NoGrantFrom(log, h.idx, r)
    ensures Releasing(log, h, r, pid)
  {
    if p :| h.idx <= p < |log + [e]| && ReleaseAt(log + [e], h, p, r, pid) {
      var q :| h.idx <= q < |log| && IsGrant(log[q], r);
      assert (log + [e])[q] == log[q];
      SameRelease(log, e, h, p, r, pid);
    }
  }

  /** A grant of r ordered by the responsible node s: every other host had nothing. */
  lemma AppendGrantOther(tidy: bool, base: seq<Addr>, log: seq<Event>, e: Event, h: Host, r: Resource, s: NodeId)
    requires ResInv(tidy, base, log, h, r) && IsGrant(e, r) && Stays(log, h.idx, h.node.id)
    requires RespAt(base, log, r, |log|) == Some(s) && s != h.node.id
    ensures ResInv(tidy, base, log + [e], h, r)
  {
    NotMineNow(base, log, h, r, s);
    GrantAppended(tidy, base, log, e, h, r);
  }

  /** A host with no token keeps the invariant when a grant is ordered. */
  lemma GrantAppended(tidy: bool, base: seq<Addr>, log: seq<Event>, e: Event, h: Host, r: Resource)
    requires ResInv(tidy, base, log, h, r) && IsGrant(e, r)
    requires Tokens(h.outbox, r) == [] && !(Mine(base, log, h, r) && Potent(tidy, base, log, h, r))
    requires forall p :: h.idx <= p < |log| && Takeover(base, log, r, p) ==>
      RespAt(base, log, r, p + 1) != Some(h.node.id)
    ensures ResInv(tidy, base, log + [e], h, r)
  {
    var log' := log + [e];
    AppendFacts(base, log, e, r);
    if r in h.node.locks { AppendAround(base, log, e, h.idx, h.node.locks[r].node); }
    assert forall p :: 0 <= p < |log| ==> log'[p] == log[p];
    forall pid | Releasing(log', h, r, pid) ensures Releasing(log, h, r, pid) { AppendReleasing(log, e, h, r, pid); }
    assert PotentInv(tidy, base, log', h, r) by {
      if Mine(base, log', h, r) && Potent(tidy, base, log', h, r) {
        assert false;
      }
    }
    assert TakeInv(base, log', h, r) by {
      forall p | h.idx <= p < |log'| && Takeover(base, log', r, p) && RespAt(base, log', r, p + 1) == Some(h.node.id)
        ensures NoGrantFrom(log', p + 1, r)
      {
        if p < |log| { assert false; }
      }
    }
  }

  // ---------- the sender ----------

  lemma TokensTail(ms: seq<Msg>, r: Resource)
    requires ms != []
    ensures Tokens(ms, r) == (if IsToken(ms[0], r) then [ms[0]] else []) + Tokens(ms[1..], r)
  {
  }

  lemma OnlyGrant(base: seq<Addr>, log: seq<Event>, h: Host, r: Resource)
    requires OutInv(base, log, h, r)
    requires h.outbox != [] && h.outbox[0].Grant? && h.outbox[0].res == r
    ensures Mine(base, log, h, r) && NoGrantFrom(log, h.idx, r)
    ensures Tokens(h.outbox[1..], r) == [] && !NoGrantIn(Tokens(h.outbox, r))
  {
    TokensTail(h.outbox, r);
    var ts := Tokens(h.outbox, r);
    assert ts[0] == h.outbox[0];
  }

  lemma NothingTaken(base: seq<Addr>, log: seq<Event>, r: Resource, i: nat, n: NodeId)
    requires i <= |log| && Stays(log, i, n) && NoGrantFrom(log, i, r) && RespAt(base, log, r, i) == Some(n)
    ensures forall p :: i <= p < |log| ==> !Takeover(base, log, r, p)
  {
    forall p | i <= p < |log| ensures !Takeover(base, log, r, p) {
      RespStays(base, log, r, i, p, n);
      RespStays(base, log, r, i, p + 1, n);
    }
  }

  lemma SequenceGrant(tidy: bool, base: seq<Addr>, log: seq<Event>, h: Host, r: Resource)
    requires ResInv(tidy, base, log, h, r) && Stays(log, h.idx, h.node.id)
    requires h.outbox != [] && h.outbox[0].Grant? && h.outbox[0].res == r
    ensures ResInv(tidy, base, log + [Message(Self(h), h.outbox[0])], h.(outbox := h.outbox[1..]), r)
  {
    var k := h.(outbox := h.outbox[1..]);
    OnlyGrant(base, log, h, r);
    RespStays(base, log, r, h.idx, |log|, h.node.id);
    NothingTaken(base, log, r, h.idx, h.node.id);
    DropToken(tidy, base, log, h, k, r);
    GrantAppended(tidy, base, log, Message(Self(h), h.outbox[0]), k, r);
  }

  /** Whoever has a token for r in its outbox is responsible in the end. */
  lemma SenderResponsible(base: seq<Addr>, log: seq<Event>, h: Host, r: Resource)
    requires OutInv(base, log, h, r) && Stays(log, h.idx, h.node.id) && h.outbox != [] && IsToken(h.outbox[0], r)
    ensures RespAt(base, log, r, |log|) == Some(h.node.id)
  {
    TokensTail(h.outbox, r);
    RespStays(base, log, r, h.idx, |log|, h.node.id);
  }

  /** Taking tokens out of the outbox keeps the invariant. */
  lemma DropToken(tidy: bool, base: seq<Addr>, log: seq<Event>, h: Host, k: Host, r: Resource)
    requires ResInv(tidy, base, log, h, r)
    requires k == h.(outbox := k.outbox) && Tokens(k.outbox, r) == []
    ensures ResInv(tidy, base, log, k, r)
    ensures Potent(tidy, base, log, k, r) ==> Potent(tidy, base, log, h, r)
  {
    forall pid | Releasing(log, k, r, pid) ensures Releasing(log, h, r, pid) { ReleasingBefore(log, h, k, r, pid); }
    assert HoldsRes(k, r) ==> HoldsRes(h, r);
    assert Potent(tidy, base, log, k, r) ==> Potent(tidy, base, log, h, r);
  }

  lemma SequenceRelease(tidy: bool, base: seq<Addr>, log: seq<Event>, h: Host, r: Resource)
    requires ResInv(tidy, base, log, h, r) && Stays(log, h.idx, h.node.id)
    requires h.outbox != [] && h.outbox[0].Unlock? && h.outbox[0].res == r
    ensures ResInv(tidy, base, log + [Message(Self(h), h.outbox[0])], h.(outbox := h.outbox[1..]), r)
  {
    var e, k := Message(Self(h), h.outbox[0]), h.(outbox := h.outbox[1..]);
    var log' := log + [e];
    TokensTail(h.outbox, r);
    var ts, tail := Tokens(h.outbox, r), Tokens(k.outbox, r);
    assert ts == [h.outbox[0]] + tail;
    AppendFacts(base, log, e, r);
    if r in h.node.locks { AppendAround(base, log, e, h.idx, h.node.locks[r].node); }
    assert forall p :: 0 <= p < |log| ==> log'[p] == log[p];
    assert NoGrantFrom(log', h.idx, r);
    forall pid | Releasing(log', k, r, pid) ensures Releasing(log, h, r, pid) {
      MovedRelease(log, h, r, pid);
    }
    if tail != [] { assert tail[..|tail| - 1] == ts[..|ts| - 1][1..]; }
    assert PotentInv(tidy, base, log', k, r) by {
      if Mine(base, log', k, r) && Potent(tidy, base, log', k, r) {
        assert Mine(base, log, h, r) && Potent(tidy, base, log, h, r);
        assert forall i :: 0 <= i < |tail| ==> tail[i] == ts[i + 1];
      }
    }
    assert TakeInv(base, log', k, r) by {
      forall p | h.idx <= p < |log'| && Takeover(base, log', r, p) && RespAt(base, log', r, p + 1) == Some(k.node.id)
        ensures NoGrantFrom(log', p + 1, r)
      {
      }
    }
    assert OutInv(base, log', k, r);
  }

  lemma MovedRelease(log: seq<Event>, h: Host, r: Resource, pid: Pid)
    requires h.outbox != [] && h.outbox[0].Unlock? && h.outbox[0].res == r
    requires Releasing(log + [Message(Self(h), h.outbox[0])], h.(outbox := h.outbox[1..]), r, pid)
    ensures Releasing(log, h, r, pid)
  {
    var e, k := Message(Self(h), h.outbox[0]), h.(outbox := h.outbox[1..]);
    var log' := log + [e];
    TokensTail(h.outbox, r);
    if t :| t in Tokens(k.outbox, r) && t.Unlock? && t.node == h.node.id && t.pid == pid {
      assert t in Tokens(h.outbox, r);
    } else {
      var p :| h.idx <= p < |log'| && ReleaseAt(log', k, p, r, pid);
      if p < |log| {
        SameRelease(log, e, h, p, r, pid);
        assert ReleaseAt(log', h, p, r, pid);
      } else {
        assert h.outbox[0] in Tokens(h.outbox, r);
      }
    }
  }

  lemma SequenceOther(tidy: bool, base: seq<Addr>, log: seq<Event>, h: Host, r: Resource)
    requires ResInv(tidy, base, log, h, r) && h.outbox != [] && !IsToken(h.outbox[0], r)
    ensures ResInv(tidy, base, log + [Message(Self(h), h.outbox[0])], h.(outbox := h.outbox[1..]), r)
  {
    var e, k := Message(Self(h), h.outbox[0]), h.(outbox := h.outbox[1..]);
    TokensTail(h.outbox, r);
    assert Tokens(k.outbox, r) == Tokens(h.outbox, r);
    StillStep(tidy, base, log, h, k, r);
    AppendOther(tidy, base, log, e, k, r);
  }

  lemma SequenceRes(tidy: bool, base: seq<Addr>, log: seq<Event>, h: Host, r: Resource)
    requires ResInv(tidy, base, log, h, r) && Stays(log, h.idx, h.node.id) && h.outbox != []
    ensures ResInv(tidy, base, log + [Message(Self(h), h.outbox[0])], h.(outbox := h.outbox[1..]), r)
  {
    if !IsToken(h.outbox[0], r) { SequenceOther(tidy, base, log, h, r); }
    else if h.outbox[0].Grant? { SequenceGrant(tidy, base, log, h, r); }
    else { SequenceRelease(tidy, base, log, h, r); }
  }

  lemma NewHostRes(tidy: bool, base: seq<Addr>, log: seq<Event>, e: Event, z: NodeId, r: Resource)
    requires e.View?
    ensures ResInv(tidy, base, log + [e], NewHost(e.joins, z, |log|), r)
  {
    var h := NewHost(e.joins, z, |log|);
    TokensTail(h.outbox, r);
    assert h.outbox[1..] == [];
    assert Tokens(h.outbox, r) == [];
  }
}
