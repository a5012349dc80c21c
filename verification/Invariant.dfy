/**
 * The invariant behind mutual exclusion.
 *
 * For every resource and every daemon: whatever could lead the daemon to grant the
 * resource implies that the daemon is the responsible node at its own position of
 * the agreed order, and that no grant for the resource lies ahead of that position.
 */
module Invariant {
  import opened Types
  import opened Group
  import opened Cluster
  import opened Slices

  // ---------- one host, one resource ----------

  ghost predicate Mine(base: seq<Addr>, log: seq<Event>, h: Host, r: Resource) {
    h.idx <= |log| && h.node.joined && RespAt(base, log, r, h.idx) == Some(h.node.id)
  }

  ghost predicate HoldsRes(h: Host, r: Resource) {
    exists x :: x in h.holds && x.res == r
  }

  ghost predicate Releasing(log: seq<Event>, h: Host, r: Resource, pid: Pid) {
    || (exists t :: t in Tokens(h.outbox, r) && t.Unlock? && t.node == h.node.id && t.pid == pid)
    || (exists p :: h.idx <= p < |log| && ReleaseAt(log, h, p, r, pid))
  }

  /** The release at p comes before every grant the daemon has not seen. */
  ghost predicate ReleaseAt(log: seq<Event>, h: Host, p: nat, r: Resource, pid: Pid)
    requires h.idx <= p < |log|
  {
    IsRelease(log[p], r, h.node.id) && log[p].m.pid == pid && forall q :: h.idx <= q < p ==> !IsGrant(log[q], r)
  }

  /**
   * The daemon may still come to grant r without being granted it first. A lock recorded as
   * another node's counts in tidy runs only, where every view in which that node leaves may recover it.
   */
  ghost predicate Potent(tidy: bool, base: seq<Addr>, log: seq<Event>, h: Host, r: Resource)
    requires h.idx <= |log|
  {
    r in h.node.locks ==>
      var l := h.node.locks[r];
      if l.node == h.node.id then
        l.state.Free? || (l.state.Held? && (HoldsRes(h, r) || Releasing(log, h, r, l.pid)))
      else tidy && Around(base, log, h.idx, l.node)
  }

  ghost predicate NoGrantIn(ts: seq<Msg>) {
    forall i :: 0 <= i < |ts| ==> !ts[i].Grant?
  }

  /** Either this host's table names the responsible node, or that node is no younger than the host. */
  ghost predicate LabelInv(base: seq<Addr>, log: seq<Event>, h: Host, r: Resource)
    requires h.idx <= |log|
  {
    h.node.joined ==>
      var who := RespAt(base, log, r, h.idx);
      || (r in h.node.locks && who == Some(h.node.locks[r].node))
      || (who.Some? && (who.value == h.node.id || Older(RosterAt(base, log, h.idx).age, who.value, h.node.id)))
  }

  ghost predicate SelfInv(base: seq<Addr>, log: seq<Event>, h: Host, r: Resource) {
    r in h.node.locks && h.node.locks[r].node == h.node.id ==> Mine(base, log, h, r)
  }

  ghost predicate OutInv(base: seq<Addr>, log: seq<Event>, h: Host, r: Resource) {
    var ts := Tokens(h.outbox, r);
    ts != [] ==> Mine(base, log, h, r) && NoGrantFrom(log, h.idx, r) && NoGrantIn(ts[..|ts| - 1])
  }

  ghost predicate PotentInv(tidy: bool, base: seq<Addr>, log: seq<Event>, h: Host, r: Resource) {
    Mine(base, log, h, r) && Potent(tidy, base, log, h, r) ==>
      NoGrantFrom(log, h.idx, r) && NoGrantIn(Tokens(h.outbox, r))
  }

  ghost predicate TakeInv(base: seq<Addr>, log: seq<Event>, h: Host, r: Resource) {
    forall p :: h.idx <= p < |log| && Takeover(base, log, r, p) && RespAt(base, log, r, p + 1) == Some(h.node.id) ==>
      NoGrantFrom(log, p + 1, r)
  }

  /** Releases of this host's own locks are never ordered behind a grant to it that it has not seen. */
  ghost predicate ReleaseInv(base: seq<Addr>, log: seq<Event>, h: Host, r: Resource) {
    forall p, q :: h.idx <= p < q < |log| && IsGrant(log[p], r) && RespAt(base, log, r, p + 1) == Some(h.node.id) ==>
      !IsRelease(log[q], r, h.node.id)
  }

  ghost predicate HoldInv(log: seq<Event>, h: Host, r: Resource) {
    forall x :: x in h.holds && x.res == r ==>
      && HeldBy(h.node, r, x.pid)
      && h.node.locks[r].tid == x.tid
      && h.node.locks[r].localId == x.id
      && !Releasing(log, h, r, x.pid)
  }

  ghost predicate ResInv(tidy: bool, base: seq<Addr>, log: seq<Event>, h: Host, r: Resource) {
    && h.idx <= |log|
    && LabelInv(base, log, h, r)
    && SelfInv(base, log, h, r)
    && OutInv(base, log, h, r)
    && PotentInv(tidy, base, log, h, r)
    && TakeInv(base, log, h, r)
    && ReleaseInv(base, log, h, r)
    && HoldInv(log, h, r)
  }

  // ---------- the three ways a host can change with respect to a resource ----------

  ghost predicate NoNewHolds(h: Host, k: Host, r: Resource) {
    forall x: Hold :: x.res == r && x in k.holds ==> x in h.holds
  }

  /** The host is responsible afterwards, nothing lies ahead, and it sends at most one message. */
  lemma ActStep(tidy: bool, base: seq<Addr>, log: seq<Event>, h: Host, k: Host, r: Resource, ts: seq<Msg>)
    requires ResInv(tidy, base, log, h, r)
    requires h.idx <= k.idx <= |log| && k.node.id == h.node.id
    requires Tokens(k.outbox, r) == Tokens(h.outbox, r) + ts && |ts| <= 1
    requires NoGrantIn(Tokens(h.outbox, r)) && NoGrantFrom(log, k.idx, r)
    requires Mine(base, log, k, r)
    requires NoGrantIn(ts) || !Potent(tidy, base, log, k, r)
    requires HoldInv(log, k, r)
    ensures ResInv(tidy, base, log, k, r)
  {
    var before, all := Tokens(h.outbox, r), Tokens(k.outbox, r);
    if all != [] {
      if ts == [] { assert all == before; } else { assert all[..|all| - 1] == before; }
    }
  }

  /** The same owner in both tables, and the same entry if the owner is the daemon itself. */
  predicate SameLabel(a: Node, b: Node, r: Resource) {
    && (r in a.locks <==> r in b.locks)
    && (r in a.locks ==> a.locks[r].node == b.locks[r].node)
    && (r in a.locks && a.locks[r].node == a.id ==> a.locks[r] == b.locks[r])
  }

  lemma ReleasingBefore(log: seq<Event>, h: Host, k: Host, r: Resource, pid: Pid)
    requires h.idx <= k.idx && k.node.id == h.node.id && Releasing(log, k, r, pid)
    requires forall t :: t in Tokens(k.outbox, r) && t.Unlock? ==> t in Tokens(h.outbox, r)
    requires forall q :: h.idx <= q < k.idx && q < |log| ==> !IsGrant(log[q], r)
    ensures Releasing(log, h, r, pid)
  {
    if p :| k.idx <= p < |log| && ReleaseAt(log, k, p, r, pid) { assert ReleaseAt(log, h, p, r, pid); }
  }

  /** Nothing about r changes at the host, except perhaps the state of a lock owned elsewhere. */
  lemma StillStep(tidy: bool, base: seq<Addr>, log: seq<Event>, h: Host, k: Host, r: Resource)
    requires ResInv(tidy, base, log, h, r)
    requires h.idx <= k.idx <= |log| && k.node.id == h.node.id && k.node.joined == h.node.joined
    requires SameLabel(h.node, k.node, r) && NoNewHolds(h, k, r)
    requires Tokens(k.outbox, r) == Tokens(h.outbox, r)
    requires forall q :: h.idx <= q < k.idx ==> !IsGrant(log[q], r)
    requires RespAt(base, log, r, k.idx) == RespAt(base, log, r, h.idx)
    requires var who := RespAt(base, log, r, h.idx);
      who.Some? && Older(RosterAt(base, log, h.idx).age, who.value, h.node.id) ==>
        Older(RosterAt(base, log, k.idx).age, who.value, h.node.id)
    ensures ResInv(tidy, base, log, k, r)
  {
    if r in k.node.locks && Around(base, log, k.idx, k.node.locks[r].node) {
      AroundBefore(base, log, h.idx, k.idx, k.node.locks[r].node);
    }
    forall pid | Releasing(log, k, r, pid) ensures Releasing(log, h, r, pid) { ReleasingBefore(log, h, k, r, pid); }
    assert HoldsRes(k, r) ==> HoldsRes(h, r);
    if Mine(base, log, k, r) && Potent(tidy, base, log, k, r) {
      assert Mine(base, log, h, r) && Potent(tidy, base, log, h, r);
    }
  }

  /** The host stays responsible, and its table records somebody else as the owner. */
  lemma InertStep(base: seq<Addr>, log: seq<Event>, h: Host, k: Host, r: Resource)
    requires ResInv(false, base, log, h, r) && Mine(base, log, h, r)
    requires h.idx <= k.idx <= |log| && k.node.id == h.node.id
    requires Mine(base, log, k, r) && !HoldsRes(k, r) && Tokens(k.outbox, r) == Tokens(h.outbox, r)
    requires r in k.node.locks && k.node.locks[r].node != k.node.id
    ensures ResInv(false, base, log, k, r)
  {
    assert forall x :: x in k.holds && x.res == r ==> HoldsRes(k, r);
  }

  /** The host is not responsible afterwards and has nothing on its way. */
  lemma IdleStep(tidy: bool, base: seq<Addr>, log: seq<Event>, h: Host, k: Host, r: Resource)
    requires ResInv(tidy, base, log, h, r)
    requires h.idx <= k.idx <= |log| && k.node.id == h.node.id
    requires !Mine(base, log, k, r)
    requires r in k.node.locks ==> k.node.locks[r].node != k.node.id
    requires !HoldsRes(k, r) && Tokens(k.outbox, r) == []
    requires LabelInv(base, log, k, r)
    ensures ResInv(tidy, base, log, k, r)
  {
    assert forall x :: x in k.holds && x.res == r ==> HoldsRes(k, r);
  }

  /** A grant for r that has not been delivered here rules out every token here. */
  lemma GrantAheadMeansNothing(tidy: bool, base: seq<Addr>, log: seq<Event>, h: Host, r: Resource)
    requires ResInv(tidy, base, log, h, r) && !NoGrantFrom(log, h.idx, r)
    ensures Tokens(h.outbox, r) == [] && !HoldsRes(h, r)
    ensures !(Mine(base, log, h, r) && Potent(tidy, base, log, h, r))
  {
  }
}
