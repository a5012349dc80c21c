/**
 * Try-locks in a fixed group: who is refused, and what a refusal is worth.
 */
module RefusalTheorems {
  import opened Types
  import opened Protocol
  import opened Group
  import opened Cluster
  import opened Slices
  import opened Invariant
  import opened TokenLocal
  import opened Runs
  import opened Safety
  import opened LocalState
  import opened CrashTheorems
  import opened Replica
  import opened FixedGroup
  import opened FixedRuns
  import opened Fifo
  import opened Refusal

  lemma FormedRefuse(base: seq<Addr>)
    requires Distinct(IdSeq(base)) && 0 !in Ids(base)
    ensures RefuseInv(Formed(base))
  {
    FormedFixed(base);
    forall n | n in Ids(base) ensures RefuseHost([], Formed(base).hosts[n]) {
      var h := Formed(base).hosts[n];
      assert h.idx == 0 && h.node.locks == map[] && h.outbox == [];
    }
  }

  lemma ReachesRefuse(base: seq<Addr>, run: seq<Step>, s: Sys)
    requires Reaches(Fixed, base, run, s)
    ensures RefuseInv(s)
  {
    FormedRefuse(base);
    RunRefuse(Formed(base), run);
  }

  /** Every refusal answers an earlier try-request that met a lock with an owner and in use. */
  lemma RefusedOnlyIf(base: seq<Addr>, run: seq<Step>, s: Sys, p: nat) returns (a: nat)
    requires Reaches(Fixed, base, run, s) && p < |s.log| && s.log[p].Message? && s.log[p].m.Nak?
    ensures a < p && IsAsk(s.log[a], MsgKey(s.log[p].m)) && s.log[a].m.isTry && Refusable(s.log, a)
  {
    ReachesRefuse(base, run, s);
    assert Justified(s.log, MsgKey(s.log[p].m), p);
    a :| 0 <= a < p && a < |s.log| && IsAsk(s.log[a], MsgKey(s.log[p].m)) && Refusable(s.log, a);
  }

  /** Once everything sent is delivered, a request has been refused if and only if it is a try that met a busy lock. */
  lemma RefusedExactly(base: seq<Addr>, run: seq<Step>, s: Sys, a: nat)
    requires Reaches(Fixed, base, run, s) && Quiescent(s) && a < |s.log| && s.log[a].Message? && s.log[a].m.Lock?
    ensures (exists p :: 0 <= p < |s.log| && IsNak(s.log[p], MsgKey(s.log[a].m))) <==> Refusable(s.log, a)
  {
    ReachesRefuse(base, run, s);
    var k := MsgKey(s.log[a].m);
    assert IsAsk(s.log[a], k);
    if p :| 0 <= p < |s.log| && IsNak(s.log[p], k) {
      var b := RefusedOnlyIf(base, run, s, p);
    }
    if Refusable(s.log, a) { RefusalSent(s, a); }
  }

  lemma RefusalSent(s: Sys, a: nat)
    requires RefuseInv(s) && Quiescent(s) && Refusable(s.log, a)
    ensures exists p :: 0 <= p < |s.log| && IsNak(s.log[p], MsgKey(s.log[a].m))
  {
    var n := Replay(s.log, a).table[s.log[a].m.res].node;
    OwnerServes(s, s.log[a].m.res, a);
    RefusalOrdered(s.log, s.hosts[n], a);
  }

  /** The owner of a lock that has one is a member of the group. */
  lemma OwnerServes(s: Sys, r: Resource, a: nat)
    requires FixedInv(s) && a <= |s.log| && r in Replay(s.log, a).table && Replay(s.log, a).table[r].node != 0
    ensures Replay(s.log, a).table[r].node in s.hosts
    ensures s.hosts[Replay(s.log, a).table[r].node].node.id == Replay(s.log, a).table[r].node
  {
    var n := Replay(s.log, a).table[r].node;
    RespOfReplay(s.base, s.log, r, a);
    var i :| 0 <= i < |s.base| && IdSeq(s.base)[i] == n;
    assert s.base[i].id == n;
  }

  lemma RefusalOrdered(log: seq<Event>, h: Host, a: nat)
    requires RefuseHost(log, h) && h.outbox == [] && h.idx == |log| && Refusable(log, a)
    requires Replay(log, a).table[log[a].m.res].node == h.node.id
    ensures exists p :: 0 <= p < |log| && IsNak(log[p], MsgKey(log[a].m))
  {
    assert RefusedAt(log, h, a);
  }

  /**
   * A request that has been refused can still be granted, but only together with the refusal: the
   * refusal is ordered behind every grant of the resource before the one it gets. So a refusal that
   * is ordered before some grant of the resource to somebody else is final.
   */
  lemma RefusalFinal(base: seq<Addr>, run: seq<Step>, s: Sys, p: nat, g: nat, q: nat)
    requires Reaches(Fixed, base, run, s) && p < |s.log| && q < g < |s.log|
    requires s.log[g].Message? && s.log[g].m.Grant? && IsNak(s.log[p], MsgKey(s.log[g].m))
    requires IsGrant(s.log[q], s.log[g].m.res)
    ensures q < p
  {
    ReachesRefuse(base, run, s);
  }

  /** Whoever sends a grant has not been delivered a refusal of that request. */
  lemma GrantedUnseen(base: seq<Addr>, run: seq<Step>, s: Sys, t: Step, m: Msg)
    requires Reaches(Fixed, base, run, s) && May(Fixed, s, t) && (t.AskUnlock? || t.Deliver?) && m.Grant?
    requires Apply(s, t).hosts[t.n].outbox == s.hosts[t.n].outbox + [m]
    ensures var k := Apply(s, t).hosts[t.n];
      k.idx <= |s.log| && forall p :: 0 <= p < k.idx ==> !IsNak(s.log[p], MsgKey(m))
  {
    ReachesRefuse(base, run, s);
    StepFixed(s, t);
    SenderUnseen(s, t, m, Apply(s, t));
  }

  lemma SenderUnseen(s: Sys, t: Step, m: Msg, u: Sys)
    requires RefuseInv(s) && May(Fixed, s, t) && (t.AskUnlock? || t.Deliver?) && m.Grant? && u == Apply(s, t)
    requires FixedInv(u) && u.hosts[t.n].outbox == s.hosts[t.n].outbox + [m]
    ensures var k := u.hosts[t.n];
      k.idx <= |s.log| && forall p :: 0 <= p < k.idx ==> !IsNak(s.log[p], MsgKey(m))
  {
    if t.Deliver? { DelivererPicks(s, t, m, u); } else { UnlockerPicks(s, t, m, u); }
    NoNakSeen(s.log, u.hosts[t.n], MsgKey(m));
  }

  /** The request granted is the first of its key's in the sender's queue. */
  lemma UnlockerPicks(s: Sys, t: Step, m: Msg, u: Sys)
    requires FixedInv(s) && May(Fixed, s, t) && t.AskUnlock? && m.Grant? && u == Apply(s, t)
    requires FixedInv(u) && u.hosts[t.n].outbox == s.hosts[t.n].outbox + [m]
    ensures var k := u.hosts[t.n];
      k.idx <= |s.log| && Agrees(k.node, Replay(s.log, k.idx)) && FirstFor(k.node.requests, MsgKey(m))
  {
    var h, k := s.hosts[t.n], u.hosts[t.n];
    assert FixedHost(s.base, s.log, h) && FixedHost(s.base, s.log, k);
    assert HostInv(true, s.base, s.log, h) && HostInv(true, s.base, s.log, k);
    UnlockPicks(s.base, s.log, h, t.hold, t.order, m);
  }

  lemma DelivererPicks(s: Sys, t: Step, m: Msg, u: Sys)
    requires FixedInv(s) && May(Fixed, s, t) && t.Deliver? && m.Grant? && u == Apply(s, t)
    requires FixedInv(u) && u.hosts[t.n].outbox == s.hosts[t.n].outbox + [m]
    ensures var k := u.hosts[t.n];
      k.idx <= |s.log| && Agrees(k.node, Replay(s.log, k.idx)) && FirstFor(k.node.requests, MsgKey(m))
  {
    var h, k := s.hosts[t.n], u.hosts[t.n];
    assert FixedHost(s.base, s.log, h) && FixedHost(s.base, s.log, k);
    assert ResInv(true, s.base, s.log, k, m.res);
    OrdinaryMessage(s, t.n);
    DeliverPicks(s.base, s.log, h, t.order, m);
  }

  lemma UnlockPicks(base: seq<Addr>, log: seq<Event>, h: Host, hold: Hold, order: seq<Resource>, m: Msg)
    requires FixedHost(base, log, h) && HostInv(true, base, log, h) && hold in h.holds && IsWalk(h.node.locks, order)
    requires m.Grant?
    requires var k := HostAskUnlock(h, hold, order); k.outbox == h.outbox + [m] && HostInv(true, base, log, k)
    ensures FirstFor(HostAskUnlock(h, hold, order).node.requests, MsgKey(m))
  {
    var k, release := HostAskUnlock(h, hold, order), Unlock(hold.res, h.node.id, hold.pid, hold.tid);
    assert ResInv(true, base, log, h, hold.res);
    HoldResolves(log, h, hold, order);
    GrantOrSlice(h.node, hold.res, release);
    assert k.outbox[|h.outbox|] == GrantOr(h.node, hold.res, release).sent[0];
    assert ResInv(true, base, log, k, m.res);
    JustGranted(base, log, h, k, m);
    NothingMarked(base, log, h, hold.res);
    GrantNextFirst(h.node, hold.res);
  }

  lemma DeliverPicks(base: seq<Addr>, log: seq<Event>, h: Host, order: seq<Resource>, m: Msg)
    requires CleanLog(log) && h.idx < |log| && h.node.joined && MarksInv(log, h) && Ordinary(h.node, log[h.idx].m)
    requires var k := HostDeliver(h, log[h.idx], order);
      m.Grant? && k.outbox == h.outbox + [m] && ResInv(true, base, log, k, m.res)
    ensures FirstFor(HostDeliver(h, log[h.idx], order).node.requests, MsgKey(m))
  {
    var e, k := log[h.idx], HostDeliver(h, log[h.idx], order);
    var o := ProcessMessage(h.node, e.from, e.m);
    assert o.sent == [m] by { assert k.outbox[|h.outbox|..] == o.sent; }
    GrantsFirst(base, log, h, o, k, m);
  }
}
