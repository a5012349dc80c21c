/**
 * Releases take effect, also while members leave: a daemon that is delivered a release finds the
 * lock held by exactly the process it names, unless the daemon sent the release itself when it gave
 * up the lock of a member that is gone. In a fixed group it always finds it held.
 */
module Release {
  import opened Types
  import opened Protocol
  import opened Group
  import opened Cluster
  import opened Slices
  import opened Membership
  import opened Structure
  import opened Newcomers
  import opened Invariant
  import opened TokenSlices
  import opened TokenLocal
  import opened Runs
  import opened Safety
  import opened Theorems
  import opened ViewGuard
  import opened Claims
  import opened Survivors
  import opened LocalState
  import opened Askers
  import opened CrashSteps
  import opened CrashRuns
  import opened Replica
  import opened FixedGroup
  import opened FixedRuns
  import opened FixedTheorems

  // ---------- who holds the lock, by the agreed order ----------

  function ClaimAt(base: seq<Addr>, log: seq<Event>, i: nat, r: Resource): Option<Claim>
    requires i <= |log|
  {
    LedgerAt(Ledger(base, None), 0, log, r, i).claim
  }

  function Named(m: Msg): Option<Claim>
    requires m.Unlock?
  {
    Some(Claim(true, m.node, m.pid))
  }

  /** From i to j the lock is held by the process the release names. */
  ghost predicate HeldDuring(base: seq<Addr>, log: seq<Event>, i: nat, j: nat, m: Msg)
    requires m.Unlock?
  {
    j <= |log| && forall x :: i <= x <= j ==> ClaimAt(base, log, x, m.res) == Named(m)
  }

  /** The event does not concern the holder. */
  predicate Spares(e: Event, r: Resource, node: NodeId) {
    match e
    case Message(_, m) => !IsToken(m, r)
    case View(_, left, _) => node !in Ids(left)
  }

  lemma {:induction false} OthersLeave(c: Ledger, left: seq<Addr>)
    requires c.claim.Some? && c.claim.value.node !in Ids(left)
    ensures LedgerLeaveAll(c, left).claim == c.claim
  {
    if left != [] {
      IdsSplit(left);
      OthersLeave(c, left[..|left| - 1]);
    }
  }

  /** Departures pass a held lock on as a held one. */
  lemma {:induction false} LeaveKeepsHeld(c: Ledger, left: seq<Addr>)
    requires c.claim.Some?
    ensures LedgerLeaveAll(c, left).claim.Some? && LedgerLeaveAll(c, left).claim.value.held == c.claim.value.held
  {
    if left != [] { LeaveKeepsHeld(c, left[..|left| - 1]); }
  }

  lemma SparedStays(base: seq<Addr>, log: seq<Event>, i: nat, r: Resource)
    requires i < |log| && ClaimAt(base, log, i, r).Some? && Spares(log[i], r, ClaimAt(base, log, i, r).value.node)
    ensures ClaimAt(base, log, i + 1, r) == ClaimAt(base, log, i, r)
  {
    if log[i].View? { OthersLeave(LedgerAt(Ledger(base, None), 0, log, r, i), log[i].left); }
  }

  lemma {:induction false} HeldOn(base: seq<Addr>, log: seq<Event>, i: nat, j: nat, m: Msg)
    requires m.Unlock? && i <= j <= |log| && ClaimAt(base, log, i, m.res) == Named(m)
    requires forall p :: i <= p < j ==> Spares(log[p], m.res, m.node)
    ensures HeldDuring(base, log, i, j, m)
    decreases j
  {
    if i < j {
      HeldOn(base, log, i, j - 1, m);
      SparedStays(base, log, j - 1, m.res);
    }
  }

  lemma {:induction false} GoneForGood(base: seq<Addr>, log: seq<Event>, i: nat, j: nat, z: NodeId)
    requires CrashLog(log) && i <= j <= |log| && z !in RosterAt(base, log, i).mem
    ensures z !in RosterAt(base, log, j).mem
    decreases j
  {
    if i < j {
      GoneForGood(base, log, i, j - 1, z);
      assert CrashEvent(log[j - 1]);
      if log[j - 1].View? { assert Ids(log[j - 1].joins) == {}; }
    }
  }

  lemma AppendClaim(base: seq<Addr>, log: seq<Event>, e: Event, r: Resource)
    ensures forall i :: 0 <= i <= |log| ==>
      && ClaimAt(base, log + [e], i, r) == ClaimAt(base, log, i, r)
      && RespAt(base, log + [e], r, i) == RespAt(base, log, r, i)
  {
    forall i: nat | i <= |log|
      ensures ClaimAt(base, log + [e], i, r) == ClaimAt(base, log, i, r)
      ensures RespAt(base, log + [e], r, i) == RespAt(base, log, r, i)
    {
      LedgerPrefix(Ledger(base, None), 0, log, e, r, i);
      RespPrefix(base, log, e, r, i);
    }
  }

  // ---------- the invariant ----------

  predicate TokenFrom(e: Event, n: NodeId, r: Resource) {
    e.Message? && e.from.id == n && IsToken(e.m, r)
  }

  /** Whoever orders a grant or release is responsible for the lock at that point. */
  ghost predicate Rightful(base: seq<Addr>, log: seq<Event>, r: Resource) {
    forall p :: 0 <= p < |log| && log[p].Message? && IsToken(log[p].m, r) ==>
      RespAt(base, log, r, p) == Some(log[p].from.id)
  }

  /** Every release names the holder. */
  ghost predicate EffectiveLog(base: seq<Addr>, log: seq<Event>, r: Resource) {
    forall p :: 0 <= p < |log| && log[p].Message? && log[p].m.Unlock? && log[p].m.res == r ==>
      ClaimAt(base, log, p, r) == Named(log[p].m)
  }

  /** The daemon's own token at p is undelivered: it is responsible, and until p the lock stays as it was. */
  ghost predicate OwnToken(base: seq<Addr>, log: seq<Event>, h: Host, r: Resource, p: nat)
    requires p < |log| && log[p].Message?
  {
    && Mine(base, log, h, r)
    && (forall q :: h.idx <= q < p ==> !IsGrant(log[q], r))
    && (log[p].m.Unlock? && log[p].m.res == r ==> HeldDuring(base, log, h.idx, p, log[p].m))
  }

  ghost predicate OwnTokens(base: seq<Addr>, log: seq<Event>, h: Host, r: Resource) {
    forall p :: h.idx <= p < |log| && TokenFrom(log[p], h.node.id, r) ==> OwnToken(base, log, h, r, p)
  }

  /** The release in the outbox names the holder, itself or a member that is gone, and is the first token there. */
  ghost predicate SoundRelease(base: seq<Addr>, log: seq<Event>, h: Host, i: nat)
    requires i < |h.outbox| && h.outbox[i].Unlock?
  {
    var m := h.outbox[i];
    && HeldDuring(base, log, h.idx, |log|, m)
    && (m.node == h.node.id || m.node !in RosterAt(base, log, |log|).mem)
    && Tokens(h.outbox[..i], m.res) == []
  }

  ghost predicate SoundOut(base: seq<Addr>, log: seq<Event>, h: Host, r: Resource) {
    forall i :: 0 <= i < |h.outbox| && h.outbox[i].Unlock? && h.outbox[i].res == r ==> SoundRelease(base, log, h, i)
  }

  ghost predicate Sound(base: seq<Addr>, log: seq<Event>, h: Host, r: Resource) {
    h.idx <= |log| && OwnTokens(base, log, h, r) && SoundOut(base, log, h, r)
  }

  ghost predicate AllSound(base: seq<Addr>, log: seq<Event>, hosts: map<NodeId, Host>, r: Resource) {
    forall n :: n in hosts ==> Sound(base, log, hosts[n], r)
  }

  /** Every daemon has followed the ledger from the beginning. */
  ghost predicate AllFollow(s: Sys, r: Resource) {
    AllTrack(s, 0, Ledger(s.base, None), s.hosts.Keys, r)
  }

  ghost predicate ReleasesInv(s: Sys, r: Resource) {
    && CrashInv(s) && AllFollow(s, r)
    && Rightful(s.base, s.log, r) && EffectiveLog(s.base, s.log, r)
    && AllSound(s.base, s.log, s.hosts, r)
  }

  // ---------- sending ----------

  /** A release about to be sent names the holder, and the daemon has no token of the lock on its way. */
  ghost predicate Fresh(base: seq<Addr>, log: seq<Event>, h: Host, k: Host, t: Msg)
    requires t.Unlock?
  {
    && k.idx <= |log| && ClaimAt(base, log, k.idx, t.res) == Named(t)
    && Tokens(h.outbox, t.res) == []
    && (forall p :: k.idx <= p < |log| ==> !TokenFrom(log[p], k.node.id, t.res))
    && (t.node == k.node.id || t.node !in RosterAt(base, log, k.idx).mem)
  }

  /** With the daemon responsible and none of its tokens on its way, nothing concerns the holder. */
  lemma NothingAhead(base: seq<Addr>, log: seq<Event>, k: Host, t: Msg, p: nat)
    requires t.Unlock? && WellFormedLog(base, log) && CrashLog(log) && Rightful(base, log, t.res)
    requires Mine(base, log, k, t.res) && NoGrantFrom(log, k.idx, t.res) && Stays(log, k.idx, k.node.id)
    requires forall q :: k.idx <= q < |log| ==> !TokenFrom(log[q], k.node.id, t.res)
    requires t.node == k.node.id || t.node !in RosterAt(base, log, k.idx).mem
    requires k.idx <= p < |log|
    ensures Spares(log[p], t.res, t.node)
  {
    if log[p].View? {
      assert SoundAt(base, log, p);
      if t.node != k.node.id { GoneForGood(base, log, k.idx, p, t.node); }
    } else {
      RespStays(base, log, t.res, k.idx, p, k.node.id);
      assert !TokenFrom(log[p], k.node.id, t.res);
    }
  }

  lemma FirstToken(out: seq<Msg>, sent: seq<Msg>, i: nat, r: Resource)
    requires i < |sent| && Tokens(sent, r) == [sent[i]] && Tokens(out, r) == []
    ensures Tokens((out + sent)[..|out| + i], r) == []
  {
    assert sent == sent[..i] + sent[i..] && (out + sent)[..|out| + i] == out + sent[..i];
    TokensConcat(sent[..i], sent[i..], r);
    TokensConcat(out, sent[..i], r);
    assert sent[i] in Tokens(sent, r);
    assert sent[i..][0] == sent[i];
    TokensHave(sent[i..], 0, r);
  }

  lemma FreshHolds(base: seq<Addr>, log: seq<Event>, h: Host, k: Host, t: Msg)
    requires t.Unlock? && WellFormedLog(base, log) && CrashLog(log) && Rightful(base, log, t.res)
    requires Mine(base, log, k, t.res) && NoGrantFrom(log, k.idx, t.res) && Stays(log, k.idx, k.node.id)
    requires Fresh(base, log, h, k, t)
    ensures HeldDuring(base, log, k.idx, |log|, t)
  {
    forall p | k.idx <= p < |log| ensures Spares(log[p], t.res, t.node) { NothingAhead(base, log, k, t, p); }
    HeldOn(base, log, k.idx, |log|, t);
  }

  lemma FreshHasRight(base: seq<Addr>, log: seq<Event>, k: Host, out: seq<Msg>, sent: seq<Msg>, r: Resource)
    requires k.outbox == out + sent && Tokens(sent, r) != [] && OutInv(base, log, k, r)
    ensures Mine(base, log, k, r) && NoGrantFrom(log, k.idx, r)
  {
    TokensConcat(out, sent, r);
  }

  lemma FreshIsSound(base: seq<Addr>, log: seq<Event>, h: Host, k: Host, sent: seq<Msg>, i: nat, t: Msg, j: nat)
    requires WellFormedLog(base, log) && CrashLog(log) && i < |sent| && sent[i] == t && t.Unlock?
    requires Rightful(base, log, t.res) && OutInv(base, log, k, t.res) && Stays(log, k.idx, k.node.id)
    requires k.outbox == h.outbox + sent && j == |h.outbox| + i && Tokens(sent, t.res) == [t]
    requires Fresh(base, log, h, k, t)
    ensures SoundRelease(base, log, k, j)
  {
    FirstToken(h.outbox, sent, i, t.res);
    FreshHasRight(base, log, k, h.outbox, sent, t.res);
    FreshHolds(base, log, h, k, t);
    SoundAsSent(base, log, k, j, t);
  }

  lemma SoundAsSent(base: seq<Addr>, log: seq<Event>, k: Host, j: nat, t: Msg)
    requires j < |k.outbox| && k.outbox[j] == t && t.Unlock? && HeldDuring(base, log, k.idx, |log|, t)
    requires CrashLog(log) && (t.node == k.node.id || (k.idx <= |log| && t.node !in RosterAt(base, log, k.idx).mem))
    requires Tokens(k.outbox[..j], t.res) == []
    ensures SoundRelease(base, log, k, j)
  {
    if t.node != k.node.id { GoneForGood(base, log, k.idx, |log|, t.node); }
  }

  /** What is in the outbox stays sound when the daemon moves on. */
  lemma StillSound(base: seq<Addr>, log: seq<Event>, h: Host, k: Host, sent: seq<Msg>, i: nat)
    requires i < |h.outbox| && h.outbox[i].Unlock? && SoundRelease(base, log, h, i)
    requires h.idx <= k.idx && k.node.id == h.node.id && k.outbox == h.outbox + sent
    ensures SoundRelease(base, log, k, i)
  {
    assert k.outbox[..i] == h.outbox[..i];
  }

  lemma SendsSound(base: seq<Addr>, log: seq<Event>, h: Host, k: Host, sent: seq<Msg>, r: Resource)
    requires WellFormedLog(base, log) && CrashLog(log) && Rightful(base, log, r) && SoundOut(base, log, h, r)
    requires h.idx <= k.idx && k.node.id == h.node.id && k.outbox == h.outbox + sent
    requires OutInv(base, log, k, r) && Stays(log, k.idx, k.node.id)
    requires forall i :: 0 <= i < |sent| && sent[i].Unlock? && sent[i].res == r ==>
      Tokens(sent, r) == [sent[i]] && Fresh(base, log, h, k, sent[i])
    ensures SoundOut(base, log, k, r)
  {
    forall i | 0 <= i < |k.outbox| && k.outbox[i].Unlock? && k.outbox[i].res == r
      ensures SoundRelease(base, log, k, i)
    {
      if i < |h.outbox| {
        StillSound(base, log, h, k, sent, i);
      } else {
        FreshIsSound(base, log, h, k, sent, i - |h.outbox|, sent[i - |h.outbox|], i);
      }
    }
  }

  // ---------- a client releases ----------

  lemma NoTokens(ms: seq<Msg>, r: Resource)
    requires forall i :: 0 <= i < |ms| ==> !IsToken(ms[i], r)
    ensures Tokens(ms, r) == []
  {
  }

  /** The release of a client finds the daemon with no token of the lock on its way. */
  lemma ClientFresh(base: seq<Addr>, log: seq<Event>, h: Host, k: Host, hold: Hold)
    requires ResInv(true, base, log, h, hold.res) && Sound(base, log, h, hold.res) && hold in h.holds
    requires TracksFrom(base, log, h, 0, Ledger(base, None), hold.res) && k.idx == h.idx && k.node.id == h.node.id
    ensures Fresh(base, log, h, k, Unlock(hold.res, h.node.id, hold.pid, hold.tid))
  {
    var r := hold.res;
    assert HoldsRes(h, r) && HeldBy(h.node, r, hold.pid) && !Releasing(log, h, r, hold.pid);
    assert ClaimAt(base, log, h.idx, r) == Some(Claim(true, h.node.id, hold.pid));
    assert Mine(base, log, h, r) && NoGrantFrom(log, h.idx, r) && NoGrantIn(Tokens(h.outbox, r));
    if Tokens(h.outbox, r) != [] { OutboxReleases(base, log, h, hold); }
    forall p | h.idx <= p < |log| ensures !TokenFrom(log[p], h.node.id, r) {
      if TokenFrom(log[p], h.node.id, r) {
        assert OwnToken(base, log, h, r, p) && !IsGrant(log[p], r);
        assert ReleaseAt(log, h, p, r, hold.pid);
      }
    }
  }

  lemma OutboxReleases(base: seq<Addr>, log: seq<Event>, h: Host, hold: Hold)
    requires h.idx <= |log| && SoundOut(base, log, h, hold.res) && Tokens(h.outbox, hold.res) != []
    requires NoGrantIn(Tokens(h.outbox, hold.res))
    requires ClaimAt(base, log, h.idx, hold.res) == Some(Claim(true, h.node.id, hold.pid))
    ensures Releasing(log, h, hold.res, hold.pid)
  {
    var t := Tokens(h.outbox, hold.res)[0];
    assert t in Tokens(h.outbox, hold.res);
    var i :| 0 <= i < |h.outbox| && h.outbox[i] == t;
    assert SoundRelease(base, log, h, i);
  }

  lemma SameTokens(base: seq<Addr>, log: seq<Event>, h: Host, k: Host, r: Resource)
    requires OwnTokens(base, log, h, r) && k.idx == h.idx && k.node.id == h.node.id && k.node.joined == h.node.joined
    ensures OwnTokens(base, log, k, r)
  {
    forall p | k.idx <= p < |log| && TokenFrom(log[p], k.node.id, r) ensures OwnToken(base, log, k, r, p) {
      assert OwnToken(base, log, h, r, p);
    }
  }

  lemma AskUnlockSound(base: seq<Addr>, log: seq<Event>, h: Host, hold: Hold, order: seq<Resource>, k: Host,
                       r: Resource)
    requires WellFormedLog(base, log) && CrashLog(log) && Rightful(base, log, r) && Sound(base, log, h, r)
    requires HostInv(true, base, log, h) && TracksFrom(base, log, h, 0, Ledger(base, None), r)
    requires hold in h.holds && IsWalk(h.node.locks, order) && k == HostAskUnlock(h, hold, order)
    requires OutInv(base, log, k, r) && k.node.joined
    ensures Sound(base, log, k, r)
  {
    var release := Unlock(hold.res, h.node.id, hold.pid, hold.tid);
    assert ResInv(true, base, log, h, hold.res);
    HoldResolves(log, h, hold, order);
    GrantOrSlice(h.node, hold.res, release);
    var sent := GrantOr(h.node, hold.res, release).sent;
    SameTokens(base, log, h, k, r);
    if sent[0].Unlock? && hold.res == r { ClientFresh(base, log, h, k, hold); }
    AnswersSound(base, log, h, k, sent, r);
  }

  // ---------- a message is delivered ----------

  lemma RespOneStep(base: seq<Addr>, log: seq<Event>, r: Resource, i: nat, n: NodeId)
    requires i < |log| && RespAt(base, log, r, i) == Some(n) && !IsGrant(log[i], r) && Stays(log, i, n)
    ensures RespAt(base, log, r, i + 1) == Some(n)
  {
    RespFacts(base, log, r, i);
    AgeStays(base, log, i, i + 1, n);
  }

  /** The daemon's tokens that stay on their way. */
  lemma OwnTokensMove(base: seq<Addr>, log: seq<Event>, h: Host, k: Host, r: Resource)
    requires OwnTokens(base, log, h, r) && h.idx < |log| && k.idx == h.idx + 1 && k.node.id == h.node.id
    requires k.node.joined
    requires Stays(log, h.idx, h.node.id)
    ensures OwnTokens(base, log, k, r)
  {
    forall p | k.idx <= p < |log| && TokenFrom(log[p], k.node.id, r) ensures OwnToken(base, log, k, r, p) {
      assert OwnToken(base, log, h, r, p);
      RespOneStep(base, log, r, h.idx, h.node.id);
    }
  }

  /** Delivery makes a daemon release a lock only if it was granted to a node that is gone. */
  lemma MessageReleases(n: Node, from: Addr, m: Msg)
    requires n.joined && Connected(n, m)
    ensures var o := ProcessMessage(n, from, m);
      && |o.sent| <= 1
      && (o.sent != [] && o.sent[0].Unlock? ==>
            m.Grant? && o.sent[0] == Unlock(m.res, m.node, m.pid, m.tid) && !IsMember(n.members, m.node))
  {
    match m
    case Lock(r, node, pid, tid, _) =>
      GrantNextSlice(n.(requests := n.requests + [Request(r, node, pid, tid, false)]), r);
    case Grant(r, node, pid, tid) =>
      var q := Record(n, m);
      GrantOrSlice(Put(q, r, q.locks[r].(state := Free)), r, Unlock(r, node, pid, tid));
    case Unlock(r, _, _, _) => GrantNextSlice(n, r);
    case Nak(_, _, _, _) =>
    case Purge(_, _) =>
    case Join =>
  }

  lemma GrantFresh(base: seq<Addr>, log: seq<Event>, h: Host, k: Host, t: Msg)
    requires h.idx < |log| && t.Unlock? && IsGrant(log[h.idx], t.res) && Sound(base, log, h, t.res)
    requires t == Unlock(log[h.idx].m.res, log[h.idx].m.node, log[h.idx].m.pid, log[h.idx].m.tid)
    requires OutInv(base, log, h, t.res) && k.idx == h.idx + 1 && k.node.id == h.node.id
    requires t.node !in RosterAt(base, log, k.idx).mem
    ensures Fresh(base, log, h, k, t)
  {
    forall p | k.idx <= p < |log| ensures !TokenFrom(log[p], k.node.id, t.res) {
    }
  }

  lemma DeliverMessageSound(base: seq<Addr>, log: seq<Event>, h: Host, order: seq<Resource>, k: Host, r: Resource)
    requires Arrives(base, log, h) && log[h.idx].Message? && k == HostDeliver(h, log[h.idx], order)
    requires FlightInv(log) && AnnouncedInv(base, log)
    requires Rightful(base, log, r) && Sound(base, log, h, r)
    requires OutInv(base, log, k, r) && k.node.joined && k.node.id == h.node.id
    ensures Sound(base, log, k, r)
  {
    var e := log[h.idx];
    var sent := ProcessMessage(h.node, e.from, e.m).sent;
    assert Stays(log, h.idx, h.node.id);
    OwnTokensMove(base, log, h, k, r);
    MessageReleases(h.node, e.from, e.m);
    if sent != [] && sent[0].Unlock? && sent[0].res == r { PassedOnFresh(base, log, h, k, sent[0]); }
    AnswersSound(base, log, h, k, sent, r);
  }

  lemma PassedOnFresh(base: seq<Addr>, log: seq<Event>, h: Host, k: Host, t: Msg)
    requires Arrives(base, log, h) && FlightInv(log) && AnnouncedInv(base, log)
    requires t.Unlock? && Sound(base, log, h, t.res)
    requires IsGrant(log[h.idx], t.res) && !IsMember(h.node.members, log[h.idx].m.node)
    requires t == Unlock(log[h.idx].m.res, log[h.idx].m.node, log[h.idx].m.pid, log[h.idx].m.tid)
    requires k.idx == h.idx + 1 && k.node.id == h.node.id
    ensures Fresh(base, log, h, k, t)
  {
    ArrivesSound(base, log, h);
    assert ResInv(true, base, log, h, t.res);
    GrantFresh(base, log, h, k, t);
  }

  lemma AnswersSound(base: seq<Addr>, log: seq<Event>, h: Host, k: Host, sent: seq<Msg>, r: Resource)
    requires WellFormedLog(base, log) && CrashLog(log) && Rightful(base, log, r) && SoundOut(base, log, h, r)
    requires OwnTokens(base, log, k, r) && k.idx <= |log|
    requires h.idx <= k.idx && k.node.id == h.node.id && k.outbox == h.outbox + sent && |sent| <= 1
    requires OutInv(base, log, k, r) && Stays(log, k.idx, k.node.id)
    requires sent != [] && sent[0].Unlock? && sent[0].res == r ==> Fresh(base, log, h, k, sent[0])
    ensures Sound(base, log, k, r)
  {
    if sent != [] { assert sent[1..] == []; }
    SendsSound(base, log, h, k, sent, r);
  }

  // ---------- a view is delivered ----------

  /** The daemon has taken over a lock that was held: the order shows it as the daemon's, held. */
  lemma TakenOverClaim(base: seq<Addr>, log: seq<Event>, h: Host, k: Host, r: Resource)
    requires h.idx < |log| && log[h.idx].View? && k.idx == h.idx + 1 && k.node.id == h.node.id
    requires TracksFrom(base, log, h, 0, Ledger(base, None), r) && TracksFrom(base, log, k, 0, Ledger(base, None), r)
    requires r in h.node.locks && h.node.locks[r].state.Held?
    requires r in k.node.locks && k.node.locks[r].state.Free? && !GrantOut(InFlight(log, k), r)
    ensures ClaimAt(base, log, h.idx, r) == ClaimOf(h.node, r)
    ensures ClaimAt(base, log, k.idx, r) == Some(Claim(true, k.node.locks[r].node, k.node.locks[r].pid))
  {
    LeaveKeepsHeld(LedgerAt(Ledger(base, None), 0, log, r, h.idx), log[h.idx].left);
  }

  lemma NoGrantOut(log: seq<Event>, h: Host, k: Host, sent: seq<Msg>, r: Resource)
    requires Moves(log, h, k, sent) && NoGrantAhead(log, h, r) && NoGrantIn(Tokens(sent, r))
    ensures !GrantOut(InFlight(log, k), r)
  {
    NothingSent(log, h, k, sent, r);
    forall m | m in InFlight(log, k) && m.Grant? ensures m.res != r {
      if m in Sent(k.outbox) {
        assert m !in Tokens(k.outbox, r);
      } else {
        var p :| k.idx <= p < |log| && log[p].Message? && log[p].m == m;
        assert !IsGrant(log[p], r);
      }
    }
  }

  /** A daemon that takes over a held lock of a leaver has no token of it on its way. */
  lemma ViewFresh(base: seq<Addr>, log: seq<Event>, h: Host, k: Host, t: Msg)
    requires t.Unlock? && h.idx < |log| && k.idx == h.idx + 1 && k.node.id == h.node.id && Sound(base, log, h, t.res)
    requires ClaimAt(base, log, k.idx, t.res) == Named(t) && t.node == h.node.id
    requires ClaimAt(base, log, h.idx, t.res).Some? && ClaimAt(base, log, h.idx, t.res).value.node != h.node.id
    requires NoGrantAhead(log, h, t.res)
    ensures Fresh(base, log, h, k, t)
  {
    assert ClaimAt(base, log, h.idx, t.res) != ClaimAt(base, log, h.idx + 1, t.res);
    forall i | 0 <= i < |h.outbox| ensures !IsToken(h.outbox[i], t.res) {
      assert h.outbox[i].Unlock? && h.outbox[i].res == t.res ==> SoundRelease(base, log, h, i);
    }
    NoTokens(h.outbox, t.res);
    forall p | k.idx <= p < |log| ensures !TokenFrom(log[p], k.node.id, t.res) {
      assert !IsGrant(log[p], t.res);
    }
  }

  /** What a release sent in a view says. */
  lemma ViewReleases(base: seq<Addr>, log: seq<Event>, h: Host, s: Node, o: Outcome, k: Host, t: Msg)
    requires h.idx < |log| && log[h.idx].View? && s.id == h.node.id && s.locks == h.node.locks
    requires h.node.id !in Ids(log[h.idx].left) && MayRecover(log, h, log[h.idx])
    requires s == SeedView(h.node, log[h.idx].members, log[h.idx].joins)
    requires t.Unlock? && t in o.sent && ViewOutcome(s, o, log[h.idx].left, t.res)
    requires Moves(log, h, k, o.sent) && k.node.locks == o.node.locks
    requires TracksFrom(base, log, h, 0, Ledger(base, None), t.res)
    requires TracksFrom(base, log, k, 0, Ledger(base, None), t.res) && Sound(base, log, h, t.res)
    ensures Tokens(o.sent, t.res) == [t] && Fresh(base, log, h, k, t)
  {
    var r, left := t.res, log[h.idx].left;
    assert t in Tokens(o.sent, r);
    assert r in s.locks && Gone(s.members, left, s.locks[r].node);
    GoneLeaves(s.members, left, s.locks[r].node);
    assert Recovers(h.node, log[h.idx], r);
    assert TakenOver(s, s.locks[r], o.node.locks[r], Tokens(o.sent, r), r);
    assert Tokens(o.sent, r) == [t];
    NoGrantOut(log, h, k, o.sent, r);
    TakenOverClaim(base, log, h, k, r);
    ViewFresh(base, log, h, k, t);
  }

  lemma DeliverViewSound(base: seq<Addr>, log: seq<Event>, h: Host, order: seq<Resource>, k: Host, r: Resource)
    requires Arrives(base, log, h) && log[h.idx].View? && k == HostDeliver(h, log[h.idx], order)
    requires IsWalk(h.node.locks, order) && MayRecover(log, h, log[h.idx])
    requires Rightful(base, log, r) && Sound(base, log, h, r)
    requires ResInv(true, base, log, k, r) && k.node.joined && k.node.id == h.node.id
    requires TracksFrom(base, log, h, 0, Ledger(base, None), r) && TracksFrom(base, log, k, 0, Ledger(base, None), r)
    ensures Sound(base, log, k, r)
  {
    var e := log[h.idx];
    var s := SeedView(h.node, e.members, e.joins);
    var o := LeaveAll(s, e.left, order);
    assert Stays(log, h.idx, h.node.id);
    OwnTokensMove(base, log, h, k, r);
    ViewSlice(base, log, h, order, r);
    assert Moves(log, h, k, o.sent);
    forall i | 0 <= i < |o.sent| && o.sent[i].Unlock? && o.sent[i].res == r
      ensures Tokens(o.sent, r) == [o.sent[i]] && Fresh(base, log, h, k, o.sent[i])
    {
      ViewReleases(base, log, h, s, o, k, o.sent[i]);
    }
    SendsSound(base, log, h, k, o.sent, r);
  }

  // ---------- the agreed order grows ----------

  /** An event that concerns no holder of r. */
  lemma SpareAppends(base: seq<Addr>, log: seq<Event>, e: Event, h: Host, k: Host, d: nat, i: nat)
    requires CrashLog(log + [e]) && i < |h.outbox| && h.outbox[i].Unlock? && SoundRelease(base, log, h, i)
    requires h.idx <= |log| && Spares(e, h.outbox[i].res, h.outbox[i].node)
    requires d <= 1 && d <= i && k == h.(outbox := h.outbox[d..]) && (d == 1 ==> !IsToken(h.outbox[0], h.outbox[i].res))
    ensures SoundRelease(base, log + [e], k, i - d)
  {
    var log', m := log + [e], h.outbox[i];
    AppendClaim(base, log, e, m.res);
    assert log'[|log|] == e;
    SparedStays(base, log', |log|, m.res);
    RosterPrefix(base, log, e, |log|);
    if m.node != h.node.id { GoneForGood(base, log', |log|, |log| + 1, m.node); }
    if d == 1 {
      assert h.outbox[..i] == h.outbox[..1] + k.outbox[..i - 1];
      TokensConcat(h.outbox[..1], k.outbox[..i - 1], m.res);
    } else {
      assert k.outbox == h.outbox;
    }
  }

  lemma AppendOwnTokens(base: seq<Addr>, log: seq<Event>, e: Event, h: Host, r: Resource)
    requires OwnTokens(base, log, h, r) && h.idx <= |log| && !TokenFrom(e, h.node.id, r)
    ensures OwnTokens(base, log + [e], h, r)
  {
    var log' := log + [e];
    AppendClaim(base, log, e, r);
    forall p | h.idx <= p < |log'| && TokenFrom(log'[p], h.node.id, r) ensures OwnToken(base, log', h, r, p) {
      assert log'[p] == log[p] && OwnToken(base, log, h, r, p);
    }
  }

  /** Two daemons never have tokens of the same resource in their outboxes. */
  lemma TokensApart(s: Sys, n: NodeId, m: NodeId, r: Resource)
    requires Inv(true, s) && n in s.hosts && m in s.hosts && Tokens(s.hosts[n].outbox, r) != []
    requires Tokens(s.hosts[m].outbox, r) != []
    ensures n == m
  {
    assert ResInv(true, s.base, s.log, s.hosts[n], r) && ResInv(true, s.base, s.log, s.hosts[m], r);
    RespStays(s.base, s.log, r, s.hosts[n].idx, |s.log|, n);
    RespStays(s.base, s.log, r, s.hosts[m].idx, |s.log|, m);
  }

  lemma OthersSound(s: Sys, n: NodeId, x: NodeId, e: Event, r: Resource)
    requires ReleasesInv(s, r) && n in s.hosts && s.hosts[n].outbox != [] && x in s.hosts && x != n
    requires e == Message(Self(s.hosts[n]), s.hosts[n].outbox[0]) && CrashLog(s.log + [e])
    ensures Sound(s.base, s.log + [e], s.hosts[x], r)
  {
    var k := s.hosts[x];
    assert Sound(s.base, s.log, k, r);
    assert s.hosts[n].node.id == n && k.node.id == x;
    if exists i :: 0 <= i < |k.outbox| && IsToken(k.outbox[i], r) { NobodyElses(s, n, x, r); }
    OtherSound(s.base, s.log, e, k, r);
  }

  lemma NobodyElses(s: Sys, n: NodeId, x: NodeId, r: Resource)
    requires Inv(true, s) && n in s.hosts && s.hosts[n].outbox != [] && x in s.hosts && x != n
    requires exists i :: 0 <= i < |s.hosts[x].outbox| && IsToken(s.hosts[x].outbox[i], r)
    ensures !IsToken(s.hosts[n].outbox[0], r)
  {
    var i :| 0 <= i < |s.hosts[x].outbox| && IsToken(s.hosts[x].outbox[i], r);
    TokensHave(s.hosts[x].outbox, i, r);
    if IsToken(s.hosts[n].outbox[0], r) {
      TokensHave(s.hosts[n].outbox, 0, r);
      TokensApart(s, n, x, r);
    }
  }

  /** A daemon when somebody else's message is ordered. */
  lemma OtherSound(base: seq<Addr>, log: seq<Event>, e: Event, k: Host, r: Resource)
    requires Sound(base, log, k, r) && e.Message? && e.from.id != k.node.id && CrashLog(log + [e])
    requires (exists i :: 0 <= i < |k.outbox| && IsToken(k.outbox[i], r)) ==> !IsToken(e.m, r)
    ensures Sound(base, log + [e], k, r)
  {
    AppendOwnTokens(base, log, e, k, r);
    forall i | 0 <= i < |k.outbox| && k.outbox[i].Unlock? && k.outbox[i].res == r
      ensures SoundRelease(base, log + [e], k, i)
    {
      assert IsToken(k.outbox[i], r);
      SpareAppends(base, log, e, k, k, 0, i);
    }
  }

  lemma OwnTokenOrdered(base: seq<Addr>, log: seq<Event>, h: Host, r: Resource)
    requires Sound(base, log, h, r) && h.outbox != [] && OutInv(base, log, h, r)
    ensures OwnTokens(base, log + [Message(Self(h), h.outbox[0])], h.(outbox := h.outbox[1..]), r)
  {
    var e, k := Message(Self(h), h.outbox[0]), h.(outbox := h.outbox[1..]);
    var log' := log + [e];
    AppendClaim(base, log, e, r);
    forall p | k.idx <= p < |log'| && TokenFrom(log'[p], k.node.id, r) ensures OwnToken(base, log', k, r, p) {
      if p < |log| {
        assert log'[p] == log[p] && OwnToken(base, log, h, r, p);
      } else {
        TokensHave(h.outbox, 0, r);
        if h.outbox[0].Unlock? { assert SoundRelease(base, log, h, 0); }
      }
    }
  }

  lemma NotBefore(out: seq<Msg>, i: nat, r: Resource)
    requires 0 < i <= |out| && Tokens(out[..i], r) == []
    ensures !IsToken(out[0], r)
  {
    assert out[..i][0] == out[0];
  }

  lemma SenderSound(base: seq<Addr>, log: seq<Event>, h: Host, r: Resource)
    requires Sound(base, log, h, r) && h.outbox != [] && OutInv(base, log, h, r)
    requires CrashLog(log + [Message(Self(h), h.outbox[0])])
    ensures Sound(base, log + [Message(Self(h), h.outbox[0])], h.(outbox := h.outbox[1..]), r)
  {
    var e, k := Message(Self(h), h.outbox[0]), h.(outbox := h.outbox[1..]);
    OwnTokenOrdered(base, log, h, r);
    forall i | 0 <= i < |k.outbox| && k.outbox[i].Unlock? && k.outbox[i].res == r
      ensures SoundRelease(base, log + [e], k, i)
    {
      assert k.outbox[i] == h.outbox[i + 1] && SoundRelease(base, log, h, i + 1);
      NotBefore(h.outbox, i + 1, r);
      SpareAppends(base, log, e, h, k, 1, i + 1);
    }
  }

  lemma OrderedRightful(base: seq<Addr>, log: seq<Event>, h: Host, r: Resource)
    requires Rightful(base, log, r) && EffectiveLog(base, log, r) && Sound(base, log, h, r) && h.outbox != []
    requires OutInv(base, log, h, r) && Stays(log, h.idx, h.node.id)
    ensures Rightful(base, log + [Message(Self(h), h.outbox[0])], r)
    ensures EffectiveLog(base, log + [Message(Self(h), h.outbox[0])], r)
  {
    var e := Message(Self(h), h.outbox[0]);
    var log' := log + [e];
    AppendClaim(base, log, e, r);
    forall p | 0 <= p < |log'| && log'[p].Message? && IsToken(log'[p].m, r)
      ensures RespAt(base, log', r, p) == Some(log'[p].from.id)
      ensures log'[p].m.Unlock? ==> ClaimAt(base, log', p, r) == Named(log'[p].m)
    {
      if p < |log| {
        assert log'[p] == log[p];
      } else {
        TokensHave(h.outbox, 0, r);
        RespStays(base, log, r, h.idx, |log|, h.node.id);
        if h.outbox[0].Unlock? { assert SoundRelease(base, log, h, 0); }
      }
    }
  }

  lemma AppendRightful(base: seq<Addr>, log: seq<Event>, e: Event, r: Resource)
    requires Rightful(base, log, r) && EffectiveLog(base, log, r) && e.View?
    ensures Rightful(base, log + [e], r) && EffectiveLog(base, log + [e], r)
  {
    AppendClaim(base, log, e, r);
    assert forall p :: 0 <= p < |log| ==> (log + [e])[p] == log[p];
  }

  // ---------- steps ----------

  lemma SequenceReleases(s: Sys, n: NodeId, e: Event, k: Host, u: Sys, r: Resource)
    requires ReleasesInv(s, r) && n in s.hosts && s.hosts[n].outbox != []
    requires e == Message(Self(s.hosts[n]), s.hosts[n].outbox[0]) && k == s.hosts[n].(outbox := s.hosts[n].outbox[1..])
    requires u == Sys(s.base, s.hosts[n := k], s.log + [e]) && CrashInv(u) && AllFollow(u, r)
    ensures ReleasesInv(u, r)
  {
    var h := s.hosts[n];
    assert HostInv(true, s.base, s.log, h) && ResInv(true, s.base, s.log, h, r) && Sound(s.base, s.log, h, r);
    OrderedRightful(s.base, s.log, h, r);
    SenderSound(s.base, s.log, h, r);
    forall x | x in s.hosts && x != n ensures Sound(u.base, u.log, s.hosts[x], r) { OthersSound(s, n, x, e, r); }
  }

  lemma StayerSound(base: seq<Addr>, log: seq<Event>, e: Event, h: Host, r: Resource)
    requires Sound(base, log, h, r) && e.View? && CrashLog(log + [e]) && h.node.id !in Ids(e.left)
    requires Ids(e.left) <= RosterAt(base, log, |log|).mem
    ensures Sound(base, log + [e], h, r)
  {
    AppendOwnTokens(base, log, e, h, r);
    forall i | 0 <= i < |h.outbox| && h.outbox[i].Unlock? && h.outbox[i].res == r
      ensures SoundRelease(base, log + [e], h, i)
    {
      SpareAppends(base, log, e, h, h, 0, i);
    }
  }

  lemma ViewStepReleases(s: Sys, e: Event, u: Sys, r: Resource)
    requires ReleasesInv(s, r) && e.View? && e.joins == [] && SoundEvent(Now(s), e)
    requires u == Sys(s.base, HostsAfter(s.hosts, e.left, e.joins, |s.log|), s.log + [e])
    requires CrashInv(u) && AllFollow(u, r)
    ensures ReleasesInv(u, r)
  {
    AppendRightful(s.base, s.log, e, r);
    assert Ids(e.joins) == {};
    forall x | x in u.hosts ensures Sound(u.base, u.log, u.hosts[x], r) {
      assert s.hosts[x].node.id == x && Sound(s.base, s.log, s.hosts[x], r);
      StayerSound(s.base, s.log, e, s.hosts[x], r);
    }
  }

  lemma LocalReleases(s: Sys, n: NodeId, k: Host, u: Sys, r: Resource)
    requires ReleasesInv(s, r) && u == s.(hosts := s.hosts[n := k]) && CrashInv(u) && AllFollow(u, r)
    requires Sound(s.base, s.log, k, r)
    ensures ReleasesInv(u, r)
  {
  }

  lemma QuietSound(base: seq<Addr>, log: seq<Event>, h: Host, k: Host, sent: seq<Msg>, r: Resource)
    requires Sound(base, log, h, r) && k.idx == h.idx && k.node.id == h.node.id && k.node.joined == h.node.joined
    requires k.outbox == h.outbox + sent && forall i :: 0 <= i < |sent| ==> !sent[i].Unlock?
    ensures Sound(base, log, k, r)
  {
    SameTokens(base, log, h, k, r);
    forall i | 0 <= i < |k.outbox| && k.outbox[i].Unlock? && k.outbox[i].res == r
      ensures SoundRelease(base, log, k, i)
    {
      StillSound(base, log, h, k, sent, i);
    }
  }

  lemma ClientReleases(s: Sys, t: Step, u: Sys, r: Resource)
    requires ReleasesInv(s, r) && May(Crash, s, t) && (t.Connect? || t.AskLock? || t.AskUnlock?)
    requires u == Apply(s, t) && CrashInv(u) && AllFollow(u, r)
    ensures ReleasesInv(u, r)
  {
    match t
    case Connect(n, fd) => ConnectReleases(s, n, fd, u, r);
    case AskLock(_, _, _, _, _, _) => AskLockReleases(s, t, u, r);
    case AskUnlock(_, _, _) => UnlockReleases(s, t, u, r);
  }

  lemma ConnectSound(base: seq<Addr>, log: seq<Event>, h: Host, fd: nat, r: Resource)
    requires Sound(base, log, h, r)
    ensures Sound(base, log, HostConnect(h, fd), r)
  {
    assert h.outbox == h.outbox + [];
    QuietSound(base, log, h, HostConnect(h, fd), [], r);
  }

  lemma AskSound(base: seq<Addr>, log: seq<Event>, h: Host, k: Host, m: Msg, r: Resource)
    requires Sound(base, log, h, r) && m.Lock? && k.outbox == h.outbox + [m]
    requires k == h.(node := h.node.(clients := k.node.clients), outbox := k.outbox)
    ensures Sound(base, log, k, r)
  {
    QuietSound(base, log, h, k, [m], r);
  }

  lemma ConnectReleases(s: Sys, n: NodeId, fd: nat, u: Sys, r: Resource)
    requires ReleasesInv(s, r) && n in s.hosts && u == s.(hosts := s.hosts[n := HostConnect(s.hosts[n], fd)])
    requires CrashInv(u) && AllFollow(u, r)
    ensures ReleasesInv(u, r)
  {
    assert Sound(s.base, s.log, s.hosts[n], r);
    ConnectSound(s.base, s.log, s.hosts[n], fd, r);
    LocalReleases(s, n, HostConnect(s.hosts[n], fd), u, r);
  }

  lemma AskLockReleases(s: Sys, t: Step, u: Sys, r: Resource)
    requires ReleasesInv(s, r) && t.AskLock? && May(Crash, s, t) && u == Apply(s, t) && CrashInv(u) && AllFollow(u, r)
    ensures ReleasesInv(u, r)
  {
    var h, k := s.hosts[t.n], HostAskLock(s.hosts[t.n], t.fd, t.res, t.pid, t.tid, t.isTry);
    AskLockClients(h, t.fd, t.pid, k, t.res, t.tid, t.isTry);
    assert Sound(s.base, s.log, h, r);
    AskSound(s.base, s.log, h, k, Lock(t.res, h.node.id, t.pid, t.tid, t.isTry), r);
    LocalReleases(s, t.n, k, u, r);
  }

  lemma UnlockReleases(s: Sys, t: Step, u: Sys, r: Resource)
    requires ReleasesInv(s, r) && May(Crash, s, t) && t.AskUnlock? && u == Apply(s, t) && CrashInv(u) && AllFollow(u, r)
    ensures ReleasesInv(u, r)
  {
    var h, k := s.hosts[t.n], HostAskUnlock(s.hosts[t.n], t.hold, t.order);
    assert u.hosts[t.n] == k && CrashHost(u.base, u.log, k) && ResInv(true, u.base, u.log, k, r);
    assert HostInv(true, s.base, s.log, h) && Sound(s.base, s.log, h, r);
    assert TracksFrom(s.base, s.log, h, 0, Ledger(s.base, None), r);
    AskUnlockSound(s.base, s.log, h, t.hold, t.order, k, r);
    LocalReleases(s, t.n, k, u, r);
  }

  lemma DeliverReleases(s: Sys, n: NodeId, order: seq<Resource>, k: Host, u: Sys, r: Resource)
    requires ReleasesInv(s, r) && n in s.hosts && s.hosts[n].idx < |s.log| && IsWalk(s.hosts[n].node.locks, order)
    requires k == HostDeliver(s.hosts[n], s.log[s.hosts[n].idx], order)
    requires u == s.(hosts := s.hosts[n := k]) && CrashInv(u) && AllFollow(u, r)
    ensures ReleasesInv(u, r)
  {
    var h := s.hosts[n];
    assert Sound(s.base, s.log, h, r) && TracksFrom(s.base, s.log, h, 0, Ledger(s.base, None), r);
    assert u.hosts[n] == k && CrashHost(u.base, u.log, k) && ResInv(true, u.base, u.log, k, r);
    assert TracksFrom(u.base, u.log, k, 0, Ledger(s.base, None), r);
    assert h.node.id == n && k.node.id == n;
    ArrivesConnected(s, n);
    if s.log[h.idx].Message? {
      DeliverMessageSound(s.base, s.log, h, order, k, r);
    } else {
      TidyMayRecover(s, n);
      DeliverViewSound(s.base, s.log, h, order, k, r);
    }
    LocalReleases(s, n, k, u, r);
  }

  lemma StepFollows(s: Sys, t: Step, r: Resource)
    requires CrashInv(s) && May(Crash, s, t) && AllFollow(s, r)
    ensures AllFollow(Apply(s, t), r)
  {
    StepTrack(s, t, 0, Ledger(s.base, None), s.hosts.Keys, r);
    EverybodyRemains(s, t);
  }

  lemma EverybodyRemains(s: Sys, t: Step)
    requires May(Crash, s, t)
    ensures Apply(s, t).hosts.Keys == RemainAfter(s.hosts.Keys, t) && Apply(s, t).base == s.base
  {
    if t.ChangeView? { assert Ids(t.joins) == {}; }
  }

  lemma StepReleases(s: Sys, t: Step, r: Resource)
    requires ReleasesInv(s, r) && May(Crash, s, t)
    ensures ReleasesInv(Apply(s, t), r)
  {
    StepCrash(s, t);
    StepFollows(s, t, r);
    if t.Sequence? || t.ChangeView? {
      OrderReleases(s, t, Apply(s, t), r);
    } else {
      HostReleases(s, t, Apply(s, t), r);
    }
  }

  lemma OrderReleases(s: Sys, t: Step, u: Sys, r: Resource)
    requires ReleasesInv(s, r) && May(Crash, s, t) && (t.Sequence? || t.ChangeView?)
    requires u == Apply(s, t) && CrashInv(u) && AllFollow(u, r)
    ensures ReleasesInv(u, r)
  {
    if t.Sequence? {
      var h := s.hosts[t.n];
      SequenceReleases(s, t.n, Message(Self(h), h.outbox[0]), h.(outbox := h.outbox[1..]), u, r);
    } else {
      ViewStepReleases(s, View(t.members, t.left, t.joins), u, r);
    }
  }

  lemma HostReleases(s: Sys, t: Step, u: Sys, r: Resource)
    requires ReleasesInv(s, r) && May(Crash, s, t) && !t.Sequence? && !t.ChangeView?
    requires u == Apply(s, t) && CrashInv(u) && AllFollow(u, r)
    ensures ReleasesInv(u, r)
  {
    if t.Deliver? {
      DeliverReleases(s, t.n, t.order, HostDeliver(s.hosts[t.n], s.log[s.hosts[t.n].idx], t.order), u, r);
    } else {
      ClientReleases(s, t, u, r);
    }
  }

  lemma {:induction false} RunReleases(s: Sys, run: seq<Step>, r: Resource)
    requires ReleasesInv(s, r) && IsRun(Crash, s, run)
    ensures ReleasesInv(Exec(Crash, s, run), r)
    decreases |run|
  {
    if run != [] {
      StepReleases(s, run[0], r);
      RunReleases(Apply(s, run[0]), run[1..], r);
    }
  }

  lemma FormedFollows(base: seq<Addr>, n: NodeId, r: Resource)
    requires Distinct(IdSeq(base)) && n in Ids(base)
    ensures TracksFrom(base, [], Formed(base).hosts[n], 0, Ledger(base, None), r)
    ensures Sound(base, [], Formed(base).hosts[n], r)
  {
    FounderListed(base, n);
  }

  lemma ReachesReleases(base: seq<Addr>, run: seq<Step>, s: Sys, r: Resource)
    requires Reaches(Crash, base, run, s)
    ensures ReleasesInv(s, r)
  {
    FormedCrash(base);
    forall n | n in Ids(base)
      ensures TracksFrom(base, [], Formed(base).hosts[n], 0, Ledger(base, None), r)
      ensures Sound(base, [], Formed(base).hosts[n], r)
    {
      FormedFollows(base, n, r);
    }
    RunReleases(Formed(base), run, r);
  }

  // ---------- theorems ----------

  /** A daemon that has its own token of the lock on its way is the one that sent the release at hand. */
  lemma OnlySender(base: seq<Addr>, log: seq<Event>, h: Host, r: Resource)
    requires h.idx < |log| && log[h.idx].Message? && IsToken(log[h.idx].m, r) && Rightful(base, log, r)
    requires Sound(base, log, h, r) && OutInv(base, log, h, r)
    requires exists m :: m in InFlight(log, h) && IsToken(m, r)
    ensures log[h.idx].from.id == h.node.id
  {
    var m :| m in InFlight(log, h) && IsToken(m, r);
    if m in Sent(h.outbox) {
      assert m in Tokens(h.outbox, r);
    } else {
      var p :| h.idx <= p < |log| && log[p].Message? && log[p].from.id == h.node.id && log[p].m == m;
      assert TokenFrom(log[p], h.node.id, r);
      assert OwnToken(base, log, h, r, p);
    }
  }

  lemma Finds(base: seq<Addr>, log: seq<Event>, h: Host, m: Msg)
    requires h.idx < |log| && log[h.idx].Message? && m == log[h.idx].m && m.Unlock?
    requires TracksFrom(base, log, h, 0, Ledger(base, None), m.res) && EffectiveLog(base, log, m.res)
    requires Rightful(base, log, m.res) && Sound(base, log, h, m.res) && OutInv(base, log, h, m.res)
    ensures m.res in h.node.locks
    ensures Releases(h.node.locks[m.res], m) || (log[h.idx].from.id == h.node.id && !h.node.locks[m.res].state.Held?)
  {
    assert ClaimAt(base, log, h.idx, m.res) == Named(m);
    if ClaimOf(h.node, m.res) != Named(m) { OnlySender(base, log, h, m.res); }
  }

  /**
   * Whichever daemon comes to a release in the agreed order, its table shows the lock held by exactly
   * the process the release names, or the daemon has sent the release itself and already shows the
   * lock as not held; afterwards the lock is not held.
   */
  lemma ReleaseTakesEffect(base: seq<Addr>, run: seq<Step>, s: Sys, n: NodeId)
    requires Reaches(Crash, base, run, s) && n in s.hosts && s.hosts[n].idx < |s.log|
    requires s.log[s.hosts[n].idx].Message? && s.log[s.hosts[n].idx].m.Unlock?
    ensures var h, from, m := s.hosts[n], s.log[s.hosts[n].idx].from, s.log[s.hosts[n].idx].m;
      && m.res in h.node.locks
      && (Releases(h.node.locks[m.res], m) || (from.id == n && !h.node.locks[m.res].state.Held?))
      && m.res in ProcessUnlock(h.node, m).node.locks && !ProcessUnlock(h.node, m).node.locks[m.res].state.Held?
  {
    var h, m := s.hosts[n], s.log[s.hosts[n].idx].m;
    ReachesReleases(base, run, s, m.res);
    assert TracksFrom(s.base, s.log, h, 0, Ledger(s.base, None), m.res) && Sound(s.base, s.log, h, m.res);
    assert HostInv(true, s.base, s.log, h) && ResInv(true, s.base, s.log, h, m.res);
    Finds(s.base, s.log, h, m);
    UnlockSlice(h.node, m);
  }

  /** In a fixed group the ledger and the replay are the same. */
  lemma {:induction false} ClaimIsReplay(base: seq<Addr>, log: seq<Event>, i: nat, r: Resource)
    requires CleanLog(log) && i <= |log|
    ensures var table := Replay(log, i).table;
      ClaimAt(base, log, i, r) == if r in table then Some(Claim(table[r].held, table[r].node, table[r].pid)) else None
  {
    if i > 0 { ClaimIsReplay(base, log, i - 1, r); }
  }

  /** In a fixed group every daemon finds the lock held, the sender included. */
  lemma ReleaseFindsHolder(base: seq<Addr>, run: seq<Step>, s: Sys, n: NodeId)
    requires Reaches(Fixed, base, run, s) && n in s.hosts && s.hosts[n].idx < |s.log|
    requires s.log[s.hosts[n].idx].Message? && s.log[s.hosts[n].idx].m.Unlock?
    ensures var h, m := s.hosts[n], s.log[s.hosts[n].idx].m;
      m.res in h.node.locks && Releases(h.node.locks[m.res], m)
  {
    var h, m := s.hosts[n], s.log[s.hosts[n].idx].m;
    FixedReachesInv(base, run, s);
    FixedIsRun(Formed(base), run);
    ReachesReleases(base, run, s, m.res);
    ClaimIsReplay(s.base, s.log, h.idx, m.res);
    assert FixedHost(s.base, s.log, h);
    assert OwnerOf(h.node.locks[m.res]) == Replay(s.log, h.idx).table[m.res];
  }
}
