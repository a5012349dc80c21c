/**
 * The safety theorems, for every formed group (also the empty one) and every run.
 */
module Theorems {
  import opened Types
  import opened Protocol
  import opened Group
  import opened Cluster
  import opened Slices
  import opened Structure
  import opened Invariant
  import opened TokenLocal
  import opened Runs
  import opened Safety

  /** At most one client anywhere in the cluster has been told it has r and has not released it. */
  ghost predicate MutualExclusion(s: Sys) {
    forall n, m, x, y :: n in s.hosts && m in s.hosts && x in s.hosts[n].holds && y in s.hosts[m].holds ==>
      (x.res == y.res ==> n == m && x == y)
  }

  // ---------- tokens ----------

  /** The forms the right to a resource can take. */
  datatype Token =
    | Owned(n: NodeId, hold: Hold)       // a client was told it has the lock
    | GrantSent(n: NodeId, i: nat)       // a grant not yet ordered
    | GrantOrdered(n: NodeId, p: nat)    // a grant ordered but not yet seen by the node it makes responsible
    | ReleaseSent(n: NodeId)             // the owner's release is on its way
    | FreeAt(n: NodeId)                  // free at its owner
    | Unclaimed(n: NodeId)               // never heard of by the oldest member

  ghost predicate IsTokenOf(s: Sys, r: Resource, t: Token) {
    && t.n in s.hosts
    && var h := s.hosts[t.n];
       match t
       case Owned(_, hold) => hold in h.holds && hold.res == r
       case GrantSent(_, i) => i < |h.outbox| && h.outbox[i].Grant? && h.outbox[i].res == r
       case GrantOrdered(_, p) =>
         h.idx <= p < |s.log| && IsGrant(s.log[p], r) && RespAt(s.base, s.log, r, p + 1) == Some(t.n)
       case ReleaseSent(_) => exists pid :: HeldBy(h.node, r, pid) && Releasing(s.log, h, r, pid)
       case FreeAt(_) => r in h.node.locks && h.node.locks[r].node == t.n && h.node.locks[r].state.Free?
       case Unclaimed(_) => h.node.joined && OwnHead(h.node) && r !in h.node.locks
  }

  /** At the host, the right to r lies at the host's own position and nothing is ahead. */
  ghost predicate Settled(base: seq<Addr>, log: seq<Event>, h: Host, r: Resource) {
    Mine(base, log, h, r) && NoGrantFrom(log, h.idx, r)
  }

  lemma UnclaimedIsMine(base: seq<Addr>, log: seq<Event>, h: Host, r: Resource)
    requires WellFormedLog(base, log) && HostInv(false, base, log, h)
    requires h.node.joined && OwnHead(h.node) && r !in h.node.locks
    ensures Mine(base, log, h, r)
  {
    OwnHeadIsOldest(base, log, h);
    RosterFacts(base, log, h.idx);
    assert LabelInv(base, log, h, r) by { assert ResInv(false, base, log, h, r); }
  }

  lemma TokensHave(ms: seq<Msg>, i: nat, r: Resource)
    requires i < |ms| && IsToken(ms[i], r)
    ensures ms[i] in Tokens(ms, r)
  {
  }

  /** Every token but an ordered grant is settled where it is. */
  lemma TokenSettled(s: Sys, r: Resource, t: Token)
    requires Inv(false, s) && IsTokenOf(s, r, t) && !t.GrantOrdered?
    ensures Settled(s.base, s.log, s.hosts[t.n], r)
    ensures !t.GrantSent? ==> Potent(false, s.base, s.log, s.hosts[t.n], r) && NoGrantIn(Tokens(s.hosts[t.n].outbox, r))
  {
    var h := s.hosts[t.n];
    assert ResInv(false, s.base, s.log, h, r);
    match t
    case Owned(_, hold) => assert HoldsRes(h, r);
    case GrantSent(_, i) => TokensHave(h.outbox, i, r);
    case ReleaseSent(_) =>
    case FreeAt(_) =>
    case Unclaimed(_) => UnclaimedIsMine(s.base, s.log, h, r);
  }

  /** The holder of any token is the responsible node at the end of the agreed order. */
  lemma TokenIsResponsible(s: Sys, r: Resource, t: Token)
    requires Inv(false, s) && IsTokenOf(s, r, t)
    ensures RespAt(s.base, s.log, r, |s.log|) == Some(t.n)
  {
    var h := s.hosts[t.n];
    assert HostInv(false, s.base, s.log, h);
    assert ResInv(false, s.base, s.log, h, r);
    if t.GrantOrdered? {
      OrderedIsResponsible(s.base, s.log, h, r, t.p);
    } else {
      TokenSettled(s, r, t);
      RespStays(s.base, s.log, r, h.idx, |s.log|, t.n);
    }
  }

  lemma OrderedIsResponsible(base: seq<Addr>, log: seq<Event>, h: Host, r: Resource, p: nat)
    requires TakeInv(base, log, h, r) && Stays(log, h.idx, h.node.id)
    requires h.idx <= p < |log| && IsGrant(log[p], r) && RespAt(base, log, r, p + 1) == Some(h.node.id)
    ensures RespAt(base, log, r, |log|) == Some(h.node.id)
  {
    assert Takeover(base, log, r, p);
    assert NoGrantFrom(log, p + 1, r);
    RespStays(base, log, r, p + 1, |log|, h.node.id);
  }

  lemma EarlierToken(ms: seq<Msg>, i: nat, j: nat, r: Resource)
    requires i < j < |ms| && IsToken(ms[i], r) && IsToken(ms[j], r)
    ensures var ts := Tokens(ms, r); ts != [] && ms[i] in ts[..|ts| - 1]
  {
    var ts, tail := Tokens(ms, r), Tokens(ms[1..], r);
    assert ms[1..][j - 1] == ms[j];
    if i == 0 {
      TokensHave(ms[1..], j - 1, r);
      assert ts[..|ts| - 1][0] == ms[0];
    } else {
      EarlierToken(ms[1..], i - 1, j - 1, r);
      var k :| 0 <= k < |tail| - 1 && tail[k] == ms[i];
      assert ts[..|ts| - 1][if IsToken(ms[0], r) then k + 1 else k] == ms[i];
    }
  }

  lemma OneGrantSent(base: seq<Addr>, log: seq<Event>, h: Host, r: Resource, i: nat, j: nat)
    requires OutInv(base, log, h, r) && i <= j < |h.outbox|
    requires h.outbox[i].Grant? && h.outbox[i].res == r && h.outbox[j].Grant? && h.outbox[j].res == r
    ensures i == j
  {
    if i < j { EarlierToken(h.outbox, i, j, r); }
  }

  /** A grant in an outbox is the only one of its resource there, and none is ordered ahead of the daemon. */
  ghost predicate GrantAlone(log: seq<Event>, h: Host, i: nat)
    requires i < |h.outbox| && h.outbox[i].Grant?
  {
    && NoGrantFrom(log, h.idx, h.outbox[i].res)
    && forall j :: 0 <= j < |h.outbox| && h.outbox[j].Grant? && h.outbox[j].res == h.outbox[i].res ==> j == i
  }

  lemma SentAlone(base: seq<Addr>, log: seq<Event>, h: Host, i: nat)
    requires i < |h.outbox| && h.outbox[i].Grant? && OutInv(base, log, h, h.outbox[i].res)
    ensures GrantAlone(log, h, i)
  {
    var r := h.outbox[i].res;
    TokensHave(h.outbox, i, r);
    forall j | 0 <= j < |h.outbox| && h.outbox[j].Grant? && h.outbox[j].res == r ensures j == i {
      if i <= j { OneGrantSent(base, log, h, r, i, j); } else { OneGrantSent(base, log, h, r, j, i); }
    }
  }

  lemma SameHostSameToken(s: Sys, r: Resource, t: Token, u: Token)
    requires Inv(false, s) && IsTokenOf(s, r, t) && IsTokenOf(s, r, u) && t.n == u.n
    ensures t == u
  {
    var h := s.hosts[t.n];
    assert ResInv(false, s.base, s.log, h, r);
    if t.GrantOrdered? && u.GrantOrdered? {
      assert Takeover(s.base, s.log, r, t.p) && Takeover(s.base, s.log, r, u.p);
      assert NoGrantFrom(s.log, t.p + 1, r) && NoGrantFrom(s.log, u.p + 1, r);
    } else if t.GrantOrdered? {
      TokenSettled(s, r, u);
    } else if u.GrantOrdered? {
      TokenSettled(s, r, t);
    } else {
      TokenSettled(s, r, t);
      TokenSettled(s, r, u);
      SettledSame(s, r, t, u);
    }
  }

  lemma SettledSame(s: Sys, r: Resource, t: Token, u: Token)
    requires Inv(false, s) && IsTokenOf(s, r, t) && IsTokenOf(s, r, u) && t.n == u.n
    requires !t.GrantOrdered? && !u.GrantOrdered?
    requires !t.GrantSent? || !u.GrantSent? ==> NoGrantIn(Tokens(s.hosts[t.n].outbox, r))
    ensures t == u
  {
    var h := s.hosts[t.n];
    assert ResInv(false, s.base, s.log, h, r);
    if t.GrantSent? { TokensHave(h.outbox, t.i, r); }
    if u.GrantSent? { TokensHave(h.outbox, u.i, r); }
    if t.GrantSent? && u.GrantSent? { SentAlone(s.base, s.log, h, t.i); }
  }

  /** For every run: at most one token per resource, whatever its form and wherever it is. */
  lemma SingleToken(base: seq<Addr>, run: seq<Step>, s: Sys, r: Resource, t: Token, u: Token)
    requires Reaches(Guarded, base, run, s)
    requires IsTokenOf(s, r, t) && IsTokenOf(s, r, u)
    ensures t == u
  {
    ReachesInv(false, base, run, s);
    TokenIsResponsible(s, r, t);
    TokenIsResponsible(s, r, u);
    SameHostSameToken(s, r, t, u);
  }

  /** For every run: no two clients hold the same resource. */
  lemma MutualExclusionHolds(base: seq<Addr>, run: seq<Step>, s: Sys)
    requires Reaches(Guarded, base, run, s)
    ensures MutualExclusion(s)
  {
    forall n, m, x, y | n in s.hosts && m in s.hosts && x in s.hosts[n].holds && y in s.hosts[m].holds && x.res == y.res
      ensures n == m && x == y
    {
      SingleToken(base, run, s, x.res, Owned(n, x), Owned(m, y));
    }
  }

  // ---------- lock ids ----------

  /**
   * For every run: a holder's id resolves, in whatever order the table is walked, to exactly its
   * lock; the daemon then hands the lock to a waiter or releases it in the holder's name.
   */
  lemma LockIdResolution(base: seq<Addr>, run: seq<Step>, s: Sys, n: NodeId, hold: Hold, order: seq<Resource>)
    requires Reaches(Guarded, base, run, s)
    requires n in s.hosts && hold in s.hosts[n].holds && IsWalk(s.hosts[n].node.locks, order)
    ensures hold.res in s.hosts[n].node.locks
    ensures s.hosts[n].node.locks[hold.res] == LockRec(Held, n, hold.pid, hold.tid, hold.id)
    ensures ClientUnlock(s.hosts[n].node, hold.id, order) ==
      GrantOr(s.hosts[n].node, hold.res, Unlock(hold.res, n, hold.pid, hold.tid))
  {
    ReachesInv(false, base, run, s);
    var h := s.hosts[n];
    assert ResInv(false, s.base, s.log, h, hold.res);
    HoldResolves(s.log, h, hold, order);
  }
}
