/**
 * The invariant of a fixed group: agreement with the replay, the meaning of local marks and
 * pending states, and what keeps waiters from being forgotten.
 */
module FixedGroup {
  import opened Types
  import opened Protocol
  import opened Group
  import opened Cluster
  import opened Slices
  import opened Runs
  import opened Askers
  import opened CrashSteps
  import opened CrashRuns
  import opened Replica

  // ---------- the log of a fixed group ----------

  /** Only lock traffic. */
  ghost predicate CleanLog(log: seq<Event>) {
    forall p :: 0 <= p < |log| ==> log[p].Message? && Keyed(log[p].m)
  }

  /** Grants name founders and processes. */
  ghost predicate GrantsToMembers(base: seq<Addr>, log: seq<Event>) {
    forall q :: 0 <= q < |log| && log[q].Message? && log[q].m.Grant? ==> ToMember(base, log[q].m)
  }

  ghost predicate ToMember(base: seq<Addr>, m: Msg)
    requires m.Grant?
  {
    m.node in IdSeq(base) && m.node != 0 && m.pid != 0
  }

  /** Only members ask, so only members are granted. */
  lemma AskerIsMember(base: seq<Addr>, log: seq<Event>, k: Key)
    requires WellFormedLog(base, log) && CleanLog(log) && OwnAsks(log) && Ordered(log, k)
    ensures k.node in IdSeq(base)
  {
    var p :| 0 <= p < |log| && IsAsk(log[p], k);
    assert SoundAt(base, log, p);
    CleanRoster(base, log, p);
    var i :| 0 <= i < |base| && base[i].id == k.node;
    assert IdSeq(base)[i] == k.node;
  }

  lemma CleanRoster(base: seq<Addr>, log: seq<Event>, i: nat)
    requires CleanLog(log) && i <= |log|
    ensures RosterAt(base, log, i) == Roster(Ids(base), IdSeq(base))
  {
    if i > 0 { CleanRoster(base, log, i - 1); }
  }

  /** What a queue replayed up to position i contains: ordered requests, oldest first. */
  ghost predicate GoodQueue(log: seq<Event>, i: nat, s: Shared) {
    && (forall j :: 0 <= j < |s.queue| ==> GoodItem(log, i, s, s.queue[j]))
    && (forall j, k :: 0 <= j < k < |s.queue| ==> s.queue[j].pos < s.queue[k].pos)
  }

  ghost predicate GoodItem(log: seq<Event>, i: nat, s: Shared, x: Item) {
    x.pos < i <= |log| && IsAsk(log[x.pos], x.key) && x.key.res in s.table
  }

  lemma TakeSub(q: seq<Item>, k: Key)
    ensures forall j :: 0 <= j < |Take(q, k)| ==> Take(q, k)[j] == q[if j < FirstKey(q, k) then j else j + 1]
    ensures |Take(q, k)| <= |q|
    ensures forall x :: x in Take(q, k) ==> x in q
  {
  }

  lemma TakeGood(log: seq<Event>, i: nat, s: Shared, k: Key)
    requires GoodQueue(log, i, s)
    ensures GoodQueue(log, i, s.(queue := Take(s.queue, k)))
  {
    TakeSub(s.queue, k);
    var t := s.(queue := Take(s.queue, k));
    forall j | 0 <= j < |t.queue| ensures GoodItem(log, i, t, t.queue[j]) {
      assert GoodItem(log, i, s, s.queue[if j < FirstKey(s.queue, k) then j else j + 1]);
    }
  }

  lemma MoreTableGood(log: seq<Event>, i: nat, s: Shared, t: Shared)
    requires GoodQueue(log, i, s) && t.queue == s.queue && s.table.Keys <= t.table.Keys && i < |log|
    ensures GoodQueue(log, i + 1, t)
  {
    forall j | 0 <= j < |t.queue| ensures GoodItem(log, i + 1, t, t.queue[j]) {
      assert GoodItem(log, i, s, s.queue[j]);
    }
  }

  lemma ArrivalGood(log: seq<Event>, i: nat, s: Shared, m: Msg)
    requires i < |log| && log[i].Message? && log[i].m == m && m.Lock? && GoodQueue(log, i, s)
    ensures GoodQueue(log, i + 1, Advance(s, m, i))
  {
    var t := Advance(s, m, i);
    var u := t.(queue := s.queue);
    MoreTableGood(log, i, s, u);
    forall j | 0 <= j < |t.queue| ensures GoodItem(log, i + 1, t, t.queue[j]) {
      if j < |s.queue| { assert GoodItem(log, i + 1, u, u.queue[j]); }
    }
    forall j, k | 0 <= j < k < |t.queue| ensures t.queue[j].pos < t.queue[k].pos {
      assert GoodItem(log, i, s, s.queue[j]);
    }
  }

  lemma AdvanceGood(log: seq<Event>, i: nat, s: Shared, m: Msg)
    requires i < |log| && log[i].Message? && log[i].m == m && Keyed(m) && GoodQueue(log, i, s)
    ensures GoodQueue(log, i + 1, Advance(s, m, i))
  {
    var t := Advance(s, m, i);
    TakeGood(log, i, s, MsgKey(m));
    match m
    case Lock(_, _, _, _, _) => ArrivalGood(log, i, s, m);
    case Grant(r, _, _, _) =>
      if r in s.table {
        MoreTableGood(log, i, s.(queue := Take(s.queue, MsgKey(m))), t);
      } else {
        MoreTableGood(log, i, s, t);
      }
    case Unlock(_, _, _, _) => MoreTableGood(log, i, s, t);
    case Nak(_, _, _, _) => MoreTableGood(log, i, s.(queue := Take(s.queue, MsgKey(m))), t);
  }

  lemma {:induction false} ReplayQueue(log: seq<Event>, i: nat)
    requires CleanLog(log) && i <= |log|
    ensures GoodQueue(log, i, Replay(log, i))
  {
    if i > 0 {
      ReplayQueue(log, i - 1);
      AdvanceGood(log, i - 1, Replay(log, i - 1), log[i - 1].m);
    }
  }

  /** The replayed table and the responsible node tell the same story. */
  ghost predicate SameStory(base: seq<Addr>, table: map<Resource, Owner>, r: Resource, who: Option<NodeId>) {
    && (r !in table || table[r].node == 0 ==> who == Oldest(IdSeq(base)))
    && (r in table && table[r].node != 0 ==> who == Some(table[r].node) && table[r].node in IdSeq(base))
    && (r in table && table[r].held ==> table[r].node != 0)
  }

  /** In a fixed group only grants move responsibility. */
  lemma RespMoves(base: seq<Addr>, log: seq<Event>, r: Resource, i: nat)
    requires CleanLog(log) && GrantsToMembers(base, log) && 0 < i <= |log|
    ensures RespAt(base, log, r, i) == if IsGrant(log[i - 1], r) then Some(log[i - 1].m.node)
      else RespAt(base, log, r, i - 1)
  {
    CleanRoster(base, log, i);
    CleanRoster(base, log, i - 1);
    RespFacts(base, log, r, i - 1);
    if log[i - 1].m.Grant? { assert ToMember(base, log[i - 1].m); }
  }

  lemma {:induction false} RespOfReplay(base: seq<Addr>, log: seq<Event>, r: Resource, i: nat)
    requires CleanLog(log) && GrantsToMembers(base, log) && i <= |log|
    ensures SameStory(base, Replay(log, i).table, r, RespAt(base, log, r, i))
  {
    if i > 0 {
      RespOfReplay(base, log, r, i - 1);
      RespMoves(base, log, r, i);
      if log[i - 1].m.Grant? { assert ToMember(base, log[i - 1].m); }
    }
  }

  /** A resource somebody asked for is in the table. */
  lemma AskedInTable(log: seq<Event>, i: nat, p: nat, k: Key)
    requires CleanLog(log) && p < i <= |log| && IsAsk(log[p], k)
    ensures k.res in Replay(log, i).table
  {
    if p < i - 1 { AskedInTable(log, i - 1, p, k); }
  }

  lemma DistinctKeys(log: seq<Event>, i: nat, a: nat, b: nat)
    requires CleanLog(log) && UniqueAsks(log) && i <= |log|
    requires a < |Replay(log, i).queue| && b < |Replay(log, i).queue|
    requires Replay(log, i).queue[a].key == Replay(log, i).queue[b].key
    ensures a == b
  {
    ReplayQueue(log, i);
    var s := Replay(log, i);
    assert GoodItem(log, i, s, s.queue[a]) && GoodItem(log, i, s, s.queue[b]);
    assert s.queue[a].pos == s.queue[b].pos;
  }

  // ---------- the invariant ----------

  /** The oldest daemon decides on a lock nobody has owned. */
  ghost predicate HeadRes(h: Host, r: Resource) {
    r in h.node.locks && h.node.locks[r].node == 0 && OwnHead(h.node) ==> h.node.locks[r].state.Pending?
  }

  ghost predicate CleanOut(h: Host) {
    forall i :: 0 <= i < |h.outbox| ==> Keyed(h.outbox[i])
  }

  ghost predicate FixedPart(base: seq<Addr>, log: seq<Event>, h: Host) {
    && h.idx <= |log| && h.node.joined && h.node.members == base
    && CleanOut(h)
    && Agrees(h.node, Replay(log, h.idx))
    && (forall r :: HeadRes(h, r))
  }

  ghost predicate FixedHost(base: seq<Addr>, log: seq<Event>, h: Host) {
    CrashHost(base, log, h) && FixedPart(base, log, h)
  }

  ghost predicate FixedParts(base: seq<Addr>, log: seq<Event>, hosts: map<NodeId, Host>) {
    forall n :: n in hosts ==> FixedPart(base, log, hosts[n])
  }

  ghost predicate FixedInv(s: Sys) {
    && CrashInv(s)
    && CleanLog(s.log) && GrantsToMembers(s.base, s.log)
    && s.hosts.Keys == Ids(s.base)
    && FixedParts(s.base, s.log, s.hosts)
  }
}
