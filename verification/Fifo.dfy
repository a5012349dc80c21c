/**
 * First come, first served: in a fixed group the grants of a resource are ordered like the
 * requests they answer, although each is chosen by a different daemon from its own queue.
 */
module Fifo {
  import opened Types
  import opened Protocol
  import opened Group
  import opened Cluster
  import opened Slices
  import opened Invariant
  import opened TokenLocal
  import opened Runs
  import opened Safety
  import opened Theorems
  import opened LocalState
  import opened Askers
  import opened Replica
  import opened FixedGroup
  import opened FixedDeliver
  import opened FixedRuns

  // ---------- the property and its invariant ----------

  /** The grant of r ordered at p answers the request ordered at a. */
  ghost predicate Answer(log: seq<Event>, r: Resource, p: nat, a: nat) {
    p < |log| && a < |log| && IsGrant(log[p], r) && IsAsk(log[a], MsgKey(log[p].m))
  }

  /** Grants of a resource are ordered like their requests. */
  ghost predicate FifoLog(log: seq<Event>) {
    forall r, p: nat, q: nat, a: nat, b: nat :: Answer(log, r, p, a) && Answer(log, r, q, b) && p < q ==> a < b
  }

  /** Requests for r still waiting at position i were ordered at b or later. */
  ghost predicate AtLeast(log: seq<Event>, i: nat, r: Resource, b: nat)
    requires i <= |log|
  {
    forall j :: 0 <= j < |Replay(log, i).queue| && Replay(log, i).queue[j].key.res == r ==>
      b <= Replay(log, i).queue[j].pos
  }

  /** No request overtaken by the grant at p was waiting there. */
  ghost predicate FirstLog(log: seq<Event>) {
    forall r, p: nat, a: nat :: Answer(log, r, p, a) ==> AtLeast(log, p, r, a)
  }

  ghost predicate GoodGrant(log: seq<Event>, r: Resource, a: nat) {
    AtLeast(log, |log|, r, a) && forall p: nat, c: nat :: Answer(log, r, p, c) ==> c < a
  }

  ghost predicate FifoOut(log: seq<Event>, out: seq<Msg>) {
    forall i, a :: 0 <= i < |out| && 0 <= a < |log| && out[i].Grant? && IsAsk(log[a], MsgKey(out[i])) ==>
      GoodGrant(log, out[i].res, a)
  }

  ghost predicate FifoInv(s: Sys) {
    && FixedInv(s) && FifoLog(s.log) && FirstLog(s.log)
    && FifoOuts(s.log, s.hosts)
  }

  ghost predicate FifoOuts(log: seq<Event>, hosts: map<NodeId, Host>) {
    forall n :: n in hosts ==> FifoOut(log, hosts[n].outbox)
  }

  // ---------- what waits later was ordered later ----------

  lemma AtLeastNext(log: seq<Event>, i: nat, r: Resource, b: nat)
    requires CleanLog(log) && b <= i < |log| && AtLeast(log, i, r, b)
    ensures AtLeast(log, i + 1, r, b)
  {
    var s, t := Replay(log, i), Replay(log, i + 1);
    TakeSub(s.queue, MsgKey(log[i].m));
    forall j | 0 <= j < |t.queue| && t.queue[j].key.res == r ensures b <= t.queue[j].pos {
      if t.queue[j] in s.queue {
        var k :| 0 <= k < |s.queue| && s.queue[k] == t.queue[j];
      } else {
        assert t.queue[j].pos == i;
      }
    }
  }

  lemma {:induction false} AtLeastLater(log: seq<Event>, i: nat, j: nat, r: Resource, b: nat)
    requires CleanLog(log) && b <= i <= j <= |log| && AtLeast(log, i, r, b)
    ensures AtLeast(log, j, r, b)
    decreases j
  {
    if i < j {
      AtLeastLater(log, i, j - 1, r, b);
      AtLeastNext(log, j - 1, r, b);
    }
  }

  lemma OtherKeys(log: seq<Event>, i: nat, a: nat, b: nat)
    requires CleanLog(log) && UniqueAsks(log) && i <= |log|
    requires a < |Replay(log, i).queue| && b < |Replay(log, i).queue| && a != b
    ensures Replay(log, i).queue[a].key != Replay(log, i).queue[b].key
  {
    if Replay(log, i).queue[a].key == Replay(log, i).queue[b].key { DistinctKeys(log, i, a, b); }
  }

  /** Once the grant at p is ordered, only later requests wait. */
  lemma GrantTakes(base: seq<Addr>, log: seq<Event>, r: Resource, p: nat, a: nat)
    requires CleanLog(log) && GrantsAnswer(log) && UniqueAsks(log)
    requires Answer(log, r, p, a) && AtLeast(log, p, r, a)
    ensures a < p && AtLeast(log, p + 1, r, a + 1)
  {
    var key := MsgKey(log[p].m);
    assert GrantAnswers(log, p);
    var c :| 0 <= c < p && IsAsk(log[c], key);
    assert c == a;
    AskedInTable(log, p, a, key);
    var s, t := Replay(log, p), Replay(log, p + 1);
    assert t.queue == Take(s.queue, key);
    ReplayQueue(log, p);
    TakeSub(s.queue, key);
    var f := FirstKey(s.queue, key);
    forall j | 0 <= j < |t.queue| && t.queue[j].key.res == r ensures a + 1 <= t.queue[j].pos {
      var k := if j < f then j else j + 1;
      assert GoodItem(log, p, s, s.queue[k]);
      assert s.queue[k].key != key by { if f < |s.queue| { OtherKeys(log, p, k, f); } }
    }
  }

  // ---------- choosing whom to grant ----------

  ghost predicate NoMarks(q: seq<Request>, r: Resource) {
    forall i :: 0 <= i < |q| && q[i].res == r ==> !q[i].granted
  }

  /** k is the first request for its resource. */
  ghost predicate FirstFor(q: seq<Request>, k: Key) {
    exists w :: 0 <= w < |q| && KeyOf(q[w]) == k && forall j :: 0 <= j < w ==> q[j].res != k.res
  }

  lemma GrantNextFirst(n: Node, r: Resource)
    requires NoMarks(n.requests, r)
    ensures var g := GrantNext(n, r); g.sent != [] ==> FirstFor(g.node.requests, MsgKey(g.sent[0]))
  {
    var g, w := GrantNext(n, r), FirstWaiter(n.requests, r);
    if g.sent != [] {
      assert KeyOf(g.node.requests[w]) == MsgKey(g.sent[0]);
      forall j | 0 <= j < w ensures g.node.requests[j].res != r { assert !IsWaiter(n.requests[j], r); }
    }
  }

  /** A handler that grants r picks the first request for r of its queue. */
  lemma HandlerPicksFirst(n: Node, from: Addr, m: Msg, r: Resource)
    requires n.joined && Ordinary(n, m) && NoMarks(n.requests, r)
    ensures var o := ProcessMessage(n, from, m);
      forall i :: 0 <= i < |o.sent| && o.sent[i].Grant? && o.sent[i].res == r ==>
        !m.Grant? && FirstFor(o.node.requests, MsgKey(o.sent[i]))
  {
    match m
    case Lock(x, node, pid, tid, _) =>
      var q := n.(requests := n.requests + [Request(x, node, pid, tid, false)]);
      GrantNextSlice(q, x);
      if x == r { GrantNextFirst(q, x); }
    case Grant(_, _, _, _) => GrantMarks(n, m);
    case Unlock(x, _, _, _) =>
      GrantNextSlice(n, x);
      if x == r { GrantNextFirst(n, x); }
    case Nak(_, _, _, _) =>
  }

  /** A daemon about to grant r has no mark on r. */
  lemma NothingMarked(base: seq<Addr>, log: seq<Event>, h: Host, r: Resource)
    requires MarksInv(log, h) && NoGrantFrom(log, h.idx, r) && NoGrantIn(Tokens(h.outbox, r))
    ensures NoMarks(h.node.requests, r)
  {
    forall i | 0 <= i < |h.node.requests| && h.node.requests[i].res == r ensures !h.node.requests[i].granted {
      if h.node.requests[i].granted {
        var key := KeyOf(h.node.requests[i]);
        assert FlyKey(log, h, key);
        FlyMeansGrant(log, h, key);
        assert false;
      }
    }
  }

  /** The replayed queue has its first request for key's resource at w, ordered at a. */
  ghost predicate HeadItem(log: seq<Event>, i: nat, w: nat, key: Key, a: nat) {
    i <= |log| && w < |Replay(log, i).queue| && Replay(log, i).queue[w] == Item(key, a) && AtLeast(log, i, key.res, a)
  }

  lemma FirstIsHead(log: seq<Event>, k: Host, key: Key, a: nat) returns (w: nat)
    requires CleanLog(log) && UniqueAsks(log) && k.idx <= |log| && Agrees(k.node, Replay(log, k.idx))
    requires FirstFor(k.node.requests, key) && a < |log| && IsAsk(log[a], key)
    ensures a < k.idx && HeadItem(log, k.idx, w, key, a)
  {
    w :| 0 <= w < |k.node.requests| && KeyOf(k.node.requests[w]) == key &&
      forall j :: 0 <= j < w ==> k.node.requests[j].res != key.res;
    var s := Replay(log, k.idx);
    ReplayQueue(log, k.idx);
    assert GoodItem(log, k.idx, s, s.queue[w]) && s.queue[w].pos == a;
    forall j | 0 <= j < |s.queue| && s.queue[j].key.res == key.res ensures a <= s.queue[j].pos {
      assert KeyOf(k.node.requests[j]) == s.queue[j].key;
      assert w <= j;
    }
  }

  /** The first request for r, seen with nothing granted ahead, makes a good grant. */
  lemma HeadIsGood(base: seq<Addr>, log: seq<Event>, i: nat, w: nat, key: Key, a: nat)
    requires CleanLog(log) && GrantsAnswer(log) && UniqueAsks(log) && FirstLog(log)
    requires a < i && HeadItem(log, i, w, key, a) && NoGrantFrom(log, i, key.res)
    ensures GoodGrant(log, key.res, a)
  {
    AtLeastLater(log, i, |log|, key.res, a);
    forall p: nat, c: nat | Answer(log, key.res, p, c) ensures c < a {
      assert p < i;
      AnsweredEarlier(base, log, i, w, key, a, p, c);
    }
  }

  lemma AnsweredEarlier(base: seq<Addr>, log: seq<Event>, i: nat, w: nat, key: Key, a: nat, p: nat, c: nat)
    requires CleanLog(log) && GrantsAnswer(log) && UniqueAsks(log) && FirstLog(log)
    requires HeadItem(log, i, w, key, a) && Answer(log, key.res, p, c) && p < i
    ensures c < a
  {
    GrantTakes(base, log, key.res, p, c);
    AtLeastLater(log, p + 1, i, key.res, c + 1);
    assert Replay(log, i).queue[w].key.res == key.res;
  }

  // ---------- sending ----------

  /** At a host whose outbox ends in the messages it just sent. */
  lemma SentGood(base: seq<Addr>, log: seq<Event>, h: Host, k: Host, t: Msg)
    requires CleanLog(log) && GrantsAnswer(log) && UniqueAsks(log) && FirstLog(log)
    requires FifoOut(log, h.outbox) && k.outbox == h.outbox + [t] && FixedHost(base, log, k)
    requires t.Grant? ==> NoGrantFrom(log, k.idx, t.res) && FirstFor(k.node.requests, MsgKey(t))
    ensures FifoOut(log, k.outbox)
  {
    forall i, a | 0 <= i < |k.outbox| && 0 <= a < |log| && k.outbox[i].Grant? && IsAsk(log[a], MsgKey(k.outbox[i]))
      ensures GoodGrant(log, k.outbox[i].res, a)
    {
      if i < |h.outbox| {
        assert k.outbox[i] == h.outbox[i];
      } else {
        var w := FirstIsHead(log, k, MsgKey(t), a);
        HeadIsGood(base, log, k.idx, w, MsgKey(t), a);
      }
    }
  }

  /** The host has just put a grant behind what was in its outbox: it had none before, and none is ahead. */
  lemma JustGranted(base: seq<Addr>, log: seq<Event>, h: Host, k: Host, t: Msg)
    requires t.Grant? && OutInv(base, log, k, t.res) && k.outbox == h.outbox + [t]
    ensures NoGrantFrom(log, k.idx, t.res) && NoGrantIn(Tokens(h.outbox, t.res))
  {
    TokensConcat(h.outbox, [t], t.res);
    assert [t][1..] == [];
    assert Tokens([t][1..], t.res) == [];
    var ts := Tokens(k.outbox, t.res);
    assert ts[..|ts| - 1] == Tokens(h.outbox, t.res);
  }

  lemma OneAnswer(n: Node, from: Addr, m: Msg)
    requires n.joined && Ordinary(n, m)
    ensures |ProcessMessage(n, from, m).sent| <= 1
  {
    if m.Grant? { GrantMarks(n, m); }
  }

  /** A daemon that grants on delivery of a message grants to the first request, with nothing ahead. */
  lemma GrantsFirst(base: seq<Addr>, log: seq<Event>, h: Host, o: Outcome, k: Host, t: Msg)
    requires h.idx < |log| && log[h.idx].Message? && h.node.joined && MarksInv(log, h) && t.Grant?
    requires Ordinary(h.node, log[h.idx].m) && k.outbox == h.outbox + [t] && OutInv(base, log, k, t.res)
    requires k.idx == h.idx + 1 && k.node == o.node && o.sent == [t]
    requires o == ProcessMessage(h.node, log[h.idx].from, log[h.idx].m)
    ensures FirstFor(k.node.requests, MsgKey(t)) && NoGrantFrom(log, k.idx, t.res)
  {
    JustGranted(base, log, h, k, t);
    if log[h.idx].m.Grant? { GrantMarks(h.node, log[h.idx].m); }
    NothingMarked(base, log, h, t.res);
    HandlerPicksFirst(h.node, log[h.idx].from, log[h.idx].m, t.res);
    assert o.sent[0] == t;
  }

  lemma DeliverFifo(base: seq<Addr>, log: seq<Event>, h: Host, order: seq<Resource>)
    requires CleanLog(log) && GrantsAnswer(log) && UniqueAsks(log) && FirstLog(log) && h.idx < |log|
    requires FixedHost(base, log, h) && Ordinary(h.node, log[h.idx].m) && FifoOut(log, h.outbox)
    requires var k := HostDeliver(h, log[h.idx], order); FixedHost(base, log, k) && HostInv(true, base, log, k)
    ensures FifoOut(log, HostDeliver(h, log[h.idx], order).outbox)
  {
    var e, k := log[h.idx], HostDeliver(h, log[h.idx], order);
    var o := ProcessMessage(h.node, e.from, e.m);
    OneAnswer(h.node, e.from, e.m);
    if o.sent == [] {
      assert k.outbox == h.outbox;
    } else {
      var t := o.sent[0];
      assert o.sent == [t];
      if t.Grant? {
        assert ResInv(true, base, log, k, t.res);
        GrantsFirst(base, log, h, o, k, t);
      }
      SentGood(base, log, h, k, t);
    }
  }

  lemma UnlockFifo(base: seq<Addr>, log: seq<Event>, h: Host, hold: Hold, order: seq<Resource>)
    requires CleanLog(log) && GrantsAnswer(log) && UniqueAsks(log) && FirstLog(log)
    requires FixedHost(base, log, h) && HostInv(true, base, log, h) && FifoOut(log, h.outbox)
    requires hold in h.holds && IsWalk(h.node.locks, order)
    requires var k := HostAskUnlock(h, hold, order); FixedHost(base, log, k) && HostInv(true, base, log, k)
    ensures FifoOut(log, HostAskUnlock(h, hold, order).outbox)
  {
    var k, release := HostAskUnlock(h, hold, order), Unlock(hold.res, h.node.id, hold.pid, hold.tid);
    assert ResInv(true, base, log, h, hold.res);
    HoldResolves(log, h, hold, order);
    GrantOrSlice(h.node, hold.res, release);
    var t := GrantOr(h.node, hold.res, release).sent[0];
    assert k.outbox == h.outbox + [t];
    if t.Grant? {
      assert ResInv(true, base, log, k, t.res);
      JustGranted(base, log, h, k, t);
      NothingMarked(base, log, h, hold.res);
      GrantNextFirst(h.node, hold.res);
    }
    SentGood(base, log, h, k, t);
  }

  // ---------- ordering ----------

  lemma AnswerGrows(log: seq<Event>, e: Event)
    ensures forall r, p: nat, a: nat :: Answer(log + [e], r, p, a) && a < |log| && p < |log| ==> Answer(log, r, p, a)
  {
  }

  lemma AtLeastPrefix(log: seq<Event>, e: Event, i: nat, r: Resource, b: nat)
    requires i <= |log|
    ensures AtLeast(log + [e], i, r, b) == AtLeast(log, i, r, b)
  {
    ReplayPrefix(log, e, i);
  }

  /** A grant still in an outbox stays good when something else is ordered. */
  lemma GoodStays(base: seq<Addr>, log: seq<Event>, e: Event, r: Resource, a: nat)
    requires CleanLog(log + [e]) && GrantsAnswer(log + [e]) && UniqueAsks(log + [e])
    requires GoodGrant(log, r, a) && a < |log| && !IsGrant(e, r)
    ensures GoodGrant(log + [e], r, a)
  {
    var log' := log + [e];
    AtLeastPrefix(log, e, |log|, r, a);
    AtLeastNext(log', |log|, r, a);
    forall p: nat, c: nat | Answer(log', r, p, c) ensures c < a {
      assert p < |log|;
      AnswerEarlier(base, log', r, p, c);
      AnswerGrows(log, e);
    }
  }

  lemma AnswerEarlier(base: seq<Addr>, log: seq<Event>, r: Resource, p: nat, a: nat)
    requires GrantsAnswer(log) && UniqueAsks(log) && Answer(log, r, p, a)
    ensures a < p
  {
    assert GrantAnswers(log, p);
    var c :| 0 <= c < p && IsAsk(log[c], MsgKey(log[p].m));
  }

  lemma OrderedFifo(base: seq<Addr>, log: seq<Event>, from: Addr, out: seq<Msg>)
    requires FifoLog(log) && FirstLog(log) && out != [] && FifoOut(log, out)
    requires var log' := log + [Message(from, out[0])]; CleanLog(log') && GrantsAnswer(log') && UniqueAsks(log')
    ensures FifoLog(log + [Message(from, out[0])]) && FirstLog(log + [Message(from, out[0])])
  {
    var e := Message(from, out[0]);
    var log' := log + [e];
    AnswerGrows(log, e);
    forall r, p: nat, a: nat | Answer(log', r, p, a) ensures AtLeast(log', p, r, a) {
      AnswerEarlier(base, log', r, p, a);
      AtLeastPrefix(log, e, p, r, a);
      if p == |log| { assert GoodGrant(log, r, a) by { assert IsAsk(log[a], MsgKey(out[0])); } }
    }
    forall r, p: nat, q: nat, a: nat, b: nat | Answer(log', r, p, a) && Answer(log', r, q, b) && p < q ensures a < b {
      AnswerEarlier(base, log', r, p, a);
      AnswerEarlier(base, log', r, q, b);
      assert Answer(log, r, p, a);
      if q == |log| { assert GoodGrant(log, r, b) by { assert IsAsk(log[b], MsgKey(out[0])); } }
    }
  }

  lemma OutStays(base: seq<Addr>, log: seq<Event>, e: Event, h: Host)
    requires CleanLog(log + [e]) && GrantsAnswer(log + [e]) && UniqueAsks(log + [e])
    requires FifoOut(log, h.outbox) && OutAsks(log, h)
    requires forall i :: 0 <= i < |h.outbox| && h.outbox[i].Grant? ==> !IsGrant(e, h.outbox[i].res)
    ensures FifoOut(log + [e], h.outbox)
  {
    var log' := log + [e];
    forall i, a | 0 <= i < |h.outbox| && 0 <= a < |log'| && h.outbox[i].Grant? && IsAsk(log'[a], MsgKey(h.outbox[i]))
      ensures GoodGrant(log', h.outbox[i].res, a)
    {
      var p :| 0 <= p < |log| && IsAsk(log[p], MsgKey(h.outbox[i]));
      assert IsAsk(log'[p], MsgKey(h.outbox[i]));
      GoodStays(base, log, e, h.outbox[i].res, a);
    }
  }

  /** Two grants of one resource are never on their way at the same time. */
  lemma LoneGrant(s: Sys, n: NodeId, i: nat, m: NodeId, j: nat)
    requires Inv(true, s) && n in s.hosts && m in s.hosts && i < |s.hosts[n].outbox| && j < |s.hosts[m].outbox|
    requires s.hosts[n].outbox[i].Grant? && s.hosts[m].outbox[j].Grant?
    requires s.hosts[n].outbox[i].res == s.hosts[m].outbox[j].res
    ensures n == m && i == j
  {
    var r := s.hosts[n].outbox[i].res;
    TidyInvIsStronger(s);
    TokenIsResponsible(s, r, GrantSent(n, i));
    TokenIsResponsible(s, r, GrantSent(m, j));
    SameHostSameToken(s, r, GrantSent(n, i), GrantSent(m, j));
  }

  lemma TailKept(log: seq<Event>, h: Host)
    requires h.outbox != [] && OutAsks(log, h) && FifoOut(log, h.outbox)
    ensures OutAsks(log, h.(outbox := h.outbox[1..])) && FifoOut(log, h.outbox[1..])
  {
    assert forall i :: 0 <= i < |h.outbox[1..]| ==> h.outbox[1..][i] == h.outbox[i + 1];
  }

  lemma SequenceOuts(s: Sys, n: NodeId, x: NodeId, e: Event, l: Host)
    requires FifoInv(s) && n in s.hosts && s.hosts[n].outbox != [] && x in s.hosts
    requires e == Message(Self(s.hosts[n]), s.hosts[n].outbox[0])
    requires l == if x == n then s.hosts[n].(outbox := s.hosts[n].outbox[1..]) else s.hosts[x]
    requires CleanLog(s.log + [e]) && GrantsAnswer(s.log + [e]) && UniqueAsks(s.log + [e])
    ensures FifoOut(s.log + [e], l.outbox)
  {
    var h, k := s.hosts[n], s.hosts[x];
    if x == n { TailKept(s.log, h); }
    forall i | 0 <= i < |l.outbox| && l.outbox[i].Grant? ensures !IsGrant(e, l.outbox[i].res) {
      var j := if x == n then i + 1 else i;
      assert l.outbox[i] == k.outbox[j];
      if IsGrant(e, l.outbox[i].res) { LoneGrant(s, n, 0, x, j); }
    }
    OutStays(s.base, s.log, e, l);
  }

  lemma AllFifo(log: seq<Event>, hosts: map<NodeId, Host>, n: NodeId, k: Host)
    requires FifoOut(log, k.outbox) && forall x :: x in hosts && x != n ==> FifoOut(log, hosts[x].outbox)
    ensures FifoOuts(log, hosts[n := k])
  {
  }

  lemma SequenceFifoOuts(s: Sys, n: NodeId, k: Host, e: Event)
    requires FifoInv(s) && n in s.hosts && s.hosts[n].outbox != []
    requires k == s.hosts[n].(outbox := s.hosts[n].outbox[1..]) && e == Message(Self(s.hosts[n]), s.hosts[n].outbox[0])
    requires CleanLog(s.log + [e]) && GrantsAnswer(s.log + [e]) && UniqueAsks(s.log + [e])
    ensures FifoOuts(s.log + [e], s.hosts[n := k])
  {
    SequenceOuts(s, n, n, e, k);
    forall x | x in s.hosts && x != n ensures FifoOut(s.log + [e], s.hosts[x].outbox) {
      SequenceOuts(s, n, x, e, s.hosts[x]);
    }
    AllFifo(s.log + [e], s.hosts, n, k);
  }

  lemma SequenceFifo(s: Sys, t: Step)
    requires FifoInv(s) && t.Sequence? && May(Fixed, s, t)
    ensures FifoInv(Apply(s, t))
  {
    var h := s.hosts[t.n];
    StepFixed(s, t);
    OrderedFifo(s.base, s.log, Self(h), h.outbox);
    SequenceFifoOuts(s, t.n, h.(outbox := h.outbox[1..]), Message(Self(h), h.outbox[0]));
  }

  // ---------- runs ----------

  lemma LocalFifo(s: Sys, n: NodeId, k: Host, u: Sys)
    requires FifoInv(s) && n in s.hosts && u == s.(hosts := s.hosts[n := k]) && FixedInv(u) && FifoOut(s.log, k.outbox)
    ensures FifoInv(u)
  {
  }

  lemma AskFifo(log: seq<Event>, out: seq<Msg>, m: Msg)
    requires FifoOut(log, out) && m.Lock?
    ensures FifoOut(log, out + [m])
  {
  }

  lemma AskLockFifo(s: Sys, t: Step)
    requires FifoInv(s) && t.AskLock? && May(Fixed, s, t) && FixedInv(Apply(s, t))
    ensures FifoInv(Apply(s, t))
  {
    var h := s.hosts[t.n];
    var k := HostAskLock(h, t.fd, t.res, t.pid, t.tid, t.isTry);
    AskLockClients(h, t.fd, t.pid, k, t.res, t.tid, t.isTry);
    AskFifo(s.log, h.outbox, Lock(t.res, h.node.id, t.pid, t.tid, t.isTry));
    LocalFifo(s, t.n, k, Apply(s, t));
  }

  lemma ConnectFifo(s: Sys, t: Step)
    requires FifoInv(s) && t.Connect? && May(Fixed, s, t) && FixedInv(Apply(s, t))
    ensures FifoInv(Apply(s, t))
  {
    LocalFifo(s, t.n, HostConnect(s.hosts[t.n], t.fd), Apply(s, t));
  }

  lemma UnlockStepFifo(s: Sys, t: Step)
    requires FifoInv(s) && t.AskUnlock? && May(Fixed, s, t) && FixedInv(Apply(s, t))
    ensures FifoInv(Apply(s, t))
  {
    UnlockFifo(s.base, s.log, s.hosts[t.n], t.hold, t.order);
    LocalFifo(s, t.n, HostAskUnlock(s.hosts[t.n], t.hold, t.order), Apply(s, t));
  }

  lemma DeliverStepFifo(s: Sys, t: Step)
    requires FifoInv(s) && t.Deliver? && May(Fixed, s, t) && FixedInv(Apply(s, t))
    ensures FifoInv(Apply(s, t))
  {
    var h := s.hosts[t.n];
    OrdinaryMessage(s, t.n);
    DeliverFifo(s.base, s.log, h, t.order);
    LocalFifo(s, t.n, HostDeliver(h, s.log[h.idx], t.order), Apply(s, t));
  }

  lemma StepFifo(s: Sys, t: Step)
    requires FifoInv(s) && May(Fixed, s, t)
    ensures FifoInv(Apply(s, t))
  {
    StepFixed(s, t);
    if t.Sequence? { SequenceFifo(s, t); } else { HostFifo(s, t); }
  }

  lemma ClientFifo(s: Sys, t: Step)
    requires FifoInv(s) && May(Fixed, s, t) && (t.Connect? || t.AskLock? || t.AskUnlock?) && FixedInv(Apply(s, t))
    ensures FifoInv(Apply(s, t))
  {
    match t
    case Connect(_, _) => ConnectFifo(s, t);
    case AskLock(_, _, _, _, _, _) => AskLockFifo(s, t);
    case AskUnlock(_, _, _) => UnlockStepFifo(s, t);
  }

  lemma HostFifo(s: Sys, t: Step)
    requires FifoInv(s) && May(Fixed, s, t) && !t.Sequence? && FixedInv(Apply(s, t))
    ensures FifoInv(Apply(s, t))
  {
    if t.Deliver? { DeliverStepFifo(s, t); } else { ClientFifo(s, t); }
  }

  lemma {:induction false} RunFifo(s: Sys, run: seq<Step>)
    requires FifoInv(s) && IsRun(Fixed, s, run)
    ensures FifoInv(Exec(Fixed, s, run))
    decreases |run|
  {
    if run != [] {
      StepFifo(s, run[0]);
      RunFifo(Apply(s, run[0]), run[1..]);
    }
  }
}
