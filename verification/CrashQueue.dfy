/**
 * The queue of a daemon in a group from which members may leave: the requests ordered and not yet
 * answered, without those of nodes whose purge the daemon has sent but not yet been delivered.
 */
module CrashQueue {
  import opened Types
  import opened Protocol
  import opened Group
  import opened Slices
  import opened Runs
  import opened Claims
  import opened LocalState
  import opened Askers

  // ---------- the agreed queue ----------

  function FirstKey(q: seq<Key>, k: Key): (i: nat)
    ensures i <= |q|
    ensures i < |q| ==> q[i] == k
    ensures forall j :: 0 <= j < i ==> q[j] != k
  {
    if q == [] then 0 else if q[0] == k then 0 else 1 + FirstKey(q[1..], k)
  }

  predicate PurgesKey(m: Msg, k: Key) {
    m.Purge? && k.node == m.node && (m.pid == 0 || k.pid == m.pid)
  }

  ghost predicate Kept(k: Key, out: set<Msg>) {
    forall m :: m in out ==> !PurgesKey(m, k)
  }

  /** The requests that none of the messages purges. */
  ghost function Keep(q: seq<Key>, out: set<Msg>): seq<Key> {
    if q == [] then []
    else
      var rest := Keep(q[..|q| - 1], out);
      if Kept(q[|q| - 1], out) then rest + [q[|q| - 1]] else rest
  }

  /** The effect of one message on the queue. */
  ghost function Next(q: seq<Key>, m: Msg): seq<Key> {
    match m
    case Lock(_, _, _, _, _) => q + [MsgKey(m)]
    case Grant(_, _, _, _) => DropAt(q, FirstKey(q, MsgKey(m)))
    case Nak(_, _, _, _) => DropAt(q, FirstKey(q, MsgKey(m)))
    case Purge(_, _) => Keep(q, {m})
    case _ => q
  }

  ghost function QueueAt(log: seq<Event>, i: nat): seq<Key>
    requires i <= |log|
  {
    if i == 0 then []
    else if log[i - 1].Message? then Next(QueueAt(log, i - 1), log[i - 1].m)
    else QueueAt(log, i - 1)
  }

  lemma {:induction false} QueuePrefix(log: seq<Event>, e: Event, i: nat)
    requires i <= |log|
    ensures QueueAt(log + [e], i) == QueueAt(log, i)
  {
    if i > 0 { QueuePrefix(log, e, i - 1); }
  }

  lemma {:induction false} KeepIn(q: seq<Key>, out: set<Msg>)
    ensures forall k :: k in Keep(q, out) <==> k in q && Kept(k, out)
    ensures Distinct(q) ==> Distinct(Keep(q, out))
  {
    if q != [] {
      var front := q[..|q| - 1];
      KeepIn(front, out);
      assert q == front + [q[|q| - 1]];
      if Distinct(q) {
        forall i | 0 <= i < |front| ensures front[i] != q[|q| - 1] { assert q[i] != q[|q| - 1]; }
        assert q[|q| - 1] !in front;
      }
    }
  }

  lemma DropIn(q: seq<Key>, i: nat)
    ensures forall k :: k in DropAt(q, i) ==> k in q
    ensures Distinct(q) ==> Distinct(DropAt(q, i)) && (i < |q| ==> q[i] !in DropAt(q, i))
  {
    var d := DropAt(q, i);
    assert forall j :: 0 <= j < |d| ==> d[j] == q[if i < |q| && j >= i then j + 1 else j];
  }

  /** Every waiting request was ordered, and none waits twice. */
  lemma {:induction false} QueueAsked(log: seq<Event>, i: nat)
    requires UniqueAsks(log) && i <= |log|
    ensures Distinct(QueueAt(log, i))
    ensures forall k :: k in QueueAt(log, i) ==> exists p :: 0 <= p < i && IsAsk(log[p], k)
  {
    if i > 0 {
      QueueAsked(log, i - 1);
      var q := QueueAt(log, i - 1);
      if log[i - 1].Message? {
        var m := log[i - 1].m;
        if m.Lock? {
          assert IsAsk(log[i - 1], MsgKey(m));
          assert MsgKey(m) !in q;
        } else if m.Grant? || m.Nak? {
          DropIn(q, FirstKey(q, MsgKey(m)));
        } else if m.Purge? {
          KeepIn(q, {m});
        }
      }
    }
  }

  // ---------- keeping and taking commute ----------

  ghost predicate SamePurges(a: set<Msg>, b: set<Msg>) {
    forall m: Msg :: m.Purge? ==> (m in a <==> m in b)
  }

  lemma {:induction false} KeepSame(q: seq<Key>, a: set<Msg>, b: set<Msg>)
    requires SamePurges(a, b)
    ensures Keep(q, a) == Keep(q, b)
  {
    if q != [] {
      KeepSame(q[..|q| - 1], a, b);
      KeptSame(q[|q| - 1], a, b);
    }
  }

  lemma KeptSame(k: Key, a: set<Msg>, b: set<Msg>)
    requires SamePurges(a, b)
    ensures Kept(k, a) <==> Kept(k, b)
  {
    forall m | m in a + b && PurgesKey(m, k) ensures m in a && m in b { }
  }

  lemma {:induction false} KeepBoth(q: seq<Key>, a: set<Msg>, b: set<Msg>)
    ensures Keep(Keep(q, a), b) == Keep(q, a + b)
  {
    if q != [] {
      var front, k := q[..|q| - 1], q[|q| - 1];
      KeepBoth(front, a, b);
      assert Kept(k, a + b) <==> Kept(k, a) && Kept(k, b);
      if Kept(k, a) { assert (Keep(front, a) + [k])[..|Keep(front, a)|] == Keep(front, a); }
    }
  }

  lemma {:induction false} KeepDrop(q: seq<Key>, k: Key, out: set<Msg>)
    ensures Keep(DropAt(q, FirstKey(q, k)), out) == DropAt(Keep(q, out), FirstKey(Keep(q, out), k))
  {
    if q != [] {
      var front, x := q[..|q| - 1], q[|q| - 1];
      KeepDrop(front, k, out);
      assert q == front + [x];
      KeepDropLast(front, x, k, out);
    }
  }

  lemma KeepLast(q: seq<Key>, x: Key, out: set<Msg>)
    ensures Keep(q + [x], out) == Keep(q, out) + if Kept(x, out) then [x] else []
  {
    assert (q + [x])[..|q|] == q;
  }

  lemma KeepDropLast(q: seq<Key>, x: Key, k: Key, out: set<Msg>)
    requires Keep(DropAt(q, FirstKey(q, k)), out) == DropAt(Keep(q, out), FirstKey(Keep(q, out), k))
    ensures Keep(DropAt(q + [x], FirstKey(q + [x], k)), out) ==
      DropAt(Keep(q + [x], out), FirstKey(Keep(q + [x], out), k))
  {
    KeepLast(q, x, out);
    KeepIn(q, out);
    FirstOfLast(q, x, k);
    FirstOfLast(Keep(q, out), x, k);
    DropLast(q, x, k);
    DropLast(Keep(q, out), x, k);
    KeepLast(DropAt(q, FirstKey(q, k)), x, out);
  }

  lemma FirstOfLast(q: seq<Key>, x: Key, k: Key)
    ensures FirstKey(q + [x], k) ==
      if FirstKey(q, k) < |q| then FirstKey(q, k) else if x == k then |q| else |q| + 1
    ensures k in q <==> FirstKey(q, k) < |q|
  {
    if q == [] {
      assert q + [x] == [x];
    } else {
      assert (q + [x])[1..] == q[1..] + [x];
      FirstOfLast(q[1..], x, k);
    }
  }

  lemma DropLast(q: seq<Key>, x: Key, k: Key)
    ensures FirstKey(q, k) < |q| ==> DropAt(q + [x], FirstKey(q, k)) == DropAt(q, FirstKey(q, k)) + [x]
    ensures FirstKey(q, k) == |q| && x == k ==> DropAt(q + [x], |q|) == q
  {
  }

  /** The next message, with what is purged ahead of time. */
  lemma NextKeeps(q: seq<Key>, m: Msg, out: set<Msg>, out': set<Msg>)
    requires forall x: Msg :: x.Purge? && x != m ==> (x in out <==> x in out')
    requires m.Lock? ==> Kept(MsgKey(m), out')
    ensures Next(Keep(q, out), m) == Keep(Next(q, m), out')
  {
    if m.Purge? {
      KeepBoth(q, out, {m});
      KeepBoth(q, {m}, out');
      KeepSame(q, out + {m}, {m} + out');
    } else {
      KeepSame(q, out, out');
      KeptAll(q, m, out');
    }
  }

  lemma KeptAll(q: seq<Key>, m: Msg, out: set<Msg>)
    requires !m.Purge? && (m.Lock? ==> Kept(MsgKey(m), out))
    ensures Next(Keep(q, out), m) == Keep(Next(q, m), out)
  {
    if m.Lock? {
      assert (q + [MsgKey(m)])[..|q|] == q;
    } else if m.Grant? || m.Nak? {
      KeepDrop(q, MsgKey(m), out);
    }
  }

  // ---------- a daemon's queue ----------

  function Keys(q: seq<Request>): (k: seq<Key>)
    ensures |k| == |q| && forall i :: 0 <= i < |q| ==> k[i] == KeyOf(q[i])
  {
    seq(|q|, i requires 0 <= i < |q| => KeyOf(q[i]))
  }

  lemma KeysHave(q: seq<Request>, k: Key)
    ensures HasKey(q, k) <==> k in Keys(q)
  {
  }

  lemma MatchIsFirst(q: seq<Request>, r: Resource, node: NodeId, pid: Pid, tid: Tid)
    ensures FirstMatch(q, r, node, pid, tid) == FirstKey(Keys(q), Key(r, node, pid, tid))
    ensures Keys(DropAt(q, FirstMatch(q, r, node, pid, tid))) ==
      DropAt(Keys(q), FirstMatch(q, r, node, pid, tid))
  {
    FirstIs(Keys(q), Key(r, node, pid, tid), FirstMatch(q, r, node, pid, tid));
    DropKeys(q, FirstMatch(q, r, node, pid, tid));
  }

  lemma {:induction false} FirstIs(q: seq<Key>, k: Key, i: nat)
    requires i <= |q| && (i < |q| ==> q[i] == k) && forall j :: 0 <= j < i ==> q[j] != k
    ensures FirstKey(q, k) == i
  {
  }

  lemma DropKeys(q: seq<Request>, i: nat)
    ensures Keys(DropAt(q, i)) == DropAt(Keys(q), i)
  {
  }

  lemma {:induction false} PurgeKeeps(q: seq<Request>, node: NodeId, pid: Pid)
    ensures Keys(PurgeQueue(q, node, pid)) == Keep(Keys(q), {Msg.Purge(node, pid)})
  {
    if q != [] {
      var front := q[..|q| - 1];
      PurgeKeeps(front, node, pid);
      assert Keys(q)[..|q| - 1] == Keys(front);
      assert Kept(KeyOf(q[|q| - 1]), {Msg.Purge(node, pid)}) <==> !PurgesKey(Msg.Purge(node, pid), KeyOf(q[|q| - 1]));
    }
  }

  lemma SameKeysSame(a: seq<Request>, b: seq<Request>)
    requires SameKeys(a, b)
    ensures Keys(a) == Keys(b)
  {
  }

  /** A message changes a daemon's queue like the agreed one. */
  lemma MessageNext(n: Node, from: Addr, m: Msg)
    requires n.joined && Connected(n, m)
    ensures Keys(ProcessMessage(n, from, m).node.requests) == Next(Keys(n.requests), m)
  {
    match m
    case Lock(r, node, pid, tid, _) =>
      var q := n.requests + [Request(r, node, pid, tid, false)];
      SameKeysSame(q, ProcessLock(n, m).node.requests);
      assert Keys(q) == Keys(n.requests) + [MsgKey(m)];
    case Grant(r, node, pid, tid) =>
      MatchIsFirst(n.requests, r, node, pid, tid);
      SameKeysSame(Record(n, m).requests, ProcessGrant(n, m).node.requests);
    case Unlock(_, _, _, _) => SameKeysSame(n.requests, ProcessUnlock(n, m).node.requests);
    case Nak(r, node, pid, tid) => MatchIsFirst(n.requests, r, node, pid, tid);
    case Purge(node, pid) => PurgeKeeps(n.requests, node, pid);
    case Join =>
  }

  lemma {:induction false} RecoverKeepsKeys(n: Node, dead: NodeId, order: seq<Resource>)
    ensures SameKeys(n.requests, RecoverLocks(n, dead, order).node.requests)
    ensures forall m :: m in Sent(RecoverLocks(n, dead, order).sent) ==> !m.Purge?
  {
    if order != [] {
      var a, r := RecoverLocks(n, dead, order[..|order| - 1]), order[|order| - 1];
      RecoverKeepsKeys(n, dead, order[..|order| - 1]);
      SentConcat(a.sent, RecoverLock(a.node, dead, r).sent);
    }
  }

  /** A view takes the requests off the queue that the daemon purges for everybody. */
  lemma {:induction false} LeaveKeeps(n: Node, left: seq<Addr>, order: seq<Resource>)
    ensures var o := LeaveAll(n, left, order); Keys(o.node.requests) == Keep(Keys(n.requests), Sent(o.sent))
  {
    var o := LeaveAll(n, left, order);
    if left == [] {
      KeepNothing(Keys(n.requests));
    } else {
      var a, d := LeaveAll(n, left[..|left| - 1], order), left[|left| - 1];
      LeaveKeeps(n, left[..|left| - 1], order);
      var b := Leave(a.node, d, order);
      LeaveOneKeeps(a.node, d, order);
      SentConcat(a.sent, b.sent);
      KeepBoth(Keys(n.requests), Sent(a.sent), Sent(b.sent));
    }
  }

  lemma {:induction false} KeepNothing(q: seq<Key>)
    ensures Keep(q, Sent([])) == q
  {
    if q != [] { KeepNothing(q[..|q| - 1]); }
  }

  lemma LeaveOneKeeps(n: Node, d: Addr, order: seq<Resource>)
    ensures var o := Leave(n, d, order); Keys(o.node.requests) == Keep(Keys(n.requests), Sent(o.sent))
  {
    var o, i := Leave(n, d, order), FirstAddr(n.members, d);
    var c := n.(members := DropAt(n.members, i));
    if i < |n.members| && OwnHead(c) {
      var p := PurgeAll(c, d.id, 0);
      RecoverKeepsKeys(p, d.id, order);
      PurgeKeeps(n.requests, d.id, 0);
      SameKeysSame(p.requests, o.node.requests);
      var u := [Msg.Purge(d.id, 0)];
      SentConcat(u, RecoverLocks(p, d.id, order).sent);
      assert u[0] in Sent(u);
      KeepSame(Keys(n.requests), {Msg.Purge(d.id, 0)}, Sent(o.sent));
    } else {
      KeepNothing(Keys(n.requests));
    }
  }
}
