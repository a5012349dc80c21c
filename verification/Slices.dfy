/**
 * What each handler does to a single resource: the lock entry, and the grants and
 * releases it sends for that resource.
 */
module Slices {
  import opened Types
  import opened Protocol

  predicate IsToken(m: Msg, r: Resource) {
    (m.Grant? || m.Unlock?) && m.res == r
  }

  /** The grants and releases for r among some messages, in order. */
  function Tokens(ms: seq<Msg>, r: Resource): (ts: seq<Msg>)
    ensures forall t :: t in ts <==> t in ms && IsToken(t, r)
  {
    if ms == [] then []
    else if IsToken(ms[0], r) then [ms[0]] + Tokens(ms[1..], r)
    else Tokens(ms[1..], r)
  }

  lemma TokensConcat(a: seq<Msg>, b: seq<Msg>, r: Resource)
    ensures Tokens(a + b, r) == Tokens(a, r) + Tokens(b, r)
  {
    if a == [] {
      assert a + b == b;
    } else {
      TokensConcat(a[1..], b, r);
      assert (a + b)[1..] == a[1..] + b;
    }
  }

  /** The entry for r is the same in both tables. */
  predicate SameEntry(a: Node, b: Node, r: Resource) {
    (r in a.locks <==> r in b.locks) && (r in a.locks ==> a.locks[r] == b.locks[r])
  }

  /** Nothing but queue and lock table differs. */
  predicate SameFrame(a: Node, b: Node) {
    && a.id == b.id && a.daemonPid == b.daemonPid && a.joined == b.joined && a.total == b.total
    && a.members == b.members && a.clients == b.clients && a.lockid == b.lockid
  }

  /** What identifies a request. */
  datatype Key = Key(res: Resource, node: NodeId, pid: Pid, tid: Tid)

  function KeyOf(q: Request): Key {
    Key(q.res, q.node, q.pid, q.tid)
  }

  predicate Keyed(m: Msg) {
    m.Lock? || m.Grant? || m.Unlock? || m.Nak?
  }

  function MsgKey(m: Msg): Key
    requires Keyed(m)
  {
    Key(m.res, m.node, m.pid, m.tid)
  }

  ghost predicate HasKey(q: seq<Request>, k: Key) {
    exists i :: 0 <= i < |q| && KeyOf(q[i]) == k
  }

  /** The same requests in the same order, up to marks. */
  ghost predicate SameKeys(a: seq<Request>, b: seq<Request>) {
    |a| == |b| && forall i :: 0 <= i < |a| ==> KeyOf(a[i]) == KeyOf(b[i])
  }

  /** The same positions wait for r. */
  ghost predicate SameWaiters(a: seq<Request>, b: seq<Request>, r: Resource) {
    |a| == |b| && forall i :: 0 <= i < |a| ==> (IsWaiter(a[i], r) <==> IsWaiter(b[i], r))
  }

  /** A grant that answers a queued request for r. */
  ghost predicate Answers(m: Msg, r: Resource, q: seq<Request>) {
    m.Grant? && m.res == r && HasKey(q, Key(r, m.node, m.pid, m.tid))
  }

  lemma GrantNextSlice(n: Node, r: Resource)
    ensures var g := GrantNext(n, r);
      && SameFrame(n, g.node) && g.node.locks == n.locks && g.replies == []
      && (g.sent == [] || (|g.sent| == 1 && Answers(g.sent[0], r, n.requests)))
      && Tokens(g.sent, r) == g.sent
      && (forall o :: o != r ==> Tokens(g.sent, o) == [])
  {
    var g := GrantNext(n, r);
    if g.sent != [] {
      var q := n.requests[FirstWaiter(n.requests, r)];
      assert KeyOf(q) == Key(r, g.sent[0].node, g.sent[0].pid, g.sent[0].tid);
      assert g.sent[1..] == [];
      assert Tokens(g.sent[1..], r) == [];
    }
  }

  lemma GrantOrSlice(n: Node, r: Resource, m: Msg)
    requires m.Unlock? && m.res == r
    ensures var g := GrantOr(n, r, m);
      && SameFrame(n, g.node) && g.node.locks == n.locks && g.replies == []
      && |g.sent| == 1 && (g.sent[0] == m || Answers(g.sent[0], r, n.requests))
      && Tokens(g.sent, r) == g.sent
      && (forall o :: o != r ==> Tokens(g.sent, o) == [])
  {
    GrantNextSlice(n, r);
    var g := GrantOr(n, r, m);
    assert g.sent[1..] == [];
    assert Tokens(g.sent[1..], r) == [];
  }
}
