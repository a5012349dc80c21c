/**
 * What the agreed order alone says about the owner of one lock and about the member list,
 * and how far a daemon may differ from it while a message of its own is on its way.
 */
module Claims {
  import opened Types
  import opened Protocol
  import opened Group
  import opened Cluster
  import opened Slices
  import opened Membership
  import opened Frames
  import opened Structure
  import opened TokenSlices
  import opened PendingOwner
  import opened Recovery

  // ---------- the ledger ----------

  /** What daemons are meant to agree on about a lock. */
  datatype Claim = Claim(held: bool, node: NodeId, pid: Pid)

  /** The member list and the claim on one resource, None if nobody has heard of it. */
  datatype Ledger = Ledger(list: seq<Addr>, claim: Option<Claim>)

  function ListJoin(list: seq<Addr>, from: Addr): seq<Addr> {
    var i := FirstId(list, from.id);
    if i == |list| then list + [from]
    else if list[i] == from then DropAt(list, i) + [from]
    else list
  }

  /** A listed member leaves: the oldest of the others inherits its lock. */
  function LedgerLeave(c: Ledger, d: Addr): Ledger {
    var i := FirstAddr(c.list, d);
    if i == |c.list| then c
    else
      var l := DropAt(c.list, i);
      if c.claim.Some? && c.claim.value.node == d.id && l != [] then
        Ledger(l, Some(c.claim.value.(node := l[0].id, pid := l[0].pid)))
      else Ledger(l, c.claim)
  }

  function LedgerLeaveAll(c: Ledger, left: seq<Addr>): Ledger {
    if left == [] then c else LedgerLeave(LedgerLeaveAll(c, left[..|left| - 1]), left[|left| - 1])
  }

  function ClaimAfter(claim: Option<Claim>, m: Msg, r: Resource): Option<Claim> {
    match m
    case Lock(q, _, _, _, _) => if q == r && claim.None? then Some(Claim(false, 0, 0)) else claim
    case Grant(q, node, pid, _) => if q == r then Some(Claim(true, node, pid)) else claim
    case Unlock(q, node, pid, _) =>
      if q == r && claim == Some(Claim(true, node, pid)) then Some(Claim(false, node, pid)) else claim
    case _ => claim
  }

  function LedgerStep(c: Ledger, e: Event, r: Resource): Ledger {
    match e
    case Message(from, m) => Ledger(if m.Join? then ListJoin(c.list, from) else c.list, ClaimAfter(c.claim, m, r))
    case View(members, left, joins) => LedgerLeaveAll(c, left)
  }

  /** The ledger at position i, starting from c at position p. */
  function LedgerAt(c: Ledger, p: nat, log: seq<Event>, r: Resource, i: nat): Ledger
    requires p <= i <= |log|
  {
    if i == p then c else LedgerStep(LedgerAt(c, p, log, r, i - 1), log[i - 1], r)
  }

  lemma {:induction false} LedgerPrefix(c: Ledger, p: nat, log: seq<Event>, e: Event, r: Resource, i: nat)
    requires p <= i <= |log|
    ensures LedgerAt(c, p, log + [e], r, i) == LedgerAt(c, p, log, r, i)
  {
    if p < i { LedgerPrefix(c, p, log, e, r, i - 1); }
  }

  // ---------- a daemon and the ledger ----------

  function ClaimOf(n: Node, r: Resource): Option<Claim> {
    if r in n.locks then Some(Claim(n.locks[r].state.Held?, n.locks[r].node, n.locks[r].pid)) else None
  }

  ghost predicate GrantOut(out: set<Msg>, r: Resource) {
    exists m :: m in out && m.Grant? && m.res == r
  }

  ghost predicate ReleaseOut(out: set<Msg>, r: Resource, node: NodeId, pid: Pid) {
    exists m :: m in out && m.Unlock? && m.res == r && m.node == node && m.pid == pid
  }

  /**
   * The daemon agrees with the ledger, or has passed the lock on by a grant of its own that is
   * still out, or has given up a lock the ledger shows as held, by a release that is still out.
   */
  ghost predicate Follows(n: Node, c: Ledger, mem: set<NodeId>, r: Resource, out: set<Msg>) {
    || ClaimOf(n, r) == c.claim
    || (r in n.locks && !n.locks[r].state.Held? && GrantOut(out, r))
    || (r in n.locks && !n.locks[r].state.Held? && GivenUp(n, c, mem, r, out))
  }

  ghost predicate GivenUp(n: Node, c: Ledger, mem: set<NodeId>, r: Resource, out: set<Msg>)
    requires r in n.locks
  {
    var l := n.locks[r];
    && c.claim == Some(Claim(true, l.node, l.pid))
    && ReleaseOut(out, r, l.node, l.pid)
    && (l.node == n.id || (l.node !in mem && !IsMember(c.list, l.node)))
  }

  lemma FollowsGrows(n: Node, k: Node, c: Ledger, mem: set<NodeId>, r: Resource, out: set<Msg>, out': set<Msg>)
    requires Follows(n, c, mem, r, out) && SameEntry(n, k, r) && k.id == n.id
    requires forall m :: m in out && IsToken(m, r) ==> m in out'
    ensures Follows(k, c, mem, r, out')
  {
  }

  /** The daemon is listed, by its true address, and nobody is listed twice. */
  ghost predicate GoodlyListed(n: Node, list: seq<Addr>) {
    n.members == list && Distinct(IdSeq(list)) && Addr(n.id, n.daemonPid) in list
  }

  // ---------- leaving ----------

  lemma HeadIsSelf(n: Node, list: seq<Addr>)
    requires GoodlyListed(n, list)
    ensures list != [] && (OwnHead(n) ==> list[0] == Addr(n.id, n.daemonPid))
  {
    var j :| 0 <= j < |list| && list[j] == Addr(n.id, n.daemonPid);
    assert IdSeq(list)[j] == n.id && IdSeq(list)[0] == list[0].id;
  }

  lemma DropKeepsListed(n: Node, list: seq<Addr>, d: Addr)
    requires GoodlyListed(n, list) && d.id != n.id
    ensures GoodlyListed(n.(members := DropAt(list, FirstAddr(list, d))), DropAt(list, FirstAddr(list, d)))
  {
    var i := FirstAddr(list, d);
    DropOneDistinct(list, i);
    var j :| 0 <= j < |list| && list[j] == Addr(n.id, n.daemonPid);
    if i < |list| { DropKeepsOther(list, i, j); }
  }

  /** A member that is not the oldest: the heir is the same for everybody. */
  lemma RelabelFollows(n: Node, c: Ledger, mem: set<NodeId>, d: Addr, r: Resource, out: set<Msg>)
    requires Follows(n, c, mem, r, out) && n.members == DropAt(c.list, FirstAddr(c.list, d)) && n.members != []
    requires FirstAddr(c.list, d) < |c.list| && d.id != n.id
    ensures Follows(n.(locks := Relabel(n.locks, d.id, n.members[0])), LedgerLeave(c, d), mem, r, out)
  {
    var i := FirstAddr(c.list, d);
    assert c.list[i].id == d.id;
    DropOneNames(c.list, i);
  }

  lemma DropOneNames(list: seq<Addr>, i: nat)
    ensures forall z :: IsMember(DropAt(list, i), z) ==> IsMember(list, z)
  {
    forall z | IsMember(DropAt(list, i), z) ensures IsMember(list, z) {
      var k :| 0 <= k < |DropAt(list, i)| && DropAt(list, i)[k].id == z;
      assert list[if i < |list| && k >= i then k + 1 else k].id == z;
    }
  }

  /** The oldest member, once the leaver is off its list. */
  lemma RecoverFollows(n: Node, c: Ledger, mem: set<NodeId>, d: Addr, order: seq<Resource>, r: Resource, out: set<Msg>)
    requires Follows(n, c, mem, r, out) && n.members == DropAt(c.list, FirstAddr(c.list, d)) && PendingOwn(n)
    requires FirstAddr(c.list, d) < |c.list| && d.id != n.id && d.id != 0 && IsWalk(n.locks, order)
    requires OwnHead(n) && n.members[0] == Addr(n.id, n.daemonPid)
    ensures var o := DelNode(n, d.id, order); Follows(o.node, LedgerLeave(c, d), mem, r, out + Sent(o.sent))
  {
    var o, i := DelNode(n, d.id, order), FirstAddr(c.list, d);
    var c', ts := LedgerLeave(c, d), Tokens(o.sent, r);
    assert c.list[i].id == d.id;
    DropOneNames(c.list, i);
    DelNodeSlice(n, d.id, order, r);
    DelNodeFrame(n, d.id, order);
    SentTokens(o.sent, r);
    if r in n.locks && n.locks[r].node == d.id {
      HeadRecovers(n, d.id, order, r);
      if ts != [] { assert ts[0] in ts; }
    } else {
      assert SameEntry(n, o.node, r);
    }
  }

  function Sent(ms: seq<Msg>): set<Msg> {
    set i | 0 <= i < |ms| :: ms[i]
  }

  lemma SentTokens(ms: seq<Msg>, r: Resource)
    ensures forall m :: m in Tokens(ms, r) ==> m in Sent(ms)
  {
    forall m | m in Tokens(ms, r) ensures m in Sent(ms) {
      assert m in ms;
      var i :| 0 <= i < |ms| && ms[i] == m;
    }
  }

  lemma LeaveFollows(n: Node, c: Ledger, mem: set<NodeId>, d: Addr, order: seq<Resource>, r: Resource, out: set<Msg>)
    requires Follows(n, c, mem, r, out) && GoodlyListed(n, c.list) && PendingOwn(n)
    requires d.id != n.id && d.id != 0 && IsWalk(n.locks, order)
    ensures var o := Leave(n, d, order);
      && Follows(o.node, LedgerLeave(c, d), mem, r, out + Sent(o.sent))
      && GoodlyListed(o.node, LedgerLeave(c, d).list)
      && o.node.id == n.id && PendingOwn(o.node)
  {
    var i := FirstAddr(c.list, d);
    LeavePending(n, d, order);
    if i < |c.list| {
      var p := n.(members := DropAt(n.members, i));
      DropKeepsListed(n, c.list, d);
      HeadIsSelf(p, p.members);
      DelNodeFrame(p, d.id, order);
      if OwnHead(p) {
        RecoverFollows(p, c, mem, d, order, r, out);
      } else {
        RelabelFollows(p, c, mem, d, r, out);
        assert out + Sent([]) == out;
      }
    } else {
      assert out + Sent([]) == out;
    }
  }

  lemma {:induction false} LeaveAllFollows(n: Node, c: Ledger, mem: set<NodeId>, left: seq<Addr>, order: seq<Resource>,
                                           r: Resource, out: set<Msg>)
    requires Follows(n, c, mem, r, out) && GoodlyListed(n, c.list) && PendingOwn(n)
    requires n.id !in Ids(left) && 0 !in Ids(left) && Distinct(IdSeq(left)) && IsWalk(n.locks, order)
    ensures var o := LeaveAll(n, left, order);
      && Follows(o.node, LedgerLeaveAll(c, left), mem, r, out + Sent(o.sent))
      && GoodlyListed(o.node, LedgerLeaveAll(c, left).list)
      && o.node.id == n.id && PendingOwn(o.node) && IsWalk(o.node.locks, order)
  {
    if left == [] {
      assert out + Sent([]) == out;
    } else {
      var front, d := left[..|left| - 1], left[|left| - 1];
      IdsSplit(left);
      assert d.id in Ids(left);
      LeaveAllFollows(n, c, mem, front, order, r, out);
      var a := LeaveAll(n, front, order);
      LeaveFollows(a.node, LedgerLeaveAll(c, front), mem, d, order, r, out + Sent(a.sent));
      var b := Leave(a.node, d, order);
      SentConcat(a.sent, b.sent);
      assert out + Sent(a.sent) + Sent(b.sent) == out + Sent(a.sent + b.sent);
      assert IsMember(n.members, n.id) by {
        var j :| 0 <= j < |c.list| && c.list[j] == Addr(n.id, n.daemonPid);
      }
      WalkKept(n, left, order);
    }
  }

  lemma SentConcat(a: seq<Msg>, b: seq<Msg>)
    ensures Sent(a + b) == Sent(a) + Sent(b)
  {
    forall m | m in Sent(a) + Sent(b) ensures m in Sent(a + b) {
      if m in Sent(a) {
        var i :| 0 <= i < |a| && a[i] == m;
        assert (a + b)[i] == m;
      } else {
        var i :| 0 <= i < |b| && b[i] == m;
        assert (a + b)[|a| + i] == m;
      }
    }
  }

  lemma WalkKept(n: Node, left: seq<Addr>, order: seq<Resource>)
    requires IsWalk(n.locks, order) && Distinct(IdSeq(left)) && n.id !in Ids(left) && IsMember(n.members, n.id)
    ensures IsWalk(LeaveAll(n, left, order).node.locks, order)
  {
    forall r ensures r in LeaveAll(n, left, order).node.locks <==> r in n.locks { LeaveAllSlice(n, left, order, r); }
  }

  // ---------- messages ----------

  /** A grant leaves the lock held by its target, or passed on if the target's node is not listed. */
  lemma GrantEffect(n: Node, m: Msg)
    requires m.Grant? && n.joined && m.node != 0 && m.pid != 0
    ensures var o, r := ProcessGrant(n, m), m.res;
      && r in o.node.locks && o.node.locks[r].node == m.node && o.node.locks[r].pid == m.pid
      && (|| o.node.locks[r].state.Held?
          || (o.node.locks[r].state.Free? && m.node != n.id && OwnHead(n) && !IsMember(n.members, m.node)
              && |o.sent| == 1 && IsToken(o.sent[0], r)
              && (o.sent[0].Unlock? ==> o.sent[0] == Unlock(r, m.node, m.pid, m.tid))))
  {
    if m.res in n.locks {
      var q := Protocol.Record(n, m);
      GrantOrSlice(Put(q, m.res, q.locks[m.res].(state := Free)), m.res, Unlock(m.res, m.node, m.pid, m.tid));
      var t := Put(q, m.res, q.locks[m.res].(localId := q.lockid + 1)).(lockid := q.lockid + 1);
      GrantOrSlice(PurgeAll(t, n.id, m.pid), m.res, Unlock(m.res, m.node, m.pid, m.tid));
    }
  }

  /** What is still out when m has been delivered and the handler has sent some messages. */
  ghost predicate StillOut(out: set<Msg>, m: Msg, sent: seq<Msg>, r: Resource, out': set<Msg>) {
    && (forall x :: x in out && IsToken(x, r) && x != m ==> x in out')
    && (forall x :: x in Sent(sent) ==> x in out')
  }

  lemma GrantFollows(n: Node, c: Ledger, mem: set<NodeId>, m: Msg, r: Resource, out': set<Msg>)
    requires n.joined && n.members == c.list && m.Grant? && m.res == r && m.node != 0 && m.pid != 0
    requires m.node in mem ==> IsMember(c.list, m.node)
    requires forall x :: x in Sent(ProcessGrant(n, m).sent) ==> x in out'
    ensures Follows(ProcessGrant(n, m).node, c.(claim := Some(Claim(true, m.node, m.pid))), mem, r, out')
  {
    var o := ProcessGrant(n, m);
    GrantEffect(n, m);
    GrantFrame(n, m);
    if !o.node.locks[r].state.Held? { assert o.sent[0] in Sent(o.sent); }
  }

  lemma UnlockFollows(n: Node, c: Ledger, mem: set<NodeId>, m: Msg, r: Resource, out: set<Msg>, out': set<Msg>)
    requires n.joined && m.Unlock? && m.res == r && Follows(n, c, mem, r, out)
    requires StillOut(out, m, ProcessUnlock(n, m).sent, r, out')
    ensures Follows(ProcessUnlock(n, m).node, c.(claim := ClaimAfter(c.claim, m, r)), mem, r, out')
  {
    UnlockSlice(n, m);
    GrantNextSlice(n, r);
  }

  lemma LockFollows(n: Node, c: Ledger, mem: set<NodeId>, m: Msg, r: Resource, out: set<Msg>, out': set<Msg>)
    requires n.joined && m.Lock? && m.res == r && Follows(n, c, mem, r, out)
    requires StillOut(out, m, ProcessLock(n, m).sent, r, out')
    ensures Follows(ProcessLock(n, m).node, c.(claim := ClaimAfter(c.claim, m, r)), mem, r, out')
  {
    LockSlice(n, m);
    GrantNextSlice(n.(requests := n.requests + [Request(m.res, m.node, m.pid, m.tid, false)]), m.res);
  }

  lemma JoinFollows(n: Node, c: Ledger, mem: set<NodeId>, from: Addr, r: Resource, out: set<Msg>, out': set<Msg>)
    requires Follows(n, c, mem, r, out) && n.members == c.list && (forall x :: x in out && IsToken(x, r) ==> x in out')
    requires from.id in mem
    ensures Follows(ProcessJoin(n, from).node, c.(list := ListJoin(c.list, from)), mem, r, out')
  {
    JoinFacts(n, from);
    assert ProcessJoin(n, from).node.members == ListJoin(c.list, from);
  }

  lemma MessageFollows(n: Node, c: Ledger, mem: set<NodeId>, from: Addr, m: Msg, r: Resource, out: set<Msg>,
                       out': set<Msg>)
    requires n.joined && n.members == c.list && Follows(n, c, mem, r, out)
    requires StillOut(out, m, ProcessMessage(n, from, m).sent, r, out')
    requires m.Grant? ==> m.node != 0 && m.pid != 0 && (m.node in mem ==> IsMember(c.list, m.node))
    requires m.Join? ==> from.id in mem
    ensures Follows(ProcessMessage(n, from, m).node, LedgerStep(c, Message(from, m), r), mem, r, out')
  {
    if m.Join? { JoinFollows(n, c, mem, from, r, out, out'); }
    else if m.Lock? && m.res == r { LockFollows(n, c, mem, m, r, out, out'); }
    else if m.Grant? && m.res == r { GrantFollows(n, c, mem, m, r, out'); }
    else if m.Unlock? && m.res == r { UnlockFollows(n, c, mem, m, r, out, out'); }
    else {
      OtherMessageSlice(n, from, m, r);
      MessageFrame(n, from, m);
      FollowsGrows(n, ProcessMessage(n, from, m).node, c, mem, r, out, out');
    }
  }

  /** The list after a message. */
  lemma MessageListed(n: Node, list: seq<Addr>, from: Addr, m: Msg)
    requires GoodlyListed(n, list)
    ensures GoodlyListed(ProcessMessage(n, from, m).node, if m.Join? then ListJoin(list, from) else list)
  {
    if m.Join? {
      var k, i := ListJoin(list, from), FirstId(list, from.id);
      var d := if i < |list| then DropAt(list, i) else list;
      DropOneDistinct(list, i);
      var j :| 0 <= j < |list| && list[j] == Addr(n.id, n.daemonPid);
      if i < |list| && i != j { DropKeepsOther(list, i, j); }
      if k == d + [from] { JoinedDistinct(list, d, from, i); }
    } else {
      MessageFrame(n, from, m);
      MessagePid(n, from, m);
    }
  }

  lemma JoinedDistinct(list: seq<Addr>, d: seq<Addr>, from: Addr, i: nat)
    requires Distinct(IdSeq(d)) && i == FirstId(list, from.id) && d == (if i < |list| then DropAt(list, i) else list)
    requires Distinct(IdSeq(list))
    ensures Distinct(IdSeq(d + [from])) && forall x :: x in d ==> x in d + [from]
  {
    DropOneDistinct(list, i);
    assert forall j :: 0 <= j < |d| ==> IdSeq(d)[j] == d[j].id;
    forall j | 0 <= j < |d| ensures d[j].id != from.id { if i < |list| { assert IsMember(d, d[j].id); } }
  }

  lemma MessagePid(n: Node, from: Addr, m: Msg)
    ensures ProcessMessage(n, from, m).node.daemonPid == n.daemonPid
  {
    if m.Grant? { ProcessGrantOrderly(n, m); } else { ProcessMessageOrderly(n, from, m); }
  }
}
