/**
 * Agreement across crashes, joins and vanishing clients: daemons that started from the same
 * list and the same claim on a lock agree at every common position, except while a message
 * of one of them about the lock is on its way.
 */
module Survivors {
  import opened Types
  import opened Protocol
  import opened Group
  import opened Cluster
  import opened Slices
  import opened Frames
  import opened Membership
  import opened Structure
  import opened Newcomers
  import opened StructureSteps
  import opened TokenLocal
  import opened Convergence
  import opened PendingOwner
  import opened Safety
  import opened Runs
  import opened FreeRuns
  import opened Claims

  // ---------- one daemon ----------

  /** The daemon's own messages that have not been delivered to it yet. */
  function InFlight(log: seq<Event>, h: Host): set<Msg> {
    Sent(h.outbox) + set p | h.idx <= p < |log| && log[p].Message? && log[p].from.id == h.node.id :: log[p].m
  }

  ghost predicate Tracks(base: seq<Addr>, log: seq<Event>, h: Host, c: Ledger, r: Resource) {
    && h.idx <= |log| && h.node.joined && Counted(h.node)
    && GoodlyListed(h.node, c.list)
    && Follows(h.node, c, RosterAt(base, log, h.idx).mem, r, InFlight(log, h))
  }

  /** Nothing a daemon has sent gets lost. */
  lemma SentFliesToo(log: seq<Event>, h: Host, k: Host, sent: seq<Msg>)
    requires k.idx == h.idx && k.node.id == h.node.id && k.outbox == h.outbox + sent
    ensures InFlight(log, h) + Sent(sent) <= InFlight(log, k)
  {
    SentConcat(h.outbox, sent);
  }

  lemma DeliveredFlight(log: seq<Event>, h: Host, k: Host, sent: seq<Msg>)
    requires h.idx < |log| && k.idx == h.idx + 1 && k.node.id == h.node.id && k.outbox == h.outbox + sent
    ensures forall x :: x in InFlight(log, h) && (log[h.idx].Message? ==> x != log[h.idx].m) ==> x in InFlight(log, k)
    ensures Sent(sent) <= InFlight(log, k)
  {
    SentConcat(h.outbox, sent);
    forall x | x in InFlight(log, h) && (log[h.idx].Message? ==> x != log[h.idx].m) ensures x in InFlight(log, k) {
      if x !in Sent(h.outbox) {
        var p :| h.idx <= p < |log| && log[p].Message? && log[p].from.id == h.node.id && log[p].m == x;
      }
    }
  }

  /** Grants are to processes of nodes that are listed or have left; only members announce themselves. */
  lemma ArrivesSound(base: seq<Addr>, log: seq<Event>, h: Host)
    requires WellFormedLog(base, log) && FlightInv(log) && AnnouncedInv(base, log) && h.idx < |log|
    requires log[h.idx].Message?
    requires PlaceInv(base, log, h) && ListInv(base, log, h) && h.node.joined
    ensures var m, mem := log[h.idx].m, RosterAt(base, log, h.idx).mem;
      && (m.Grant? ==> m.node != 0 && m.pid != 0 && (m.node in mem ==> IsMember(h.node.members, m.node)))
      && (m.Join? ==> log[h.idx].from.id in mem)
      && RosterAt(base, log, h.idx + 1).mem == mem
  {
    assert SoundAt(base, log, h.idx) && FlightItem(log[h.idx]) && AnnouncedAt(base, log, h.idx);
    RosterFacts(base, log, h.idx);
  }

  lemma MessageKeeps(n: Node, list: seq<Addr>, from: Addr, m: Msg)
    requires n.joined && Counted(n) && GoodlyListed(n, list)
    ensures var k := ProcessMessage(n, from, m).node;
      k.joined && Counted(k) && GoodlyListed(k, if m.Join? then ListJoin(list, from) else list)
  {
    MessageListed(n, list, from, m);
    MessageCount(n, from, m);
    if !m.Join? { MessageFrame(n, from, m); }
  }

  lemma DeliverMessageTracks(base: seq<Addr>, log: seq<Event>, h: Host, c: Ledger, order: seq<Resource>, r: Resource)
    requires WellFormedLog(base, log) && FlightInv(log) && AnnouncedInv(base, log) && h.idx < |log|
    requires log[h.idx].Message?
    requires PlaceInv(base, log, h) && ListInv(base, log, h) && Tracks(base, log, h, c, r)
    ensures Tracks(base, log, HostDeliver(h, log[h.idx], order), LedgerStep(c, log[h.idx], r), r)
  {
    var from, m, k := log[h.idx].from, log[h.idx].m, HostDeliver(h, log[h.idx], order);
    HandleId(h.node, log[h.idx], order);
    ArrivesSound(base, log, h);
    MessageKeeps(h.node, c.list, from, m);
    DeliveredFlight(log, h, k, ProcessMessage(h.node, from, m).sent);
    MessageFollows(h.node, c, RosterAt(base, log, h.idx).mem, from, m, r, InFlight(log, h), InFlight(log, k));
  }

  /** Nobody in whose name this daemon's release is out joins in the view at hand. */
  lemma ReleasedStaysAway(log: seq<Event>, h: Host, r: Resource, node: NodeId, pid: Pid)
    requires NewcomerInv(log, h) && h.idx < |log| && log[h.idx].View?
    requires ReleaseOut(InFlight(log, h), r, node, pid) && node != h.node.id
    ensures node !in Ids(log[h.idx].joins)
  {
    forall x | x in Ids(log[h.idx].joins) && x != h.node.id ensures !OwnReleaseAhead(log, h, x) {
      assert Unknown(log, h, h.idx, x);
    }
    var m :| m in InFlight(log, h) && m.Unlock? && m.res == r && m.node == node && m.pid == pid;
    assert OwnReleaseAhead(log, h, node) by {
      if m in Sent(h.outbox) {
        var i :| 0 <= i < |h.outbox| && h.outbox[i] == m;
      } else {
        var p :| h.idx <= p < |log| && log[p].Message? && log[p].from.id == h.node.id && log[p].m == m;
        assert OwnRelease(log[p], h.node.id, node);
      }
    }
  }

  /** The view's newcomers do not matter to what the daemon has given up. */
  lemma NewMembers(n: Node, c: Ledger, mem: set<NodeId>, mem': set<NodeId>, r: Resource, out: set<Msg>)
    requires Follows(n, c, mem, r, out)
    requires r in n.locks && n.locks[r].node != n.id && ReleaseOut(out, r, n.locks[r].node, n.locks[r].pid) ==>
      (n.locks[r].node !in mem ==> n.locks[r].node !in mem')
    ensures Follows(n, c, mem', r, out)
  {
  }

  lemma ViewNewMembers(base: seq<Addr>, log: seq<Event>, h: Host, c: Ledger, r: Resource)
    requires h.idx < |log| && log[h.idx].View? && NewcomerInv(log, h) && Tracks(base, log, h, c, r)
    ensures var mem, mem' := RosterAt(base, log, h.idx).mem, RosterAt(base, log, h.idx + 1).mem;
      Follows(h.node, c, mem + mem', r, InFlight(log, h))
  {
    var n, mem, out := h.node, RosterAt(base, log, h.idx).mem, InFlight(log, h);
    if r in n.locks && n.locks[r].node != n.id && ReleaseOut(out, r, n.locks[r].node, n.locks[r].pid) {
      ReleasedStaysAway(log, h, r, n.locks[r].node, n.locks[r].pid);
    }
    NewMembers(n, c, mem, mem + RosterAt(base, log, h.idx + 1).mem, r, out);
  }

  lemma DeliverViewTracks(base: seq<Addr>, log: seq<Event>, h: Host, c: Ledger, order: seq<Resource>, r: Resource)
    requires WellFormedLog(base, log) && h.idx < |log| && log[h.idx].View? && IsWalk(h.node.locks, order)
    requires PlaceInv(base, log, h) && NewcomerInv(log, h) && PendingOwn(h.node) && Tracks(base, log, h, c, r)
    ensures Tracks(base, log, HostDeliver(h, log[h.idx], order), LedgerStep(c, log[h.idx], r), r)
  {
    var e, k, n := log[h.idx], HostDeliver(h, log[h.idx], order), h.node;
    var mem, mem' := RosterAt(base, log, h.idx).mem, RosterAt(base, log, k.idx).mem;
    assert SoundAt(base, log, h.idx);
    RosterFacts(base, log, h.idx);
    ViewNewMembers(base, log, h, c, r);
    ViewCount(n, e.members, e.left, e.joins, order);
    LeaveAllFrame(n, e.left, order);
    var o := LeaveAll(n, e.left, order);
    LeaveAllFollows(n, c, mem + mem', e.left, order, r, InFlight(log, h));
    DeliveredFlight(log, h, k, o.sent);
    ViewOut(o.node, k.node, LedgerLeaveAll(c, e.left), mem + mem', mem', r, InFlight(log, h) + Sent(o.sent),
            InFlight(log, k));
  }

  lemma ViewOut(n: Node, k: Node, c: Ledger, mem: set<NodeId>, mem': set<NodeId>, r: Resource, out: set<Msg>,
                out': set<Msg>)
    requires Follows(n, c, mem, r, out) && k.id == n.id && k.locks == n.locks && mem' <= mem && out <= out'
    ensures Follows(k, c, mem', r, out')
  {
  }

  lemma DeliverTracks(base: seq<Addr>, log: seq<Event>, h: Host, c: Ledger, order: seq<Resource>, r: Resource)
    requires WellFormedLog(base, log) && FlightInv(log) && AnnouncedInv(base, log) && h.idx < |log|
    requires IsWalk(h.node.locks, order)
    requires PlaceInv(base, log, h) && ListInv(base, log, h) && NewcomerInv(log, h) && PendingOwn(h.node)
    requires Tracks(base, log, h, c, r)
    ensures Tracks(base, log, HostDeliver(h, log[h.idx], order), LedgerStep(c, log[h.idx], r), r)
  {
    if log[h.idx].Message? {
      DeliverMessageTracks(base, log, h, c, order, r);
    } else {
      DeliverViewTracks(base, log, h, c, order, r);
    }
  }

  /** A step that leaves the lock's entry alone. */
  lemma SameTracks(base: seq<Addr>, log: seq<Event>, h: Host, k: Host, c: Ledger, sent: seq<Msg>, r: Resource)
    requires Tracks(base, log, h, c, r) && SameEntry(h.node, k.node, r)
    requires k.idx == h.idx && Self(k) == Self(h) && k.outbox == h.outbox + sent
    requires k.node.joined && k.node.members == h.node.members && k.node.total == h.node.total
    ensures Tracks(base, log, k, c, r)
  {
    SentFliesToo(log, h, k, sent);
    FollowsGrows(h.node, k.node, c, RosterAt(base, log, h.idx).mem, r, InFlight(log, h), InFlight(log, k));
  }

  lemma DisconnectTracks(base: seq<Addr>, log: seq<Event>, h: Host, c: Ledger, fd: nat, order: seq<Resource>,
                         r: Resource)
    requires Tracks(base, log, h, c, r) && IsWalk(h.node.locks, order)
    ensures Tracks(base, log, HostDisconnect(h, fd, order), c, r)
  {
    var k, o, pid := HostDisconnect(h, fd, order), DelClient(h.node, fd, order), ClientPid(h.node, fd);
    DelClientSlice(h.node, fd, order, r);
    DelClientOrderly(h.node, fd, order);
    SentFliesToo(log, h, k, o.sent);
    if pid != 0 && HeldBy(h.node, r, pid) {
      SentTokens(o.sent, r);
      var t := Tokens(o.sent, r)[0];
      assert t in Tokens(o.sent, r);
      assert t in InFlight(log, k);
    } else {
      SameTracks(base, log, h, k, c, o.sent, r);
    }
  }

  /** The agreed order grows by an event that is not this daemon's, or by the head of its outbox. */
  lemma AppendTracks(base: seq<Addr>, log: seq<Event>, e: Event, h: Host, c: Ledger, r: Resource)
    requires Tracks(base, log, h, c, r)
    ensures Tracks(base, log + [e], h, c, r)
  {
    RosterPrefix(base, log, e, h.idx);
    assert forall p :: 0 <= p < |log| ==> (log + [e])[p] == log[p];
    forall x | x in InFlight(log, h) ensures x in InFlight(log + [e], h) {
      if x !in Sent(h.outbox) {
        var p :| h.idx <= p < |log| && log[p].Message? && log[p].from.id == h.node.id && log[p].m == x;
        assert (log + [e])[p].m == x;
      }
    }
    FollowsGrows(h.node, h.node, c, RosterAt(base, log, h.idx).mem, r, InFlight(log, h), InFlight(log + [e], h));
  }

  lemma SequenceTracks(base: seq<Addr>, log: seq<Event>, h: Host, c: Ledger, r: Resource)
    requires Tracks(base, log, h, c, r) && h.outbox != []
    ensures Tracks(base, log + [Message(Self(h), h.outbox[0])], h.(outbox := h.outbox[1..]), c, r)
  {
    var e, k := Message(Self(h), h.outbox[0]), h.(outbox := h.outbox[1..]);
    var log' := log + [e];
    AppendTracks(base, log, e, h, c, r);
    forall x | x in InFlight(log', h) ensures x in InFlight(log', k) {
      if x in Sent(h.outbox) {
        var i :| 0 <= i < |h.outbox| && h.outbox[i] == x;
        if i == 0 { assert log'[|log|].m == x; } else { assert k.outbox[i - 1] == x; }
      }
    }
    FollowsGrows(h.node, k.node, c, RosterAt(base, log', h.idx).mem, r, InFlight(log', h), InFlight(log', k));
  }

  // ---------- runs ----------

  /** The daemons in x have followed the ledger since it was c at position p. */
  ghost predicate AllTrack(s: Sys, p: nat, c: Ledger, x: set<NodeId>, r: Resource) {
    && p <= |s.log| && x <= s.hosts.Keys
    && forall n :: n in x ==> TracksFrom(s.base, s.log, s.hosts[n], p, c, r)
  }

  ghost predicate TracksFrom(base: seq<Addr>, log: seq<Event>, h: Host, p: nat, c: Ledger, r: Resource) {
    p <= h.idx <= |log| && Tracks(base, log, h, LedgerAt(c, p, log, r, h.idx), r)
  }

  /** Those of x that no view of the run removes. */
  function Remain(x: set<NodeId>, run: seq<Step>): set<NodeId> {
    if run == [] then x else Remain(RemainAfter(x, run[0]), run[1..])
  }

  function RemainAfter(x: set<NodeId>, t: Step): set<NodeId> {
    if t.ChangeView? then x - Ids(t.left) else x
  }

  lemma LocalTrack(s: Sys, n: NodeId, k: Host, p: nat, c: Ledger, x: set<NodeId>, r: Resource, u: Sys)
    requires AllTrack(s, p, c, x, r) && n in s.hosts && u == s.(hosts := s.hosts[n := k])
    requires n in x ==> TracksFrom(s.base, s.log, k, p, c, r)
    ensures AllTrack(u, p, c, x, r)
  {
  }

  lemma QuietTrack(s: Sys, n: NodeId, k: Host, sent: seq<Msg>, p: nat, c: Ledger, x: set<NodeId>, r: Resource, u: Sys)
    requires AllTrack(s, p, c, x, r) && n in s.hosts && u == s.(hosts := s.hosts[n := k])
    requires SameEntry(s.hosts[n].node, k.node, r) && k.idx == s.hosts[n].idx && Self(k) == Self(s.hosts[n])
    requires k.outbox == s.hosts[n].outbox + sent && k.node.joined == s.hosts[n].node.joined
    requires k.node.members == s.hosts[n].node.members && k.node.total == s.hosts[n].node.total
    ensures AllTrack(u, p, c, x, r)
  {
    var h := s.hosts[n];
    if n in x { SameTracks(s.base, s.log, h, k, LedgerAt(c, p, s.log, r, h.idx), sent, r); }
    LocalTrack(s, n, k, p, c, x, r, u);
  }

  lemma ClientTrack(s: Sys, t: Step, p: nat, c: Ledger, x: set<NodeId>, r: Resource)
    requires AllTrack(s, p, c, x, r) && Enabled(s, t) && (t.Connect? || t.AskLock? || t.AskUnlock?)
    ensures AllTrack(Apply(s, t), p, c, x, r)
  {
    var h := s.hosts[t.n];
    match t
    case Connect(n, fd) => QuietTrack(s, n, HostConnect(h, fd), [], p, c, x, r, Apply(s, t));
    case AskLock(n, fd, q, pid, tid, isTry) =>
      QuietTrack(s, n, HostAskLock(h, fd, q, pid, tid, isTry), Protocol.ClientLock(h.node, fd, q, pid, tid, isTry).sent,
                 p, c, x, r, Apply(s, t));
    case AskUnlock(n, hold, order) =>
      UnlockSame(h.node, hold.id, order);
      QuietTrack(s, n, HostAskUnlock(h, hold, order), ClientUnlock(h.node, hold.id, order).sent, p, c, x, r,
                 Apply(s, t));
  }

  lemma UnlockSame(n: Node, id: nat, order: seq<Resource>)
    ensures var o := ClientUnlock(n, id, order); SameFrame(n, o.node) && o.node.locks == n.locks
  {
    var i := FirstLockId(n.locks, id, order);
    if i < |order| {
      var l := n.locks[order[i]];
      GrantOrSlice(n, order[i], Unlock(order[i], l.node, l.pid, l.tid));
    }
  }

  lemma DisconnectTrack(s: Sys, t: Step, p: nat, c: Ledger, x: set<NodeId>, r: Resource)
    requires AllTrack(s, p, c, x, r) && t.Disconnect? && Enabled(s, t)
    ensures AllTrack(Apply(s, t), p, c, x, r)
  {
    var h := s.hosts[t.n];
    if t.n in x {
      assert TracksFrom(s.base, s.log, h, p, c, r);
      DisconnectTracks(s.base, s.log, h, LedgerAt(c, p, s.log, r, h.idx), t.fd, t.order, r);
    }
    LocalTrack(s, t.n, HostDisconnect(h, t.fd, t.order), p, c, x, r, Apply(s, t));
  }

  lemma DeliverTrack(s: Sys, t: Step, p: nat, c: Ledger, x: set<NodeId>, r: Resource)
    requires Inv(true, s) && AllTrack(s, p, c, x, r) && t.Deliver? && Enabled(s, t)
    ensures AllTrack(Apply(s, t), p, c, x, r)
  {
    var h := s.hosts[t.n];
    if t.n in x {
      assert TracksFrom(s.base, s.log, h, p, c, r) && HostInv(true, s.base, s.log, h);
      DeliverTracks(s.base, s.log, h, LedgerAt(c, p, s.log, r, h.idx), t.order, r);
    }
    LocalTrack(s, t.n, HostDeliver(h, s.log[h.idx], t.order), p, c, x, r, Apply(s, t));
  }

  lemma OneAppended(base: seq<Addr>, log: seq<Event>, e: Event, h: Host, p: nat, c: Ledger, r: Resource)
    requires TracksFrom(base, log, h, p, c, r)
    ensures TracksFrom(base, log + [e], h, p, c, r)
  {
    LedgerPrefix(c, p, log, e, r, h.idx);
    AppendTracks(base, log, e, h, LedgerAt(c, p, log, r, h.idx), r);
  }

  lemma SequenceTrack(s: Sys, n: NodeId, k: Host, e: Event, p: nat, c: Ledger, x: set<NodeId>, r: Resource)
    requires AllTrack(s, p, c, x, r) && n in s.hosts && s.hosts[n].outbox != []
    requires k == s.hosts[n].(outbox := s.hosts[n].outbox[1..]) && e == Message(Self(s.hosts[n]), s.hosts[n].outbox[0])
    ensures AllTrack(Sys(s.base, s.hosts[n := k], s.log + [e]), p, c, x, r)
  {
    var h := s.hosts[n];
    forall y | y in x ensures TracksFrom(s.base, s.log + [e], s.hosts[n := k][y], p, c, r) {
      if y == n {
        assert TracksFrom(s.base, s.log, h, p, c, r);
        LedgerPrefix(c, p, s.log, e, r, h.idx);
        SequenceTracks(s.base, s.log, h, LedgerAt(c, p, s.log, r, h.idx), r);
      } else {
        OneAppended(s.base, s.log, e, s.hosts[y], p, c, r);
      }
    }
  }

  lemma ViewTrack(s: Sys, e: Event, p: nat, c: Ledger, x: set<NodeId>, r: Resource)
    requires AllTrack(s, p, c, x, r) && e.View? && Ids(e.joins) !! s.hosts.Keys
    ensures AllTrack(Sys(s.base, HostsAfter(s.hosts, e.left, e.joins, |s.log|), s.log + [e]), p, c, x - Ids(e.left), r)
  {
    var hosts := HostsAfter(s.hosts, e.left, e.joins, |s.log|);
    forall y | y in x - Ids(e.left) ensures y in hosts && TracksFrom(s.base, s.log + [e], hosts[y], p, c, r) {
      OneAppended(s.base, s.log, e, s.hosts[y], p, c, r);
    }
  }

  lemma StepTrack(s: Sys, t: Step, p: nat, c: Ledger, x: set<NodeId>, r: Resource)
    requires Inv(true, s) && AllTrack(s, p, c, x, r) && Enabled(s, t)
    ensures AllTrack(Apply(s, t), p, c, RemainAfter(x, t), r)
  {
    match t
    case Sequence(n) =>
      var h := s.hosts[n];
      SequenceTrack(s, n, h.(outbox := h.outbox[1..]), Message(Self(h), h.outbox[0]), p, c, x, r);
    case Deliver(_, _) => DeliverTrack(s, t, p, c, x, r);
    case ChangeView(members, left, joins) => ViewTrack(s, View(members, left, joins), p, c, x, r);
    case Disconnect(_, _, _) => DisconnectTrack(s, t, p, c, x, r);
    case _ => ClientTrack(s, t, p, c, x, r);
  }

  lemma {:induction false} RunTrack(s: Sys, run: seq<Step>, p: nat, c: Ledger, x: set<NodeId>, r: Resource)
    requires Inv(true, s) && AllTrack(s, p, c, x, r) && IsRun(Tidy, s, run)
    ensures AllTrack(Exec(Tidy, s, run), p, c, Remain(x, run), r)
    decreases |run|
  {
    if run != [] {
      StepKeeps(true, s, run[0]);
      StepTrack(s, run[0], p, c, x, r);
      RunTrack(Apply(s, run[0]), run[1..], p, c, RemainAfter(x, run[0]), r);
    }
  }

  // ---------- theorems ----------

  /** The daemon shows the lock as not held, and its own grant or release of it has not come back to it. */
  ghost predicate Correcting(log: seq<Event>, h: Host, r: Resource) {
    r in h.node.locks && !h.node.locks[r].state.Held? && exists m :: m in InFlight(log, h) && IsToken(m, r)
  }

  lemma TrackersAgree(s: Sys, p: nat, c: Ledger, x: set<NodeId>, r: Resource, a: NodeId, b: NodeId)
    requires AllTrack(s, p, c, x, r) && a in x && b in x && s.hosts[a].idx == s.hosts[b].idx
    ensures s.hosts[a].node.members == s.hosts[b].node.members
    ensures || ClaimOf(s.hosts[a].node, r) == ClaimOf(s.hosts[b].node, r)
            || Correcting(s.log, s.hosts[a], r) || Correcting(s.log, s.hosts[b], r)
  {
    assert TracksFrom(s.base, s.log, s.hosts[a], p, c, r) && TracksFrom(s.base, s.log, s.hosts[b], p, c, r);
  }

  /** Two joined daemons at one position with the same list, the same claim on r and a true count. */
  ghost predicate Alike(a: Host, b: Host, r: Resource) {
    && a.idx == b.idx && a.node.joined && b.node.joined && Counted(a.node) && Counted(b.node)
    && GoodlyListed(a.node, a.node.members) && GoodlyListed(b.node, a.node.members)
    && ClaimOf(a.node, r) == ClaimOf(b.node, r)
  }

  lemma AlikeTrack(s: Sys, a: NodeId, b: NodeId, r: Resource)
    requires a in s.hosts && b in s.hosts && Alike(s.hosts[a], s.hosts[b], r) && s.hosts[a].idx <= |s.log|
    ensures var h := s.hosts[a]; AllTrack(s, h.idx, Ledger(h.node.members, ClaimOf(h.node, r)), {a, b}, r)
  {
  }

  /**
   * Take any state of a run and two daemons that are alike in it, and continue the run in any way
   * that leaves both in the group. Whenever they are at a common position again, they have the same
   * list and agree on owner node, owner process and held-or-not, unless one of them shows the lock as
   * not held and its own message about it is still on its way.
   */
  lemma SurvivorsAgree(base: seq<Addr>, before: seq<Step>, s: Sys, run: seq<Step>, t: Sys, a: NodeId, b: NodeId,
                       r: Resource)
    requires Reaches(Tidy, base, before, s) && IsRun(Tidy, s, run) && t == Exec(Tidy, s, run)
    requires a in s.hosts && b in s.hosts && Alike(s.hosts[a], s.hosts[b], r)
    requires a in Remain({a, b}, run) && b in Remain({a, b}, run)
    ensures a in t.hosts && b in t.hosts
    ensures t.hosts[a].idx == t.hosts[b].idx ==>
      && t.hosts[a].node.members == t.hosts[b].node.members
      && (|| ClaimOf(t.hosts[a].node, r) == ClaimOf(t.hosts[b].node, r)
          || Correcting(t.log, t.hosts[a], r) || Correcting(t.log, t.hosts[b], r))
  {
    ReachesInv(true, base, before, s);
    var p, c := s.hosts[a].idx, Ledger(s.hosts[a].node.members, ClaimOf(s.hosts[a].node, r));
    assert s.hosts[a].idx <= |s.log| by { assert FreeHost(s.base, s.log, s.hosts[a]); }
    AlikeTrack(s, a, b, r);
    RunTrack(s, run, p, c, {a, b}, r);
    if t.hosts[a].idx == t.hosts[b].idx { TrackersAgree(t, p, c, Remain({a, b}, run), r, a, b); }
  }

  /** Founders of the group that never left are alike from the beginning, on every resource. */
  lemma FoundersAgree(base: seq<Addr>, run: seq<Step>, s: Sys, a: NodeId, b: NodeId, r: Resource)
    requires Reaches(Tidy, base, run, s) && a in Ids(base) && b in Ids(base)
    requires a in Remain({a, b}, run) && b in Remain({a, b}, run)
    ensures a in s.hosts && b in s.hosts
    ensures s.hosts[a].idx == s.hosts[b].idx ==>
      && s.hosts[a].node.members == s.hosts[b].node.members
      && (|| ClaimOf(s.hosts[a].node, r) == ClaimOf(s.hosts[b].node, r)
          || Correcting(s.log, s.hosts[a], r) || Correcting(s.log, s.hosts[b], r))
  {
    var f := Formed(base);
    FounderListed(base, a);
    FounderListed(base, b);
    SurvivorsAgree(base, [], f, run, s, a, b, r);
  }

  lemma FounderListed(base: seq<Addr>, n: NodeId)
    requires Distinct(IdSeq(base)) && n in Ids(base)
    ensures GoodlyListed(Formed(base).hosts[n].node, base)
  {
    var i :| 0 <= i < |base| && base[i].id == n;
    FirstIdMember(base, n);
    var j := FirstId(base, n);
    assert base[j] == Addr(n, base[j].pid);
  }
}
