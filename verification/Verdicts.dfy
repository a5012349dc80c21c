/**
 * The verdicts of cpg_lock and cpg_unlock, over every history of the threads of a process: who wins
 * a lock and with which reply, what a lock structure says, and how calls end.
 */
module Verdicts {
  import opened Types
  import P = Protocol
  import opened Client

  // ---------- what the replies say ----------

  /** A grant from a daemon. */
  predicate Wins(a: Answer) {
    a.kind.GrantReply? && a.node != 0
  }

  function WonIds(ds: seq<Delivery>): seq<nat> {
    if ds == [] then []
    else WonIds(ds[..|ds| - 1]) + if Wins(ds[|ds| - 1].answer) then [ds[|ds| - 1].answer.id] else []
  }

  /** The last grant that was returned to a call for this lock structure. */
  function LastWin(ds: seq<Delivery>, slot: nat): Option<Answer> {
    if ds == [] then None
    else if ds[|ds| - 1].call.slot == slot && Wins(ds[|ds| - 1].answer) then Some(ds[|ds| - 1].answer)
    else LastWin(ds[..|ds| - 1], slot)
  }

  /** A held lock structure says what the last grant for it said. */
  ghost predicate HeldAsWon(w: World, i: nat)
    requires i < |w.structs|
  {
    var a := LastWin(w.returned, i);
    w.structs[i].state.Held? ==> a.Some? && FilledBy(w.structs[i], a.value, w.handle.pid)
  }

  predicate FilledBy(l: LockStruct, a: Answer, pid: Pid) {
    l.node == a.node && l.id == a.id && l.pid == pid
  }

  ghost predicate Judged(w: World) {
    w.won == WonIds(w.returned) && forall i :: 0 <= i < |w.structs| ==> HeldAsWon(w, i)
  }

  lemma Snoc(ds: seq<Delivery>, d: Delivery)
    ensures (ds + [d])[..|ds|] == ds && (ds + [d])[|(ds + [d])| - 1] == d
  {
  }

  lemma ConcludeJudged(w: World, c: Call, a: Answer)
    requires Judged(w) && c.slot < |w.structs|
    ensures Judged(Conclude(w, c, a))
  {
    var u := Conclude(w, c, a);
    Snoc(w.returned, Delivery(c, a));
    forall i | 0 <= i < |u.structs| ensures HeldAsWon(u, i) { assert HeldAsWon(w, i); }
  }

  /** The state of a turn before its verdict. */
  function Turned(w: World, t: nat, input: Input): World
    requires t in w.calls
  {
    var c := w.calls[t];
    var kept := FirstFor(w.handle.pending, c.res, c.tid) < |w.handle.pending|;
    w.(handle := Turn(w.handle, c.res, c.tid, input).0,
       read := if !kept && input.Got? then w.read + [input.answer] else w.read)
  }

  lemma PollIs(w: World, t: nat, input: Input)
    requires Possible(w, Poll(t, input))
    ensures var c, b := w.calls[t], Turned(w, t, input);
      var u := Perform(w, Poll(t, input));
      && b.handle.pid == w.handle.pid && b.handle.seqno == w.handle.seqno
      && match Turn(w.handle, c.res, c.tid, input).1
         case Retry => u == b
         case Failed => u == b.(calls := b.calls - {t})
         case Answered(x) => u == Conclude(b, c, x).(calls := b.calls - {t})
  {
  }

  lemma PollJudged(w: World, t: nat, input: Input)
    requires Judged(w) && Possible(w, Poll(t, input))
    ensures Judged(Perform(w, Poll(t, input)))
  {
    var c, b := w.calls[t], Turned(w, t, input);
    PollIs(w, t, input);
    var v := Turn(w.handle, c.res, c.tid, input).1;
    assert Judged(b) by { forall i | 0 <= i < |b.structs| ensures HeldAsWon(b, i) { assert HeldAsWon(w, i); } }
    var d := if v.Answered? then Conclude(b, c, v.answer) else b;
    if v.Answered? { ConcludeJudged(b, c, v.answer); }
    SameJudged(d, Perform(w, Poll(t, input)));
  }

  lemma SameJudged(w: World, u: World)
    requires Judged(w) && u.won == w.won && u.returned == w.returned && u.structs == w.structs
    requires u.handle.pid == w.handle.pid
    ensures Judged(u)
  {
    forall i | 0 <= i < |u.structs| ensures HeldAsWon(u, i) { assert HeldAsWon(w, i); }
  }

  lemma PerformJudged(w: World, a: Action)
    requires Judged(w) && Possible(w, a)
    ensures Judged(Perform(w, a))
  {
    if a.Poll? {
      PollJudged(w, a.t, a.input);
    } else {
      var u := Perform(w, a);
      forall i | 0 <= i < |u.structs| ensures HeldAsWon(u, i) { assert HeldAsWon(w, i); }
    }
  }

  lemma {:induction false} HistoryJudged(w: World, acts: seq<Action>)
    requires Judged(w) && IsHistory(w, acts)
    ensures Judged(After(w, acts))
    decreases |acts|
  {
    if acts != [] {
      PerformJudged(w, acts[0]);
      HistoryJudged(Perform(w, acts[0]), acts[1..]);
    }
  }

  /**
   * Over every history: the locks won are exactly those of the grants from a daemon that were returned
   * to calls, in that order, and a held lock structure has the node and id of the last such grant for it;
   * refusals, other replies and replies of nobody win nothing and leave the structure alone.
   */
  lemma VerdictsExact(pid: Pid, structs: seq<LockStruct>, acts: seq<Action>, w: World)
    requires ReachedFrom(pid, structs, acts, w)
    ensures w.won == WonIds(w.returned)
    ensures forall i :: 0 <= i < |w.structs| && w.structs[i].state.Held? ==>
      LastWin(w.returned, i).Some? && FilledBy(w.structs[i], LastWin(w.returned, i).value, w.handle.pid)
  {
    HistoryJudged(Opened(pid, structs), acts);
    forall i | 0 <= i < |w.structs| && w.structs[i].state.Held?
      ensures LastWin(w.returned, i).Some? && FilledBy(w.structs[i], LastWin(w.returned, i).value, w.handle.pid)
    {
      assert HeldAsWon(w, i);
    }
  }

  /** The action returns a grant from a daemon to a call for this structure. */
  ghost predicate WonBy(w: World, a: Action, u: World, i: nat) {
    && a.Poll? && a.t in w.calls && w.calls[a.t].slot == i
    && |u.returned| == |w.returned| + 1 && Wins(u.returned[|w.returned|].answer)
  }

  /**
   * A structure becomes held, or changes owner or id, only when a grant from a daemon is returned to the
   * call that fills it; and it is let go of only by cpg_unlock past its guards.
   */
  lemma StructsChange(w: World, a: Action, i: nat)
    requires Possible(w, a) && i < |w.structs|
    ensures var u := Perform(w, a);
      && |u.structs| == |w.structs|
      && var l, l' := w.structs[i], u.structs[i];
         && (l'.state != l.state || l'.node != l.node || l'.pid != l.pid || l'.id != l.id ==>
               WonBy(w, a, u, i) || (a.UnlockWrite? && w.unlocking[a.t] == i && l' == l.(state := Free)))
         && (WonBy(w, a, u, i) ==> l'.state.Held? && FilledBy(l', u.returned[|w.returned|].answer, w.handle.pid))
  {
    if a.Poll? { PollIs(w, a.t, a.input); }
  }

  // ---------- which reply a call returns ----------

  /** The replies to one call, in order. */
  function RepliesTo(q: seq<Answer>, r: Resource, tid: Tid): seq<Answer> {
    if q == [] then []
    else RepliesTo(q[..|q| - 1], r, tid) + if q[|q| - 1].res == r && q[|q| - 1].tid == tid then [q[|q| - 1]] else []
  }

  predicate IsCall(d: Delivery, r: Resource, tid: Tid) {
    d.call.res == r && d.call.tid == tid
  }

  /** A call that has returned has returned its first reply; of any other, the replies read are those kept. */
  ghost predicate OrderFor(w: World, r: Resource, tid: Tid) {
    && (forall i :: 0 <= i < |w.returned| && IsCall(w.returned[i], r, tid) ==>
          RepliesTo(w.read, r, tid) != [] && w.returned[i].answer == RepliesTo(w.read, r, tid)[0])
    && ((forall i :: 0 <= i < |w.returned| ==> !IsCall(w.returned[i], r, tid)) ==>
          RepliesTo(w.read, r, tid) == RepliesTo(w.handle.pending, r, tid))
  }

  lemma RepliesSnoc(q: seq<Answer>, a: Answer, r: Resource, tid: Tid)
    ensures RepliesTo(q + [a], r, tid) == RepliesTo(q, r, tid) + if a.res == r && a.tid == tid then [a] else []
  {
    assert (q + [a])[..|q|] == q;
  }

  lemma {:induction false} RepliesConcat(p: seq<Answer>, q: seq<Answer>, r: Resource, tid: Tid)
    ensures RepliesTo(p + q, r, tid) == RepliesTo(p, r, tid) + RepliesTo(q, r, tid)
    decreases |q|
  {
    if q == [] {
      assert p + q == p;
    } else {
      var front, a := q[..|q| - 1], q[|q| - 1];
      assert p + q == p + front + [a];
      RepliesSnoc(p + front, a, r, tid);
      RepliesConcat(p, front, r, tid);
    }
  }

  lemma {:induction false} NoReplies(q: seq<Answer>, r: Resource, tid: Tid)
    requires forall j :: 0 <= j < |q| ==> !(q[j].res == r && q[j].tid == tid)
    ensures RepliesTo(q, r, tid) == []
    decreases |q|
  {
    if q != [] { NoReplies(q[..|q| - 1], r, tid); }
  }

  /** Taking the first kept reply to a call takes nothing of the others. */
  lemma TakesFirst(q: seq<Answer>, r: Resource, tid: Tid, i: nat, s: Resource, u: Tid)
    requires i == FirstFor(q, r, tid) && i < |q|
    ensures RepliesTo(q, r, tid) != [] && RepliesTo(q, r, tid)[0] == q[i]
    ensures s != r || u != tid ==> RepliesTo(P.DropAt(q, i), s, u) == RepliesTo(q, s, u)
  {
    var a, b := q[..i], q[i + 1..];
    assert q == a + [q[i]] + b;
    NoReplies(a, r, tid);
    RepliesSnoc(a, q[i], r, tid);
    RepliesConcat(a + [q[i]], b, r, tid);
    RepliesSnoc(a, q[i], s, u);
    RepliesConcat(a + [q[i]], b, s, u);
    RepliesConcat(a, b, s, u);
  }

  ghost predicate Ordered(w: World) {
    Routed(w) && forall r, tid :: OrderFor(w, r, tid)
  }

  lemma NotYet(w: World, t: nat)
    requires Routed(w) && t in w.calls
    ensures forall i :: 0 <= i < |w.returned| ==> !IsCall(w.returned[i], w.calls[t].res, w.calls[t].tid)
  {
  }

  lemma KeptOrder(w: World, t: nat, u: World, r: Resource, tid: Tid)
    requires Ordered(w) && t in w.calls
    requires var c := w.calls[t];
      var i := FirstFor(w.handle.pending, c.res, c.tid);
      && i < |w.handle.pending| && u.read == w.read && u.handle.pending == P.DropAt(w.handle.pending, i)
      && u.returned == w.returned + [Delivery(c, w.handle.pending[i])]
    ensures OrderFor(u, r, tid)
  {
    var c := w.calls[t];
    assert OrderFor(w, r, tid) && OrderFor(w, c.res, c.tid);
    NotYet(w, t);
    TakesFirst(w.handle.pending, c.res, c.tid, FirstFor(w.handle.pending, c.res, c.tid), r, tid);
    assert u.returned[|w.returned|].call == c;
    assert forall i :: 0 <= i < |w.returned| ==> u.returned[i] == w.returned[i];
  }

  /** The call has read its own reply, having none kept. */
  lemma OwnReadOrder(w: World, t: nat, a: Answer, u: World, r: Resource, tid: Tid)
    requires Ordered(w) && t in w.calls && u.read == w.read + [a] && IsFor(a, w.calls[t].res, w.calls[t].tid)
    requires FirstFor(w.handle.pending, w.calls[t].res, w.calls[t].tid) == |w.handle.pending|
    requires u.handle.pending == w.handle.pending && u.returned == w.returned + [Delivery(w.calls[t], a)]
    ensures OrderFor(u, r, tid)
  {
    var c := w.calls[t];
    assert OrderFor(w, r, tid) && OrderFor(w, c.res, c.tid);
    NotYet(w, t);
    NoReplies(w.handle.pending, c.res, c.tid);
    RepliesSnoc(w.read, a, r, tid);
    assert forall i :: 0 <= i < |w.returned| ==> u.returned[i] == w.returned[i];
    assert u.returned[|w.returned|].call == c;
  }

  /** A reply to some other call is kept behind the others. */
  lemma OtherReadOrder(w: World, a: Answer, u: World, r: Resource, tid: Tid)
    requires Ordered(w) && u.read == w.read + [a]
    requires u.handle.pending == w.handle.pending + [a] && u.returned == w.returned
    ensures OrderFor(u, r, tid)
  {
    assert OrderFor(w, r, tid);
    RepliesSnoc(w.read, a, r, tid);
    RepliesSnoc(w.handle.pending, a, r, tid);
  }

  lemma PollOrder(w: World, t: nat, input: Input, r: Resource, tid: Tid)
    requires Ordered(w) && Possible(w, Poll(t, input))
    ensures OrderFor(Perform(w, Poll(t, input)), r, tid)
  {
    var c, u := w.calls[t], Perform(w, Poll(t, input));
    PollIs(w, t, input);
    assert OrderFor(w, r, tid);
    if FirstFor(w.handle.pending, c.res, c.tid) < |w.handle.pending| {
      KeptOrder(w, t, u, r, tid);
    } else if input.Got? && IsFor(input.answer, c.res, c.tid) {
      OwnReadOrder(w, t, input.answer, u, r, tid);
    } else if input.Got? {
      OtherReadOrder(w, input.answer, u, r, tid);
    } else {
      assert u.read == w.read && u.returned == w.returned && u.handle == w.handle;
    }
  }

  lemma PerformOrder(w: World, a: Action)
    requires Sound(w) && Ordered(w) && Possible(w, a)
    ensures Ordered(Perform(w, a))
  {
    PerformSound(w, a);
    forall r, tid ensures OrderFor(Perform(w, a), r, tid) {
      assert OrderFor(w, r, tid);
      if a.Poll? { PollOrder(w, a.t, a.input, r, tid); }
    }
  }

  lemma {:induction false} HistoryOrder(w: World, acts: seq<Action>)
    requires Sound(w) && Ordered(w) && IsHistory(w, acts)
    ensures Ordered(After(w, acts))
    decreases |acts|
  {
    if acts != [] {
      PerformSound(w, acts[0]);
      PerformOrder(w, acts[0]);
      HistoryOrder(Perform(w, acts[0]), acts[1..]);
    }
  }

  /** Over every history, a call returns the first reply to it that any thread has read. */
  lemma FirstReplyWins(pid: Pid, structs: seq<LockStruct>, acts: seq<Action>, w: World, i: nat)
    requires ReachedFrom(pid, structs, acts, w) && i < |w.returned|
    ensures var c, mine := w.returned[i].call, RepliesTo(w.read, w.returned[i].call.res, w.returned[i].call.tid);
      mine != [] && w.returned[i].answer == mine[0]
  {
    var o := Opened(pid, structs);
    assert Sound(o) && Ordered(o);
    HistoryOrder(o, acts);
    assert OrderFor(w, w.returned[i].call.res, w.returned[i].call.tid);
  }

  // ---------- how calls begin and end ----------

  /** A call of cpg_lock begins as its first half says, waits if its request could be written, and names the lock. */
  lemma CallBegins(w: World, t: nat, pid: Pid, res: Resource, fits: bool, slot: nat, written: bool, h: Lib,
                   tid: Option<Tid>)
    requires Possible(w, Begin(t, pid, res, fits, slot, written)) && Begun(w.handle, pid, fits, h, tid)
    ensures var u := Perform(w, Begin(t, pid, res, fits, slot, written));
      && u.handle == h
      && u.structs == (if tid.Some? then w.structs[slot := w.structs[slot].(res := res)] else w.structs)
      && u.calls == (if tid.Some? && written then w.calls[t := Call(res, tid.value, slot)] else w.calls)
      && u.read == w.read && u.returned == w.returned && u.won == w.won && u.released == w.released
  {
  }

  /** A handle serves only the process that opened it: calls of any other change nothing. */
  lemma StrangersBarred(w: World, a: Action)
    requires Possible(w, a) && (a.Begin? || a.UnlockCheck?) && a.pid != w.handle.pid
    ensures Perform(w, a) == w
  {
  }

  /** A turn that finds nothing kept and times out changes nothing; if the connection breaks only the call is gone. */
  lemma EmptyTurns(w: World, t: nat)
    requires Possible(w, Poll(t, TimedOut))
    requires forall a :: a in w.handle.pending ==> !IsFor(a, w.calls[t].res, w.calls[t].tid)
    ensures Perform(w, Poll(t, TimedOut)) == w
    ensures Perform(w, Poll(t, Broken)) == w.(calls := w.calls - {t})
  {
    assert FirstFor(w.handle.pending, w.calls[t].res, w.calls[t].tid) == |w.handle.pending|;
  }

  /** The call goes on, has been answered since, or has met a broken connection. */
  ghost predicate Accounted(w: World, acts: seq<Action>, u: World, t: nat)
    requires t in w.calls
  {
    || (t in u.calls && u.calls[t] == w.calls[t])
    || (exists i :: |w.returned| <= i < |u.returned| && u.returned[i].call == w.calls[t])
    || Poll(t, Broken) in acts
  }

  lemma StepAccounted(w: World, a: Action, t: nat)
    requires Possible(w, a) && t in w.calls
    ensures Accounted(w, [a], Perform(w, a), t) && w.returned <= Perform(w, a).returned
  {
    if a.Poll? {
      PollIs(w, a.t, a.input);
      var v := Turn(w.handle, w.calls[a.t].res, w.calls[a.t].tid, a.input).1;
      if v.Answered? { assert Perform(w, a).returned[|w.returned|].call == w.calls[a.t]; }
    }
  }

  /** Over every history a call in progress ends only with a reply or when a read fails for another reason than time. */
  lemma {:induction false} CallsEnd(w: World, acts: seq<Action>, t: nat)
    requires IsHistory(w, acts) && t in w.calls
    ensures Accounted(w, acts, After(w, acts), t) && w.returned <= After(w, acts).returned
    decreases |acts|
  {
    if acts != [] {
      var u, rest := Perform(w, acts[0]), acts[1..];
      StepAccounted(w, acts[0], t);
      NothingUnreturned(u, rest);
      if t in u.calls && u.calls[t] == w.calls[t] {
        CallsEnd(u, rest, t);
        assert forall a :: a in rest ==> a in acts;
      } else if Poll(t, Broken) in [acts[0]] {
        assert acts[0] in acts;
      }
    }
  }

  lemma {:induction false} NothingUnreturned(w: World, acts: seq<Action>)
    requires IsHistory(w, acts)
    ensures w.returned <= After(w, acts).returned
    decreases |acts|
  {
    if acts != [] { NothingUnreturned(Perform(w, acts[0]), acts[1..]); }
  }

  // ---------- lock structures name their locks ----------

  /** cpg_lock is called with a structure that holds no lock and that no other call is to fill. */
  predicate Unused(w: World, a: Action) {
    a.Begin? && a.slot < |w.structs| ==>
      !w.structs[a.slot].state.Held? && forall t :: t in w.calls ==> w.calls[t].slot != a.slot
  }

  ghost predicate IsOrderlyHistory(w: World, acts: seq<Action>)
    decreases |acts|
  {
    acts == [] || (Possible(w, acts[0]) && Unused(w, acts[0]) && IsOrderlyHistory(Perform(w, acts[0]), acts[1..]))
  }

  /** Structures to be filled and structures that hold a lock name the resource asked for. */
  ghost predicate Named(w: World) {
    && (forall t :: t in w.calls ==> w.calls[t].slot < |w.structs| && w.structs[w.calls[t].slot].res == w.calls[t].res)
    && (forall t, u :: t in w.calls && u in w.calls && t != u ==> w.calls[t].slot != w.calls[u].slot)
    && (forall i :: 0 <= i < |w.structs| && w.structs[i].state.Held? ==> NamesWon(w, i))
  }

  ghost predicate NamesWon(w: World, i: nat)
    requires i < |w.structs|
  {
    LastWin(w.returned, i).Some? && w.structs[i].res == LastWin(w.returned, i).value.res
  }

  lemma PollNamed(w: World, t: nat, input: Input)
    requires Named(w) && Possible(w, Poll(t, input))
    ensures Named(Perform(w, Poll(t, input)))
  {
    var c, u := w.calls[t], Perform(w, Poll(t, input));
    PollIs(w, t, input);
    var v := Turn(w.handle, c.res, c.tid, input).1;
    if v.Answered? { Snoc(w.returned, Delivery(c, v.answer)); }
    forall i | 0 <= i < |u.structs| && u.structs[i].state.Held? ensures NamesWon(u, i) {
      if w.structs[i].state.Held? { assert NamesWon(w, i); }
    }
  }

  lemma {:induction false} HistoryNamed(w: World, acts: seq<Action>)
    requires Named(w) && IsOrderlyHistory(w, acts)
    ensures IsHistory(w, acts) && Named(After(w, acts))
    decreases |acts|
  {
    if acts != [] {
      PerformNamed(w, acts[0]);
      HistoryNamed(Perform(w, acts[0]), acts[1..]);
    }
  }

  lemma PerformNamed(w: World, a: Action)
    requires Named(w) && Possible(w, a) && Unused(w, a)
    ensures Named(Perform(w, a))
  {
    match a
    case Poll(t, input) => PollNamed(w, t, input);
    case Begin(_, _, _, _, _, _) => BeginNamed(w, a);
    case UnlockCheck(_, _, _) => StillNamed(w, Perform(w, a));
    case UnlockWrite(_) => StillNamed(w, Perform(w, a));
  }

  /** No structure becomes held or gets another name. */
  lemma StillNamed(w: World, u: World)
    requires Named(w) && u.calls == w.calls && u.returned == w.returned && |u.structs| == |w.structs|
    requires forall i :: 0 <= i < |w.structs| ==>
      u.structs[i].res == w.structs[i].res && (u.structs[i].state.Held? ==> w.structs[i].state.Held?)
    ensures Named(u)
  {
    forall i | 0 <= i < |u.structs| && u.structs[i].state.Held? ensures NamesWon(u, i) { assert NamesWon(w, i); }
  }

  lemma BeginNamed(w: World, a: Action)
    requires Named(w) && Possible(w, a) && Unused(w, a) && a.Begin?
    ensures Named(Perform(w, a))
  {
    var u := Perform(w, a);
    forall i | 0 <= i < |u.structs| && u.structs[i].state.Held? ensures NamesWon(u, i) { assert NamesWon(w, i); }
  }

  /** If structures are not reused too early, a held structure names the resource of the grant that filled it. */
  lemma HeldNamesLock(pid: Pid, structs: seq<LockStruct>, acts: seq<Action>, w: World, i: nat)
    requires ReachedFrom(pid, structs, acts, w) && IsOrderlyHistory(Opened(pid, structs), acts)
    requires i < |w.structs| && w.structs[i].state.Held?
    ensures LastWin(w.returned, i).Some? && w.structs[i].res == LastWin(w.returned, i).value.res
  {
    HistoryNamed(Opened(pid, structs), acts);
    assert NamesWon(w, i);
  }

  // ---------- cpg_unlock ----------

  /** A lock structure is released once: a second call finds nothing to release, whoever makes it. */
  lemma UnlockedOnce(owner: Pid, a: Pid, b: Pid, l: LockStruct, l': LockStruct, l'': LockStruct, x: Option<nat>,
                     y: Option<nat>)
    requires Unlocked(owner, a, l, l', x) && Unlocked(owner, b, l', l'', y)
    ensures x.Some? ==> x.value == l.id && l.id != 0 && y == None && l'' == l' && !l''.state.Held?
  {
  }

  /** Guard and store of cpg_unlock, nothing in between: the same as the call in one piece. */
  lemma UnlockInTwo(w: World, t: nat, pid: Pid, slot: nat, released: Option<nat>, l': LockStruct)
    requires Possible(w, UnlockCheck(t, pid, slot)) && Unlocked(w.handle.pid, pid, w.structs[slot], l', released)
    ensures var u := Perform(w, UnlockCheck(t, pid, slot));
      if released.Some? then
        && Possible(u, UnlockWrite(t))
        && Perform(u, UnlockWrite(t)) == w.(structs := w.structs[slot := l'], released := w.released + [released.value])
      else u == w && l' == w.structs[slot]
  {
    if released.Some? {
      var u := Perform(w, UnlockCheck(t, pid, slot));
      assert u.unlocking - {t} == w.unlocking;
    }
  }
}
