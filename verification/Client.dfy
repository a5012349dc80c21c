/**
 * The client library: threads share one connection to the daemon, any of them may read
 * any reply, and replies that are not the reader's own are kept for the thread they are for.
 */
module Client {
  import opened Types
  import P = Protocol

  datatype Kind = GrantReply | NakReply | OtherReply

  /** A reply message from the daemon. */
  datatype Answer = Answer(kind: Kind, node: NodeId, res: Resource, tid: Tid, id: nat)

  /** The shared part of a handle. */
  datatype Lib = Lib(pid: Pid, seqno: nat, pending: seq<Answer>)

  /** The result of one attempt to read a whole reply. */
  datatype Input = TimedOut | Broken | Got(answer: Answer)

  /** What one turn of the retry loop leads to. */
  datatype Verdict = Retry | Failed | Answered(answer: Answer)

  /** The caller's lock structure. */
  datatype LockStruct = LockStruct(res: Resource, state: LockState, node: NodeId, pid: Pid, id: nat)

  // ---------- the handle ----------

  predicate IsFor(a: Answer, r: Resource, tid: Tid) {
    a.res == r && a.tid == tid
  }

  function FirstFor(q: seq<Answer>, r: Resource, tid: Tid): (i: nat)
    ensures i <= |q|
    ensures i < |q| ==> IsFor(q[i], r, tid)
    ensures forall j :: 0 <= j < i ==> !IsFor(q[j], r, tid)
  {
    if q == [] then 0 else if IsFor(q[0], r, tid) then 0 else 1 + FirstFor(q[1..], r, tid)
  }

  /** One turn of the loop in cpg_lock, under the mutex: look among the kept replies, else read one. */
  function Turn(h: Lib, r: Resource, tid: Tid, input: Input): (Lib, Verdict) {
    var i := FirstFor(h.pending, r, tid);
    if i < |h.pending| then (h.(pending := P.DropAt(h.pending, i)), Answered(h.pending[i]))
    else
      match input
      case TimedOut => (h, Retry)
      case Broken => (h, Failed)
      case Got(a) => if IsFor(a, r, tid) then (h, Answered(a)) else (h.(pending := h.pending + [a]), Retry)
  }

  /** The first half of cpg_lock: guards, and the next sequence number. */
  predicate Begun(h: Lib, caller: Pid, fits: bool, h': Lib, tid: Option<Tid>) {
    if caller == h.pid && fits then h' == h.(seqno := h.seqno + 1) && tid == Some(h'.seqno)
    else h' == h && tid == None
  }

  /** cpg_unlock's guards. */
  predicate MayLetGo(owner: Pid, caller: Pid, l: LockStruct) {
    caller == owner && l.state.Held? && l.id != 0
  }

  /** A call of cpg_unlock nobody interferes with: what it finds, what it leaves and the id it writes, if any. */
  predicate Unlocked(owner: Pid, caller: Pid, l: LockStruct, l': LockStruct, released: Option<nat>) {
    && (released.Some? <==> caller == owner && l.state.Held? && l.id != 0)
    && (released.Some? ==> released.value == l.id && l' == l.(state := Free))
    && (released.None? ==> l' == l)
  }

  /** The end of cpg_lock: a grant fills the lock structure, anything else is a failure. */
  function Filled(owner: Pid, l: LockStruct, a: Answer): (LockStruct, bool) {
    if a.node == 0 || a.kind != GrantReply then (l, false)
    else (l.(state := Held, node := a.node, pid := owner, id := a.id), true)
  }

  class Handle {
    const pid: Pid
    var seqno: nat
    var pending: seq<Answer>

    constructor (p: Pid)
      ensures State() == Lib(p, 0, [])
    {
      pid, seqno, pending := p, 0, [];
    }

    ghost function State(): Lib
      reads this
    {
      Lib(pid, seqno, pending)
    }

    /** The first half of cpg_lock: guards and the call's sequence number. */
    method Begin(caller: Pid, fits: bool) returns (tid: Option<Tid>)
      modifies this`seqno
      ensures Begun(old(State()), caller, fits, State(), tid)
    {
      if caller != pid { return None; }
      if !fits { return None; }
      seqno := seqno + 1;
      return Some(seqno);
    }

    method CheckPending(r: Resource, tid: Tid) returns (found: Option<Answer>)
      modifies this`pending
      ensures var i := FirstFor(old(pending), r, tid);
        if i < |old(pending)| then found == Some(old(pending)[i]) && pending == P.DropAt(old(pending), i)
        else found == None && pending == old(pending)
    {
      var i := 0;
      while i < |pending|
        invariant 0 <= i <= |pending| && pending == old(pending)
        invariant forall j :: 0 <= j < i ==> !IsFor(pending[j], r, tid)
      {
        if pending[i].res == r && pending[i].tid == tid {
          assert i == FirstFor(pending, r, tid);
          found := Some(pending[i]);
          pending := pending[..i] + pending[i + 1..];
          return;
        }
        i := i + 1;
      }
      return None;
    }

    method AddPending(a: Answer)
      modifies this`pending
      ensures pending == old(pending) + [a]
    {
      pending := pending + [a];
    }

    /** One turn of the retry loop; input is what a read would give if one is made. */
    method TakeTurn(r: Resource, tid: Tid, input: Input) returns (v: Verdict)
      modifies this
      ensures (State(), v) == Turn(old(State()), r, tid, input)
    {
      var kept := CheckPending(r, tid);
      if kept.Some? { return Answered(kept.value); }
      match input
      case TimedOut => return Retry;
      case Broken => return Failed;
      case Got(a) =>
        if a.res != r {
          AddPending(a);
          return Retry;
        }
        if a.tid != tid {
          AddPending(a);
          return Retry;
        }
        return Answered(a);
    }
  }

  class UserLock {
    var res: Resource
    var state: LockState
    var node: NodeId
    var pid: Pid
    var id: nat

    ghost function Value(): LockStruct
      reads this
    {
      LockStruct(res, state, node, pid, id)
    }

    /** The end of cpg_lock, with the reply of the daemon. */
    method Fill(h: Handle, a: Answer) returns (won: bool)
      modifies this
      ensures (Value(), won) == Filled(h.pid, old(Value()), a)
    {
      if a.node == 0 { return false; }
      if a.kind == NakReply { return false; }
      if a.kind != GrantReply { return false; }
      state, node, pid, id := Held, a.node, h.pid, a.id;
      return true;
    }

    /** cpg_unlock; the result is the id put into the release message, if one is written. */
    method Unlock(h: Handle, caller: Pid) returns (released: Option<nat>)
      modifies this`state
      ensures Unlocked(h.pid, caller, old(Value()), Value(), released)
    {
      if h.pid != caller { return None; }
      if state != Held { return None; }
      if id == 0 { return None; }
      state := Free;
      return Some(id);
    }
  }

  // ---------- all threads of the process ----------

  /** A call of cpg_lock in progress: what it asks for, and the lock structure it fills. */
  datatype Call = Call(res: Resource, tid: Tid, slot: nat)

  datatype Delivery = Delivery(call: Call, answer: Answer)

  /**
   * The handle, the calls of cpg_lock in progress by thread, the calls of cpg_unlock that have
   * passed the guards (cpg_unlock takes no mutex), the caller's lock structures, and what has
   * happened: replies read, replies returned to calls, ids won by cpg_lock, ids released by cpg_unlock.
   */
  datatype World = World(
    handle: Lib,
    calls: map<nat, Call>,
    unlocking: map<nat, nat>,
    structs: seq<LockStruct>,
    read: seq<Answer>,
    returned: seq<Delivery>,
    won: seq<nat>,
    released: seq<nat>)

  datatype Action =
    | Begin(t: nat, pid: Pid, res: Resource, fits: bool, slot: nat, written: bool)
    | Poll(t: nat, input: Input)
    | UnlockCheck(t: nat, pid: Pid, slot: nat)
    | UnlockWrite(t: nat)

  predicate Possible(w: World, a: Action) {
    match a
    case Begin(t, _, _, _, slot, _) => t !in w.calls && t !in w.unlocking && slot < |w.structs|
    case Poll(t, _) => t in w.calls && w.calls[t].slot < |w.structs|
    case UnlockCheck(t, _, slot) => t !in w.calls && t !in w.unlocking && slot < |w.structs|
    case UnlockWrite(t) => t in w.unlocking && w.unlocking[t] < |w.structs|
  }

  /** A call of cpg_lock ends with an answer. */
  function Conclude(w: World, c: Call, a: Answer): World
    requires c.slot < |w.structs|
  {
    var (l, won) := Filled(w.handle.pid, w.structs[c.slot], a);
    w.(returned := w.returned + [Delivery(c, a)], structs := w.structs[c.slot := l],
       won := if won then w.won + [a.id] else w.won)
  }

  function Perform(w: World, a: Action): World
    requires Possible(w, a)
  {
    match a
    case Begin(t, pid, res, fits, slot, written) =>
      if pid != w.handle.pid || !fits then w
      else
        var h := w.handle.(seqno := w.handle.seqno + 1);
        var b := w.(handle := h, structs := w.structs[slot := w.structs[slot].(res := res)]);
        if written then b.(calls := w.calls[t := Call(res, h.seqno, slot)]) else b
    case Poll(t, input) =>
      var c := w.calls[t];
      var (h, v) := Turn(w.handle, c.res, c.tid, input);
      var kept := FirstFor(w.handle.pending, c.res, c.tid) < |w.handle.pending|;
      var b := w.(handle := h, read := if !kept && input.Got? then w.read + [input.answer] else w.read);
      match v {
        case Retry => b
        case Failed => b.(calls := b.calls - {t})
        case Answered(x) => Conclude(b, c, x).(calls := b.calls - {t})
      }
    case UnlockCheck(t, pid, slot) =>
      if MayLetGo(w.handle.pid, pid, w.structs[slot]) then w.(unlocking := w.unlocking[t := slot]) else w
    case UnlockWrite(t) =>
      var slot := w.unlocking[t];
      var l := w.structs[slot];
      w.(unlocking := w.unlocking - {t}, structs := w.structs[slot := l.(state := Free)],
         released := w.released + [l.id])
  }

  ghost predicate IsHistory(w: World, acts: seq<Action>)
    decreases |acts|
  {
    acts == [] || (Possible(w, acts[0]) && IsHistory(Perform(w, acts[0]), acts[1..]))
  }

  ghost function After(w: World, acts: seq<Action>): World
    requires IsHistory(w, acts)
    decreases |acts|
  {
    if acts == [] then w else After(Perform(w, acts[0]), acts[1..])
  }

  // ---------- invariants ----------

  function Answers(ds: seq<Delivery>): seq<Answer> {
    seq(|ds|, i requires 0 <= i < |ds| => ds[i].answer)
  }

  /** Replies read are either returned or kept. */
  ghost predicate Conserved(w: World) {
    Balanced(w.read, w.handle.pending, w.returned)
  }

  ghost predicate Balanced(read: seq<Answer>, pending: seq<Answer>, returned: seq<Delivery>) {
    multiset(read) == multiset(pending) + multiset(Answers(returned))
  }

  /** A reply is returned only to the call it is for; no two calls share a sequence number, and none returns twice. */
  ghost predicate Routed(w: World) {
    && (forall i :: 0 <= i < |w.returned| ==>
          IsFor(w.returned[i].answer, w.returned[i].call.res, w.returned[i].call.tid))
    && (forall i :: 0 <= i < |w.returned| ==> w.returned[i].call.tid <= w.handle.seqno)
    && (forall t :: t in w.calls ==> 0 < w.calls[t].tid <= w.handle.seqno)
    && (forall t, u :: t in w.calls && u in w.calls && t != u ==> w.calls[t].tid != w.calls[u].tid)
    && (forall t, i :: t in w.calls && 0 <= i < |w.returned| ==> w.calls[t].tid != w.returned[i].call.tid)
    && (forall i, j :: 0 <= i < j < |w.returned| ==> w.returned[i].call.tid != w.returned[j].call.tid)
  }

  function HeldAs(l: LockStruct, id: nat): nat {
    if l.state.Held? && l.id == id then 1 else 0
  }

  /** The number of lock structures that hold a lock with this id. */
  function HeldCount(structs: seq<LockStruct>, id: nat): nat {
    if structs == [] then 0 else HeldAs(structs[0], id) + HeldCount(structs[1..], id)
  }

  /** Every release uses up one won lock. */
  ghost predicate Paid(w: World) {
    forall id :: PaidFor(w, id)
  }

  ghost predicate PaidFor(w: World, id: nat) {
    multiset(w.released)[id] + HeldCount(w.structs, id) <= multiset(w.won)[id]
  }

  ghost predicate Sound(w: World) {
    Conserved(w) && Routed(w) && StillOrSpent(w)
  }

  /** A call of cpg_unlock past its guards finds the lock still held, or its id released by another call. */
  ghost predicate StillOrSpent(w: World) {
    forall t :: t in w.unlocking && w.unlocking[t] < |w.structs| ==>
      w.structs[w.unlocking[t]].state.Held? || w.structs[w.unlocking[t]].id in w.released
  }

  /** No other call has released the structure since the guards were passed. */
  predicate Clean(w: World, a: Action) {
    a.UnlockWrite? && a.t in w.unlocking && w.unlocking[a.t] < |w.structs| ==> w.structs[w.unlocking[a.t]].state.Held?
  }

  ghost predicate IsCleanHistory(w: World, acts: seq<Action>)
    decreases |acts|
  {
    acts == [] || (Possible(w, acts[0]) && Clean(w, acts[0]) && IsCleanHistory(Perform(w, acts[0]), acts[1..]))
  }

  /** No two calls of cpg_unlock on the same structure overlap. */
  predicate Apart(w: World, a: Action) {
    a.UnlockCheck? ==> forall t :: t in w.unlocking ==> w.unlocking[t] != a.slot
  }

  ghost predicate IsApartHistory(w: World, acts: seq<Action>)
    decreases |acts|
  {
    acts == [] || (Possible(w, acts[0]) && Apart(w, acts[0]) && IsApartHistory(Perform(w, acts[0]), acts[1..]))
  }

  function Opened(pid: Pid, structs: seq<LockStruct>): World {
    World(Lib(pid, 0, []), map[], map[], structs, [], [], [], [])
  }

  // ---------- steps ----------

  lemma DropMultiset(q: seq<Answer>, i: nat)
    requires i < |q|
    ensures multiset(q) == multiset(P.DropAt(q, i)) + multiset{q[i]}
  {
    assert q == q[..i] + [q[i]] + q[i + 1..];
  }

  lemma AnswersAppend(ds: seq<Delivery>, d: Delivery)
    ensures multiset(Answers(ds + [d])) == multiset(Answers(ds)) + multiset{d.answer}
  {
    assert Answers(ds + [d]) == Answers(ds) + [d.answer];
  }

  lemma KeptReturned(read: seq<Answer>, pending: seq<Answer>, returned: seq<Delivery>, i: nat, c: Call)
    requires Balanced(read, pending, returned) && i < |pending|
    ensures Balanced(read, P.DropAt(pending, i), returned + [Delivery(c, pending[i])])
  {
    DropMultiset(pending, i);
    AnswersAppend(returned, Delivery(c, pending[i]));
  }

  lemma ReadReturned(read: seq<Answer>, pending: seq<Answer>, returned: seq<Delivery>, a: Answer, c: Call)
    requires Balanced(read, pending, returned)
    ensures Balanced(read + [a], pending, returned + [Delivery(c, a)]) && Balanced(read + [a], pending + [a], returned)
  {
    AnswersAppend(returned, Delivery(c, a));
  }

  lemma PollConserved(w: World, t: nat, input: Input)
    requires Conserved(w) && Possible(w, Poll(t, input))
    ensures Conserved(Perform(w, Poll(t, input)))
  {
    var c, u := w.calls[t], Perform(w, Poll(t, input));
    var i := FirstFor(w.handle.pending, c.res, c.tid);
    if i < |w.handle.pending| {
      assert u.read == w.read && u.handle.pending == P.DropAt(w.handle.pending, i);
      assert u.returned == w.returned + [Delivery(c, w.handle.pending[i])];
      KeptReturned(w.read, w.handle.pending, w.returned, i, c);
    } else if input.Got? {
      assert u.read == w.read + [input.answer];
      ReadReturned(w.read, w.handle.pending, w.returned, input.answer, c);
    } else {
      assert u.read == w.read && u.handle == w.handle && u.returned == w.returned;
    }
  }

  lemma PollRouted(w: World, t: nat, input: Input)
    requires Routed(w) && Possible(w, Poll(t, input))
    ensures Routed(Perform(w, Poll(t, input)))
  {
    var u := Perform(w, Poll(t, input));
    var c := w.calls[t];
    var v := Turn(w.handle, c.res, c.tid, input).1;
    assert u.handle.seqno == w.handle.seqno;
    if v.Answered? {
      assert u.returned == w.returned + [Delivery(c, v.answer)] && u.calls == w.calls - {t};
    }
  }

  lemma {:induction false} HeldUpdate(structs: seq<LockStruct>, i: nat, l: LockStruct, id: nat)
    requires i < |structs|
    ensures HeldCount(structs[i := l], id) + HeldAs(structs[i], id) == HeldCount(structs, id) + HeldAs(l, id)
  {
    var s := structs[i := l];
    if i == 0 {
      assert s[1..] == structs[1..];
    } else {
      HeldUpdate(structs[1..], i - 1, l, id);
      assert s[1..] == structs[1..][i - 1 := l];
    }
  }

  lemma ConcludePaid(w: World, c: Call, a: Answer, id: nat)
    requires PaidFor(w, id) && c.slot < |w.structs|
    ensures PaidFor(Conclude(w, c, a), id)
  {
    HeldUpdate(w.structs, c.slot, Filled(w.handle.pid, w.structs[c.slot], a).0, id);
  }

  lemma PollPaid(w: World, t: nat, input: Input, id: nat)
    requires PaidFor(w, id) && Possible(w, Poll(t, input))
    ensures PaidFor(Perform(w, Poll(t, input)), id)
  {
    var c := w.calls[t];
    var (h, v) := Turn(w.handle, c.res, c.tid, input);
    var kept := FirstFor(w.handle.pending, c.res, c.tid) < |w.handle.pending|;
    var b := w.(handle := h, read := if !kept && input.Got? then w.read + [input.answer] else w.read);
    if v.Answered? { ConcludePaid(b, c, v.answer, id); }
  }

  lemma PerformPaid(w: World, a: Action, id: nat)
    requires PaidFor(w, id) && Possible(w, a) && Clean(w, a)
    ensures PaidFor(Perform(w, a), id)
  {
    match a
    case Begin(_, _, res, _, slot, _) => HeldUpdate(w.structs, slot, w.structs[slot].(res := res), id);
    case Poll(t, input) => PollPaid(w, t, input, id);
    case UnlockCheck(_, _, _) =>
    case UnlockWrite(t) => HeldUpdate(w.structs, w.unlocking[t], w.structs[w.unlocking[t]].(state := Free), id);
  }

  lemma BeginRouted(w: World, a: Action)
    requires Routed(w) && Possible(w, a) && a.Begin?
    ensures Routed(Perform(w, a))
  {
  }

  lemma PollSpent(w: World, t: nat, input: Input)
    requires StillOrSpent(w) && Possible(w, Poll(t, input))
    ensures StillOrSpent(Perform(w, Poll(t, input)))
  {
    var u := Perform(w, Poll(t, input));
    assert u.unlocking == w.unlocking && u.released == w.released && |u.structs| == |w.structs|;
    forall i | 0 <= i < |w.structs| ensures u.structs[i] == w.structs[i] || u.structs[i].state.Held? {
    }
  }

  lemma WriteSpent(w: World, t: nat)
    requires StillOrSpent(w) && Possible(w, UnlockWrite(t))
    ensures StillOrSpent(Perform(w, UnlockWrite(t)))
  {
    var u := Perform(w, UnlockWrite(t));
    assert u.released[|w.released|] == w.structs[w.unlocking[t]].id;
    forall x | x in w.released ensures x in u.released { }
  }

  lemma PerformSound(w: World, a: Action)
    requires Sound(w) && Possible(w, a)
    ensures Sound(Perform(w, a))
  {
    match a
    case Begin(_, _, _, _, _, _) => BeginRouted(w, a);
    case Poll(t, input) =>
      PollConserved(w, t, input);
      PollRouted(w, t, input);
      PollSpent(w, t, input);
    case UnlockCheck(_, _, _) =>
    case UnlockWrite(t) => WriteSpent(w, t);
  }

  lemma {:induction false} HistorySound(w: World, acts: seq<Action>)
    requires Sound(w) && IsHistory(w, acts)
    ensures Sound(After(w, acts))
    decreases |acts|
  {
    if acts != [] {
      PerformSound(w, acts[0]);
      HistorySound(Perform(w, acts[0]), acts[1..]);
    }
  }

  lemma {:induction false} HistoryPaid(w: World, acts: seq<Action>)
    requires Paid(w) && IsCleanHistory(w, acts)
    ensures IsHistory(w, acts) && Paid(After(w, acts))
    decreases |acts|
  {
    if acts != [] {
      forall id ensures PaidFor(Perform(w, acts[0]), id) {
        assert PaidFor(w, id);
        PerformPaid(w, acts[0], id);
      }
      HistoryPaid(Perform(w, acts[0]), acts[1..]);
    }
  }

  lemma {:induction false} NoneHeld(structs: seq<LockStruct>, id: nat)
    requires forall i :: 0 <= i < |structs| ==> !structs[i].state.Held?
    ensures HeldCount(structs, id) == 0
  {
    if structs != [] { NoneHeld(structs[1..], id); }
  }

  // ---------- theorems ----------

  ghost predicate ReachedFrom(pid: Pid, structs: seq<LockStruct>, acts: seq<Action>, w: World) {
    && (forall i :: 0 <= i < |structs| ==> !structs[i].state.Held?)
    && IsHistory(Opened(pid, structs), acts)
    && w == After(Opened(pid, structs), acts)
  }

  lemma ReachedSound(pid: Pid, structs: seq<LockStruct>, acts: seq<Action>, w: World)
    requires ReachedFrom(pid, structs, acts, w)
    ensures Sound(w)
  {
    HistorySound(Opened(pid, structs), acts);
  }

  /**
   * For every interleaving: replies read are replies returned plus replies kept, and each goes to the one call
   * it is for.
   */
  lemma Demultiplexing(pid: Pid, structs: seq<LockStruct>, acts: seq<Action>, w: World)
    requires ReachedFrom(pid, structs, acts, w)
    ensures multiset(w.read) == multiset(w.handle.pending) + multiset(Answers(w.returned))
    ensures forall i :: 0 <= i < |w.returned| ==>
      w.returned[i].answer.res == w.returned[i].call.res && w.returned[i].answer.tid == w.returned[i].call.tid
    ensures forall i, j :: 0 <= i < j < |w.returned| ==> w.returned[i].call.tid != w.returned[j].call.tid
    ensures forall t, u :: t in w.calls && u in w.calls && w.calls[t].tid == w.calls[u].tid ==> t == u
  {
    ReachedSound(pid, structs, acts, w);
  }

  /** If any thread has read the reply of a waiting call, the call's next turn returns it without reading. */
  lemma ReplyFound(pid: Pid, structs: seq<LockStruct>, acts: seq<Action>, w: World, t: nat, input: Input, a: Answer)
    requires ReachedFrom(pid, structs, acts, w) && Possible(w, Poll(t, input))
    requires a in w.read && IsFor(a, w.calls[t].res, w.calls[t].tid)
    ensures var u := Perform(w, Poll(t, input));
      && t !in u.calls && u.read == w.read
      && |u.returned| == |w.returned| + 1 && u.returned[|w.returned|].call == w.calls[t]
      && IsFor(u.returned[|w.returned|].answer, w.calls[t].res, w.calls[t].tid)
  {
    ReachedSound(pid, structs, acts, w);
    var c := w.calls[t];
    assert a !in Answers(w.returned) by { NotReturned(w, t, a); }
    assert a in multiset(w.read);
    assert a in multiset(w.handle.pending);
    assert FirstFor(w.handle.pending, c.res, c.tid) < |w.handle.pending|;
  }

  lemma NotReturned(w: World, t: nat, a: Answer)
    requires Routed(w) && t in w.calls && IsFor(a, w.calls[t].res, w.calls[t].tid)
    ensures a !in Answers(w.returned)
  {
    forall i | 0 <= i < |w.returned| ensures Answers(w.returned)[i] != a {
      assert w.calls[t].tid != w.returned[i].call.tid;
    }
  }

  /** Nothing released is forgotten. */
  lemma {:induction false} ReleasedGrows(w: World, acts: seq<Action>, id: nat)
    requires IsHistory(w, acts)
    ensures multiset(w.released)[id] <= multiset(After(w, acts).released)[id]
    decreases |acts|
  {
    if acts != [] {
      var u := Perform(w, acts[0]);
      assert u.released == w.released || u.released == w.released + [u.released[|w.released|]];
      ReleasedGrows(u, acts[1..], id);
    }
  }

  /** A release that is not clean releases an id for the second time. */
  lemma {:induction false} UncleanTwice(w: World, acts: seq<Action>) returns (id: nat)
    requires Sound(w) && IsHistory(w, acts) && !IsCleanHistory(w, acts)
    ensures multiset(After(w, acts).released)[id] >= 2
    decreases |acts|
  {
    var u := Perform(w, acts[0]);
    if Clean(w, acts[0]) {
      PerformSound(w, acts[0]);
      id := UncleanTwice(u, acts[1..]);
    } else {
      id := w.structs[w.unlocking[acts[0].t]].id;
      assert id in multiset(w.released);
      assert u.released == w.released + [id];
      ReleasedGrows(u, acts[1..], id);
    }
  }

  lemma OpenedPaid(pid: Pid, structs: seq<LockStruct>)
    requires forall i :: 0 <= i < |structs| ==> !structs[i].state.Held?
    ensures Paid(Opened(pid, structs))
  {
    forall id ensures PaidFor(Opened(pid, structs), id) { NoneHeld(structs, id); }
  }

  /**
   * The daemon never gives out an id twice, so suppose no id was won twice. Then no id is released
   * more often than it was won if and only if no call of cpg_unlock finds, once past its guards,
   * that another call has released the structure in the meantime.
   */
  lemma ReleasedAtMostOnce(pid: Pid, structs: seq<LockStruct>, acts: seq<Action>, w: World)
    requires ReachedFrom(pid, structs, acts, w) && forall id :: multiset(w.won)[id] <= 1
    ensures (forall id :: multiset(w.released)[id] <= multiset(w.won)[id]) <==>
      IsCleanHistory(Opened(pid, structs), acts)
  {
    var o := Opened(pid, structs);
    OpenedPaid(pid, structs);
    if IsCleanHistory(o, acts) {
      HistoryPaid(o, acts);
      forall id ensures multiset(w.released)[id] <= multiset(w.won)[id] { assert PaidFor(w, id); }
    } else {
      var id := UncleanTwice(o, acts);
      assert multiset(w.won)[id] <= 1;
    }
  }

  /** A clean history leaves a released id, won once, in no held structure. */
  lemma ReleasedIsGone(pid: Pid, structs: seq<LockStruct>, acts: seq<Action>, w: World, i: nat)
    requires ReachedFrom(pid, structs, acts, w) && IsCleanHistory(Opened(pid, structs), acts)
    requires i < |w.structs| && w.structs[i].state.Held? && multiset(w.won)[w.structs[i].id] <= 1
    ensures w.structs[i].id !in w.released
  {
    OpenedPaid(pid, structs);
    HistoryPaid(Opened(pid, structs), acts);
    assert PaidFor(w, w.structs[i].id);
    HeldIn(w.structs, i);
  }

  /** While calls on one structure do not overlap, each of them finds the lock still held. */
  ghost predicate AllStill(w: World) {
    && (forall t :: t in w.unlocking ==> w.unlocking[t] < |w.structs| && w.structs[w.unlocking[t]].state.Held?)
    && (forall t, u :: t in w.unlocking && u in w.unlocking && t != u ==> w.unlocking[t] != w.unlocking[u])
  }

  lemma PollStill(w: World, t: nat, input: Input)
    requires AllStill(w) && Possible(w, Poll(t, input))
    ensures AllStill(Perform(w, Poll(t, input)))
  {
    var u := Perform(w, Poll(t, input));
    assert u.unlocking == w.unlocking && |u.structs| == |w.structs|;
    forall i | 0 <= i < |w.structs| ensures u.structs[i] == w.structs[i] || u.structs[i].state.Held? { }
  }

  lemma {:induction false} ApartIsClean(w: World, acts: seq<Action>)
    requires AllStill(w) && IsApartHistory(w, acts)
    ensures IsCleanHistory(w, acts)
    decreases |acts|
  {
    if acts != [] {
      var a := acts[0];
      if a.Poll? { PollStill(w, a.t, a.input); }
      assert AllStill(Perform(w, a));
      ApartIsClean(Perform(w, a), acts[1..]);
    }
  }

  /** Two threads that both pass the guards release the lock twice. */
  lemma DoubleRelease(structs: seq<LockStruct>) returns (acts: seq<Action>, w: World)
    requires structs == [LockStruct(7, Free, 0, 0, 0)]
    ensures ReachedFrom(100, structs, acts, w) && w.won == [5] && w.released == [5, 5]
  {
    var grant := Answer(GrantReply, 1, 7, 1, 5);
    var a0, a1 := Begin(1, 100, 7, true, 0, true), Poll(1, Got(grant));
    var a2, a3, a4, a5 := UnlockCheck(1, 100, 0), UnlockCheck(2, 100, 0), UnlockWrite(1), UnlockWrite(2);
    var w0 := Opened(100, structs);
    var w1 := Perform(w0, a0);
    var w2 := Perform(w1, a1);
    assert w2.structs[0].state.Held? && w2.structs[0].id == 5 && w2.won == [5] && w2.released == [];
    var w3 := Perform(w2, a2);
    var w4 := Perform(w3, a3);
    var w5 := Perform(w4, a4);
    w := Perform(w5, a5);
    assert IsHistory(w, []) && After(w, []) == w;
    acts := Cons(w5, a5, [], w);
    acts := Cons(w4, a4, acts, w);
    acts := Cons(w3, a3, acts, w);
    acts := Cons(w2, a2, acts, w);
    acts := Cons(w1, a1, acts, w);
    acts := Cons(w0, a0, acts, w);
  }

  lemma Cons(w: World, a: Action, acts: seq<Action>, end: World) returns (all: seq<Action>)
    requires Possible(w, a) && IsHistory(Perform(w, a), acts) && After(Perform(w, a), acts) == end
    ensures all == [a] + acts && IsHistory(w, all) && After(w, all) == end
  {
    all := [a] + acts;
    assert all[1..] == acts;
  }

  lemma {:induction false} HeldIn(structs: seq<LockStruct>, i: nat)
    requires i < |structs| && structs[i].state.Held?
    ensures HeldCount(structs, structs[i].id) >= 1
  {
    if i > 0 { HeldIn(structs[1..], i - 1); }
  }
}
