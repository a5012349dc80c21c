/**
 * The transfer loop of the library: short reads and writes are continued until the whole
 * buffer has been transferred, within a time budget measured with the monotonic clock.
 */
module IoLoop {

  type Byte = x: int | 0 <= x < 256

  /** A reading of the clock. */
  datatype Stamp = Stamp(sec: int, nsec: int)

  /** The final result of poll, after interrupted calls have been repeated. */
  datatype Polled = PollError | NothingReady | Ready(broken: bool)

  /** The result of read or write: some bytes, or an error that may be temporary. */
  datatype Moved = Bytes(count: nat) | IoError(temporary: bool)

  /** What the system does during one turn of the loop. */
  datatype Tick = Tick(polled: Polled, moved: Moved, start: Stamp, end: Stamp)

  datatype Result = Done | TimedOut | Failed | Unfinished

  // ---------- time ----------

  const NANO := 1_000_000_000
  const MILLI := 1_000_000

  ghost predicate IsStamp(s: Stamp) {
    0 <= s.nsec < NANO
  }

  function Nanos(s: Stamp): int {
    s.sec * NANO + s.nsec
  }

  function Elapsed(t: Tick): int {
    Nanos(t.end) - Nanos(t.start)
  }

  /** Division that rounds toward zero. */
  function Quotient(a: int, b: int): int
    requires b > 0
  {
    if a >= 0 then a / b else -((-a) / b)
  }

  /** The milliseconds one turn is charged. */
  function Charge(t: Tick): int {
    (t.end.sec - t.start.sec) * 1000 + Quotient(t.end.nsec - t.start.nsec, MILLI)
  }

  /** Conversion to a 32-bit signed integer. */
  function ToInt32(x: int): (r: int)
    ensures -0x8000_0000 <= r < 0x8000_0000
  {
    (x + 0x8000_0000) % 0x1_0000_0000 - 0x8000_0000
  }

  /** The time left when turn k begins; a call without a positive timeout is not timed. */
  function Remaining(timeout: int, script: seq<Tick>, k: nat): int
    requires k <= |script|
  {
    if k == 0 || timeout <= 0 then timeout
    else ToInt32(Remaining(timeout, script, k - 1) - Charge(script[k - 1]))
  }

  ghost predicate Monotonic(t: Tick) {
    IsStamp(t.start) && IsStamp(t.end) && Elapsed(t) >= 0
  }

  /** A charge counts the whole milliseconds between the two nanosecond fields, in whichever direction. */
  lemma ChargeTruncates(t: Tick)
    requires t.start.sec == t.end.sec
    ensures var d, c := t.end.nsec - t.start.nsec, Charge(t) * MILLI;
      if d >= 0 then 0 <= c <= d < c + MILLI else c - MILLI < d <= c <= 0
  {
  }

  /** A charge is never negative and is within a millisecond of the time that really passed. */
  lemma ChargeIsFair(t: Tick)
    requires Monotonic(t)
    ensures Charge(t) >= 0
    ensures Elapsed(t) - MILLI < Charge(t) * MILLI < Elapsed(t) + MILLI
  {
    var d, s := t.end.nsec - t.start.nsec, t.end.sec - t.start.sec;
    assert Elapsed(t) == s * NANO + d;
    if d < 0 { assert s >= 1; }
  }

  /** The subtraction is exact unless one turn outlasts the budget by more than 2^31 ms. */
  lemma ChargeExact(left: int, charge: int)
    requires 0 < left < 0x8000_0000 && charge >= 0
    ensures ToInt32(left - charge) == left - charge <==> charge <= left + 0x8000_0000
  {
  }

  /** Otherwise a timeout can come back to life: a turn of 2^32 ms leaves the whole budget. */
  lemma ChargeWraps(timeout: int, t: Tick)
    requires 0 < timeout < 0x8000_0000 && Charge(t) == 0x1_0000_0000
    ensures Remaining(timeout, [t], 1) == timeout
  {
    assert Remaining(timeout, [t], 0) == timeout;
  }

  function TotalElapsed(script: seq<Tick>, k: nat): int
    requires k <= |script|
  {
    if k == 0 then 0 else TotalElapsed(script, k - 1) + Elapsed(script[k - 1])
  }

  function TotalCharge(script: seq<Tick>, k: nat): int
    requires k <= |script|
  {
    if k == 0 then 0 else TotalCharge(script, k - 1) + Charge(script[k - 1])
  }

  /** No turn outlasts what is left by more than 2^31 ms (about 24 days). */
  ghost predicate Sane(timeout: int, script: seq<Tick>, k: nat)
    requires k <= |script|
  {
    forall j :: 0 <= j < k ==>
      Monotonic(script[j]) && Charge(script[j]) <= Remaining(timeout, script, j) + 0x8000_0000
  }

  lemma Deducted(left: int, t: Tick)
    requires 0 < left < 0x8000_0000 && Monotonic(t) && Charge(t) <= left + 0x8000_0000
    ensures ToInt32(left - Charge(t)) == left - Charge(t) && Charge(t) >= 0
  {
    ChargeIsFair(t);
    ChargeExact(left, Charge(t));
  }

  lemma {:induction false} RemainingIsBudget(timeout: int, script: seq<Tick>, k: nat)
    requires 0 < timeout < 0x8000_0000 && k <= |script| && Sane(timeout, script, k)
    requires forall j :: 0 <= j < k ==> Remaining(timeout, script, j) > 0
    ensures Remaining(timeout, script, k) == timeout - TotalCharge(script, k)
    ensures Remaining(timeout, script, k) <= timeout
  {
    if k > 0 {
      RemainingIsBudget(timeout, script, k - 1);
      Deducted(Remaining(timeout, script, k - 1), script[k - 1]);
    }
  }

  lemma {:induction false} ChargesAreFair(script: seq<Tick>, k: nat)
    requires k <= |script| && forall j :: 0 <= j < k ==> Monotonic(script[j])
    ensures TotalElapsed(script, k) - k * MILLI <= TotalCharge(script, k) * MILLI <= TotalElapsed(script, k) + k * MILLI
  {
    if k > 0 {
      ChargesAreFair(script, k - 1);
      ChargeIsFair(script[k - 1]);
    }
  }

  /**
   * While turns are still being made, the time that has passed plus the wait the next poll is
   * given exceeds the budget by at most one millisecond per completed turn.
   */
  lemma WaitIsBounded(timeout: int, script: seq<Tick>, k: nat)
    requires 0 < timeout < 0x8000_0000 && k <= |script| && Sane(timeout, script, k)
    requires forall j :: 0 <= j <= k ==> Remaining(timeout, script, j) > 0
    ensures TotalElapsed(script, k) + Remaining(timeout, script, k) * MILLI <= (timeout + k) * MILLI
    ensures TotalElapsed(script, k) < (timeout + k) * MILLI
  {
    RemainingIsBudget(timeout, script, k);
    ChargesAreFair(script, k);
  }

  // ---------- the loop ----------

  function Min(a: nat, b: nat): (m: nat)
    ensures m <= a && m <= b && (m == a || m == b)
  {
    if a < b then a else b
  }

  /** The turns made are those before the result; every poll of a timed call was given a positive wait. */
  ghost predicate PollsFit(timeout: int, script: seq<Tick>, waits: seq<int>) {
    && |waits| <= |script|
    && (forall i :: 0 <= i < |waits| ==> waits[i] == Remaining(timeout, script, i))
    && (timeout > 0 ==> forall i :: 0 <= i < |waits| ==> waits[i] > 0)
  }

  /** The bytes transferred by the first k turns when want are asked for and the peer has avail. */
  function Progress(want: nat, avail: nat, script: seq<Tick>, k: nat): (p: nat)
    requires k <= |script|
    ensures p <= want && p <= avail
  {
    if k == 0 then 0
    else
      var before, t := Progress(want, avail, script, k - 1), script[k - 1];
      if t.polled == Ready(false) && t.moved.Bytes? then before + Min(t.moved.count, Min(want - before, avail - before))
      else before
  }

  /** Turn k ends the call with an error. */
  predicate Breaks(want: nat, avail: nat, script: seq<Tick>, k: nat)
    requires k < |script|
  {
    match script[k].polled
    case PollError => true
    case NothingReady => false
    case Ready(broken) =>
      || broken
      || script[k].moved == IoError(false)
      || (script[k].moved.Bytes? && Progress(want, avail, script, k + 1) == Progress(want, avail, script, k))
  }

  /** No turn before the last one ended the call. */
  ghost predicate WentOn(want: nat, avail: nat, script: seq<Tick>, k: nat) {
    forall i :: 0 <= i < k && i < |script| ==> !Breaks(want, avail, script, i) && !script[i].polled.NothingReady?
  }

  /** The result says why the call ended, and after which turn. */
  ghost predicate Explained(res: Result, want: nat, avail: nat, timeout: int, script: seq<Tick>, turns: nat) {
    && turns <= |script|
    && match res
       case Done => Progress(want, avail, script, turns) == want && WentOn(want, avail, script, turns)
       case Failed => turns > 0 && Breaks(want, avail, script, turns - 1) && WentOn(want, avail, script, turns - 1)
       case TimedOut =>
         || (timeout > 0 && Remaining(timeout, script, turns) <= 0 && WentOn(want, avail, script, turns))
         || (turns > 0 && script[turns - 1].polled.NothingReady? && WentOn(want, avail, script, turns - 1))
       case Unfinished => turns == |script| && WentOn(want, avail, script, turns)
  }

  /** What one turn leads to: the end of the call, or n more bytes (none after a temporary error). */
  datatype Turn = Stop(res: Result) | Move(n: nat)

  /** The verdict a turn should give when room bytes could be transferred. */
  predicate IsVerdict(t: Tick, room: nat, v: Turn) {
    var goesOn := t.polled == Ready(false) &&
      (t.moved == IoError(true) || (t.moved.Bytes? && t.moved.count > 0 && room > 0));
    match v
    case Stop(res) => !goesOn && res == if t.polled.NothingReady? then TimedOut else Failed
    case Move(n) => goesOn && n == if t.moved.Bytes? then Min(t.moved.count, room) else 0
  }

  /** One turn of the loop from poll on, when room bytes could be transferred. */
  method TakeTurn(t: Tick, room: nat) returns (v: Turn)
    ensures IsVerdict(t, room, v)
  {
    if t.polled.PollError? { return Stop(Failed); }
    if t.polled.NothingReady? { return Stop(TimedOut); }
    if t.polled.broken { return Stop(Failed); }
    if t.moved.IoError? {
      if t.moved.temporary { return Move(0); }
      return Stop(Failed);
    }
    var n := Min(t.moved.count, room);
    if n == 0 { return Stop(Failed); }
    return Move(n);
  }

  /** Turn k is charged against the time left, if the call is timed. */
  method ChargeTurn(timeout: int, script: seq<Tick>, k: nat, left: int) returns (next: int)
    requires k < |script| && left == Remaining(timeout, script, k)
    ensures next == Remaining(timeout, script, k + 1)
  {
    next := left;
    if timeout > 0 { next := ToInt32(left - Charge(script[k])); }
  }

  /** The state of a call after some turns. */
  ghost predicate UnderWay(want: nat, avail: nat, timeout: int, script: seq<Tick>, used: nat, left: int,
                           waits: seq<int>) {
    && PollsFit(timeout, script, waits)
    && left == Remaining(timeout, script, |waits|)
    && used == Progress(want, avail, script, |waits|)
    && WentOn(want, avail, script, |waits|)
  }

  /** The state of a call that has ended. */
  ghost predicate Ended(res: Result, want: nat, avail: nat, timeout: int, script: seq<Tick>, used: nat,
                        waits: seq<int>) {
    && PollsFit(timeout, script, waits)
    && used == Progress(want, avail, script, |waits|)
    && Explained(res, want, avail, timeout, script, |waits|)
    && (res == Done <==> used == want)
  }

  lemma TurnMeans(want: nat, avail: nat, script: seq<Tick>, k: nat, v: Turn)
    requires k < |script| && Progress(want, avail, script, k) < want
    requires var used := Progress(want, avail, script, k); IsVerdict(script[k], Min(want - used, avail - used), v)
    ensures v.Stop? <==> Breaks(want, avail, script, k) || script[k].polled.NothingReady?
    ensures Progress(want, avail, script, k + 1) == Progress(want, avail, script, k) + if v.Move? then v.n else 0
  {
  }

  lemma PollMade(timeout: int, script: seq<Tick>, waits: seq<int>)
    requires PollsFit(timeout, script, waits) && |waits| < |script|
    requires timeout > 0 ==> Remaining(timeout, script, |waits|) > 0
    ensures PollsFit(timeout, script, waits + [Remaining(timeout, script, |waits|)])
  {
  }

  /** The verdict v on turn k of a call that still wants bytes. */
  ghost predicate NextTurn(want: nat, avail: nat, script: seq<Tick>, k: nat, v: Turn) {
    && k < |script| && WentOn(want, avail, script, k)
    && var used := Progress(want, avail, script, k);
       used < want && IsVerdict(script[k], Min(want - used, avail - used), v)
  }

  lemma TurnStops(want: nat, avail: nat, timeout: int, script: seq<Tick>, k: nat, v: Turn)
    requires NextTurn(want, avail, script, k, v) && v.Stop?
    ensures v.res != Done && Explained(v.res, want, avail, timeout, script, k + 1)
  {
    TurnMeans(want, avail, script, k, v);
  }

  lemma TurnGoesOn(want: nat, avail: nat, script: seq<Tick>, k: nat, v: Turn)
    requires NextTurn(want, avail, script, k, v) && v.Move?
    ensures WentOn(want, avail, script, k + 1)
  {
    TurnMeans(want, avail, script, k, v);
  }

  lemma TurnEnds(want: nat, avail: nat, timeout: int, script: seq<Tick>, used: nat, left: int, waits: seq<int>, v: Turn)
    requires UnderWay(want, avail, timeout, script, used, left, waits) && (timeout > 0 ==> left > 0)
    requires NextTurn(want, avail, script, |waits|, v) && v.Stop?
    ensures Ended(v.res, want, avail, timeout, script, used, waits + [left])
  {
    PollMade(timeout, script, waits);
    TurnMeans(want, avail, script, |waits|, v);
    TurnStops(want, avail, timeout, script, |waits|, v);
  }

  lemma TurnMade(want: nat, avail: nat, timeout: int, script: seq<Tick>, used: nat, left: int, waits: seq<int>, v: Turn,
                 next: int)
    requires UnderWay(want, avail, timeout, script, used, left, waits) && (timeout > 0 ==> left > 0)
    requires NextTurn(want, avail, script, |waits|, v) && v.Move?
    requires next == Remaining(timeout, script, |waits| + 1)
    ensures UnderWay(want, avail, timeout, script, used + v.n, next, waits + [left])
  {
    PollMade(timeout, script, waits);
    TurnMeans(want, avail, script, |waits|, v);
    TurnGoesOn(want, avail, script, |waits|, v);
  }

  /** The reasons for which the loop can end between turns. */
  lemma EndsHere(res: Result, want: nat, avail: nat, timeout: int, script: seq<Tick>, used: nat, left: int,
                 waits: seq<int>)
    requires UnderWay(want, avail, timeout, script, used, left, waits)
    requires match res
      case Done => used == want
      case TimedOut => timeout > 0 && left <= 0 && used < want
      case Unfinished => |waits| == |script| && used < want
      case Failed => false
    ensures Ended(res, want, avail, timeout, script, used, waits)
  {
  }

  /** One whole turn of the loop, up to moving on in the buffer. */
  method LoopTurn(want: nat, avail: nat, timeout: int, script: seq<Tick>, used: nat, left: int, waits: seq<int>)
      returns (v: Turn, next: int, polls: seq<int>)
    requires UnderWay(want, avail, timeout, script, used, left, waits) && used < want
    ensures v.Stop? ==> Ended(v.res, want, avail, timeout, script, used, polls)
    ensures v.Move? ==>
      UnderWay(want, avail, timeout, script, used + v.n, next, polls) && |polls| == |waits| + 1 <= |script|
  {
    next, polls := left, waits;
    if timeout > 0 && left <= 0 {
      EndsHere(TimedOut, want, avail, timeout, script, used, left, waits);
      return Stop(TimedOut), next, polls;
    }
    if |waits| == |script| {
      EndsHere(Unfinished, want, avail, timeout, script, used, left, waits);
      return Stop(Unfinished), next, polls;
    }
    polls := waits + [left];
    v := TakeTurn(script[|waits|], Min(want - used, avail - used));
    if v.Stop? {
      TurnEnds(want, avail, timeout, script, used, left, waits, v);
    } else {
      next := ChargeTurn(timeout, script, |waits|, left);
      TurnMade(want, avail, timeout, script, used, left, waits, v, next);
    }
  }

  /** The buffer was was; its first bytes are now the first bytes of the stream. */
  ghost predicate Filled(buf: seq<Byte>, stream: seq<Byte>, used: nat, was: seq<Byte>) {
    used <= |stream| && used <= |was| && buf == stream[..used] + was[used..]
  }

  /**
   * io_op_timeout reading: stream is what the peer sends, script what the system does.
   * The result is Unfinished if the script ends before the call does.
   */
  method ReadTimeout(buf: array<Byte>, stream: seq<Byte>, timeout: int, script: seq<Tick>)
      returns (res: Result, used: nat, waits: seq<int>)
    requires -0x8000_0000 <= timeout < 0x8000_0000
    modifies buf
    ensures Filled(buf[..], stream, used, old(buf[..]))
    ensures Ended(res, buf.Length, |stream|, timeout, script, used, waits)
  {
    ghost var was := buf[..];
    var want, left := buf.Length, timeout;
    used, waits := 0, [];
    Starts(want, |stream|, timeout, script);
    NothingFilled(was, stream);
    while used < want
      invariant used <= want == |was| == buf.Length && Filled(buf[..], stream, used, was)
      invariant UnderWay(want, |stream|, timeout, script, used, left, waits)
      decreases |script| - |waits|
    {
      var v, next, polls := LoopTurn(want, |stream|, timeout, script, used, left, waits);
      waits, left := polls, next;
      if v.Stop? { return v.res, used, waits; }
      ProgressFits(want, |stream|, timeout, script, used + v.n, left, waits);
      Transfer(buf, used, stream, v.n, was);
      used := used + v.n;
    }
    EndsHere(Done, want, |stream|, timeout, script, used, left, waits);
    res := Done;
  }

  lemma NothingFilled(was: seq<Byte>, stream: seq<Byte>)
    ensures Filled(was, stream, 0, was)
  {
  }

  lemma Starts(want: nat, avail: nat, timeout: int, script: seq<Tick>)
    ensures UnderWay(want, avail, timeout, script, 0, timeout, [])
  {
  }

  lemma ProgressFits(want: nat, avail: nat, timeout: int, script: seq<Tick>, used: nat, left: int, waits: seq<int>)
    requires UnderWay(want, avail, timeout, script, used, left, waits)
    ensures used <= want && used <= avail
  {
  }

  /** One read: n bytes of the stream go where the previous ones ended. */
  method Transfer(buf: array<Byte>, at: nat, stream: seq<Byte>, n: nat, ghost was: seq<Byte>)
    requires at + n <= |was| && at + n <= |stream| && Filled(buf[..], stream, at, was)
    modifies buf
    ensures Filled(buf[..], stream, at + n, was)
  {
    for i := 0 to n
      invariant Filled(buf[..], stream, at + i, was)
    {
      buf[at + i] := stream[at + i];
    }
  }

  /** io_op_timeout writing: sink is what the peer has received. */
  method WriteTimeout(buf: seq<Byte>, timeout: int, script: seq<Tick>)
      returns (res: Result, sink: seq<Byte>, waits: seq<int>)
    requires -0x8000_0000 <= timeout < 0x8000_0000
    ensures sink <= buf
    ensures Ended(res, |buf|, |buf|, timeout, script, |sink|, waits)
  {
    var left, used: nat := timeout, 0;
    sink, waits := [], [];
    Starts(|buf|, |buf|, timeout, script);
    while used < |buf|
      invariant used <= |buf| && |sink| == used && sink == buf[..used]
      invariant UnderWay(|buf|, |buf|, timeout, script, used, left, waits)
      decreases |script| - |waits|
    {
      var v, next, polls := LoopTurn(|buf|, |buf|, timeout, script, used, left, waits);
      waits, left := polls, next;
      if v.Stop? { return v.res, sink, waits; }
      ProgressFits(|buf|, |buf|, timeout, script, used + v.n, left, waits);
      sink := sink + buf[used..used + v.n];
      used := used + v.n;
      assert sink == buf[..used];
    }
    EndsHere(Done, |buf|, |buf|, timeout, script, used, left, waits);
    res := Done;
  }

  // ---------- what the results mean ----------

  /** The bytes the system moved in a turn. */
  function Count(t: Tick): nat {
    if t.polled == Ready(false) && t.moved.Bytes? then t.moved.count else 0
  }

  function Sum(script: seq<Tick>, k: nat): nat
    requires k <= |script|
  {
    if k == 0 then 0 else Sum(script, k - 1) + Count(script[k - 1])
  }

  /** While the system moves no more than is wanted and there, every byte it moves is counted, and no other. */
  lemma {:induction false} CountsAll(want: nat, avail: nat, script: seq<Tick>, k: nat)
    requires k <= |script| && Sum(script, k) <= want && Sum(script, k) <= avail
    ensures Progress(want, avail, script, k) == Sum(script, k)
  {
    if k > 0 { CountsAll(want, avail, script, k - 1); }
  }

  /** The system reports an error that is not temporary, or the end of the stream. */
  predicate Fatal(t: Tick) {
    match t.polled
    case PollError => true
    case NothingReady => false
    case Ready(broken) => broken || t.moved == IoError(false) || t.moved == Bytes(0)
  }

  /**
   * When the system never moves more than is wanted and there: the bytes counted are the sum of what it
   * moved, the call succeeds if and only if that is the whole buffer, no turn but the last met an error
   * or waited in vain, and the call fails if and only if the last one met an error.
   */
  lemma ResultMeans(res: Result, want: nat, avail: nat, timeout: int, script: seq<Tick>, used: nat, waits: seq<int>)
    requires Ended(res, want, avail, timeout, script, used, waits)
    requires Sum(script, |waits|) <= want && Sum(script, |waits|) <= avail
    ensures used == Sum(script, |waits|)
    ensures res == Done <==> Sum(script, |waits|) == want
    ensures forall j :: 0 <= j < |waits| - 1 ==> !Fatal(script[j]) && !script[j].polled.NothingReady?
    ensures res == Failed <==> |waits| > 0 && Fatal(script[|waits| - 1])
    ensures res == TimedOut ==>
      || (|waits| > 0 && script[|waits| - 1].polled.NothingReady?)
      || (timeout > 0 && Remaining(timeout, script, |waits|) <= 0)
  {
    CountsAll(want, avail, script, |waits|);
    forall j | 0 <= j < |waits| ensures Fatal(script[j]) <==> Breaks(want, avail, script, j) {
      SumGrows(script, j + 1, |waits|);
      BreaksIfFatal(want, avail, script, j);
    }
  }

  lemma {:induction false} SumGrows(script: seq<Tick>, i: nat, k: nat)
    requires i <= k <= |script|
    ensures Sum(script, i) <= Sum(script, k)
    decreases k
  {
    if i < k { SumGrows(script, i, k - 1); }
  }

  lemma BreaksIfFatal(want: nat, avail: nat, script: seq<Tick>, k: nat)
    requires k < |script| && Sum(script, k + 1) <= want && Sum(script, k + 1) <= avail
    ensures Fatal(script[k]) <==> Breaks(want, avail, script, k)
  {
    CountsAll(want, avail, script, k);
    CountsAll(want, avail, script, k + 1);
  }

  /** A call without a timeout that the system serves piece by piece, errors being temporary, succeeds. */
  lemma ServedIsDone(res: Result, want: nat, avail: nat, timeout: int, script: seq<Tick>, used: nat, waits: seq<int>)
    requires Ended(res, want, avail, timeout, script, used, waits) && timeout <= 0
    requires Sum(script, |script|) == want <= avail
    requires forall j :: 0 <= j < |script| ==> !Fatal(script[j]) && !script[j].polled.NothingReady?
    ensures res == Done && used == want
  {
    SumGrows(script, |waits|, |script|);
    ResultMeans(res, want, avail, timeout, script, used, waits);
  }
}
