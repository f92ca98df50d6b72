/**
 * The session timer: a countdown over wall-clock milliseconds, driven by a
 * one-second interval. The clock reading `now` is passed in; the window's
 * interval table is modelled as the set of live handles plus the counter that
 * hands out new ones, and the `onUpdate`/`onComplete` callbacks as a log of
 * notices.
 */
module Timer {
  import opened Wrappers

  /**
   * `elapsed / duration` capped at 1, as JavaScript computes it. A zero
   * duration gives `Infinity` (capped to 1), `-Infinity` or `NaN`.
   */
  datatype Progress = Ratio(r: real) | NegInfinity | NotANumber

  datatype TimerState = TimerState(
    isActive: bool,
    startTime: Option<int>,
    duration: int,
    remainingTime: int,
    progress: Progress)

  /** A `setInterval` handle; browsers never hand out 0. */
  type Handle = h: int | h > 0 witness 1

  /** A call of one of the two callbacks, with the state it was given. */
  datatype Notice = Update(state: TimerState) | Complete

  function Max(a: int, b: int): int { if a >= b then a else b }

  function Min(a: real, b: real): real { if a <= b then a else b }

  /** `Math.min(1, elapsed / duration)`. */
  function ProgressOf(elapsed: int, duration: int): (r: Progress)
    ensures duration > 0 && elapsed >= 0 ==> r.Ratio? && 0.0 <= r.r <= 1.0
    ensures duration != 0 ==> r.Ratio? && r.r <= 1.0
  {
    if duration == 0 then
      if elapsed > 0 then Ratio(1.0) else if elapsed < 0 then NegInfinity else NotANumber
    else Ratio(Min(1.0, elapsed as real / duration as real))
  }

  /** `!this.state.startTime` fails for `null` and for 0. */
  predicate Truthy(t: Option<int>) {
    t.Some? && t.value != 0
  }

  /** The timer acts on a tick: it is active and has a (truthy) start time. */
  predicate Running(s: TimerState) {
    s.isActive && Truthy(s.startTime)
  }

  /** The state `updateTimer` leaves at time `now`. */
  function Ticked(s: TimerState, now: int): TimerState {
    if !Running(s) then s
    else
      var elapsed := now - s.startTime.value;
      var remaining := Max(0, s.duration - elapsed);
      s.(remainingTime := remaining, progress := ProgressOf(elapsed, s.duration), isActive := remaining != 0)
  }

  /** The tick at `now` reaches 0 and calls `onComplete`. */
  predicate Completes(s: TimerState, now: int) {
    Running(s) && Ticked(s, now).remainingTime == 0
  }

  /** How many of the ticks at `nows`, in order, call `onComplete`. */
  function Completions(s: TimerState, nows: seq<int>): nat
    decreases |nows|
  {
    if nows == [] then 0
    else (if Completes(s, nows[0]) then 1 else 0) + Completions(Ticked(s, nows[0]), nows[1..])
  }

  /** The state a fresh timer holds. */
  const IDLE: TimerState := TimerState(false, None, 0, 0, Ratio(0.0))

  class SessionTimer {
    var state: TimerState
    /** `this.intervalId`. */
    var interval: Option<Handle>
    /** The intervals the window is running; a handle leaves only through `clearInterval`. */
    var live: set<Handle>
    /** The handle the window will hand out next. */
    var nextHandle: Handle
    /** The callback calls made, in order. */
    var notices: seq<Notice>

    ghost predicate Valid()
      reads this
    {
      && (interval.Some? ==> interval.value in live)
      && (forall h :: h in live ==> h < nextHandle)
    }

    constructor ()
      ensures Valid()
      ensures state == IDLE && interval == None && live == {} && notices == []
    {
      state := IDLE;
      interval := None;
      live := {};
      nextHandle := 1;
      notices := [];
    }

    /** `window.setInterval(() => this.updateTimer(), 1000)`. */
    method SetInterval() returns (h: Handle)
      requires Valid()
      modifies this`live, this`nextHandle
      ensures Valid()
      ensures h !in old(live) && live == old(live) + {h}
    {
      h := nextHandle;
      nextHandle := nextHandle + 1;
      live := live + {h};
    }

    /** `start(m)`: counts down `m` minutes from `now`; an interval already running is not cleared. */
    method Start(durationMinutes: int, now: int)
      requires Valid()
      modifies this`state, this`interval, this`live, this`nextHandle, this`notices
      ensures Valid()
      ensures var d := durationMinutes * 60 * 1000; state == TimerState(true, Some(now), d, d, Ratio(0.0))
      ensures notices == old(notices) + [Update(state)]
      ensures interval.Some? && interval.value !in old(live) && live == old(live) + {interval.value}
    {
      var durationMs := durationMinutes * 60 * 1000;
      state := TimerState(true, Some(now), durationMs, durationMs, Ratio(0.0));
      notices := notices + [Update(state)];
      var h := SetInterval();
      interval := Some(h);
    }

    /** `stop()`. */
    method Stop()
      requires Valid()
      modifies this`state, this`interval, this`live, this`notices
      ensures Valid()
      ensures state == old(state).(isActive := false)
      ensures interval == None
      ensures live == if old(interval).Some? then old(live) - {old(interval).value} else old(live)
      ensures notices == old(notices) + [Update(state)]
    {
      state := state.(isActive := false);
      ClearInterval();
      notices := notices + [Update(state)];
    }

    /** `pause()`: the same steps as `stop()`. */
    method Pause()
      requires Valid()
      modifies this`state, this`interval, this`live, this`notices
      ensures Valid()
      ensures state == old(state).(isActive := false)
      ensures interval == None
      ensures live == if old(interval).Some? then old(live) - {old(interval).value} else old(live)
      ensures notices == old(notices) + [Update(state)]
    {
      state := state.(isActive := false);
      ClearInterval();
      notices := notices + [Update(state)];
    }

    /**
     * `resume()` at `now`: only with time remaining, and then the start time is
     * moved back by the time already elapsed. A running interval is not cleared.
     */
    method Resume(now: int)
      requires Valid()
      modifies this`state, this`interval, this`live, this`nextHandle, this`notices
      ensures Valid()
      ensures old(state).remainingTime <= 0 ==>
        state == old(state) && interval == old(interval) && live == old(live) && notices == old(notices)
      ensures old(state).remainingTime > 0 ==>
        && state == old(state).(isActive := true, startTime := Some(now - (old(state).duration - old(state).remainingTime)))
        && interval.Some? && interval.value !in old(live) && live == old(live) + {interval.value}
        && notices == old(notices) + [Update(state)]
    {
      if state.remainingTime > 0 {
        state := state.(isActive := true, startTime := Some(now - (state.duration - state.remainingTime)));
        var h := SetInterval();
        interval := Some(h);
        notices := notices + [Update(state)];
      }
    }

    /** `updateTimer()` at `now`: one interval callback. */
    method Tick(now: int)
      requires Valid()
      modifies this`state, this`interval, this`live, this`notices
      ensures Valid()
      ensures state == Ticked(old(state), now)
      ensures !Running(old(state)) ==> interval == old(interval) && live == old(live) && notices == old(notices)
      ensures Running(old(state)) && !Completes(old(state), now) ==>
        interval == old(interval) && live == old(live) && notices == old(notices) + [Update(state)]
      ensures Completes(old(state), now) ==>
        && !state.isActive && interval == None
        && live == (if old(interval).Some? then old(live) - {old(interval).value} else old(live))
        && notices == old(notices) + [Complete, Update(state)]
    {
      if !state.isActive || !Truthy(state.startTime) {
        return;
      }
      var elapsed := now - state.startTime.value;
      var remaining := Max(0, state.duration - elapsed);
      var progress := ProgressOf(elapsed, state.duration);
      state := state.(remainingTime := remaining, progress := progress);
      if remaining == 0 {
        state := state.(isActive := false);
        ClearInterval();
        notices := notices + [Complete];
      }
      notices := notices + [Update(state)];
    }

    /** `clearInterval()`: the window stops the interval, if one is recorded. */
    method ClearInterval()
      requires Valid()
      modifies this`interval, this`live
      ensures Valid()
      ensures interval == None
      ensures live == if old(interval).Some? then old(live) - {old(interval).value} else old(live)
    {
      if interval.Some? {
        live := live - {interval.value};
        interval := None;
      }
    }

    /** `getState()`: a copy of the state. */
    method GetState() returns (s: TimerState)
      ensures s == state
    {
      s := state;
    }
  }

  /** A tick only lowers the remaining time to somewhere in [0, duration], when the clock has not gone back. */
  lemma TickBounds(s: TimerState, now: int)
    requires Running(s) && s.duration >= 0 && now >= s.startTime.value
    ensures 0 <= Ticked(s, now).remainingTime <= s.duration
    ensures Ticked(s, now).duration == s.duration && Ticked(s, now).startTime == s.startTime
    ensures s.duration > 0 ==> Ticked(s, now).progress.Ratio? && 0.0 <= Ticked(s, now).progress.r <= 1.0
  {
  }

  /** A tick while stopped, paused, or without a truthy start time changes nothing. */
  lemma IdleTickNoop(s: TimerState, now: int)
    requires !Running(s)
    ensures Ticked(s, now) == s && !Completes(s, now)
  {
  }

  /** A tick that completes leaves the timer stopped, so every later tick is a no-op. */
  lemma CompletionIsFinal(s: TimerState, now: int, later: int)
    requires Completes(s, now)
    ensures !Ticked(s, now).isActive && Ticked(s, now).remainingTime == 0
    ensures Ticked(Ticked(s, now), later) == Ticked(s, now)
  {
  }

  /** A timer that is not running never completes, however often it ticks. */
  lemma {:induction false} IdleNeverCompletes(s: TimerState, nows: seq<int>)
    requires !Running(s)
    ensures Completions(s, nows) == 0
    decreases |nows|
  {
    if nows != [] {
      IdleNeverCompletes(Ticked(s, nows[0]), nows[1..]);
    }
  }

  /** Between two starts or resumes, `onComplete` is called at most once. */
  lemma {:induction false} CompletesAtMostOnce(s: TimerState, nows: seq<int>)
    ensures Completions(s, nows) <= 1
    decreases |nows|
  {
    if nows != [] {
      var next := Ticked(s, nows[0]);
      if Completes(s, nows[0]) {
        IdleNeverCompletes(next, nows[1..]);
      } else {
        CompletesAtMostOnce(next, nows[1..]);
      }
    }
  }

  /** While running with a positive duration, progress never decreases from one tick to a later one. */
  lemma ProgressMonotone(s: TimerState, now1: int, now2: int)
    requires Running(s) && s.duration > 0 && now1 <= now2
    ensures var a := Ticked(s, now1); var b := Ticked(a, now2);
      a.progress.Ratio? && b.progress.Ratio? && a.progress.r <= b.progress.r
  {
    var a := Ticked(s, now1);
    if Running(a) {
      var d := s.duration as real;
      var e1 := (now1 - s.startTime.value) as real;
      var e2 := (now2 - s.startTime.value) as real;
      assert e1 / d <= e2 / d by {
        assert e2 / d - e1 / d == (e2 - e1) / d;
      }
    }
  }

  /** The start time `resume()` computes, which a tick at the same instant reads back. */
  function ResumedAt(s: TimerState, now: int): TimerState {
    s.(isActive := true, startTime := Some(now - (s.duration - s.remainingTime)))
  }

  /** A tick right after `resume()` leaves the remaining time where the pause left it. */
  lemma ResumeThenTick(s: TimerState, now: int)
    requires s.remainingTime > 0
    ensures Ticked(ResumedAt(s, now), now).remainingTime == s.remainingTime
    ensures Ticked(ResumedAt(s, now), now).isActive
  {
  }

  /** A session started when the clock reads 0 has a falsy start time: its ticks never count down. */
  lemma StartAtZeroNeverTicks(minutes: int, later: int)
    ensures var d := minutes * 60 * 1000; var s := TimerState(true, Some(0), d, d, Ratio(0.0));
      Ticked(s, later) == s
  {
  }

  // ---------------------------------------------------------------------
  // formatTime

  /** `Math.ceil(a / b)` for a positive divisor. */
  function CeilDiv(a: int, b: int): (q: int)
    requires b > 0
    ensures b * (q - 1) < a <= b * q
  {
    -((-a) / b)
  }

  /** JavaScript's `%`: the remainder takes the sign of the dividend. */
  function JsRem(a: int, b: int): (r: int)
    requires b > 0
    ensures a >= 0 ==> 0 <= r < b
    ensures a < 0 ==> -b < r <= 0
  {
    if a >= 0 then a % b else -((-a) % b)
  }

  function DigitChar(d: int): char
    requires 0 <= d < 10
  {
    ['0', '1', '2', '3', '4', '5', '6', '7', '8', '9'][d]
  }

  function CharDigit(c: char): Option<nat> {
    if '0' <= c <= '9' then Some((c as int - '0' as int) as nat) else None
  }

  /** The decimal digits of `n`, without leading zeros. */
  function NatToString(n: nat): (s: string)
    ensures |s| >= 1
    ensures n < 10 <==> |s| == 1
    decreases n
  {
    if n < 10 then [DigitChar(n)] else NatToString(n / 10) + [DigitChar(n % 10)]
  }

  /** `n.toString()` for an integer. */
  function IntToString(i: int): string {
    if i < 0 then "-" + NatToString(-i) else NatToString(i)
  }

  /** `s.padStart(2, '0')`. */
  function PadStart2(s: string): (r: string)
    ensures |r| == if |s| >= 2 then |s| else 2
  {
    if |s| >= 2 then s else seq(2 - |s|, _ => '0') + s
  }

  /** `formatTime(ms)`: `minutes:seconds`, the seconds padded to two characters. */
  function FormatTime(ms: int): string {
    var totalSeconds := CeilDiv(ms, 1000);
    var minutes := totalSeconds / 60;
    var seconds := JsRem(totalSeconds, 60);
    IntToString(minutes) + ":" + PadStart2(IntToString(seconds))
  }

  /** The number a non-empty run of decimal digits spells; leading zeros are allowed. */
  function ParseNat(s: string): Option<nat>
    decreases |s|
  {
    if s == [] then None
    else
      match CharDigit(s[|s| - 1])
      case None => None
      case Some(d) =>
        if |s| == 1 then Some(d)
        else match ParseNat(s[..|s| - 1])
          case None => None
          case Some(n) => Some(n * 10 + d)
  }

  /** Reads `m:ss` back as a number of seconds. */
  function ParseTime(s: string): Option<nat> {
    if |s| < 4 || s[|s| - 3] != ':' then None
    else match (ParseNat(s[..|s| - 3]), ParseNat(s[|s| - 2..]))
      case (Some(m), Some(sec)) => if sec < 60 then Some(m * 60 + sec) else None
      case _ => None
  }

  /** Decimal digits read back as the number they were written from. */
  lemma {:induction false} NatToStringRoundTrip(n: nat)
    ensures ParseNat(NatToString(n)) == Some(n)
    ensures forall i :: 0 <= i < |NatToString(n)| ==> NatToString(n)[i] != ':'
    decreases n
  {
    var s := NatToString(n);
    if n < 10 {
      DigitRoundTrip(n);
    } else {
      var q, d := n / 10, n % 10;
      NatToStringRoundTrip(q);
      DigitRoundTrip(d);
      assert s == NatToString(q) + [DigitChar(d)];
      assert s[..|s| - 1] == NatToString(q);
      assert s[|s| - 1] == DigitChar(d);
      assert q * 10 + d == n;
    }
  }

  /** A digit character reads back as its digit, and is not the separator. */
  lemma DigitRoundTrip(d: int)
    requires 0 <= d < 10
    ensures CharDigit(DigitChar(d)) == Some(d) && DigitChar(d) != ':'
  {
  }

  /**
   * For a non-negative time, the seconds field is below 60 and always two
   * characters, and minutes and seconds together are the milliseconds rounded
   * up to whole seconds.
   */
  lemma FormatTimeFields(ms: int)
    requires ms >= 0
    ensures var total := CeilDiv(ms, 1000);
      && total >= 0
      && FormatTime(ms) == NatToString(total / 60) + ":" + PadStart2(NatToString(total % 60))
      && total % 60 < 60 && |PadStart2(NatToString(total % 60))| == 2
      && (total / 60) * 60 + total % 60 == total
      && 1000 * (total - 1) < ms <= 1000 * total
  {
  }

  /** What `formatTime` prints reads back as the time in whole seconds, rounded up. */
  lemma FormatTimeRoundTrip(ms: int)
    requires ms >= 0
    ensures ParseTime(FormatTime(ms)) == Some(CeilDiv(ms, 1000))
  {
    var total := CeilDiv(ms, 1000);
    var m, sec := total / 60, total % 60;
    FormatTimeFields(ms);
    NatToStringRoundTrip(m);
    PadRoundTrip(sec);
    var pad := PadStart2(NatToString(sec));
    assert FormatTime(ms) == NatToString(m) + ":" + pad;
    assert m * 60 + sec == total;
    ParseFields(NatToString(m), pad, m, sec);
  }

  /** A seconds field, padded to two digits, reads back as the number. */
  lemma PadRoundTrip(n: nat)
    requires n < 60
    ensures |PadStart2(NatToString(n))| == 2 && ParseNat(PadStart2(NatToString(n))) == Some(n)
  {
    NatToStringRoundTrip(n);
    var pad := PadStart2(NatToString(n));
    if n < 10 {
      assert pad == ['0', DigitChar(n)];
      assert pad[..1] == ['0'];
    }
  }

  /** `m:ss` with both fields readable reads back as `m * 60 + ss` seconds. */
  lemma ParseFields(a: string, b: string, m: nat, sec: nat)
    requires |a| >= 1 && |b| == 2 && sec < 60
    requires ParseNat(a) == Some(m) && ParseNat(b) == Some(sec)
    ensures ParseTime(a + ":" + b) == Some(m * 60 + sec)
  {
    var out := a + ":" + b;
    assert out[..|out| - 3] == a;
    assert out[|out| - 2..] == b;
    assert out[|out| - 3] == ':';
  }
}
