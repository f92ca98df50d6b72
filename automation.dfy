/**
 * The automation timeline of one audio parameter (an `AudioParam` of the
 * abstract audio backend): the value last assigned directly, and the list of
 * scheduled changes in the order they were requested. Ramp curves and the
 * passing of time are not part of the model; only what is scheduled is.
 */
module Automation {

  /** One scheduled change, with the time it is anchored at. */
  datatype Event =
    | SetTarget(target: real, startTime: real, timeConstant: real)
    | LinearRamp(target: real, endTime: real)
    | ExponentialRamp(target: real, endTime: real)
  {
    function Time(): real {
      match this
      case SetTarget(_, t, _) => t
      case LinearRamp(_, t) => t
      case ExponentialRamp(_, t) => t
    }
  }

  datatype AudioParam = AudioParam(value: real, events: seq<Event>)

  /** A parameter just created, or just assigned through `.value = v`, with nothing scheduled. */
  function Fixed(v: real): AudioParam {
    AudioParam(v, [])
  }

  /** The value the parameter is heading for: the last scheduled change's target, else its value. */
  function Target(p: AudioParam): real {
    if p.events == [] then p.value else p.events[|p.events| - 1].target
  }

  /** `setTargetAtTime(v, t, tc)`. */
  function SetTargetAtTime(p: AudioParam, v: real, t: real, tc: real): (r: AudioParam)
    ensures Target(r) == v && r.value == p.value
    ensures r.events == p.events + [SetTarget(v, t, tc)]
  {
    p.(events := p.events + [SetTarget(v, t, tc)])
  }

  /** `linearRampToValueAtTime(v, t)`. */
  function LinearRampToValueAtTime(p: AudioParam, v: real, t: real): (r: AudioParam)
    ensures Target(r) == v && r.value == p.value
    ensures r.events == p.events + [LinearRamp(v, t)]
  {
    p.(events := p.events + [LinearRamp(v, t)])
  }

  /** `exponentialRampToValueAtTime(v, t)`; the backend refuses a target of 0. */
  function ExponentialRampToValueAtTime(p: AudioParam, v: real, t: real): (r: AudioParam)
    requires v != 0.0
    ensures Target(r) == v && r.value == p.value
    ensures r.events == p.events + [ExponentialRamp(v, t)]
  {
    p.(events := p.events + [ExponentialRamp(v, t)])
  }

  /** The events of `es` anchored strictly before `t`, in their order. */
  function Before(es: seq<Event>, t: real): (r: seq<Event>)
    ensures |r| <= |es|
    decreases |es|
  {
    if es == [] then []
    else Before(es[..|es| - 1], t) + (if es[|es| - 1].Time() < t then [es[|es| - 1]] else [])
  }

  /** `Before` keeps exactly the events anchored before `t`. */
  lemma {:induction false} BeforeMembers(es: seq<Event>, t: real)
    ensures forall e :: e in Before(es, t) <==> e in es && e.Time() < t
    decreases |es|
  {
    if es != [] {
      var pre := es[..|es| - 1];
      BeforeMembers(pre, t);
      assert es == pre + [es[|es| - 1]];
    }
  }

  /** `cancelScheduledValues(t)`: every change scheduled at or after `t` is dropped. */
  function CancelScheduledValues(p: AudioParam, t: real): (r: AudioParam)
    ensures r.value == p.value
    ensures forall e :: e in r.events <==> e in p.events && e.Time() < t
  {
    BeforeMembers(p.events, t);
    p.(events := Before(p.events, t))
  }

  /** A scheduling call on a parameter: a change added to its timeline, or a cancel from a time on. */
  datatype Call = Add(e: Event) | CancelFrom(t: real)

  /** The parameter after one call. */
  function Perform(p: AudioParam, c: Call): (r: AudioParam)
    ensures c.Add? ==> r.events == p.events + [c.e] && Target(r) == c.e.target
    ensures c.CancelFrom? ==> r == CancelScheduledValues(p, c.t)
    ensures r.value == p.value
  {
    match c
    case Add(e) => p.(events := p.events + [e])
    case CancelFrom(t) => CancelScheduledValues(p, t)
  }

  /** The parameter after the calls, made in order. */
  function Replay(p: AudioParam, cs: seq<Call>): AudioParam
    decreases |cs|
  {
    if cs == [] then p else Perform(Replay(p, cs[..|cs| - 1]), cs[|cs| - 1])
  }

  /** Replaying two runs of calls is replaying the first, then the second. */
  lemma {:induction false} ReplayAppend(p: AudioParam, a: seq<Call>, b: seq<Call>)
    ensures Replay(p, a + b) == Replay(Replay(p, a), b)
    decreases |b|
  {
    if b == [] {
      assert a + b == a;
    } else {
      assert (a + b)[..|a + b| - 1] == a + b[..|b| - 1];
      assert (a + b)[|a + b| - 1] == b[|b| - 1];
      ReplayAppend(p, a, b[..|b| - 1]);
    }
  }

  /** Cancelling is idempotent, and a change scheduled at or after `t` does not survive a cancel at `t`. */
  lemma {:induction false} BeforeAppendLate(es: seq<Event>, late: seq<Event>, t: real)
    requires forall i :: 0 <= i < |late| ==> late[i].Time() >= t
    ensures Before(Before(es, t) + late, t) == Before(es, t)
    decreases |late|
  {
    var b := Before(es, t);
    if late == [] {
      BeforeIdempotent(es, t);
      assert b + late == b;
    } else {
      var s := b + late;
      var init := late[..|late| - 1];
      assert s[..|s| - 1] == b + init;
      assert s[|s| - 1] == late[|late| - 1];
      BeforeAppendLate(es, init, t);
      calc {
        Before(s, t);
        Before(s[..|s| - 1], t) + [];
        Before(b + init, t);
        b;
      }
    }
  }

  lemma {:induction false} BeforeIdempotent(es: seq<Event>, t: real)
    ensures Before(Before(es, t), t) == Before(es, t)
    decreases |es|
  {
    if es != [] {
      var pre := es[..|es| - 1];
      var last := es[|es| - 1];
      BeforeIdempotent(pre, t);
      if last.Time() < t {
        var b := Before(pre, t) + [last];
        assert b[..|b| - 1] == Before(pre, t);
      } else {
        assert Before(es, t) == Before(pre, t) + [];
        assert Before(pre, t) + [] == Before(pre, t);
      }
    }
  }

  /** Cancel-then-schedule: whatever was pending at or after `t`, the ramp just scheduled is the target. */
  lemma CancelThenRamp(p: AudioParam, v: real, t: real, end: real)
    ensures var q := LinearRampToValueAtTime(CancelScheduledValues(p, t), v, end);
      Target(q) == v && q.events == Before(p.events, t) + [LinearRamp(v, end)]
      && forall e :: e in q.events && e != LinearRamp(v, end) ==> e.Time() < t
  {
  }
}
