/**
 * The engine facade (`useMeditationAudio`): the state the hook keeps in React
 * state and refs, held here as plain fields, and the operations it offers.
 * Every `setTimeout` and `await` splits an operation in two: the part before
 * it, and a `Complete...` method for the part after it. The audio clock
 * reading `now` is passed in.
 */
module Engine {
  import opened Params
  import opened Automation
  import opened Graph
  import opened Wrappers
  import opened Synth
  import opened Presets
  import Timer

  /** The hook's initial `params`. */
  const INITIAL_PARAMS: SynthParams :=
    SynthParams(0.3, 220.0, 220.0, Sine, Triangle, 0.7, 0.3, 0.0, 0.0, 800.0, 1.0, 80.0, 1.0, 0.05, 0.2,
      ModTargets(ModTarget(true, false), ModTarget(false, false), ModTarget(false, false), ModTarget(false, false), ModTarget(false, false)),
      0.3, 0.1,
      ModTargets(ModTarget(false, false), ModTarget(true, false), ModTarget(false, false), ModTarget(false, false), ModTarget(false, false)))

  /** The `state` of the audio context. */
  datatype ContextState = Running | Suspended | Closed

  /** `smoothTransition(param, x, duration)`: cancel from now, then a linear ramp to `x` ending `duration` later. */
  function SmoothCommands(r: ParamRef, x: real, now: real, duration: real): seq<Command> {
    [(r, CancelFrom(now)), (r, Add(LinearRamp(x, now + duration)))]
  }

  /** The fade-out of `stopTone`: cancel from now, then an exponential ramp to 0.001 over 3 seconds. */
  function FadeOutCommands(now: real): seq<Command> {
    [(Gain(MasterGain), CancelFrom(now)), (Gain(MasterGain), Add(ExponentialRamp(0.001, now + 3.0)))]
  }

  /** Where the hook sends `updateParam(name, v)` on a playing synth. */
  datatype Route = MasterRamp(x: real) | Swap(k: OscNum, wave: Wave) | Forward(name: ParamName, v: Value)

  function RouteOf(name: ParamName, v: Value): Route
    requires Fits(name, v)
  {
    match name
    case Volume => MasterRamp(v.x)
    case Wave1Type => Swap(O1, v.wave)
    case Wave2Type => Swap(O2, v.wave)
    case _ => Forward(name, v)
  }

  /** The state after the hook sends `(name, v)` to a playing synth. */
  function Routed(st: SynthState, name: ParamName, v: Value, now: real, curve: real -> real): (r: SynthState)
    requires StateOk(st) && Fits(name, v)
    ensures StateOk(r) && r.params == st.params
  {
    match RouteOf(name, v)
    case MasterRamp(x) => st.(commands := st.commands + SmoothCommands(Gain(MasterGain), x, now, 0.1))
    case Swap(k, w) => Swapped(st, k, w)
    case Forward(n, u) => st.(commands := st.commands + Scheduled(n, u, st.params, curve, now))
  }

  /** Every entry sent in turn, as `loadPreset` does. */
  function RoutedAll(st: SynthState, es: seq<(ParamName, Value)>, now: real, curve: real -> real): (r: SynthState)
    requires StateOk(st) && forall i :: 0 <= i < |es| ==> Fits(es[i].0, es[i].1)
    ensures StateOk(r) && r.params == st.params
    decreases |es|
  {
    if es == [] then st
    else
      var last := es[|es| - 1];
      Routed(RoutedAll(st, es[..|es| - 1], now, curve), last.0, last.1, now, curve)
  }

  /**
   * A synth just launched from `p`: its sources started, the original two
   * oscillators in the public slots, and the master gain fading in to
   * `p.volume` over 1 second. Its graph and initial values are the
   * constructor's and `Start`'s.
   */
  ghost predicate Launched(s: MeditationSynth, p: SynthParams, now: real)
    reads s
  {
    && s.params == p && s.log == START_OPS && s.osc1 == 0 && s.osc2 == 1 && s.nextOsc == 2
    && s.commands == SmoothCommands(Gain(MasterGain), p.volume, now, 1.0)
  }

  /** The remaining time at which a timer update starts the 10-second fade to 0.1. */
  predicate AutoFadeDue(s: Timer.TimerState, playing: bool) {
    s.remainingTime <= 30000 && s.remainingTime > 29000 && playing
  }

  /**
   * The timer after `stop()` or `pause()` from the given state, interval,
   * interval table and notices: inactive, its interval cleared, one update sent.
   */
  ghost predicate TimerHalted(t: Timer.SessionTimer, s: Timer.TimerState, interval: Option<Timer.Handle>,
                              live: set<Timer.Handle>, notices: seq<Timer.Notice>)
    reads t
  {
    && t.state == s.(isActive := false) && t.interval == None
    && t.live == (if interval.Some? then live - {interval.value} else live)
    && t.notices == notices + [Timer.Update(t.state)]
  }

  class MeditationAudio {
    var isPlaying: bool
    var isTransitioning: bool
    var currentPresetId: string
    var params: SynthParams
    var timerState: Timer.TimerState
    /** `audioContextRef.current`, by its state. */
    var context: Option<ContextState>
    /** `synthRef.current`. */
    var synth: MeditationSynth?
    /** `startTone` is waiting for `audioContext.resume()`. */
    var resumePending: bool
    /** The 100 ms timeout of `startTone` is pending. */
    var fadeInPending: bool
    /** The synth the 3-second timeout of `stopTone` will stop, while it is pending. */
    var stopPending: MeditationSynth?
    /** The preset id the pending 100 ms timeout of `updateParam` saw, while it is pending. */
    var markPending: Option<string>
    /** `sessionTimerRef.current`. */
    const timer: Timer.SessionTimer
    /** The dB-to-linear curve every synth is created with. */
    const noiseCurve: real -> real

    /**
     * The timer and any synth are well formed, and at most one continuation of
     * `startTone` or `stopTone` is pending, always inside a transition. The synth
     * a pending stop captured is still the current one.
     */
    ghost predicate Valid()
      reads this, synth, timer
    {
      && timer.Valid()
      && (synth != null ==> synth.Valid() && context.Some? && synth.noiseCurve == noiseCurve)
      && (resumePending ==> isTransitioning && context.Some? && !fadeInPending && stopPending == null)
      && (fadeInPending ==> isTransitioning && stopPending == null)
      && (stopPending != null ==> isTransitioning && stopPending == synth)
    }

    /** The hook's initial state, once the timer effect has run. */
    constructor (curve: real -> real)
      ensures Valid()
      ensures !isPlaying && !isTransitioning && currentPresetId == "custom" && params == INITIAL_PARAMS
      ensures timerState == Timer.IDLE && context == None && synth == null
      ensures !resumePending && !fadeInPending && stopPending == null && markPending == None
      ensures fresh(timer) && timer.state == Timer.IDLE && timer.interval == None && noiseCurve == curve
    {
      isPlaying := false;
      isTransitioning := false;
      currentPresetId := "custom";
      params := INITIAL_PARAMS;
      timerState := Timer.IDLE;
      context := None;
      synth := null;
      resumePending := false;
      fadeInPending := false;
      stopPending := null;
      markPending := None;
      timer := new Timer.SessionTimer();
      noiseCurve := curve;
    }

    /** `smoothTransition(s.masterGain.gain, x, duration)`; it does nothing without an audio context. */
    method SmoothTransition(s: MeditationSynth, r: ParamRef, x: real, now: real, duration: real)
      requires s.Valid()
      modifies s`commands
      ensures s.Valid()
      ensures context.Some? ==> s.commands == old(s.commands) + SmoothCommands(r, x, now, duration)
      ensures context.None? ==> s.commands == old(s.commands)
    {
      if context.None? {
        return;
      }
      s.CancelScheduled(r, now);
      s.LinearRampTo(r, x, now + duration);
    }

    /**
     * `startTone()`, up to the `await`: nothing while a transition runs;
     * otherwise the transition starts and the audio context is created, in
     * state `initial`, if missing or closed. A suspended context is resumed
     * first. A synth already playing is neither stopped nor disconnected.
     */
    method StartTone(now: real, initial: ContextState)
      requires Valid() && initial != Closed
      modifies this`isTransitioning, this`context, this`resumePending, this`synth, this`isPlaying, this`fadeInPending
      ensures Valid()
      ensures old(isTransitioning) ==> unchanged(this)
      ensures !old(isTransitioning) ==> isTransitioning && context.Some?
      ensures !old(isTransitioning) && old(context).Some? && old(context).value != Closed ==> context == old(context)
      ensures !old(isTransitioning) && context == Some(Suspended) ==>
        resumePending && synth == old(synth) && isPlaying == old(isPlaying)
      ensures !old(isTransitioning) && context == Some(Running) ==>
        && synth != null && fresh(synth) && isPlaying && fadeInPending
        && Launched(synth, params, now)
      ensures old(synth) != null ==> old(synth).log == old(synth.log)
    {
      if isTransitioning {
        return;
      }
      isTransitioning := true;
      if context.None? || context.value == Closed {
        context := Some(initial);
      }
      if context.value == Suspended {
        resumePending := true;
        return;
      }
      Launch(now);
    }

    /**
     * The rest of `startTone()`, once `audioContext.resume()` settles. A
     * rejection escapes the function and leaves the transition running.
     */
    method CompleteResume(resolved: bool, now: real)
      requires Valid() && resumePending
      modifies this`resumePending, this`context, this`synth, this`isPlaying, this`fadeInPending
      ensures Valid()
      ensures !resumePending
      ensures !resolved ==>
        && isTransitioning && synth == old(synth) && isPlaying == old(isPlaying)
        && context == old(context) && !fadeInPending
      ensures resolved ==>
        && context == Some(Running) && synth != null && fresh(synth) && isPlaying && fadeInPending
        && Launched(synth, params, now)
      ensures old(synth) != null ==> old(synth).log == old(synth.log)
    {
      resumePending := false;
      if !resolved {
        return;
      }
      context := Some(Running);
      Launch(now);
    }

    /** The `try` block of `startTone`: the synth is created and the transition waits 100 ms. */
    method Launch(now: real)
      requires Valid() && context.Some? && isTransitioning && !resumePending && stopPending == null
      modifies this`synth, this`isPlaying, this`fadeInPending
      ensures Valid()
      ensures synth != null && fresh(synth) && isPlaying && fadeInPending
      ensures Launched(synth, params, now)
    {
      var s := CreateSynth(now);
      synth, isPlaying, fadeInPending := s, true, true;
    }

    /** `createMeditationSynth(audioContext, params)`, then the fade-in of the master gain. */
    method CreateSynth(now: real) returns (s: MeditationSynth)
      requires context.Some?
      ensures fresh(s) && s.Valid() && s.noiseCurve == noiseCurve
      ensures Launched(s, params, now)
    {
      s := new MeditationSynth(params, noiseCurve);
      s.Start();
      SmoothTransition(s, Gain(MasterGain), params.volume, now, 1.0);
    }

    /** The 100 ms timeout of `startTone`: the transition ends. */
    method CompleteFadeIn()
      requires Valid() && fadeInPending
      modifies this`isTransitioning, this`fadeInPending
      ensures Valid()
      ensures !isTransitioning && !fadeInPending
    {
      isTransitioning := false;
      fadeInPending := false;
    }

    /**
     * `stopTone()`, up to the timeout: nothing without a synth or during a
     * transition; otherwise the session timer stops and the master gain fades
     * out over 3 seconds.
     */
    method StopTone(now: real)
      requires Valid()
      modifies this`isTransitioning, this`stopPending, synth, timer
      ensures Valid()
      ensures old(synth) == null || old(isTransitioning) ==>
        && isTransitioning == old(isTransitioning) && stopPending == old(stopPending)
        && unchanged(timer) && (synth != null ==> unchanged(synth))
      ensures old(synth) != null && !old(isTransitioning) ==>
        && isTransitioning && stopPending == synth
        && StateOf(synth) == old(StateOf(synth)).(commands := old(synth.commands) + FadeOutCommands(now))
        && TimerHalted(timer, old(timer.state), old(timer.interval), old(timer.live), old(timer.notices))
    {
      if synth == null || isTransitioning {
        return;
      }
      isTransitioning := true;
      var s := synth;
      timer.Stop();
      s.CancelScheduled(Gain(MasterGain), now);
      s.ExponentialRampTo(Gain(MasterGain), 0.001, now + 3.0);
      stopPending := s;
    }

    /** The 3-second timeout of `stopTone`: the captured synth stops and is dropped; playback ends. */
    method CompleteStop()
      requires Valid() && stopPending != null
      modifies this`synth, this`isTransitioning, this`isPlaying, this`stopPending, stopPending`edges, stopPending`log
      ensures Valid()
      ensures synth == null && !isTransitioning && !isPlaying && stopPending == null
      ensures StateOf(old(stopPending)) == old(StateOf(stopPending)).(
        edges := StoppedEdges(old(stopPending.edges)), log := old(stopPending.log) + STOP_OPS)
    {
      var s := stopPending;
      s.Stop();
      synth, isTransitioning, isPlaying, stopPending := null, false, false, null;
    }

    /** One entry sent to the playing synth, routed by name. */
    method RouteEntry(name: ParamName, v: Value, now: real)
      requires Valid() && synth != null && Fits(name, v)
      modifies synth
      ensures Valid()
      ensures StateOk(old(StateOf(synth)))
      ensures StateOf(synth) == Routed(old(StateOf(synth)), name, v, now, noiseCurve)
    {
      ghost var st := StateOf(synth);
      match RouteOf(name, v)
      case MasterRamp(x) =>
        SmoothTransition(synth, Gain(MasterGain), x, now, 0.1);
        assert StateOf(synth) == st.(commands := st.commands + SmoothCommands(Gain(MasterGain), x, now, 0.1));
      case Swap(k, w) =>
        synth.ReplaceOscillator(k, w);
        assert StateOf(synth) == Swapped(st, k, w);
      case Forward(n, u) =>
        synth.UpdateParam(n, u, now);
        assert StateOf(synth) == st.(commands := st.commands + Scheduled(n, u, st.params, noiseCurve, now));
    }

    /**
     * `updateParam(name, v)`: the field is updated, the 100 ms timeout that marks
     * the preset as custom is (re)armed with the preset id seen now, and when a
     * synth is playing the value is routed to it.
     */
    method UpdateParam(name: ParamName, v: Value, now: real)
      requires Valid() && Fits(name, v)
      modifies this`params, this`markPending, synth
      ensures Valid()
      ensures params == Set(old(params), name, v) && markPending == Some(currentPresetId)
      ensures synth != null && isPlaying ==>
        && StateOk(old(StateOf(synth)))
        && StateOf(synth) == Routed(old(StateOf(synth)), name, v, now, noiseCurve)
      ensures synth != null && !isPlaying ==> StateOf(synth) == old(StateOf(synth))
    {
      params := Set(params, name, v);
      markPending := Some(currentPresetId);
      if synth != null && isPlaying {
        RouteEntry(name, v, now);
      }
    }

    /**
     * The debounced timeout of `updateParam`: it compares the preset id its
     * closure captured, not the current one, so a preset loaded in the meantime
     * stays current when the captured id was already "custom".
     */
    method CompleteMarkCustom()
      requires Valid() && markPending.Some?
      modifies this`currentPresetId, this`markPending
      ensures Valid() && markPending == None
      ensures old(markPending.value) != "custom" ==> currentPresetId == "custom"
      ensures old(markPending.value) == "custom" ==> currentPresetId == old(currentPresetId)
    {
      if markPending.value != "custom" {
        currentPresetId := "custom";
      }
      markPending := None;
    }

    /** `loadPreset(preset)`: the preset becomes current; a playing synth receives every entry in order. */
    method LoadPreset(preset: Preset, now: real)
      requires Valid()
      modifies this`currentPresetId, this`params, synth
      ensures Valid()
      ensures currentPresetId == preset.id && params == preset.params
      ensures synth != null && isPlaying ==>
        && StateOk(old(StateOf(synth)))
        && StateOf(synth) == RoutedAll(old(StateOf(synth)), Entries(preset.params), now, noiseCurve)
      ensures synth != null && !isPlaying ==> StateOf(synth) == old(StateOf(synth))
    {
      currentPresetId := preset.id;
      params := preset.params;
      if synth != null && isPlaying {
        RouteEntries(Entries(preset.params), now);
      }
    }

    /** The `forEach` of `loadPreset`: each entry is routed in turn. */
    method RouteEntries(es: seq<(ParamName, Value)>, now: real)
      requires Valid() && synth != null
      requires forall i :: 0 <= i < |es| ==> Fits(es[i].0, es[i].1)
      modifies synth
      ensures Valid()
      ensures StateOk(old(StateOf(synth)))
      ensures StateOf(synth) == RoutedAll(old(StateOf(synth)), es, now, noiseCurve)
    {
      ghost var st0 := StateOf(synth);
      var i := 0;
      while i < |es|
        invariant 0 <= i <= |es|
        invariant Valid() && StateOk(st0)
        invariant StateOf(synth) == RoutedAll(st0, es[..i], now, noiseCurve)
      {
        RouteEntry(es[i].0, es[i].1, now);
        assert es[..i + 1][..i] == es[..i];
        i := i + 1;
      }
      assert es[..|es|] == es;
    }

    /** `updateLFOTargets(l, ts)`: the flags are stored, the preset becomes custom, a playing synth is rewired. */
    method UpdateLFOTargets(l: LfoNum, ts: ModTargets, now: real)
      requires Valid()
      modifies this`params, this`currentPresetId, synth
      ensures Valid()
      ensures params == old(params).WithTargets(l, ts) && currentPresetId == "custom"
      ensures synth != null && isPlaying ==>
        StateOf(synth) == old(StateOf(synth)).(
          params := old(synth.params).WithTargets(l, ts),
          edges := RewiredEdges(old(synth.edges), l, ts),
          commands := old(synth.commands) + TapCommands(l, ts, old(synth.params).Depth(l), now))
      ensures synth != null && !isPlaying ==> StateOf(synth) == old(StateOf(synth))
    {
      params := params.WithTargets(l, ts);
      if currentPresetId != "custom" {
        currentPresetId := "custom";
      }
      if synth != null && isPlaying {
        synth.UpdateLFOTargets(l, ts, now);
      }
    }

    /** `startSession(m)`: only a positive duration starts the timer. */
    method StartSession(durationMinutes: int, now: int)
      requires Valid()
      modifies timer
      ensures Valid()
      ensures durationMinutes <= 0 ==> unchanged(timer)
      ensures durationMinutes > 0 ==>
        && timer.state == Timer.TimerState(true, Some(now), durationMinutes * 60000, durationMinutes * 60000, Timer.Ratio(0.0))
        && timer.notices == old(timer.notices) + [Timer.Update(timer.state)]
        && timer.interval.Some? && timer.interval.value !in old(timer.live)
        && timer.live == old(timer.live) + {timer.interval.value}
    {
      if durationMinutes > 0 {
        timer.Start(durationMinutes, now);
      }
    }

    /** `stopSession()`. */
    method StopSession()
      requires Valid()
      modifies timer
      ensures Valid()
      ensures TimerHalted(timer, old(timer.state), old(timer.interval), old(timer.live), old(timer.notices))
    {
      timer.Stop();
    }

    /** `pauseSession()`. */
    method PauseSession()
      requires Valid()
      modifies timer
      ensures Valid()
      ensures TimerHalted(timer, old(timer.state), old(timer.interval), old(timer.live), old(timer.notices))
    {
      timer.Pause();
    }

    /** `resumeSession()`: only with time remaining; a new interval joins any running one. */
    method ResumeSession(now: int)
      requires Valid()
      modifies timer
      ensures Valid()
      ensures old(timer.state).remainingTime <= 0 ==>
        && timer.state == old(timer.state) && timer.interval == old(timer.interval)
        && timer.live == old(timer.live) && timer.notices == old(timer.notices)
      ensures old(timer.state).remainingTime > 0 ==>
        && timer.state == old(timer.state).(isActive := true, startTime := Some(now - (old(timer.state).duration - old(timer.state).remainingTime)))
        && timer.interval.Some? && timer.interval.value !in old(timer.live)
        && timer.live == old(timer.live) + {timer.interval.value}
        && timer.notices == old(timer.notices) + [Timer.Update(timer.state)]
    {
      timer.Resume(now);
    }

    /** `handleTimerUpdate(s)`: the state is shown; inside the 30-second window a playing synth fades to 0.1 over 10 s. */
    method HandleTimerUpdate(s: Timer.TimerState, now: real)
      requires Valid()
      modifies this`timerState, synth
      ensures Valid()
      ensures timerState == s
      ensures synth != null && AutoFadeDue(s, isPlaying) && context.Some? ==>
        StateOf(synth) == old(StateOf(synth)).(commands := old(synth.commands) + SmoothCommands(Gain(MasterGain), 0.1, now, 10.0))
      ensures synth != null && (!AutoFadeDue(s, isPlaying) || context.None?) ==> StateOf(synth) == old(StateOf(synth))
    {
      timerState := s;
      if s.remainingTime <= 30000 && s.remainingTime > 29000 && isPlaying {
        if synth != null {
          SmoothTransition(synth, Gain(MasterGain), 0.1, now, 10.0);
        }
      }
    }

    /** `handleTimerComplete()`: the session's end stops the tone. */
    method HandleTimerComplete(now: real)
      requires Valid()
      modifies this`isTransitioning, this`stopPending, synth, timer
      ensures Valid()
      ensures old(synth) == null || old(isTransitioning) ==>
        && isTransitioning == old(isTransitioning) && stopPending == old(stopPending)
        && unchanged(timer) && (synth != null ==> unchanged(synth))
      ensures old(synth) != null && !old(isTransitioning) ==>
        && isTransitioning && stopPending == synth
        && StateOf(synth) == old(StateOf(synth)).(commands := old(synth.commands) + FadeOutCommands(now))
        && TimerHalted(timer, old(timer.state), old(timer.interval), old(timer.live), old(timer.notices))
    {
      StopTone(now);
    }
  }
}
