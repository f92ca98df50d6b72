/**
 * What the facade's operations mean for a playing synth: the effect of a
 * smooth transition and of the fade-out on the parameters, which entries of
 * `loadPreset` reach the synth's graph, and when the auto-fade of a timed
 * session starts.
 */
module EngineProps {
  import opened Params
  import opened Automation
  import opened Graph
  import opened Synth
  import opened SynthProps
  import opened Wrappers
  import opened Presets
  import opened Engine
  import Timer

  /** The calls two commands on the same parameter make on it. */
  lemma CallsOnPair(r: ParamRef, a: Call, b: Call, other: ParamRef)
    ensures CallsOn([(r, a), (r, b)], r) == [a, b]
    ensures other != r ==> CallsOn([(r, a), (r, b)], other) == []
  {
    var cs := [(r, a), (r, b)];
    assert cs[..1] == [(r, a)];
    assert [(r, a)][..0] == [];
    assert CallsOn([(r, a)], r) == [a];
    assert CallsOn([(r, a)], other) == if other == r then [a] else [];
  }

  /** Replaying two calls is performing the first, then the second. */
  lemma ReplayPair(p: AudioParam, a: Call, b: Call)
    ensures Replay(p, [a, b]) == Perform(Perform(p, a), b)
  {
    var cs := [a, b];
    assert cs[..1] == [a];
    assert [a][..0] == [];
    assert Replay(p, [a]) == Perform(p, a);
  }

  /**
   * `smoothTransition(r, x, d)`: whatever was scheduled on `r` from `now` on is
   * dropped, `r` ramps linearly to `x` by `now + d`, and no other parameter is touched.
   */
  lemma SmoothEffect(values: map<ParamRef, real>, cs: seq<Command>, r: ParamRef, x: real, now: real, d: real,
                     other: ParamRef)
    requires r in values && other in values
    ensures var before := ParamOf(values, cs, r);
      var after := ParamOf(values, cs + SmoothCommands(r, x, now, d), r);
      && Target(after) == x
      && after.value == before.value
      && after.events == Before(before.events, now) + [LinearRamp(x, now + d)]
    ensures other != r ==> ParamOf(values, cs + SmoothCommands(r, x, now, d), other) == ParamOf(values, cs, other)
  {
    var extra := SmoothCommands(r, x, now, d);
    ParamAfter(values, cs, extra, r);
    ParamAfter(values, cs, extra, other);
    CallsOnPair(r, CancelFrom(now), Add(LinearRamp(x, now + d)), other);
    var p := ParamOf(values, cs, r);
    ReplayPair(p, CancelFrom(now), Add(LinearRamp(x, now + d)));
    if other != r {
      assert Replay(ParamOf(values, cs, other), []) == ParamOf(values, cs, other);
    }
  }

  /**
   * The fade-out of `stopTone`: the master gain drops what was pending from
   * `now` on and ramps exponentially to 0.001 by `now + 3`; nothing else is touched.
   */
  lemma FadeOutEffect(values: map<ParamRef, real>, cs: seq<Command>, now: real, other: ParamRef)
    requires Gain(MasterGain) in values && other in values
    ensures var before := ParamOf(values, cs, Gain(MasterGain));
      var after := ParamOf(values, cs + FadeOutCommands(now), Gain(MasterGain));
      && Target(after) == 0.001
      && after.value == before.value
      && after.events == Before(before.events, now) + [ExponentialRamp(0.001, now + 3.0)]
    ensures other != Gain(MasterGain) ==>
      ParamOf(values, cs + FadeOutCommands(now), other) == ParamOf(values, cs, other)
  {
    var r := Gain(MasterGain);
    var extra := FadeOutCommands(now);
    ParamAfter(values, cs, extra, r);
    ParamAfter(values, cs, extra, other);
    CallsOnPair(r, CancelFrom(now), Add(ExponentialRamp(0.001, now + 3.0)), other);
    var p := ParamOf(values, cs, r);
    ReplayPair(p, CancelFrom(now), Add(ExponentialRamp(0.001, now + 3.0)));
    if other != r {
      assert Replay(ParamOf(values, cs, other), []) == ParamOf(values, cs, other);
    }
  }

  /**
   * Sending the target flags through `updateParam` leaves a playing synth as it
   * was: the synth's `updateParam` has no case for them, so only
   * `updateLFOTargets` rewires the taps.
   */
  lemma TargetsEntryIgnored(st: SynthState, name: ParamName, v: Value, now: real, curve: real -> real)
    requires StateOk(st) && Fits(name, v)
    requires name == Lfo1Targets || name == Lfo2Targets
    ensures Routed(st, name, v, now, curve) == st
  {
    UnhandledSchedulesNothing(name, v, st.params, curve, now);
    assert st.commands + [] == st.commands;
  }

  /** An entry other than a waveform only schedules: everything but the scheduling calls stays. */
  lemma RoutedOnlySchedules(st: SynthState, name: ParamName, v: Value, now: real, curve: real -> real)
    requires StateOk(st) && Fits(name, v)
    requires name != Wave1Type && name != Wave2Type
    ensures Routed(st, name, v, now, curve).(commands := st.commands) == st
  {
  }

  /** Sending two runs of entries is sending the first, then the second. */
  lemma {:induction false} RoutedAllAppend(st: SynthState, a: seq<(ParamName, Value)>, b: seq<(ParamName, Value)>,
                                           now: real, curve: real -> real)
    requires StateOk(st)
    requires forall i :: 0 <= i < |a| ==> Fits(a[i].0, a[i].1)
    requires forall i :: 0 <= i < |b| ==> Fits(b[i].0, b[i].1)
    ensures forall i :: 0 <= i < |a + b| ==> Fits((a + b)[i].0, (a + b)[i].1)
    ensures RoutedAll(st, a + b, now, curve) == RoutedAll(RoutedAll(st, a, now, curve), b, now, curve)
    decreases |b|
  {
    assert forall i :: 0 <= i < |a + b| ==> (a + b)[i] == if i < |a| then a[i] else b[i - |a|];
    if b == [] {
      assert a + b == a;
    } else {
      var init := b[..|b| - 1];
      assert (a + b)[..|a + b| - 1] == a + init;
      assert (a + b)[|a + b| - 1] == b[|b| - 1];
      RoutedAllAppend(st, a, init, now, curve);
    }
  }

  /** A run of entries without a waveform only schedules. */
  lemma {:induction false} RoutedAllOnlySchedules(st: SynthState, es: seq<(ParamName, Value)>, now: real,
                                                  curve: real -> real)
    requires StateOk(st)
    requires forall i :: 0 <= i < |es| ==> Fits(es[i].0, es[i].1) && es[i].0 != Wave1Type && es[i].0 != Wave2Type
    ensures RoutedAll(st, es, now, curve).(commands := st.commands) == st
    decreases |es|
  {
    if es != [] {
      var init := es[..|es| - 1];
      var last := es[|es| - 1];
      RoutedAllOnlySchedules(st, init, now, curve);
      RoutedOnlySchedules(RoutedAll(st, init, now, curve), last.0, last.1, now, curve);
    }
  }

  /**
   * `loadPreset` on a playing synth replaces both oscillators, whatever their
   * waveforms were: two new oscillators with the preset's waveforms take the
   * public slots, and the log records both swaps, first oscillator first.
   */
  lemma PresetSwapsBoth(st: SynthState, p: SynthParams, now: real, curve: real -> real)
    requires StateOk(st)
    ensures var r := RoutedAll(st, Entries(p), now, curve);
      var n := st.nextOsc;
      && r.osc1 == n && r.osc2 == n + 1 && r.nextOsc == n + 2
      && r.waves == st.waves[n := p.wave1Type][n + 1 := p.wave2Type]
      && r.log == SwapLog(SwapLog(st.log, O1, n), O2, n + 1)
      && r.params == st.params
  {
    var es := Entries(p);
    var a, w, b := es[..3], es[3..5], es[5..];
    EntriesSplit(p);
    RoutedAllAppend(st, a, w, now, curve);
    RoutedAllAppend(st, a + w, b, now, curve);
    RoutedAllOnlySchedules(st, a, now, curve);
    var s1 := RoutedAll(st, a, now, curve);
    var s2 := RoutedAll(s1, w, now, curve);
    SwapPair(s1, p, now, curve);
    RoutedAllOnlySchedules(s2, b, now, curve);
  }

  /** The entries of a record: three numbers, the two waveforms, then no other waveform. */
  lemma EntriesSplit(p: SynthParams)
    ensures var es := Entries(p);
      && es == es[..3] + es[3..5] + es[5..]
      && es[3..5] == [(Wave1Type, WaveValue(p.wave1Type)), (Wave2Type, WaveValue(p.wave2Type))]
      && (forall i :: 0 <= i < 3 ==> Fits(es[..3][i].0, es[..3][i].1) && es[..3][i].0 != Wave1Type && es[..3][i].0 != Wave2Type)
      && (forall i :: 0 <= i < |es[5..]| ==> Fits(es[5..][i].0, es[5..][i].1) && es[5..][i].0 != Wave1Type && es[5..][i].0 != Wave2Type)
  {
    var es := Entries(p);
    assert es == es[..3] + es[3..5] + es[5..];
  }

  /** The two waveform entries: both oscillators are replaced, the first one first. */
  lemma SwapPair(s1: SynthState, p: SynthParams, now: real, curve: real -> real)
    requires StateOk(s1)
    ensures var w := [(Wave1Type, WaveValue(p.wave1Type)), (Wave2Type, WaveValue(p.wave2Type))];
      var r := RoutedAll(s1, w, now, curve);
      var n := s1.nextOsc;
      && r.osc1 == n && r.osc2 == n + 1 && r.nextOsc == n + 2
      && r.waves == s1.waves[n := p.wave1Type][n + 1 := p.wave2Type]
      && r.log == SwapLog(SwapLog(s1.log, O1, n), O2, n + 1)
      && r.params == s1.params
  {
    var w := [(Wave1Type, WaveValue(p.wave1Type)), (Wave2Type, WaveValue(p.wave2Type))];
    RoutedPair(s1, w, now, curve);
    TwoSwaps(s1, p.wave1Type, p.wave2Type);
  }

  /** Sending two waveform entries is swapping the first oscillator, then the second. */
  lemma RoutedPair(s1: SynthState, w: seq<(ParamName, Value)>, now: real, curve: real -> real)
    requires StateOk(s1) && |w| == 2 && w[0].0 == Wave1Type && w[1].0 == Wave2Type
    requires w[0].1.WaveValue? && w[1].1.WaveValue?
    ensures forall i :: 0 <= i < |w| ==> Fits(w[i].0, w[i].1)
    ensures RoutedAll(s1, w, now, curve) == Swapped(Swapped(s1, O1, w[0].1.wave), O2, w[1].1.wave)
  {
    assert w[..1] == [w[0]];
    assert [w[0]][..0] == [];
    var t1 := Swapped(s1, O1, w[0].1.wave);
    assert RoutedAll(s1, [w[0]], now, curve) == t1;
  }

  /** Two swaps, first oscillator first: two fresh slots, both logged in order. */
  lemma TwoSwaps(s1: SynthState, w1: Wave, w2: Wave)
    requires StateOk(s1)
    ensures var r := Swapped(Swapped(s1, O1, w1), O2, w2);
      var n := s1.nextOsc;
      && r.osc1 == n && r.osc2 == n + 1 && r.nextOsc == n + 2
      && r.waves == s1.waves[n := w1][n + 1 := w2]
      && r.log == SwapLog(SwapLog(s1.log, O1, n), O2, n + 1)
      && r.params == s1.params
  {
  }

  /**
   * A waveform change after a pitch change: the replacement oscillator starts at
   * the pitch last sent, not at the one the synth was created with.
   */
  lemma SwapCarriesPitch(st: SynthState, k: OscNum, x: real, w: Wave, now: real, curve: real -> real)
    requires StateOk(st)
    ensures var pitch := if k == O1 then Pitch1 else Pitch2;
      var r := Swapped(Routed(st, pitch, Num(x), now, curve), k, w);
      && r.values[Freq(Oscillator(st.nextOsc))] == x
      && r.waves[st.nextOsc] == w
      && (if k == O1 then r.osc1 else r.osc2) == st.nextOsc
  {
    var pitch := if k == O1 then Pitch1 else Pitch2;
    UpdateParamEffect(st.values, st.commands, pitch, Num(x), st.params, curve, now, Freq(ClosureOsc(k)));
  }

  /** The preset the hook starts with is the table's "custom" preset. */
  lemma CustomPresetIsInitial()
    ensures GetPresetById("custom") == Some(CUSTOM)
    ensures CUSTOM.params == INITIAL_PARAMS
  {
    LookupFindsEntry(6);
  }

  /**
   * With updates exactly one second apart from the start of a running session,
   * the auto-fade window is hit by at most one update, and by one when the
   * session is longer than 29 seconds.
   */
  lemma AutoFadeOnce(s: Timer.TimerState, k1: nat, k2: nat)
    requires Timer.Running(s)
    ensures var t0 := s.startTime.value;
      AutoFadeDue(Timer.Ticked(s, t0 + 1000 * k1), true) && AutoFadeDue(Timer.Ticked(s, t0 + 1000 * k2), true) ==> k1 == k2
    ensures s.duration > 29000 ==>
      AutoFadeDue(Timer.Ticked(s, s.startTime.value + 1000 * ((s.duration - 29001) / 1000)), true)
  {
  }
}
