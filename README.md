# Meditation tone generator: the synth engine

This project models the audio engine of a Web Audio meditation tone generator
and proves properties of the model. The engine has four parts:

- **The synth.** `createMeditationSynth` builds a fixed graph:
  - two oscillators, each blended in parallel and as FM;
  - a noise source;
  - a low-pass and a high-pass filter;
  - a reverb;
  - a master gain;
  - two LFOs, each fanned out to five per-target tap gains.

  On a live synth it offers `updateParam`, `updateLFOTargets`,
  `replaceOscillator` (the waveform hot-swap) and `stop`.
- **The session timer.** `SessionTimer` is a start / stop / pause / resume
  countdown ticked once a second. `formatTime` renders milliseconds as `m:ss`.
- **The facade.** The `useMeditationAudio` hook starts and stops the tone with
  fades, sends parameter changes to a playing synth by name, loads presets, and
  starts the auto-fade 30 seconds before a timed session ends.
- **The preset table.** `meditationPresets` is the table of presets, and
  `getPresetById` looks a preset up by id.

Modules, one per file:

- `Wrappers` (`wrappers.dfy`): `Option`.
- `Params` (`params.dfy`):
  - the `SynthParams` record;
  - the names of its fields and the values they take;
  - `Get`/`Set` by name;
  - the record's entries in key order, which is what `Object.entries` gives.
- `Automation` (`automation.dfy`): an `AudioParam` as a current value plus its
  timeline of scheduled events. `setTargetAtTime`, the two ramps and
  `cancelScheduledValues` edit the timeline. The parameter's target is the last
  scheduled value.
- `Graph` (`graph.dfy`): the nodes, the ports (a node input, a parameter input
  or the destination), connections as a set of edges, `connect` and
  `disconnect`.
- `Synth` (`synth.dfy`):
  - the class `MeditationSynth`; its fields are the graph, every parameter's
    initial value, the scheduling calls made so far, the oscillator waveforms,
    the start/stop log of the sources, the `params` record the closure keeps,
    and the public `osc1`/`osc2` slots;
  - construction, `Start`, `UpdateParam`, `UpdateLFOTargets`,
    `ReplaceOscillator` and `Stop`, as imperative methods;
  - the functions that specify those methods.
- `SynthProps` (`synth_props.dfy`): what those functions mean, stated as
  lemmas: targets per parameter, tap wiring, the hot-swap, teardown.
- `Timer` (`timer.dfy`):
  - the class `SessionTimer`, with the clock reading `now` passed in and the
    window's table of running intervals as a set of handles;
  - `formatTime` as a pure function, with a parser that inverts it.
- `Presets` (`presets.dfy`): the seven presets and the first-match lookup.
- `Engine` (`engine.dfy`): the class `MeditationAudio`. Its fields are the
  hook's state and refs. Every `setTimeout` or `await` splits an operation in
  two, and the `Complete...` methods are the halves that run after the wait.
- `EngineProps` (`engine_props.dfy`): the effect of the facade's fades and of
  `loadPreset`'s routing on a playing synth, and the auto-fade window.

Numbers in the audio graph are `real`. Wall-clock times and durations are
`int` milliseconds. The audio clock `currentTime` is a `real` parameter called
`now`. The dB-to-linear mapping of the noise volume is a function parameter
`curve`; a volume of 0 maps to 0 without calling it, as in the source.

Quirks of the source that the model keeps as written:

- After a swap, `replaceOscillator` stores the new oscillator in `osc1`/`osc2`,
  but the closure keeps addressing the original two oscillators. That affects
  the pitch updates, `updateLFOTargets`, a second swap and `stop`. The model
  keeps the closure oscillators `Oscillator(0)`/`Oscillator(1)` apart from the
  public slots.
- `updateLFOTargets` scales the taps by the creation-time depth.
- A swap reads `osc.frequency.value` of the closure oscillator. Pitch updates
  also go to the closure oscillator, so a replacement starts at the pitch last
  sent, whereas pitch updates after a swap reach only the stopped oscillator.
- The live blend update scales the first FM gain by 100; construction does not.
- A non-number value given to a numeric case of `updateParam` schedules
  nothing. In JavaScript the first `setTargetAtTime` throws and the `catch`
  swallows the error.

## Model

| member | source | states |
|---|---|---|
| Params.Get | src/utils/meditationSynth.ts:388-487 | the field stored under each name has the kind of value that name takes (number, waveform or target flags) |
| Params.GetSet | src/hooks/useMeditationAudio.ts:225 | after `setParams({...prev, [name]: v})` the field read by that name is `v`, and every other field is unchanged |
| Params.Entries | src/hooks/useMeditationAudio.ts:268-279 | `Object.entries(params)` lists every field once, in declaration order, each with its value, and each value fits its name |
| Params.NamesDistinct | src/hooks/useMeditationAudio.ts:268-279 | the names `Object.entries` lists are pairwise distinct, so each field is sent exactly once |
| Params.SynthParams.WithTargets | src/utils/meditationSynth.ts:499-591 | storing an LFO's target flags changes that LFO's flags only; the other LFO's flags and both depths stay |
| Automation.SetTargetAtTime | src/utils/meditationSynth.ts:395 | `setTargetAtTime(v, t, tc)` leaves the current value, appends the event to the timeline and makes `v` the target |
| Automation.LinearRampToValueAtTime | src/hooks/useMeditationAudio.ts:93 | a linear ramp leaves the current value, appends the ramp and makes its end value the target |
| Automation.ExponentialRampToValueAtTime | src/hooks/useMeditationAudio.ts:204 | an exponential ramp to a non-zero value leaves the current value, appends the ramp and makes its end value the target |
| Automation.CancelScheduledValues | src/hooks/useMeditationAudio.ts:92 | the timeline keeps exactly the events anchored before the cancel time; the current value stays |
| Automation.BeforeMembers | src/hooks/useMeditationAudio.ts:92 | the events kept by a cancel are exactly those before its time |
| Automation.Perform | src/hooks/useMeditationAudio.ts:92-93 | one scheduling call: an added event is appended and becomes the target; a cancel drops the events from its time on |
| Automation.ReplayAppend | src/hooks/useMeditationAudio.ts:92-93 | calls made in two runs act as the first run, then the second |
| Automation.BeforeIdempotent | src/hooks/useMeditationAudio.ts:92 | cancelling twice at the same time is cancelling once |
| Automation.BeforeAppendLate | src/hooks/useMeditationAudio.ts:92 | events scheduled at or after a cancel time do not survive a later cancel at that time |
| Automation.CancelThenRamp | src/hooks/useMeditationAudio.ts:87-94 | cancel-then-ramp: the ramp just scheduled is the target, and every other event left lies before the cancel time |
| Graph.Connect | src/utils/meditationSynth.ts:160-191 | `connect` adds exactly the one edge |
| Graph.DisconnectAll | src/utils/meditationSynth.ts:331-352 | `disconnect()` removes every outgoing edge of the node and nothing else |
| Graph.Disconnect | src/utils/meditationSynth.ts:613-623 | `disconnect(dst)` fails exactly when the edge is absent; otherwise it removes that edge alone |
| Graph.Outgoing | src/utils/meditationSynth.ts:240-309 | the ports a node feeds are exactly those of its edges |
| Synth.TapEdgesOf | src/utils/meditationSynth.ts:240-309 | a tap has its edge exactly when its target is enabled, and every tap edge goes from a tap of that LFO to the tap's own target |
| Synth.InitialValuesOk | src/utils/meditationSynth.ts:70-220 | construction sets a value for exactly the listed gain, frequency and Q parameters of the fixed graph |
| Synth.InitialEdgesOk | src/utils/meditationSynth.ts:160-309 | the constructed graph mentions only the fixed nodes and the two original oscillators |
| Synth.StartedWf | src/utils/meditationSynth.ts:160-316 | wiring the graph and starting the sources keep the synth's invariant |
| Synth.StoppedKeepsGraphOk | src/utils/meditationSynth.ts:321-352 | teardown keeps the graph well formed, and afterwards nothing is connected to the destination |
| Synth.StoppedEdgesIff | src/utils/meditationSynth.ts:321-352 | after `stop()` an edge remains exactly when it was there and its source is not one of the 22 disconnected nodes |
| Synth.MixerDisconnectedIff | src/utils/meditationSynth.ts:331-340 | disconnecting the mixer and filter nodes removes exactly their outgoing edges |
| Synth.TapsDisconnectedIff | src/utils/meditationSynth.ts:343-352 | disconnecting an LFO's taps removes exactly their outgoing edges |
| Synth.TapEdgesSplit | src/utils/meditationSynth.ts:240-309 | the LFO's tap edges are the union of the five per-target `if (enabled) connect` steps |
| Synth.Retargeted | src/utils/meditationSynth.ts:503-510 | one tap is rewired: its old edges go, and its target edge comes back exactly when enabled |
| Synth.RetargetedKeepsGraphOk | src/utils/meditationSynth.ts:503-510 | rewiring one tap keeps the graph well formed |
| Synth.RewiredKeepsGraphOk | src/utils/meditationSynth.ts:499-591 | rewiring all five taps of an LFO keeps the graph well formed |
| Synth.MoveTap | src/utils/meditationSynth.ts:612-634 | moving a pitch tap adds at most the edge to the new oscillator's frequency |
| Synth.SwappedEdges | src/utils/meditationSynth.ts:603-641 | after a swap the closure oscillator has no edge left, and every new edge is the new oscillator's or a tap into its frequency |
| Synth.RouteKeepsGraphOk | src/utils/meditationSynth.ts:610-634 | wiring the new oscillator and its pitch taps keeps the graph well formed |
| Synth.MeditationSynth.constructor | src/utils/meditationSynth.ts:70-220 | a new synth has no edges and has started nothing; every parameter has its creation-time value; the original oscillators hold the two waveforms and both slots |
| Synth.MeditationSynth.Start | src/utils/meditationSynth.ts:160-316 | the graph becomes the full creation-time topology with the taps wired per the flags, and the five sources start in order |
| Synth.MeditationSynth.Wire | src/utils/meditationSynth.ts:160-309 | the successive `connect` calls build the audio path, the LFO fan-out and the enabled taps |
| Synth.MeditationSynth.WireAudioPath | src/utils/meditationSynth.ts:160-191 | the audio path edges are added |
| Synth.MeditationSynth.FanOutLfo | src/utils/meditationSynth.ts:222-237 | each LFO feeds its gain, and the gain feeds its five taps |
| Synth.MeditationSynth.ConnectTaps | src/utils/meditationSynth.ts:240-309 | an LFO's taps are connected to their targets where the stored flags enable them |
| Synth.MeditationSynth.ConnectTap | src/utils/meditationSynth.ts:240-251 | one tap is connected when enabled |
| Synth.MeditationSynth.Schedule | src/utils/meditationSynth.ts:395 | one `setTargetAtTime(v, now, 0.05)` call is recorded on the parameter |
| Synth.MeditationSynth.CancelScheduled | src/hooks/useMeditationAudio.ts:92 | one cancel call is recorded on the parameter |
| Synth.MeditationSynth.LinearRampTo | src/hooks/useMeditationAudio.ts:93 | one linear ramp call is recorded on the parameter |
| Synth.MeditationSynth.ExponentialRampTo | src/hooks/useMeditationAudio.ts:204 | one exponential ramp call is recorded on the parameter |
| Synth.MeditationSynth.UpdateParam | src/utils/meditationSynth.ts:388-491 | only scheduling calls are added: exactly those of the name's case, targeting its parameters; the graph, the sources and the slots stay |
| Synth.MeditationSynth.ScheduleDepth | src/utils/meditationSynth.ts:435-458 | a depth update schedules the LFO gain and then the five taps, each signed or zeroed by the stored flags |
| Synth.MeditationSynth.UpdateLFOTargets | src/utils/meditationSynth.ts:494-596 | the flags are stored; the LFO's taps are rewired and rescheduled with the creation-time depth; the other LFO and the rest of the graph stay |
| Synth.MeditationSynth.RetargetTaps | src/utils/meditationSynth.ts:499-591 | the five taps are rewired and rescheduled in turn |
| Synth.MeditationSynth.RetargetTap | src/utils/meditationSynth.ts:503-510 | one tap gets its signed-or-zero gain, is disconnected, and is reconnected when enabled |
| Synth.MeditationSynth.ReplaceOscillator | src/utils/meditationSynth.ts:598-687 | the new state is `Swapped` of the old one: a fresh oscillator with the new waveform gets the closure oscillator's settled frequency and is wired in with the pitch taps; it starts, then the closure oscillator stops and is disconnected; only the public slot `k` moves; the parameter record and the scheduled calls stay |
| Synth.MeditationSynth.RouteReplacement | src/utils/meditationSynth.ts:609-634 | the new oscillator is connected to the oscillator gain, and both LFOs' pitch taps are moved to it |
| Synth.MeditationSynth.SwapSources | src/utils/meditationSynth.ts:636-641 | the new oscillator starts, the closure oscillator stops and loses its edges, and the slot is reassigned |
| Synth.MeditationSynth.CreateOscillator | src/utils/meditationSynth.ts:604-607 | a fresh oscillator id, with the given waveform and frequency |
| Synth.MeditationSynth.MovePitchTap | src/utils/meditationSynth.ts:612-623 | an enabled pitch tap is disconnected from the closure oscillator, even when that throws, and connected to the new one |
| Synth.MeditationSynth.Stop | src/utils/meditationSynth.ts:321-356 | the five original sources stop in order, and the 22 listed nodes lose all their outgoing edges |
| Synth.MeditationSynth.TearDown | src/utils/meditationSynth.ts:331-352 | the 22 `disconnect()` calls |
| Synth.MeditationSynth.StopSources | src/utils/meditationSynth.ts:324-328 | the five `stop()` calls, on the closure's sources |
| Synth.MeditationSynth.DisconnectMixer | src/utils/meditationSynth.ts:331-340 | the ten mixer and filter nodes are disconnected |
| Synth.MeditationSynth.DisconnectTaps | src/utils/meditationSynth.ts:343-352 | an LFO's five taps are disconnected |
| SynthProps.CallsOnAppend | src/utils/meditationSynth.ts:388-491 | the calls made on one parameter by two runs of commands are the first run's, then the second's |
| SynthProps.ParamAfter | src/utils/meditationSynth.ts:388-491 | later commands act on each parameter from the state the earlier ones left |
| SynthProps.ScheduledCalls | src/utils/meditationSynth.ts:388-491 | each case of `updateParam` makes exactly one `setTargetAtTime` on each parameter it targets, and none elsewhere |
| SynthProps.UpdateParamEffect | src/utils/meditationSynth.ts:388-491 | after `updateParam(name, x)` every parameter the name targets heads for its target at `now` with time constant 0.05; every other parameter is as it was |
| SynthProps.UnhandledSchedulesNothing | src/utils/meditationSynth.ts:486-487 | `updateParam` schedules nothing exactly when the name reaches the default branch or the value is not a number |
| SynthProps.BlendTargets | src/utils/meditationSynth.ts:411-419 | the live blend update: both parallel gains head for `1 - x`, the first FM gain for `100 x`, the second for `x`, and nothing else is touched |
| SynthProps.DepthCalls | src/utils/meditationSynth.ts:435-458 | a depth update targets the LFO gain with the depth and each tap with the depth signed by its stored flag, or 0 when disabled |
| SynthProps.DepthLeavesOtherLfo | src/utils/meditationSynth.ts:435-485 | a depth update leaves the other LFO's gain and taps untouched |
| SynthProps.TapCalls | src/utils/meditationSynth.ts:505-591 | the tap commands of `updateLFOTargets` touch each tap of that LFO once, and nothing else |
| SynthProps.InitialLevels | src/utils/meditationSynth.ts:77-108 | at construction the master gain is 0, both parallel gains are `1 - fmBlend`, both FM gains are `fmBlend`, and each LFO gain is its depth |
| SynthProps.InitialTapGain | src/utils/meditationSynth.ts:240-309 | at construction a tap's gain is the depth signed by its flag, or 0 when the target is disabled |
| SynthProps.InitialTapWiring | src/utils/meditationSynth.ts:240-309 | at construction a tap has an edge exactly when enabled, and it goes to its target |
| SynthProps.InitialTapEdges | src/utils/meditationSynth.ts:240-309 | every tap edge of the constructed graph is an enabled route to the tap's own target |
| SynthProps.LowPassInputs | src/utils/meditationSynth.ts:160-191 | the low-pass filter is fed by exactly the two parallel gains, the second FM gain and the noise gain |
| SynthProps.MasterInputs | src/utils/meditationSynth.ts:160-191 | the master gain is fed by exactly the high-pass filter (dry) and the reverb gain |
| SynthProps.InitialChain | src/utils/meditationSynth.ts:160-191 | the first FM gain feeds the second oscillator's frequency; low-pass feeds high-pass, which feeds the convolver, which feeds the reverb gain; only the master gain reaches the destination |
| SynthProps.RewiredEdgesIff | src/utils/meditationSynth.ts:499-591 | after `updateLFOTargets(l, ts)` an edge exists exactly when it was there and not from a tap of `l`, or it is an enabled tap route of `l` |
| SynthProps.RewiredOutgoing | src/utils/meditationSynth.ts:499-591 | each tap of `l` ends with one outgoing edge, to its target, when enabled, and none otherwise; every other node keeps its edges, the other LFO's taps included |
| SynthProps.RetargetEffect | src/utils/meditationSynth.ts:505-591 | each tap of `l` heads for the stored depth signed by its new flag, or 0; no other parameter changes |
| SynthProps.SwapWiring | src/utils/meditationSynth.ts:603-681 | the new oscillator feeds the oscillator gain; an enabled pitch tap now feeds the new frequency and not the old, even when the disconnect threw; the old oscillator has no edge left; every other edge stays |
| SynthProps.SwapSounding | src/utils/meditationSynth.ts:636-641 | after a swap the new oscillator sounds and the closure oscillator does not; every other source is as it was |
| SynthProps.DoubleSwapLeaks | src/utils/meditationSynth.ts:603-641 | swapping the same slot twice never stops the first replacement: it keeps sounding and feeding the oscillator gain, and an enabled pitch tap feeds both replacements |
| SynthProps.StopLeavesReplacement | src/utils/meditationSynth.ts:321-352 | `stop()` neither stops a replacement oscillator nor disconnects it |
| Timer.ProgressOf | src/utils/sessionTimer.ts:87 | `Math.min(1, elapsed / duration)` is a ratio in [0, 1] for a positive duration and a non-negative elapsed time, and at most 1 for any non-zero duration |
| Timer.SessionTimer.constructor | src/utils/sessionTimer.ts:21-33 | a new timer is idle, with no interval and no callback made |
| Timer.SessionTimer.SetInterval | src/utils/sessionTimer.ts:51-53 | `setInterval` hands out a handle not already running and adds it to the running intervals |
| Timer.SessionTimer.Start | src/utils/sessionTimer.ts:36-54 | the timer becomes active from `now` with `duration = remainingTime = m * 60000` and progress 0; `onUpdate` is called once; a new interval runs, and one already running is not cleared |
| Timer.SessionTimer.Stop | src/utils/sessionTimer.ts:56-60 | only `isActive` is cleared; the interval is cleared and `onUpdate` is called |
| Timer.SessionTimer.Pause | src/utils/sessionTimer.ts:62-66 | only `isActive` is cleared; the interval is cleared and `onUpdate` is called |
| Timer.SessionTimer.Resume | src/utils/sessionTimer.ts:68-78 | with nothing remaining it changes nothing; otherwise it becomes active with `startTime = now - (duration - remainingTime)`, a new interval runs and `onUpdate` is called |
| Timer.SessionTimer.Tick | src/utils/sessionTimer.ts:81-99 | an inactive timer, or one without a start time, changes nothing; otherwise the countdown advances, and at 0 it deactivates, clears the interval and calls `onComplete` before `onUpdate` |
| Timer.SessionTimer.ClearInterval | src/utils/sessionTimer.ts:101-106 | a running interval is removed from the window's table and the handle dropped |
| Timer.SessionTimer.GetState | src/utils/sessionTimer.ts:108-110 | the getter returns the current state |
| Timer.TickBounds | src/utils/sessionTimer.ts:84-90 | a tick puts `remainingTime` in [0, duration] and, for a positive duration, progress in [0, 1] |
| Timer.IdleTickNoop | src/utils/sessionTimer.ts:82 | a tick on an inactive timer, or one without a start time, changes nothing and does not complete |
| Timer.CompletionIsFinal | src/utils/sessionTimer.ts:92-96 | the tick that reaches 0 deactivates the timer, and every later tick changes nothing |
| Timer.IdleNeverCompletes | src/utils/sessionTimer.ts:82 | a timer that is not running never calls `onComplete`, however often it ticks |
| Timer.CompletesAtMostOnce | src/utils/sessionTimer.ts:82-96 | along any run of ticks, `onComplete` is called at most once |
| Timer.ProgressMonotone | src/utils/sessionTimer.ts:85-87 | while running, progress never decreases from one tick to a later one |
| Timer.ResumeThenTick | src/utils/sessionTimer.ts:68-78 | a tick at the instant of a resume leaves `remainingTime` as it was and the timer active |
| Timer.StartAtZeroNeverTicks | src/utils/sessionTimer.ts:82 | a session started at clock 0 has a falsy `startTime`, so its ticks change nothing |
| Timer.CeilDiv | src/utils/sessionTimer.ts:114 | `Math.ceil(a / b)` is the least integer `q` with `a <= b q` |
| Timer.JsRem | src/utils/sessionTimer.ts:116 | JavaScript's `%` takes the sign of the dividend and stays below the divisor in magnitude |
| Timer.NatToString | src/utils/sessionTimer.ts:117 | a natural number's decimal form is non-empty, and has one digit exactly when the number is below 10 |
| Timer.PadStart2 | src/utils/sessionTimer.ts:117 | `padStart(2, '0')` yields at least two characters and pads only shorter strings |
| Timer.NatToStringRoundTrip | src/utils/sessionTimer.ts:117 | reading back a number's decimal form gives the number |
| Timer.FormatTimeFields | src/utils/sessionTimer.ts:113-118 | for `ms >= 0` the seconds field is below 60 and has two digits, and `minutes * 60 + seconds = ceil(ms / 1000)` |
| Timer.FormatTimeRoundTrip | src/utils/sessionTimer.ts:113-118 | parsing `formatTime(ms)` back gives `ceil(ms / 1000)` seconds |
| Presets.Find | src/utils/presets.ts:279-281 | `find` returns nothing exactly when no entry has the id, and otherwise an entry with that id |
| Presets.FindFirstMatch | src/utils/presets.ts:279-281 | `find` returns the first entry in table order with the id, whatever follows it |
| Presets.IdsDistinct | src/utils/presets.ts:12-240 | the seven preset ids are pairwise distinct |
| Presets.LookupFindsEntry | src/utils/presets.ts:279-281 | every preset is found under its own id |
| Presets.LookupDefinedIff | src/utils/presets.ts:279-281 | the lookup succeeds exactly for the seven ids of the table |
| Presets.PresetRanges | src/utils/presets.ts:15-275 | every preset has volume and blend in [0, 1] and noise volume in [0, 12] |
| Presets.InvertedOnlyIfEnabled | src/utils/presets.ts:15-275 | in every preset a target is inverted only where it is enabled |
| Synth.Swapped | src/utils/meditationSynth.ts:598-687 | the synth state after a waveform swap: the parameter record and the scheduled calls stay, and the closure oscillators' frequencies remain defined |
| Engine.Routed | src/hooks/useMeditationAudio.ts:239-253 | sending one entry to a playing synth keeps the synth's parameter record |
| Engine.RoutedAll | src/hooks/useMeditationAudio.ts:268-279 | sending every entry in turn keeps the synth's parameter record |
| Engine.MeditationAudio.constructor | src/hooks/useMeditationAudio.ts:29-76 | the hook starts idle and not transitioning, with no context and no synth, the "custom" preset, the initial parameters, and an idle timer |
| Engine.MeditationAudio.SmoothTransition | src/hooks/useMeditationAudio.ts:87-94 | with an audio context: a cancel from `now`, then a linear ramp ending `duration` later; without one: nothing |
| Engine.MeditationAudio.StartTone | src/hooks/useMeditationAudio.ts:151-171 | a no-op during a transition; otherwise the transition starts, a missing or closed context is created, a suspended one is resumed first, and on a running one a fresh synth is launched from the current parameters and fades in; the parameters, the preset id, the pending custom-marking and the shown timer state are never written |
| Engine.MeditationAudio.CompleteResume | src/hooks/useMeditationAudio.ts:160-186 | a resolved resume launches the synth; a rejected one leaves the transition running and nothing launched; the parameters, the preset id, the pending custom-marking and the shown timer state are never written |
| Engine.MeditationAudio.Launch | src/hooks/useMeditationAudio.ts:166-180 | a fresh synth becomes current and playing, and the 100 ms timeout is armed |
| Engine.MeditationAudio.CreateSynth | src/hooks/useMeditationAudio.ts:168-175 | a fresh, started synth of the current parameters, its master gain fading in to `params.volume` over 1 s |
| Engine.MeditationAudio.CompleteFadeIn | src/hooks/useMeditationAudio.ts:177-180 | the transition ends |
| Engine.MeditationAudio.StopTone | src/hooks/useMeditationAudio.ts:188-205 | without a synth or during a transition, the synth and the timer are untouched; otherwise the transition starts, the session timer stops (inactive, interval cleared, one update sent), and the master gain cancels and ramps exponentially to 0.001 over 3 s, with the rest of the synth untouched |
| Engine.MeditationAudio.CompleteStop | src/hooks/useMeditationAudio.ts:207-215 | the captured synth is stopped and dropped, and playback and the transition end; of the stopped synth only its graph (the 22 disconnects) and its start/stop log change |
| Engine.MeditationAudio.RouteEntry | src/hooks/useMeditationAudio.ts:239-253 | the volume goes to a 0.1 s master ramp, a waveform to a swap of that oscillator, and any other name to the synth's `updateParam` |
| Engine.MeditationAudio.UpdateParam | src/hooks/useMeditationAudio.ts:221-258 | the field is set and the custom-marking timeout armed; only a synth that exists and is playing receives the routed entry |
| Engine.MeditationAudio.CompleteMarkCustom | src/hooks/useMeditationAudio.ts:228-236 | the timeout marks the preset "custom" unless the id its closure captured was already "custom" |
| Engine.MeditationAudio.LoadPreset | src/hooks/useMeditationAudio.ts:260-281 | the preset's id and parameters become current; a playing synth receives every entry in order; a synth not playing is untouched |
| Engine.MeditationAudio.RouteEntries | src/hooks/useMeditationAudio.ts:270-280 | the `forEach` routes each entry in turn |
| Engine.MeditationAudio.UpdateLFOTargets | src/hooks/useMeditationAudio.ts:301-322 | the flags are stored and the preset becomes "custom" at once; only a playing synth is rewired, and its values, waveforms, sources and slots stay |
| Engine.MeditationAudio.StartSession | src/hooks/useMeditationAudio.ts:97-102 | a non-positive duration leaves the timer untouched; a positive one starts it with a fresh interval beside any running one and one update sent |
| Engine.MeditationAudio.StopSession | src/hooks/useMeditationAudio.ts:104-109 | the timer stops, keeping its countdown: inactive, its interval cleared from the window's table, one update sent |
| Engine.MeditationAudio.PauseSession | src/hooks/useMeditationAudio.ts:111-115 | the timer pauses, the same way |
| Engine.MeditationAudio.ResumeSession | src/hooks/useMeditationAudio.ts:117-121 | a finished timer stays as it is; otherwise it runs again from a start time moved back by the time already elapsed, with a new interval added beside any running one and one update sent |
| Engine.MeditationAudio.HandleTimerUpdate | src/hooks/useMeditationAudio.ts:125-135 | the state is shown; the 10 s fade to 0.1 is scheduled exactly when `29000 < remainingTime <= 30000`, the tone is playing and an audio context exists; nothing else of the synth changes |
| Engine.MeditationAudio.HandleTimerComplete | src/hooks/useMeditationAudio.ts:137-140 | the session's end stops the tone, with `stopTone`'s whole effect |
| EngineProps.CallsOnPair | src/hooks/useMeditationAudio.ts:92-93 | two commands on one parameter make exactly those two calls on it, and none on any other |
| EngineProps.ReplayPair | src/hooks/useMeditationAudio.ts:92-93 | two calls act one after the other |
| EngineProps.SmoothEffect | src/hooks/useMeditationAudio.ts:87-94 | `smoothTransition(r, x, d)` makes `x` the target of `r`: what was pending from `now` on is dropped and a ramp ends at `now + d`; no other parameter changes |
| EngineProps.FadeOutEffect | src/hooks/useMeditationAudio.ts:200-205 | the fade-out makes 0.001 the master gain's target by `now + 3`; no other parameter changes |
| EngineProps.TargetsEntryIgnored | src/hooks/useMeditationAudio.ts:268-279 | the target-flag entries sent by `loadPreset` land in the synth's default branch and change nothing |
| EngineProps.RoutedOnlySchedules | src/hooks/useMeditationAudio.ts:239-253 | an entry other than a waveform only adds scheduling calls |
| EngineProps.RoutedAllAppend | src/hooks/useMeditationAudio.ts:268-279 | sending two runs of entries is sending the first, then the second |
| EngineProps.RoutedAllOnlySchedules | src/hooks/useMeditationAudio.ts:268-279 | a run of entries without a waveform only adds scheduling calls |
| EngineProps.PresetSwapsBoth | src/hooks/useMeditationAudio.ts:260-281 | loading a preset on a playing synth replaces both oscillators, first then second, with the preset's waveforms, whatever the waveforms were before |
| EngineProps.EntriesSplit | src/hooks/useMeditationAudio.ts:268-279 | the entries are three numbers, then the two waveforms, then no other waveform |
| EngineProps.SwapPair | src/hooks/useMeditationAudio.ts:273-276 | the two waveform entries swap both oscillators into fresh slots and log both swaps in order |
| EngineProps.SwapCarriesPitch | src/utils/meditationSynth.ts:394-399 | a pitch change followed by a waveform change: the pitch is scheduled on the closure oscillator, whose `frequency.value` the swap copies, so the replacement starts at the pitch just sent and takes the slot |
| EngineProps.CustomPresetIsInitial | src/utils/presets.ts:239-275 | the "custom" preset is found, and its parameters are the hook's initial parameters |
| EngineProps.AutoFadeOnce | src/hooks/useMeditationAudio.ts:129-133 | for a running timer ticked at whole seconds after its start (`Timer.Ticked`), at most one tick falls in the auto-fade window, and one does when the session is longer than 29 s |

## Left out

- Sound itself is not modelled: the oscillator waveforms rendered, the filter responses, the convolver and the shapes of the ramps over time. A parameter is its current value plus its ordered timeline of scheduled events, and its target is the last scheduled value.
- The random fills of the noise and reverb buffers are left out; they decide no control flow.
- `Math.pow` in the dB-to-linear noise mapping is the function parameter `curve`. 0 maps to 0 explicitly, as in the source.
- Numbers are unbounded `int` and exact `real`. NaN and infinity are left out, except where the progress ratio divides by a duration of 0 (`Timer.ProgressOf`).
- The `'custom'` oscillator type is not one of the waveforms: no preset or control produces it.
- `createMeditationSynth` is split into the constructor, which creates the nodes and sets values, and `Start`, which connects them and starts the sources. `createMeditationSynth` itself has no `try`/`catch`. The `catch` of `startTone` (`src/hooks/useMeditationAudio.ts:166-185`), which ends the transition when creating the synth throws, is left out: creating a synth cannot fail in the model, so `Launch` has no such path.
- Engine.MeditationAudio.RouteEntry: requires that the value fits the name. The hook takes `any`, and a mistyped value would reach a Web Audio setter or throw.
- Engine.MeditationAudio.UpdateParam: requires that the value fits the name, for the same reason.
- Engine.MeditationAudio.StartTone: `Launched` states the new synth's start log, slots, parameters and fade-in; its graph and initial values are the ones the synth's constructor and `Start` have, and are not restated here.
- Engine.MeditationAudio.CreateSynth: the same; `Launched` does not restate the graph.
- Synth.MeditationSynth.ReplaceOscillator: the replacement takes the closure oscillator's frequency once every change scheduled on it has settled (`SettledValue`, the target of the last pending change). What `frequency.value` reads while a `setTargetAtTime` is still approaching its target depends on the rendering clock and is not modelled; `Synth.Swapped` is stated the same way.
- The sharing of parameter objects is not modelled. The synth's closure `params` is the hook's state object (`src/hooks/useMeditationAudio.ts:168`), and after `loadPreset` that object is the preset table's own `preset.params` (`src/hooks/useMeditationAudio.ts:265`). The synth's `updateLFOTargets` assigns `params.lfoNTargets = targets` (`src/utils/meditationSynth.ts:501`, `:550`), which then writes into `meditationPresets`, so a later `loadPreset` of that preset carries the new flags. The model keeps the synth's record as its own value and the table as a constant, so `Presets.PresetRanges` and `Presets.InvertedOnlyIfEnabled` hold of the table as written, not of a table written through that alias.
- Timers, promises and the clocks are replaced by explicit methods:
  - `Date.now()` and `audioContext.currentTime` are parameters;
  - each `setTimeout` or `await` continuation is a `Complete...` method;
  - the interval's callback is `Timer.SessionTimer.Tick`.
- The `onUpdate`/`onComplete` callbacks are recorded as a log of notices. The facade's handlers are called directly as `HandleTimerUpdate` and `HandleTimerComplete`.
- The window's table of running intervals is the set `live`.
- `initializeAudioContext` is the context state passed to `StartTone`. A context never closes by itself in the model.
- The React effect lifecycle is left out: the timer re-created on every change of `isPlaying`, and the cleanup on unmount.
- Stale closures are left out: every callback of the hook sees the state of the render that created it, where the model reads the current fields. The timer's handler sees `isPlaying` as it was when the timer was created. `startTone` creates the synth from the `params` it captured before its `await` (`src/hooks/useMeditationAudio.ts:168`), where `CompleteResume` reads the current `params`. `stopTone`, `updateParam`, `loadPreset` and `updateLFOTargets` likewise see `isTransitioning`, `isPlaying` and `currentPresetId` of their render.
- React's batching of state updates is left out: state setters take effect at once.
- Console logging is left out.
- Known gaps are kept as the source has them, not proved away:
  - `StartTone` does not stop or disconnect a synth that is already playing;
  - a rejected `resume()` leaves `isTransitioning` set (`CompleteResume`);
  - `Timer.SessionTimer.Start` does not clear an interval already running.
- The UI component, the page and the offline wave and audio processing utilities are not part of this model.
