/**
 * The meditation synth built by `createMeditationSynth`: two oscillators blended
 * in parallel or as frequency modulation, a noise source, a low-pass and a
 * high-pass filter, a reverb send, a master gain, and two LFOs that reach five
 * targets each through one gain node per (LFO, target) pair: the taps.
 *
 * The object keeps the closure variables of the source: the oscillators named
 * `osc1`/`osc2` inside the closure are always the two created with the synth
 * (ids 0 and 1), while the public slots `osc1`/`osc2` follow hot-swaps.
 */
module Synth {
  import opened Params
  import opened Automation
  import opened Graph
  import opened Wrappers

  /** The time constant every live update uses with `setTargetAtTime`. */
  const TIME_CONSTANT: real := 0.05

  /** A `start()` or `stop()` call on a source node, in the order they were made. */
  datatype SourceOp = Started(node: Node) | Stopped(node: Node)

  /** A source node has been started and not stopped since. */
  predicate Sounding(log: seq<SourceOp>, n: Node) {
    Started(n) in log && Stopped(n) !in log
  }

  /** The oscillator the closure variable `osc1` / `osc2` refers to, forever. */
  function ClosureOsc(k: OscNum): Node {
    if k == O1 then Oscillator(0) else Oscillator(1)
  }

  /** `value === 0 ? 0 : Math.pow(10, (value - 12) / 20)`, with the power curve supplied. */
  function NoiseLinear(curve: real -> real, v: real): real {
    if v == 0.0 then 0.0 else curve(v)
  }

  /** The gain a tap carries: the depth, negated when inverted, or 0 when the target is off. */
  function TapGain(depth: real, m: ModTarget): real {
    if m.enabled then depth * (if m.inverted then -1.0 else 1.0) else 0.0
  }

  /** The parameter a tap modulates; the pitch taps aim at the closure oscillators. */
  function TapTargetPort(t: TargetName): Port {
    match t
    case VolumeTarget => ParamIn(Gain(MasterGain))
    case Pitch1Target => ParamIn(Freq(Oscillator(0)))
    case Pitch2Target => ParamIn(Freq(Oscillator(1)))
    case LowPassTarget => ParamIn(Freq(LowPass))
    case HighPassTarget => ParamIn(Freq(HighPass))
  }

  function TapRoute(l: LfoNum, t: TargetName): Edge {
    Edge(Tap(l, t), TapTargetPort(t))
  }

  /** The five connections the taps of one LFO can have. */
  function TapRoutes(l: LfoNum): set<Edge> {
    {TapRoute(l, VolumeTarget), TapRoute(l, Pitch1Target), TapRoute(l, Pitch2Target),
     TapRoute(l, LowPassTarget), TapRoute(l, HighPassTarget)}
  }

  /** The connections of the taps of `l` that `ts` enables. */
  function TapEdgesOf(l: LfoNum, ts: ModTargets): (r: set<Edge>)
    ensures forall t :: TapRoute(l, t) in r <==> ts.Get(t).enabled
    ensures forall e :: e in r ==> e.src.Tap? && e.src.l == l && e.dst == TapTargetPort(e.src.t)
  {
    set e | e in TapRoutes(l) && ts.Get(e.src.t).enabled
  }

  /** Connections of the audio path and the LFO fan-out, made unconditionally at construction. */
  const AUDIO_PATH: set<Edge> := {
    Edge(Oscillator(0), In(OscGain(O1))),
    Edge(Oscillator(1), In(OscGain(O2))),
    Edge(OscGain(O1), In(ParallelGain(O1))),
    Edge(OscGain(O2), In(ParallelGain(O2))),
    Edge(OscGain(O1), In(FMGain(O1))),
    Edge(OscGain(O2), In(FMGain(O2))),
    Edge(FMGain(O1), ParamIn(Freq(Oscillator(1)))),
    Edge(NoiseSource, In(NoiseGain)),
    Edge(ParallelGain(O1), In(LowPass)),
    Edge(ParallelGain(O2), In(LowPass)),
    Edge(FMGain(O2), In(LowPass)),
    Edge(NoiseGain, In(LowPass)),
    Edge(LowPass, In(HighPass)),
    Edge(HighPass, In(MasterGain)),
    Edge(HighPass, In(Convolver)),
    Edge(Convolver, In(ReverbGain)),
    Edge(ReverbGain, In(MasterGain)),
    Edge(MasterGain, Destination)
  }

  function FanOut(l: LfoNum): set<Edge> {
    {Edge(Lfo(l), In(LfoGain(l))),
     Edge(LfoGain(l), In(Tap(l, VolumeTarget))), Edge(LfoGain(l), In(Tap(l, Pitch1Target))),
     Edge(LfoGain(l), In(Tap(l, Pitch2Target))), Edge(LfoGain(l), In(Tap(l, LowPassTarget))),
     Edge(LfoGain(l), In(Tap(l, HighPassTarget)))}
  }

  /** The graph right after construction. */
  function InitialEdges(p: SynthParams): set<Edge> {
    AUDIO_PATH + FanOut(L1) + FanOut(L2) + TapEdgesOf(L1, p.lfo1Targets) + TapEdgesOf(L2, p.lfo2Targets)
  }

  /** The five taps of `l`. */
  function TapNodes(l: LfoNum): set<Node> {
    {Tap(l, VolumeTarget), Tap(l, Pitch1Target), Tap(l, Pitch2Target), Tap(l, LowPassTarget), Tap(l, HighPassTarget)}
  }

  function TapRefs(l: LfoNum): set<ParamRef> {
    {Gain(Tap(l, VolumeTarget)), Gain(Tap(l, Pitch1Target)), Gain(Tap(l, Pitch2Target)),
     Gain(Tap(l, LowPassTarget)), Gain(Tap(l, HighPassTarget))}
  }

  /** Every parameter the synth sets at construction and may schedule later. */
  const FIXED_REFS: set<ParamRef> :=
    {Gain(MasterGain), Freq(Oscillator(0)), Freq(Oscillator(1)),
     Gain(OscGain(O1)), Gain(OscGain(O2)),
     Gain(ParallelGain(O1)), Gain(ParallelGain(O2)), Gain(FMGain(O1)), Gain(FMGain(O2)),
     Gain(NoiseGain), Freq(LowPass), Q(LowPass), Freq(HighPass), Q(HighPass),
     Gain(ReverbGain), Freq(Lfo(L1)), Freq(Lfo(L2)), Gain(LfoGain(L1)), Gain(LfoGain(L2))}
    + TapRefs(L1) + TapRefs(L2)

  /** `r` is in `FIXED_REFS`, decided by its node and kind. */
  predicate FixedRef(r: ParamRef) {
    match r.node
    case Oscillator(id) => id < 2 && r.kind == FrequencyParam
    case LowPass => r.kind != GainParam
    case HighPass => r.kind != GainParam
    case Lfo(_) => r.kind == FrequencyParam
    case NoiseSource => false
    case Convolver => false
    case _ => r.kind == GainParam
  }

  lemma FixedRefListed(r: ParamRef)
    requires FixedRef(r)
    ensures r in FIXED_REFS
  {
    assert r == ParamRef(r.node, r.kind);
    match r.node
    case Tap(l, t) =>
      assert r == Gain(Tap(l, t));
      assert r in TapRefs(l) by {
        match t
        case VolumeTarget =>
        case Pitch1Target =>
        case Pitch2Target =>
        case LowPassTarget =>
        case HighPassTarget =>
      }
      assert r in TapRefs(L1) + TapRefs(L2) by {
        if l == L1 { assert r in TapRefs(L1); } else { assert r in TapRefs(L2); }
      }
    case Oscillator(id) =>
      assert r == Freq(Oscillator(id)) && (id == 0 || id == 1);
    case LowPass =>
      assert r == Freq(LowPass) || r == Q(LowPass);
    case HighPass =>
      assert r == Freq(HighPass) || r == Q(HighPass);
    case Lfo(l) =>
      if l == L1 { assert r == Freq(Lfo(L1)); } else { assert r == Freq(Lfo(L2)); }
    case LfoGain(l) =>
      if l == L1 { assert r == Gain(LfoGain(L1)); } else { assert r == Gain(LfoGain(L2)); }
    case OscGain(k) =>
      if k == O1 { assert r == Gain(OscGain(O1)); } else { assert r == Gain(OscGain(O2)); }
    case ParallelGain(k) =>
      if k == O1 { assert r == Gain(ParallelGain(O1)); } else { assert r == Gain(ParallelGain(O2)); }
    case FMGain(k) =>
      if k == O1 { assert r == Gain(FMGain(O1)); } else { assert r == Gain(FMGain(O2)); }
    case NoiseGain =>
      assert r == Gain(NoiseGain);
    case ReverbGain =>
      assert r == Gain(ReverbGain);
    case MasterGain =>
  }

  /**
   * The synth's invariant on its state: the parameters of the created nodes
   * exist, only the master gain feeds the destination, and every oscillator
   * mentioned anywhere has an id below `nextOsc`, so the next one created is new.
   */
  ghost predicate Wf(edges: set<Edge>, values: map<ParamRef, real>, waves: map<nat, Wave>,
                     log: seq<SourceOp>, osc1: nat, osc2: nat, nextOsc: nat) {
    && 2 <= nextOsc
    && osc1 < nextOsc && osc2 < nextOsc
    && (forall r :: FixedRef(r) ==> r in values)
    && RefsBelow(values.Keys, nextOsc)
    && GraphOk(edges, nextOsc)
    && (forall id :: id in waves ==> id < nextOsc)
    && (forall op :: op in log ==> NodeBelow(op.node, nextOsc))
  }

  /** Wiring and starting keep the invariant of a synth just constructed. */
  lemma StartedWf(p: SynthParams, values: map<ParamRef, real>, waves: map<nat, Wave>)
    requires Wf({}, values, waves, [], 0, 1, 2)
    ensures Wf(InitialEdges(p), values, waves, START_OPS, 0, 1, 2)
  {
    InitialEdgesOk(p);
    StartOpsBelow();
  }

  ghost predicate RefsBelow(keys: set<ParamRef>, bound: nat) {
    forall r :: r in keys ==> NodeBelow(r.node, bound)
  }

  /** Connections mention only oscillators below `bound`, and only the master gain feeds the destination. */
  ghost predicate GraphOk(es: set<Edge>, bound: nat) {
    && (forall e :: e in es ==> EdgeBelow(e, bound))
    && (forall n :: Edge(n, Destination) in es ==> n == MasterGain)
  }

  lemma RouteKeepsGraphOk(es: set<Edge>, k: OscNum, id: nat, p: SynthParams)
    requires GraphOk(es, id + 1)
    ensures GraphOk(MoveTap(MoveTap(Connect(es, Oscillator(id), In(OscGain(k))), L1, k, id, p), L2, k, id, p), id + 1)
  {
  }

  /** The value construction gives the parameter `r`. */
  function InitialValue(p: SynthParams, curve: real -> real, r: ParamRef): real {
    match r.node
    case MasterGain => 0.0
    case Oscillator(id) => if id == 0 then p.pitch1 else p.pitch2
    case OscGain(k) => if k == O1 then p.wave1Volume else p.wave2Volume
    case ParallelGain(_) => 1.0 - p.fmBlend
    case FMGain(_) => p.fmBlend
    case NoiseGain => NoiseLinear(curve, p.noiseVolume)
    case LowPass => if r.kind == QParam then p.lowPassResonance else p.lowPassFreq
    case HighPass => if r.kind == QParam then p.highPassResonance else p.highPassFreq
    case ReverbGain => 0.15
    case Lfo(l) => if l == L1 then p.lfo1Rate else p.lfo2Rate
    case LfoGain(l) => p.Depth(l)
    case Tap(l, t) => TapGain(p.Depth(l), p.Targets(l).Get(t))
    case _ => 0.0
  }

  /** The value table right after construction: every parameter of the created nodes, set directly. */
  function InitialValues(p: SynthParams, curve: real -> real): map<ParamRef, real> {
    map r | r in FIXED_REFS :: InitialValue(p, curve, r)
  }

  /** The value table construction builds covers the created nodes and no replacement oscillator. */
  lemma InitialValuesOk(p: SynthParams, curve: real -> real)
    ensures InitialValues(p, curve).Keys == FIXED_REFS
    ensures RefsBelow(InitialValues(p, curve).Keys, 2)
  {
    FixedRefsBelow();
  }

  /** The graph construction builds is well formed. */
  lemma InitialEdgesOk(p: SynthParams)
    ensures GraphOk(InitialEdges(p), 2)
  {
    AudioPathOk();
    FanOutOk(L1);
    FanOutOk(L2);
    TapEdgesOk(L1, p.lfo1Targets);
    TapEdgesOk(L2, p.lfo2Targets);
    UnionOk(AUDIO_PATH, FanOut(L1), 2);
    UnionOk(AUDIO_PATH + FanOut(L1), FanOut(L2), 2);
    UnionOk(AUDIO_PATH + FanOut(L1) + FanOut(L2), TapEdgesOf(L1, p.lfo1Targets), 2);
    UnionOk(AUDIO_PATH + FanOut(L1) + FanOut(L2) + TapEdgesOf(L1, p.lfo1Targets), TapEdgesOf(L2, p.lfo2Targets), 2);
  }

  lemma TapEdgesOk(l: LfoNum, ts: ModTargets)
    ensures GraphOk(TapEdgesOf(l, ts), 2)
  {
    forall e | e in TapEdgesOf(l, ts) ensures EdgeBelow(e, 2) && e.dst != Destination {
      match e.src.t
      case VolumeTarget =>
      case Pitch1Target =>
      case Pitch2Target =>
      case LowPassTarget =>
      case HighPassTarget =>
    }
  }

  lemma AudioPathOk()
    ensures GraphOk(AUDIO_PATH, 2)
  {
  }

  lemma FanOutOk(l: LfoNum)
    ensures GraphOk(FanOut(l), 2)
  {
  }

  lemma UnionOk(a: set<Edge>, b: set<Edge>, bound: nat)
    requires GraphOk(a, bound) && GraphOk(b, bound)
    ensures GraphOk(a + b, bound)
  {
  }

  lemma FixedRefsBelow()
    ensures RefsBelow(FIXED_REFS, 2)
  {
  }

  /** A scheduling call made on a parameter. */
  type Command = (ParamRef, Call)

  /** `r.setTargetAtTime(v, now, 0.05)`. */
  function SetTargetCmd(r: ParamRef, v: real, now: real): Command {
    (r, Add(SetTarget(v, now, TIME_CONSTANT)))
  }

  /** The calls of `cs` made on `r`, in order. */
  function CallsOn(cs: seq<Command>, r: ParamRef): seq<Call>
    decreases |cs|
  {
    if cs == [] then []
    else CallsOn(cs[..|cs| - 1], r) + (if cs[|cs| - 1].0 == r then [cs[|cs| - 1].1] else [])
  }

  /** The state of parameter `r`: its directly set value, with every call made on it replayed. */
  function ParamOf(values: map<ParamRef, real>, cs: seq<Command>, r: ParamRef): AudioParam
    requires r in values
  {
    Replay(Fixed(values[r]), CallsOn(cs, r))
  }

  /**
   * What `r.value` reads once every change scheduled on `r` has taken effect:
   * the target of the last change still pending, else the value last assigned.
   */
  function SettledValue(values: map<ParamRef, real>, cs: seq<Command>, r: ParamRef): real
    requires r in values
  {
    Target(ParamOf(values, cs, r))
  }

  /** Calls appended one at a time are the calls appended together. */
  lemma AppendFive<T>(c0: seq<T>, cs: seq<T>)
    requires |cs| == 5
    ensures c0 + [cs[0]] + [cs[1]] + [cs[2]] + [cs[3]] + [cs[4]] == c0 + cs
  {
  }

  /** The tap gains that depth `d` and flags `ts` call for on the taps of `l`, in source order. */
  function TapCommands(l: LfoNum, ts: ModTargets, d: real, now: real): seq<Command> {
    [SetTargetCmd(Gain(Tap(l, VolumeTarget)), TapGain(d, ts.volume), now),
     SetTargetCmd(Gain(Tap(l, Pitch1Target)), TapGain(d, ts.pitch1), now),
     SetTargetCmd(Gain(Tap(l, Pitch2Target)), TapGain(d, ts.pitch2), now),
     SetTargetCmd(Gain(Tap(l, LowPassTarget)), TapGain(d, ts.lowPassFreq), now),
     SetTargetCmd(Gain(Tap(l, HighPassTarget)), TapGain(d, ts.highPassFreq), now)]
  }

  /** The calls of the `fmBlend` case. */
  function BlendCommands(x: real, now: real): seq<Command> {
    [SetTargetCmd(Gain(ParallelGain(O1)), 1.0 - x, now), SetTargetCmd(Gain(ParallelGain(O2)), 1.0 - x, now),
     SetTargetCmd(Gain(FMGain(O1)), x * 100.0, now), SetTargetCmd(Gain(FMGain(O2)), x, now)]
  }

  /** The calls of the `lfoNDepth` case: the LFO gain, then every tap with the new depth and the stored flags. */
  function DepthCommands(l: LfoNum, ts: ModTargets, x: real, now: real): seq<Command> {
    [SetTargetCmd(Gain(LfoGain(l)), x, now)] + TapCommands(l, ts, x, now)
  }

  /** The scheduling calls `updateParam(name, v)` makes, in order. */
  function Scheduled(name: ParamName, v: Value, p: SynthParams, curve: real -> real, now: real): seq<Command> {
    if !v.Num? then []
    else
      var x := v.x;
      match name
      case Pitch1 => [SetTargetCmd(Freq(Oscillator(0)), x, now)]
      case Pitch2 => [SetTargetCmd(Freq(Oscillator(1)), x, now)]
      case Wave1Volume => [SetTargetCmd(Gain(OscGain(O1)), x, now)]
      case Wave2Volume => [SetTargetCmd(Gain(OscGain(O2)), x, now)]
      case NoiseVolume => [SetTargetCmd(Gain(NoiseGain), NoiseLinear(curve, x), now)]
      case FmBlend => BlendCommands(x, now)
      case LowPassFreq => [SetTargetCmd(Freq(LowPass), x, now)]
      case LowPassResonance => [SetTargetCmd(Q(LowPass), x, now)]
      case HighPassFreq => [SetTargetCmd(Freq(HighPass), x, now)]
      case HighPassResonance => [SetTargetCmd(Q(HighPass), x, now)]
      case Lfo1Rate => [SetTargetCmd(Freq(Lfo(L1)), x, now)]
      case Lfo2Rate => [SetTargetCmd(Freq(Lfo(L2)), x, now)]
      case Lfo1Depth => DepthCommands(L1, p.lfo1Targets, x, now)
      case Lfo2Depth => DepthCommands(L2, p.lfo2Targets, x, now)
      case _ => []
  }

  /** One tap of `updateLFOTargets`: `tap.disconnect()`, then `tap.connect(target)` when enabled. */
  function Retargeted(es: set<Edge>, l: LfoNum, t: TargetName, m: ModTarget): (r: set<Edge>)
    ensures forall e :: e in r <==> (e in es && e.src != Tap(l, t)) || (m.enabled && e == TapRoute(l, t))
  {
    DisconnectAll(es, Tap(l, t)) + (if m.enabled then {TapRoute(l, t)} else {})
  }

  /**
   * The graph after `updateLFOTargets(l, ts)`: each tap of `l` in turn loses
   * every connection and is reconnected to its target when enabled.
   */
  function RewiredEdges(es: set<Edge>, l: LfoNum, ts: ModTargets): set<Edge> {
    var e1 := Retargeted(es, l, VolumeTarget, ts.volume);
    var e2 := Retargeted(e1, l, Pitch1Target, ts.pitch1);
    var e3 := Retargeted(e2, l, Pitch2Target, ts.pitch2);
    var e4 := Retargeted(e3, l, LowPassTarget, ts.lowPassFreq);
    Retargeted(e4, l, HighPassTarget, ts.highPassFreq)
  }

  lemma RetargetedKeepsGraphOk(es: set<Edge>, l: LfoNum, t: TargetName, m: ModTarget, bound: nat)
    requires GraphOk(es, bound) && 2 <= bound
    ensures GraphOk(Retargeted(es, l, t, m), bound)
  {
  }

  lemma RewiredKeepsGraphOk(es: set<Edge>, l: LfoNum, ts: ModTargets, bound: nat)
    requires GraphOk(es, bound) && 2 <= bound
    ensures GraphOk(RewiredEdges(es, l, ts), bound)
  {
    var e1 := Retargeted(es, l, VolumeTarget, ts.volume);
    var e2 := Retargeted(e1, l, Pitch1Target, ts.pitch1);
    var e3 := Retargeted(e2, l, Pitch2Target, ts.pitch2);
    var e4 := Retargeted(e3, l, LowPassTarget, ts.lowPassFreq);
    RetargetedKeepsGraphOk(es, l, VolumeTarget, ts.volume, bound);
    RetargetedKeepsGraphOk(e1, l, Pitch1Target, ts.pitch1, bound);
    RetargetedKeepsGraphOk(e2, l, Pitch2Target, ts.pitch2, bound);
    RetargetedKeepsGraphOk(e3, l, LowPassTarget, ts.lowPassFreq, bound);
    RetargetedKeepsGraphOk(e4, l, HighPassTarget, ts.highPassFreq, bound);
  }

  /** `lfoPitchGain.disconnect(osc.frequency); lfoPitchGain.connect(newOsc.frequency)`, or only the connect when the disconnect throws. */
  function MoveTap(es: set<Edge>, l: LfoNum, k: OscNum, id: nat, p: SynthParams): (r: set<Edge>)
    ensures forall e :: e in r ==> e in es || e == Edge(Tap(l, PitchTarget(k)), ParamIn(Freq(Oscillator(id))))
  {
    var tap := Tap(l, PitchTarget(k));
    if p.Targets(l).Get(PitchTarget(k)).enabled then
      (es - {Edge(tap, ParamIn(Freq(ClosureOsc(k))))}) + {Edge(tap, ParamIn(Freq(Oscillator(id))))}
    else es
  }

  /** The graph after `replaceOscillator(k)` creates oscillator `id`. */
  function SwappedEdges(es: set<Edge>, k: OscNum, id: nat, p: SynthParams): (r: set<Edge>)
    ensures forall e :: e in r ==> e.src != ClosureOsc(k)
    ensures forall e :: e in r ==>
      e in es || e == Edge(Oscillator(id), In(OscGain(k))) || (e.src.Tap? && e.dst == ParamIn(Freq(Oscillator(id))))
  {
    var wired := Connect(es, Oscillator(id), In(OscGain(k)));
    DisconnectAll(MoveTap(MoveTap(wired, L1, k, id, p), L2, k, id, p), ClosureOsc(k))
  }

  /** The source calls of `replaceOscillator(k)` creating oscillator `id`: the new one starts before the old one stops. */
  function SwapLog(log: seq<SourceOp>, k: OscNum, id: nat): seq<SourceOp> {
    log + [Started(Oscillator(id)), Stopped(ClosureOsc(k))]
  }

  /** The fields of a synth, as one value. */
  datatype SynthState = SynthState(
    edges: set<Edge>,
    values: map<ParamRef, real>,
    commands: seq<Command>,
    waves: map<nat, Wave>,
    log: seq<SourceOp>,
    params: SynthParams,
    osc1: nat,
    osc2: nat,
    nextOsc: nat)

  function StateOf(s: MeditationSynth): SynthState
    reads s
  {
    SynthState(s.edges, s.values, s.commands, s.waves, s.log, s.params, s.osc1, s.osc2, s.nextOsc)
  }

  /** The closure oscillators' frequencies exist. */
  predicate StateOk(st: SynthState) {
    Freq(Oscillator(0)) in st.values && Freq(Oscillator(1)) in st.values
  }

  /**
   * The state after `replaceOscillator(k, w)`: a fresh oscillator with waveform
   * `w` and the closure oscillator's settled frequency takes slot `k`.
   */
  function Swapped(st: SynthState, k: OscNum, w: Wave): (r: SynthState)
    requires StateOk(st)
    ensures StateOk(r) && r.params == st.params && r.commands == st.commands
  {
    var id := st.nextOsc;
    st.(edges := SwappedEdges(st.edges, k, id, st.params),
        values := st.values[Freq(Oscillator(id)) := SettledValue(st.values, st.commands, Freq(ClosureOsc(k)))],
        waves := st.waves[id := w],
        log := SwapLog(st.log, k, id),
        osc1 := if k == O1 then id else st.osc1,
        osc2 := if k == O2 then id else st.osc2,
        nextOsc := id + 1)
  }

  /** A state that has each field `replaceOscillator(k, w)` gives is `Swapped(st, k, w)`. */
  lemma SwappedIs(st: SynthState, k: OscNum, w: Wave, r: SynthState)
    requires StateOk(st)
    requires r.edges == DisconnectAll(MoveTap(MoveTap(Connect(st.edges, Oscillator(st.nextOsc), In(OscGain(k))),
      L1, k, st.nextOsc, st.params), L2, k, st.nextOsc, st.params), ClosureOsc(k))
    requires r.values == st.values[Freq(Oscillator(st.nextOsc)) := SettledValue(st.values, st.commands, Freq(ClosureOsc(k)))]
    requires r.waves == st.waves[st.nextOsc := w] && r.log == SwapLog(st.log, k, st.nextOsc)
    requires r.commands == st.commands && r.params == st.params && r.nextOsc == st.nextOsc + 1
    requires k == O1 ==> r.osc1 == st.nextOsc && r.osc2 == st.osc2
    requires k == O2 ==> r.osc2 == st.nextOsc && r.osc1 == st.osc1
    ensures r == Swapped(st, k, w)
  {
  }

  /** The `start()` calls at the end of construction, in order. */
  const START_OPS: seq<SourceOp> :=
    [Started(Oscillator(0)), Started(Oscillator(1)), Started(NoiseSource), Started(Lfo(L1)), Started(Lfo(L2))]

  lemma StartOpsBelow()
    ensures forall op :: op in START_OPS ==> NodeBelow(op.node, 2)
  {
  }

  /** The five sources `stop()` stops, in order: always the closure's originals. */
  const STOP_OPS: seq<SourceOp> :=
    [Stopped(Oscillator(0)), Stopped(Oscillator(1)), Stopped(NoiseSource), Stopped(Lfo(L1)), Stopped(Lfo(L2))]

  /** The 22 nodes `stop()` disconnects. */
  const MIXER: set<Node> :=
    {MasterGain, OscGain(O1), OscGain(O2), ParallelGain(O1), ParallelGain(O2), FMGain(O1), FMGain(O2),
     NoiseGain, LowPass, HighPass}

  const TORN_DOWN: set<Node> := MIXER + {LfoGain(L1), LfoGain(L2)} + TapNodes(L1) + TapNodes(L2)

  /** Tearing the graph down keeps it well formed, and afterwards nothing reaches the destination. */
  lemma StoppedKeepsGraphOk(es: set<Edge>, bound: nat)
    requires GraphOk(es, bound)
    ensures GraphOk(StoppedEdges(es), bound)
    ensures forall n :: Edge(n, Destination) !in StoppedEdges(es)
  {
    StoppedEdgesIff(es);
  }

  /** The first ten disconnects of `stop()`: the master gain and the audio path. */
  function MixerDisconnected(es: set<Edge>): set<Edge> {
    var e1 := DisconnectAll(es, MasterGain);
    var e2 := DisconnectAll(e1, OscGain(O1));
    var e3 := DisconnectAll(e2, OscGain(O2));
    var e4 := DisconnectAll(e3, ParallelGain(O1));
    var e5 := DisconnectAll(e4, ParallelGain(O2));
    var e6 := DisconnectAll(e5, FMGain(O1));
    var e7 := DisconnectAll(e6, FMGain(O2));
    var e8 := DisconnectAll(e7, NoiseGain);
    var e9 := DisconnectAll(e8, LowPass);
    DisconnectAll(e9, HighPass)
  }

  /** The disconnects of the five taps of `l`. */
  function TapsDisconnected(es: set<Edge>, l: LfoNum): set<Edge> {
    var e1 := DisconnectAll(es, Tap(l, VolumeTarget));
    var e2 := DisconnectAll(e1, Tap(l, Pitch1Target));
    var e3 := DisconnectAll(e2, Tap(l, Pitch2Target));
    var e4 := DisconnectAll(e3, Tap(l, LowPassTarget));
    DisconnectAll(e4, Tap(l, HighPassTarget))
  }

  /** The graph after the 22 disconnects of `stop()`, in source order. */
  function StoppedEdges(es: set<Edge>): set<Edge> {
    var mixed := MixerDisconnected(es);
    var lfos := DisconnectAll(DisconnectAll(mixed, LfoGain(L1)), LfoGain(L2));
    TapsDisconnected(TapsDisconnected(lfos, L1), L2)
  }

  lemma MixerDisconnectedIff(es: set<Edge>)
    ensures forall e :: e in MixerDisconnected(es) <==> e in es && e.src !in MIXER
  {
  }

  lemma TapsDisconnectedIff(es: set<Edge>, l: LfoNum)
    ensures forall e :: e in TapsDisconnected(es, l) <==> e in es && e.src !in TapNodes(l)
  {
  }

  /** `stop()` removes exactly the outgoing connections of the 22 nodes it lists. */
  lemma StoppedEdgesIff(es: set<Edge>)
    ensures forall e :: e in StoppedEdges(es) <==> e in es && e.src !in TORN_DOWN
  {
    var mixed := MixerDisconnected(es);
    var lfos := DisconnectAll(DisconnectAll(mixed, LfoGain(L1)), LfoGain(L2));
    MixerDisconnectedIff(es);
    TapsDisconnectedIff(lfos, L1);
    TapsDisconnectedIff(TapsDisconnected(lfos, L1), L2);
  }

  class MeditationSynth {
    /** The connections of the graph. */
    var edges: set<Edge>
    /** The value each audio parameter was last given directly (`.value = v`). */
    var values: map<ParamRef, real>
    /** The scheduling calls made on audio parameters, in order. */
    var commands: seq<Command>
    /** The waveform of every oscillator created so far, by id. */
    var waves: map<nat, Wave>
    /** The start/stop calls made on source nodes. */
    var log: seq<SourceOp>
    /** The parameter record the closure holds; `updateLFOTargets` reassigns its targets. */
    var params: SynthParams
    /** The public slots `synthInstance.osc1` / `synthInstance.osc2`, as oscillator ids. */
    var osc1: nat
    var osc2: nat
    /** The id the next created oscillator gets. */
    var nextOsc: nat
    /** The dB-to-linear curve `Math.pow(10, (v - 12) / 20)`. */
    const noiseCurve: real -> real

    /** The invariant `Wf` on the synth's fields. */
    ghost predicate Valid()
      reads this`nextOsc, this`osc1, this`osc2, this`values, this`edges, this`waves, this`log
    {
      Wf(edges, values, waves, log, osc1, osc2, nextOsc)
    }

    /** The current state of parameter `r`. */
    function Param(r: ParamRef): AudioParam
      reads this
      requires r in values
    {
      ParamOf(values, commands, r)
    }

    /**
     * The first part of `createMeditationSynth(audioContext, p)`: every node is
     * created and its parameters are set directly. Nothing is connected or
     * started yet; `Start` does that.
     */
    constructor (p: SynthParams, curve: real -> real)
      ensures Valid()
      ensures params == p && noiseCurve == curve
      ensures edges == {} && log == []
      ensures values == InitialValues(p, curve) && commands == []
      ensures waves == map[0 := p.wave1Type, 1 := p.wave2Type]
      ensures osc1 == 0 && osc2 == 1 && nextOsc == 2
    {
      params := p;
      noiseCurve := curve;
      edges := {};
      log := [];
      values := InitialValues(p, curve);
      commands := [];
      waves := map[0 := p.wave1Type, 1 := p.wave2Type];
      osc1, osc2, nextOsc := 0, 1, 2;
      new;
      InitialValuesOk(p, curve);
      forall r | FixedRef(r) ensures r in values {
        FixedRefListed(r);
      }
    }

    /** The rest of `createMeditationSynth`: the graph is wired, then the five sources start. */
    method Start()
      requires Valid() && edges == {} && log == [] && nextOsc == 2
      modifies this`edges, this`log
      ensures Valid()
      ensures edges == InitialEdges(params)
      ensures log == START_OPS
    {
      StartedWf(params, values, waves);
      Wire();
      log := START_OPS;
    }

    /** Every connection made at construction, in order. */
    method Wire()
      requires edges == {}
      modifies this`edges
      ensures edges == InitialEdges(params) && GraphOk(edges, 2)
    {
      WireAudioPath();
      FanOutLfo(L1);
      FanOutLfo(L2);
      ConnectTaps(L1);
      ConnectTaps(L2);
      InitialEdgesOk(params);
    }

    /** The fixed connections of the audio path, in the order they are made. */
    method WireAudioPath()
      modifies this`edges
      ensures edges == old(edges) + AUDIO_PATH
    {
      edges := Connect(edges, Oscillator(0), In(OscGain(O1)));
      edges := Connect(edges, Oscillator(1), In(OscGain(O2)));
      edges := Connect(edges, OscGain(O1), In(ParallelGain(O1)));
      edges := Connect(edges, OscGain(O2), In(ParallelGain(O2)));
      edges := Connect(edges, OscGain(O1), In(FMGain(O1)));
      edges := Connect(edges, OscGain(O2), In(FMGain(O2)));
      edges := Connect(edges, FMGain(O1), ParamIn(Freq(Oscillator(1))));
      edges := Connect(edges, NoiseSource, In(NoiseGain));
      edges := Connect(edges, ParallelGain(O1), In(LowPass));
      edges := Connect(edges, ParallelGain(O2), In(LowPass));
      edges := Connect(edges, FMGain(O2), In(LowPass));
      edges := Connect(edges, NoiseGain, In(LowPass));
      edges := Connect(edges, LowPass, In(HighPass));
      edges := Connect(edges, HighPass, In(MasterGain));
      edges := Connect(edges, HighPass, In(Convolver));
      edges := Connect(edges, Convolver, In(ReverbGain));
      edges := Connect(edges, ReverbGain, In(MasterGain));
      edges := Connect(edges, MasterGain, Destination);
    }

    /** `lfo.connect(lfoGain)` and `lfoGain.connect(tap)` for each of the five taps of `l`. */
    method FanOutLfo(l: LfoNum)
      modifies this`edges
      ensures edges == old(edges) + FanOut(l)
    {
      edges := Connect(edges, Lfo(l), In(LfoGain(l)));
      edges := Connect(edges, LfoGain(l), In(Tap(l, VolumeTarget)));
      edges := Connect(edges, LfoGain(l), In(Tap(l, Pitch1Target)));
      edges := Connect(edges, LfoGain(l), In(Tap(l, Pitch2Target)));
      edges := Connect(edges, LfoGain(l), In(Tap(l, LowPassTarget)));
      edges := Connect(edges, LfoGain(l), In(Tap(l, HighPassTarget)));
    }

    /** The construction-time wiring of the taps of `l`: each is connected to its target when enabled. */
    method ConnectTaps(l: LfoNum)
      modifies this`edges
      ensures edges == old(edges) + TapEdgesOf(l, params.Targets(l))
    {
      ConnectTap(l, VolumeTarget);
      ConnectTap(l, Pitch1Target);
      ConnectTap(l, Pitch2Target);
      ConnectTap(l, LowPassTarget);
      ConnectTap(l, HighPassTarget);
      TapEdgesSplit(l, params.Targets(l));
    }

    method ConnectTap(l: LfoNum, t: TargetName)
      modifies this`edges
      ensures edges == old(edges) + TapOnce(l, t, params.Targets(l))
    {
      if params.Targets(l).Get(t).enabled {
        edges := Connect(edges, Tap(l, t), TapTargetPort(t));
      }
    }

    /** `r.setTargetAtTime(v, now, 0.05)`. */
    method Schedule(r: ParamRef, v: real, now: real)
      modifies this`commands
      ensures commands == old(commands) + [SetTargetCmd(r, v, now)]
    {
      commands := commands + [(r, Add(SetTarget(v, now, TIME_CONSTANT)))];
    }

    /** `r.cancelScheduledValues(t)`. */
    method CancelScheduled(r: ParamRef, t: real)
      modifies this`commands
      ensures commands == old(commands) + [(r, CancelFrom(t))]
    {
      commands := commands + [(r, CancelFrom(t))];
    }

    /** `r.linearRampToValueAtTime(v, t)`. */
    method LinearRampTo(r: ParamRef, v: real, t: real)
      modifies this`commands
      ensures commands == old(commands) + [(r, Add(LinearRamp(v, t)))]
    {
      commands := commands + [(r, Add(LinearRamp(v, t)))];
    }

    /** `r.exponentialRampToValueAtTime(v, t)`; the backend refuses `v == 0`. */
    method ExponentialRampTo(r: ParamRef, v: real, t: real)
      requires v != 0.0
      modifies this`commands
      ensures commands == old(commands) + [(r, Add(ExponentialRamp(v, t)))]
    {
      commands := commands + [(r, Add(ExponentialRamp(v, t)))];
    }

    /**
     * `updateParam(name, v)`. A value that is not a number makes the first
     * `setTargetAtTime` throw, and the surrounding catch leaves the state as it was.
     */
    method UpdateParam(name: ParamName, v: Value, now: real)
      modifies this`commands
      ensures commands == old(commands) + Scheduled(name, v, params, noiseCurve, now)
    {
      if !v.Num? {
        return;
      }
      var x := v.x;
      match name {
        case Pitch1 => Schedule(Freq(Oscillator(0)), x, now);
        case Pitch2 => Schedule(Freq(Oscillator(1)), x, now);
        case Wave1Volume => Schedule(Gain(OscGain(O1)), x, now);
        case Wave2Volume => Schedule(Gain(OscGain(O2)), x, now);
        case NoiseVolume =>
          var noiseLinear := if x == 0.0 then 0.0 else noiseCurve(x);
          Schedule(Gain(NoiseGain), noiseLinear, now);
        case FmBlend =>
          var parallel := 1.0 - x;
          Schedule(Gain(ParallelGain(O1)), parallel, now);
          Schedule(Gain(ParallelGain(O2)), parallel, now);
          Schedule(Gain(FMGain(O1)), x * 100.0, now);
          Schedule(Gain(FMGain(O2)), x, now);
        case LowPassFreq => Schedule(Freq(LowPass), x, now);
        case LowPassResonance => Schedule(Q(LowPass), x, now);
        case HighPassFreq => Schedule(Freq(HighPass), x, now);
        case HighPassResonance => Schedule(Q(HighPass), x, now);
        case Lfo1Rate => Schedule(Freq(Lfo(L1)), x, now);
        case Lfo2Rate => Schedule(Freq(Lfo(L2)), x, now);
        case Lfo1Depth => ScheduleDepth(L1, x, now);
        case Lfo2Depth => ScheduleDepth(L2, x, now);
        case _ =>
      }
    }

    /** The `lfoNDepth` case of `updateParam`: the taps use the flags the closure's record holds. */
    method ScheduleDepth(l: LfoNum, x: real, now: real)
      modifies this`commands
      ensures commands == old(commands) + DepthCommands(l, params.Targets(l), x, now)
    {
      var ts := params.Targets(l);
      Schedule(Gain(LfoGain(l)), x, now);
      Schedule(Gain(Tap(l, VolumeTarget)), TapGain(x, ts.volume), now);
      Schedule(Gain(Tap(l, Pitch1Target)), TapGain(x, ts.pitch1), now);
      Schedule(Gain(Tap(l, Pitch2Target)), TapGain(x, ts.pitch2), now);
      Schedule(Gain(Tap(l, LowPassTarget)), TapGain(x, ts.lowPassFreq), now);
      Schedule(Gain(Tap(l, HighPassTarget)), TapGain(x, ts.highPassFreq), now);
    }

    /** `updateLFOTargets(l, ts)`. The taps are scaled by the depth the closure's record holds. */
    method UpdateLFOTargets(l: LfoNum, ts: ModTargets, now: real)
      requires Valid()
      modifies this`params, this`edges, this`commands
      ensures Valid()
      ensures params == old(params).WithTargets(l, ts)
      ensures edges == RewiredEdges(old(edges), l, ts)
      ensures commands == old(commands) + TapCommands(l, ts, old(params).Depth(l), now)
    {
      params := params.WithTargets(l, ts);
      ghost var e0 := edges;
      RetargetTaps(l, ts, params.Depth(l), now);
      RewiredKeepsGraphOk(e0, l, ts, nextOsc);
    }

    /** The five per-tap steps of `updateLFOTargets`, in source order. */
    method RetargetTaps(l: LfoNum, ts: ModTargets, d: real, now: real)
      modifies this`edges, this`commands
      ensures edges == RewiredEdges(old(edges), l, ts)
      ensures commands == old(commands) + TapCommands(l, ts, d, now)
    {
      ghost var c0 := commands;
      RetargetTap(l, VolumeTarget, ts.volume, d, now);
      RetargetTap(l, Pitch1Target, ts.pitch1, d, now);
      RetargetTap(l, Pitch2Target, ts.pitch2, d, now);
      RetargetTap(l, LowPassTarget, ts.lowPassFreq, d, now);
      RetargetTap(l, HighPassTarget, ts.highPassFreq, d, now);
      AppendFive(c0, TapCommands(l, ts, d, now));
    }

    /** One tap of `updateLFOTargets`: disconnect it, then reschedule its gain and reconnect it when enabled. */
    method RetargetTap(l: LfoNum, t: TargetName, m: ModTarget, d: real, now: real)
      modifies this`edges, this`commands
      ensures edges == Retargeted(old(edges), l, t, m)
      ensures commands == old(commands) + [SetTargetCmd(Gain(Tap(l, t)), TapGain(d, m), now)]
    {
      edges := DisconnectAll(edges, Tap(l, t));
      if m.enabled {
        Schedule(Gain(Tap(l, t)), d * (if m.inverted then -1.0 else 1.0), now);
        edges := Connect(edges, Tap(l, t), TapTargetPort(t));
      } else {
        Schedule(Gain(Tap(l, t)), 0.0, now);
      }
    }

    /**
     * `replaceOscillator(k, wave)`: a new oscillator with the closure oscillator's
     * frequency as it reads once its scheduled changes have settled, wired into the oscillator's gain, with the enabled pitch
     * taps moved onto it; it starts, then the closure oscillator stops and is
     * disconnected, and the public slot takes the new one.
     */
    method ReplaceOscillator(k: OscNum, wave: Wave)
      requires Valid()
      modifies this`edges, this`values, this`waves, this`log, this`osc1, this`osc2, this`nextOsc
      ensures Valid()
      ensures StateOk(old(StateOf(this)))
      ensures StateOf(this) == Swapped(old(StateOf(this)), k, wave)
    {
      ghost var st := StateOf(this);
      var currentFreq := SettledValue(values, commands, Freq(ClosureOsc(k)));
      var id := CreateOscillator(wave, currentFreq);
      RouteReplacement(k, id);
      SwapSources(k, id);
      SwappedIs(st, k, wave, StateOf(this));
    }

    /** The new oscillator feeds the oscillator gain, and the enabled pitch taps move onto it. */
    method RouteReplacement(k: OscNum, id: nat)
      requires Valid() && id + 1 == nextOsc
      modifies this`edges
      ensures Valid()
      ensures edges == MoveTap(MoveTap(Connect(old(edges), Oscillator(id), In(OscGain(k))), L1, k, id, params), L2, k, id, params)
    {
      ghost var es := edges;
      edges := Connect(edges, Oscillator(id), In(OscGain(k)));
      MovePitchTap(L1, k, id);
      MovePitchTap(L2, k, id);
      RouteKeepsGraphOk(es, k, id, params);
    }

    /** `newOsc.start(); osc.stop(); osc.disconnect(); synthInstance.osc = newOsc`. */
    method SwapSources(k: OscNum, id: nat)
      requires Valid() && id < nextOsc
      modifies this`edges, this`log, this`osc1, this`osc2
      ensures Valid()
      ensures edges == DisconnectAll(old(edges), ClosureOsc(k))
      ensures log == SwapLog(old(log), k, id)
      ensures k == O1 ==> osc1 == id && osc2 == old(osc2)
      ensures k == O2 ==> osc2 == id && osc1 == old(osc1)
    {
      log := log + [Started(Oscillator(id))];
      log := log + [Stopped(ClosureOsc(k))];
      edges := DisconnectAll(edges, ClosureOsc(k));
      if k == O1 {
        osc1 := id;
      } else {
        osc2 := id;
      }
    }

    /** `createOscillator()` with its `type` and `frequency.value` set. */
    method CreateOscillator(wave: Wave, freq: real) returns (id: nat)
      requires Valid()
      modifies this`nextOsc, this`waves, this`values
      ensures Valid()
      ensures id == old(nextOsc) && nextOsc == id + 1
      ensures waves == old(waves)[id := wave]
      ensures values == old(values)[Freq(Oscillator(id)) := freq]
    {
      id := nextOsc;
      nextOsc := nextOsc + 1;
      waves := waves[id := wave];
      values := values[Freq(Oscillator(id)) := freq];
    }

    /** The try/catch around moving one pitch tap onto oscillator `id`. */
    method MovePitchTap(l: LfoNum, k: OscNum, id: nat)
      modifies this`edges
      ensures edges == MoveTap(old(edges), l, k, id, params)
    {
      var tap := Tap(l, PitchTarget(k));
      if params.Targets(l).Get(PitchTarget(k)).enabled {
        match Disconnect(edges, tap, ParamIn(Freq(ClosureOsc(k)))) {
          case Some(rest) =>
            edges := Connect(rest, tap, ParamIn(Freq(Oscillator(id))));
          case None =>
            edges := Connect(edges, tap, ParamIn(Freq(Oscillator(id))));
        }
      }
    }

    /** `stop()`: the five closure sources stop, then the 22 listed nodes are disconnected. */
    method Stop()
      requires Valid()
      modifies this`edges, this`log
      ensures Valid()
      ensures log == old(log) + STOP_OPS
      ensures edges == StoppedEdges(old(edges))
    {
      StopSources();
      ghost var before := edges;
      TearDown();
      StoppedKeepsGraphOk(before, nextOsc);
    }

    /** The 22 `disconnect()` calls of `stop()`. */
    method TearDown()
      modifies this`edges
      ensures edges == StoppedEdges(old(edges))
    {
      DisconnectMixer();
      edges := DisconnectAll(edges, LfoGain(L1));
      edges := DisconnectAll(edges, LfoGain(L2));
      DisconnectTaps(L1);
      DisconnectTaps(L2);
    }

    /** The five `stop()` calls on the closure's sources. */
    method StopSources()
      modifies this`log
      ensures log == old(log) + STOP_OPS
    {
      ghost var log0 := log;
      log := log + [Stopped(Oscillator(0))];
      log := log + [Stopped(Oscillator(1))];
      log := log + [Stopped(NoiseSource)];
      log := log + [Stopped(Lfo(L1))];
      log := log + [Stopped(Lfo(L2))];
      AppendFive(log0, STOP_OPS);
    }

    /** The first ten disconnects of `stop()`. */
    method DisconnectMixer()
      modifies this`edges
      ensures edges == MixerDisconnected(old(edges))
    {
      edges := DisconnectAll(edges, MasterGain);
      edges := DisconnectAll(edges, OscGain(O1));
      edges := DisconnectAll(edges, OscGain(O2));
      edges := DisconnectAll(edges, ParallelGain(O1));
      edges := DisconnectAll(edges, ParallelGain(O2));
      edges := DisconnectAll(edges, FMGain(O1));
      edges := DisconnectAll(edges, FMGain(O2));
      edges := DisconnectAll(edges, NoiseGain);
      edges := DisconnectAll(edges, LowPass);
      edges := DisconnectAll(edges, HighPass);
    }

    method DisconnectTaps(l: LfoNum)
      modifies this`edges
      ensures edges == TapsDisconnected(old(edges), l)
    {
      edges := DisconnectAll(edges, Tap(l, VolumeTarget));
      edges := DisconnectAll(edges, Tap(l, Pitch1Target));
      edges := DisconnectAll(edges, Tap(l, Pitch2Target));
      edges := DisconnectAll(edges, Tap(l, LowPassTarget));
      edges := DisconnectAll(edges, Tap(l, HighPassTarget));
    }
  }

  /** What one construction-time tap configuration adds to the graph. */
  function TapOnce(l: LfoNum, t: TargetName, ts: ModTargets): set<Edge> {
    if ts.Get(t).enabled then {TapRoute(l, t)} else {}
  }

  lemma TapEdgesSplit(l: LfoNum, ts: ModTargets)
    ensures TapEdgesOf(l, ts) == TapOnce(l, VolumeTarget, ts) + TapOnce(l, Pitch1Target, ts)
      + TapOnce(l, Pitch2Target, ts) + TapOnce(l, LowPassTarget, ts) + TapOnce(l, HighPassTarget, ts)
  {
  }
}
