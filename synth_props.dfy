/**
 * What the operations of the meditation synth mean: the target every
 * `updateParam` case gives each parameter, the tap wiring after construction
 * and after `updateLFOTargets`, and what a hot-swap and `stop()` leave behind.
 * The class methods are specified by the functions of module Synth; the lemmas
 * here relate those functions to independent descriptions.
 */
module SynthProps {
  import opened Params
  import opened Automation
  import opened Graph
  import opened Wrappers
  import opened Synth

  /** The calls one command makes on `r`. */
  function CallsOfOne(c: Command, r: ParamRef): seq<Call> {
    if c.0 == r then [c.1] else []
  }

  /** The calls on `r` of two runs of commands are those of the first, then those of the second. */
  lemma {:induction false} CallsOnAppend(a: seq<Command>, b: seq<Command>, r: ParamRef)
    ensures CallsOn(a + b, r) == CallsOn(a, r) + CallsOn(b, r)
    decreases |b|
  {
    if b == [] {
      assert a + b == a;
    } else {
      var init := b[..|b| - 1];
      assert (a + b)[..|a + b| - 1] == a + init;
      assert (a + b)[|a + b| - 1] == b[|b| - 1];
      CallsOnAppend(a, init, r);
    }
  }

  lemma CallsOnCons(c: Command, cs: seq<Command>, r: ParamRef)
    ensures CallsOn([c] + cs, r) == CallsOfOne(c, r) + CallsOn(cs, r)
  {
    CallsOnAppend([c], cs, r);
    assert [c][..0] == [];
  }

  lemma CallsOnSingles(r: ParamRef)
    ensures forall c :: CallsOn([c], r) == CallsOfOne(c, r)
  {
    forall c ensures CallsOn([c], r) == CallsOfOne(c, r) {
      assert [c][..0] == [];
    }
  }

  /** Commands made after `cs` act on the state `cs` left, one parameter at a time. */
  lemma ParamAfter(values: map<ParamRef, real>, cs: seq<Command>, extra: seq<Command>, r: ParamRef)
    requires r in values
    ensures ParamOf(values, cs + extra, r) == Replay(ParamOf(values, cs, r), CallsOn(extra, r))
  {
    CallsOnAppend(cs, extra, r);
    ReplayAppend(Fixed(values[r]), CallsOn(cs, r), CallsOn(extra, r));
  }

  /** The depth case: the LFO's own gain takes the depth, each of its taps the depth signed by the stored flags. */
  function DepthTarget(l: LfoNum, ts: ModTargets, x: real, r: ParamRef): Option<real> {
    if r == Gain(LfoGain(l)) then Some(x)
    else if r.kind == GainParam && r.node.Tap? && r.node.l == l then Some(TapGain(x, ts.Get(r.node.t)))
    else None
  }

  /**
   * The target `updateParam(name, x)` gives parameter `r`, or `None` when it
   * leaves `r` alone. The pitch cases address the closure oscillators, not the
   * public slots.
   */
  function UpdateTarget(name: ParamName, x: real, p: SynthParams, curve: real -> real, r: ParamRef): Option<real> {
    match name
    case Pitch1 => if r == Freq(Oscillator(0)) then Some(x) else None
    case Pitch2 => if r == Freq(Oscillator(1)) then Some(x) else None
    case Wave1Volume => if r == Gain(OscGain(O1)) then Some(x) else None
    case Wave2Volume => if r == Gain(OscGain(O2)) then Some(x) else None
    case NoiseVolume => if r == Gain(NoiseGain) then Some(if x == 0.0 then 0.0 else curve(x)) else None
    case FmBlend =>
      if r == Gain(ParallelGain(O1)) || r == Gain(ParallelGain(O2)) then Some(1.0 - x)
      else if r == Gain(FMGain(O1)) then Some(100.0 * x)
      else if r == Gain(FMGain(O2)) then Some(x)
      else None
    case LowPassFreq => if r == Freq(LowPass) then Some(x) else None
    case LowPassResonance => if r == Q(LowPass) then Some(x) else None
    case HighPassFreq => if r == Freq(HighPass) then Some(x) else None
    case HighPassResonance => if r == Q(HighPass) then Some(x) else None
    case Lfo1Rate => if r == Freq(Lfo(L1)) then Some(x) else None
    case Lfo2Rate => if r == Freq(Lfo(L2)) then Some(x) else None
    case Lfo1Depth => DepthTarget(L1, p.lfo1Targets, x, r)
    case Lfo2Depth => DepthTarget(L2, p.lfo2Targets, x, r)
    case _ => None
  }

  /** The names `updateParam` has a case for; every other name reaches the default branch. */
  predicate Handled(name: ParamName) {
    !(name.Volume? || name.Wave1Type? || name.Wave2Type? || name.Lfo1Targets? || name.Lfo2Targets?)
  }

  /** The five tap commands touch each tap of `l` once, with the depth signed by its flag, and nothing else. */
  lemma TapCalls(l: LfoNum, ts: ModTargets, d: real, now: real, r: ParamRef)
    ensures CallsOn(TapCommands(l, ts, d, now), r) ==
      if r.kind == GainParam && r.node.Tap? && r.node.l == l
      then [Add(SetTarget(TapGain(d, ts.Get(r.node.t)), now, TIME_CONSTANT))] else []
  {
    var cs := TapCommands(l, ts, d, now);
    TapCallsSplit(cs, r);
    if r.kind == GainParam && r.node.Tap? && r.node.l == l {
      assert r == Gain(Tap(l, r.node.t));
    }
  }

  /** The calls five commands make on `r` are those of each command in turn. */
  lemma TapCallsSplit(cs: seq<Command>, r: ParamRef)
    requires |cs| == 5
    ensures CallsOn(cs, r) ==
      CallsOfOne(cs[0], r) + CallsOfOne(cs[1], r) + CallsOfOne(cs[2], r) + CallsOfOne(cs[3], r) + CallsOfOne(cs[4], r)
  {
    CallsOnPrefix(cs, 5, r);
    CallsOnPrefix(cs, 4, r);
    CallsOnPrefix(cs, 3, r);
    CallsOnPrefix(cs, 2, r);
    CallsOnPrefix(cs, 1, r);
    assert cs[..5] == cs;
    assert cs[..0] == [];
  }

  /** The calls of the first `k` commands are those of the first `k - 1`, then those of command `k - 1`. */
  lemma CallsOnPrefix(cs: seq<Command>, k: nat, r: ParamRef)
    requires 0 < k <= |cs|
    ensures CallsOn(cs[..k], r) == CallsOn(cs[..k - 1], r) + CallsOfOne(cs[k - 1], r)
  {
    assert cs[..k][..k - 1] == cs[..k - 1];
  }

  lemma BlendCalls(x: real, now: real, r: ParamRef, p: SynthParams, curve: real -> real)
    ensures CallsOn(BlendCommands(x, now), r) ==
      match UpdateTarget(FmBlend, x, p, curve, r)
      case Some(v) => [Add(SetTarget(v, now, TIME_CONSTANT))]
      case None => []
  {
    var cs := BlendCommands(x, now);
    assert cs == [cs[0]] + ([cs[1]] + ([cs[2]] + [cs[3]]));
    CallsOnCons(cs[0], [cs[1]] + ([cs[2]] + [cs[3]]), r);
    CallsOnCons(cs[1], [cs[2]] + [cs[3]], r);
    CallsOnCons(cs[2], [cs[3]], r);
    CallsOnCons(cs[3], [], r);
    assert [cs[3]] + [] == [cs[3]];
  }

  lemma DepthCalls(l: LfoNum, ts: ModTargets, x: real, now: real, r: ParamRef)
    ensures CallsOn(DepthCommands(l, ts, x, now), r) ==
      match DepthTarget(l, ts, x, r)
      case Some(v) => [Add(SetTarget(v, now, TIME_CONSTANT))]
      case None => []
  {
    CallsOnCons(SetTargetCmd(Gain(LfoGain(l)), x, now), TapCommands(l, ts, x, now), r);
    TapCalls(l, ts, x, now, r);
  }

  /** The commands of `updateParam(name, v)` make exactly one call on each parameter it targets, and none on the others. */
  lemma ScheduledCalls(name: ParamName, v: Value, p: SynthParams, curve: real -> real, now: real, r: ParamRef)
    ensures CallsOn(Scheduled(name, v, p, curve, now), r) ==
      if !v.Num? then []
      else match UpdateTarget(name, v.x, p, curve, r)
        case Some(t) => [Add(SetTarget(t, now, TIME_CONSTANT))]
        case None => []
  {
    CallsOnSingles(r);
    if v.Num? {
      var x := v.x;
      match name
      case FmBlend => BlendCalls(x, now, r, p, curve);
      case Lfo1Depth => DepthCalls(L1, p.lfo1Targets, x, now, r);
      case Lfo2Depth => DepthCalls(L2, p.lfo2Targets, x, now, r);
      case _ =>
    }
  }

  /**
   * `updateParam(name, v)` gives every parameter it targets that target,
   * scheduled at `now` with time constant 0.05 after whatever was pending, and
   * leaves every other parameter as it was.
   */
  lemma UpdateParamEffect(values: map<ParamRef, real>, cs: seq<Command>, name: ParamName, v: Value,
                          p: SynthParams, curve: real -> real, now: real, r: ParamRef)
    requires r in values
    ensures var after := ParamOf(values, cs + Scheduled(name, v, p, curve, now), r);
      if v.Num? && UpdateTarget(name, v.x, p, curve, r).Some? then
        after == SetTargetAtTime(ParamOf(values, cs, r), UpdateTarget(name, v.x, p, curve, r).value, now, TIME_CONSTANT)
        && Target(after) == UpdateTarget(name, v.x, p, curve, r).value
      else after == ParamOf(values, cs, r)
  {
    ParamAfter(values, cs, Scheduled(name, v, p, curve, now), r);
    ScheduledCalls(name, v, p, curve, now, r);
  }

  /** `updateParam` schedules nothing exactly when the value is not a number or the name has no case. */
  lemma UnhandledSchedulesNothing(name: ParamName, v: Value, p: SynthParams, curve: real -> real, now: real)
    ensures Scheduled(name, v, p, curve, now) == [] <==> !v.Num? || !Handled(name)
  {
  }

  /** The live blend update: the parallel gains head for `1 - x`, the FM gains for `100x` and `x`. */
  lemma BlendTargets(x: real, p: SynthParams, curve: real -> real)
    ensures UpdateTarget(FmBlend, x, p, curve, Gain(ParallelGain(O1))) == Some(1.0 - x)
    ensures UpdateTarget(FmBlend, x, p, curve, Gain(ParallelGain(O2))) == Some(1.0 - x)
    ensures UpdateTarget(FmBlend, x, p, curve, Gain(FMGain(O1))) == Some(100.0 * x)
    ensures UpdateTarget(FmBlend, x, p, curve, Gain(FMGain(O2))) == Some(x)
    ensures forall r :: UpdateTarget(FmBlend, x, p, curve, r).Some? ==>
      r.kind == GainParam && (r.node.ParallelGain? || r.node.FMGain?)
  {
  }

  /** A depth update touches the LFO's gain and its five taps, and nothing of the other LFO. */
  lemma DepthLeavesOtherLfo(values: map<ParamRef, real>, cs: seq<Command>, l: LfoNum, x: real,
                            p: SynthParams, curve: real -> real, now: real, r: ParamRef)
    requires r in values
    requires r.node == LfoGain(OtherLfo(l)) || (r.node.Tap? && r.node.l == OtherLfo(l))
    ensures ParamOf(values, cs + Scheduled(if l == L1 then Lfo1Depth else Lfo2Depth, Num(x), p, curve, now), r)
      == ParamOf(values, cs, r)
  {
    UpdateParamEffect(values, cs, if l == L1 then Lfo1Depth else Lfo2Depth, Num(x), p, curve, now, r);
  }

  lemma InitialValueAt(p: SynthParams, curve: real -> real, r: ParamRef)
    requires r in FIXED_REFS
    ensures r in InitialValues(p, curve) && InitialValues(p, curve)[r] == InitialValue(p, curve, r)
  {
  }

  lemma TapRefFixed(l: LfoNum, t: TargetName)
    ensures Gain(Tap(l, t)) in FIXED_REFS
  {
    assert Gain(Tap(l, t)) in TapRefs(l) by {
      match t
      case VolumeTarget =>
      case Pitch1Target =>
      case Pitch2Target =>
      case LowPassTarget =>
      case HighPassTarget =>
    }
  }

  /** Construction sets the master gain to 0 and splits the blend gains as `1 - fmBlend` and `fmBlend`. */
  lemma InitialLevels(p: SynthParams, curve: real -> real)
    ensures InitialValues(p, curve)[Gain(MasterGain)] == 0.0
    ensures InitialValues(p, curve)[Gain(ParallelGain(O1))] == 1.0 - p.fmBlend
    ensures InitialValues(p, curve)[Gain(ParallelGain(O2))] == 1.0 - p.fmBlend
    ensures InitialValues(p, curve)[Gain(FMGain(O1))] == p.fmBlend
    ensures InitialValues(p, curve)[Gain(FMGain(O2))] == p.fmBlend
    ensures InitialValues(p, curve)[Gain(LfoGain(L1))] == p.lfo1Depth
    ensures InitialValues(p, curve)[Gain(LfoGain(L2))] == p.lfo2Depth
  {
    InitialValueOf(p, curve, Gain(MasterGain));
    InitialValueOf(p, curve, Gain(ParallelGain(O1)));
    InitialValueOf(p, curve, Gain(ParallelGain(O2)));
    InitialValueOf(p, curve, Gain(FMGain(O1)));
    InitialValueOf(p, curve, Gain(FMGain(O2)));
    InitialValueOf(p, curve, Gain(LfoGain(L1)));
    InitialValueOf(p, curve, Gain(LfoGain(L2)));
  }

  /** A parameter of a created node starts at the value construction gives it. */
  lemma InitialValueOf(p: SynthParams, curve: real -> real, r: ParamRef)
    requires FixedRef(r)
    ensures r in InitialValues(p, curve) && InitialValues(p, curve)[r] == InitialValue(p, curve, r)
  {
    FixedRefListed(r);
    InitialValueAt(p, curve, r);
  }

  /** After construction each tap carries the depth signed by its flag, and 0 when its target is off. */
  lemma InitialTapGain(p: SynthParams, curve: real -> real, l: LfoNum, t: TargetName)
    ensures InitialValues(p, curve)[Gain(Tap(l, t))] == TapGain(p.Depth(l), p.Targets(l).Get(t))
    ensures !p.Targets(l).Get(t).enabled ==> InitialValues(p, curve)[Gain(Tap(l, t))] == 0.0
  {
    TapRefFixed(l, t);
    InitialValueAt(p, curve, Gain(Tap(l, t)));
  }

  /** After construction each tap is connected to its target exactly when enabled, and to nothing else. */
  lemma InitialTapWiring(p: SynthParams, l: LfoNum, t: TargetName)
    ensures forall d :: Edge(Tap(l, t), d) in InitialEdges(p) <==> p.Targets(l).Get(t).enabled && d == TapTargetPort(t)
  {
    InitialTapEdges(p);
    assert p.Targets(l).Get(t).enabled ==> TapRoute(l, t) in TapEdgesOf(l, p.Targets(l));
  }

  /** The connections construction makes from a tap are the ones its flags enable. */
  lemma InitialTapEdges(p: SynthParams)
    ensures forall e :: e in InitialEdges(p) && e.src.Tap? ==> EnabledRoute(e, e.src.l, p.Targets(e.src.l))
  {
    AudioPathFrom();
    FanOutFrom(L1);
    FanOutFrom(L2);
    TapEdgesEnabled(L1, p.lfo1Targets);
    TapEdgesEnabled(L2, p.lfo2Targets);
  }

  lemma TapEdgesEnabled(l: LfoNum, ts: ModTargets)
    ensures forall e :: e in TapEdgesOf(l, ts) ==> EnabledRoute(e, l, ts)
  {
    forall e | e in TapEdgesOf(l, ts) ensures EnabledRoute(e, l, ts) {
      assert e == TapRoute(l, e.src.t);
    }
  }

  /** No connection of the audio path leaves from a tap. */
  lemma AudioPathFrom()
    ensures forall e :: e in AUDIO_PATH ==> !e.src.Tap?
  {
  }

  /** The fan-out of an LFO leaves from the LFO and its gain. */
  lemma FanOutFrom(l: LfoNum)
    ensures forall e :: e in FanOut(l) ==> e.src == Lfo(l) || e.src == LfoGain(l)
  {
  }

  /** Every connection into a node of the audio path made at construction belongs to the audio path. */
  lemma InitialSignalEdges(p: SynthParams)
    ensures forall e :: e in InitialEdges(p) && e.dst.In? && !e.dst.node.Tap? && !e.dst.node.LfoGain? ==> e in AUDIO_PATH
  {
    TapEdgesOfParams(L1, p.lfo1Targets);
    TapEdgesOfParams(L2, p.lfo2Targets);
    FanOutInto(L1);
    FanOutInto(L2);
  }

  /** The fan-out of an LFO feeds only its own gain and its taps. */
  lemma FanOutInto(l: LfoNum)
    ensures forall e :: e in FanOut(l) ==> e.dst.In? && (e.dst.node.Tap? || e.dst.node.LfoGain?)
  {
  }

  lemma AudioPathLowPass()
    ensures forall n :: Edge(n, In(LowPass)) in AUDIO_PATH <==>
      n == ParallelGain(O1) || n == ParallelGain(O2) || n == FMGain(O2) || n == NoiseGain
  {
  }

  lemma AudioPathMaster()
    ensures forall n :: Edge(n, In(MasterGain)) in AUDIO_PATH <==> n == HighPass || n == ReverbGain
  {
  }

  /**
   * The mix at construction: the only signal inputs of the low-pass filter are
   * both parallel gains, the FM carrier and the noise.
   */
  lemma LowPassInputs(p: SynthParams)
    ensures forall n :: Edge(n, In(LowPass)) in InitialEdges(p) <==>
      n == ParallelGain(O1) || n == ParallelGain(O2) || n == FMGain(O2) || n == NoiseGain
  {
    InitialSignalEdges(p);
    AudioPathLowPass();
  }

  /** The master gain is fed dry by the high-pass filter and wet by the reverb, and nothing else. */
  lemma MasterInputs(p: SynthParams)
    ensures forall n :: Edge(n, In(MasterGain)) in InitialEdges(p) <==> n == HighPass || n == ReverbGain
  {
    InitialSignalEdges(p);
    AudioPathMaster();
  }

  /**
   * The rest of the fixed chain: `osc1FMGain` modulates the frequency of the
   * closure's second oscillator, the low-pass feeds the high-pass, the
   * high-pass feeds the convolver, which feeds the reverb gain; only the master
   * gain reaches the destination.
   */
  lemma InitialChain(p: SynthParams)
    ensures Edge(FMGain(O1), ParamIn(Freq(Oscillator(1)))) in InitialEdges(p)
    ensures Edge(LowPass, In(HighPass)) in InitialEdges(p)
    ensures Edge(HighPass, In(Convolver)) in InitialEdges(p) && Edge(Convolver, In(ReverbGain)) in InitialEdges(p)
    ensures forall n :: Edge(n, Destination) in InitialEdges(p) <==> n == MasterGain
  {
    InitialEdgesOk(p);
  }

  /** Taps only ever connect to parameters. */
  lemma TapEdgesOfParams(l: LfoNum, ts: ModTargets)
    ensures forall e :: e in TapEdgesOf(l, ts) ==> e.dst.ParamIn?
  {
    forall e | e in TapEdgesOf(l, ts) ensures e.dst.ParamIn? {
      match e.src.t
      case VolumeTarget =>
      case Pitch1Target =>
      case Pitch2Target =>
      case LowPassTarget =>
      case HighPassTarget =>
    }
  }

  /** A connection of a tap of `l` to its own target, which `ts` enables. */
  predicate EnabledRoute(e: Edge, l: LfoNum, ts: ModTargets) {
    e.src.Tap? && e.src.l == l && ts.Get(e.src.t).enabled && e.dst == TapTargetPort(e.src.t)
  }

  /** `updateLFOTargets(l, ts)` rewires exactly the taps of `l`: to their target where enabled, nowhere otherwise. */
  lemma RewiredEdgesIff(es: set<Edge>, l: LfoNum, ts: ModTargets)
    ensures forall e :: e in RewiredEdges(es, l, ts) <==>
      (e in es && !(e.src.Tap? && e.src.l == l)) || EnabledRoute(e, l, ts)
  {
    forall e ensures e in RewiredEdges(es, l, ts) <==> (e in es && !(e.src.Tap? && e.src.l == l)) || EnabledRoute(e, l, ts) {
      if e.src.Tap? {
        match e.src.t
        case VolumeTarget =>
        case Pitch1Target =>
        case Pitch2Target =>
        case LowPassTarget =>
        case HighPassTarget =>
      }
    }
  }

  /**
   * After `updateLFOTargets(l, ts)` a tap of `l` has one outgoing connection, to
   * its target, when enabled and none otherwise; every other node keeps its
   * connections, the taps of the other LFO included.
   */
  lemma RewiredOutgoing(es: set<Edge>, l: LfoNum, ts: ModTargets, n: Node)
    ensures n.Tap? && n.l == l ==>
      Outgoing(RewiredEdges(es, l, ts), n) == if ts.Get(n.t).enabled then {TapTargetPort(n.t)} else {}
    ensures !(n.Tap? && n.l == l) ==> Outgoing(RewiredEdges(es, l, ts), n) == Outgoing(es, n)
  {
    RewiredEdgesIff(es, l, ts);
  }

  /**
   * The gains `updateLFOTargets(l, ts)` schedules: each tap of `l` heads for the
   * stored depth signed by its new flag, or 0; no other parameter is touched.
   */
  lemma RetargetEffect(values: map<ParamRef, real>, cs: seq<Command>, l: LfoNum, ts: ModTargets,
                       d: real, now: real, r: ParamRef)
    requires r in values
    ensures var after := ParamOf(values, cs + TapCommands(l, ts, d, now), r);
      if r.kind == GainParam && r.node.Tap? && r.node.l == l then
        after == SetTargetAtTime(ParamOf(values, cs, r), TapGain(d, ts.Get(r.node.t)), now, TIME_CONSTANT)
      else after == ParamOf(values, cs, r)
  {
    ParamAfter(values, cs, TapCommands(l, ts, d, now), r);
    TapCalls(l, ts, d, now, r);
  }

  /**
   * The hot-swap wiring: the new oscillator feeds the oscillator gain; an
   * enabled pitch tap then feeds the new frequency and no longer the closure
   * oscillator's, whether or not the disconnect found a connection; the
   * closure oscillator has no connection left; every other connection stays.
   */
  lemma SwapWiring(es: set<Edge>, k: OscNum, id: nat, p: SynthParams)
    requires 2 <= id
    ensures Edge(Oscillator(id), In(OscGain(k))) in SwappedEdges(es, k, id, p)
    ensures forall l :: p.Targets(l).Get(PitchTarget(k)).enabled ==>
      Edge(Tap(l, PitchTarget(k)), ParamIn(Freq(Oscillator(id)))) in SwappedEdges(es, k, id, p)
      && Edge(Tap(l, PitchTarget(k)), ParamIn(Freq(ClosureOsc(k)))) !in SwappedEdges(es, k, id, p)
    ensures Outgoing(SwappedEdges(es, k, id, p), ClosureOsc(k)) == {}
    ensures forall e: Edge :: e.src != ClosureOsc(k) && e.src != Tap(L1, PitchTarget(k)) && e.src != Tap(L2, PitchTarget(k)) ==>
      (e in SwappedEdges(es, k, id, p) <==> e in es || e == Edge(Oscillator(id), In(OscGain(k))))
  {
    forall l | p.Targets(l).Get(PitchTarget(k)).enabled
      ensures Edge(Tap(l, PitchTarget(k)), ParamIn(Freq(Oscillator(id)))) in SwappedEdges(es, k, id, p)
    {
      var wired := Connect(es, Oscillator(id), In(OscGain(k)));
      var once := MoveTap(wired, L1, k, id, p);
      assert Edge(Tap(l, PitchTarget(k)), ParamIn(Freq(Oscillator(id)))) in MoveTap(once, L2, k, id, p);
    }
  }

  /** After a swap the new oscillator sounds and the closure oscillator does not; nothing else changes. */
  lemma SwapSounding(log: seq<SourceOp>, k: OscNum, id: nat, n: Node)
    requires 2 <= id && Stopped(Oscillator(id)) !in log
    ensures Sounding(SwapLog(log, k, id), Oscillator(id))
    ensures !Sounding(SwapLog(log, k, id), ClosureOsc(k))
    ensures n != Oscillator(id) && n != ClosureOsc(k) ==> (Sounding(SwapLog(log, k, id), n) <==> Sounding(log, n))
  {
  }

  /**
   * Swapping the same slot twice: the second swap stops the closure oscillator
   * again, never the first replacement, which keeps sounding and feeding the
   * oscillator gain; an enabled pitch tap then feeds both replacements.
   */
  lemma DoubleSwapLeaks(log: seq<SourceOp>, es: set<Edge>, k: OscNum, a: nat, b: nat, p: SynthParams, l: LfoNum)
    requires 2 <= a < b && Stopped(Oscillator(a)) !in log
    ensures Sounding(SwapLog(SwapLog(log, k, a), k, b), Oscillator(a))
    ensures Edge(Oscillator(a), In(OscGain(k))) in SwappedEdges(SwappedEdges(es, k, a, p), k, b, p)
    ensures p.Targets(l).Get(PitchTarget(k)).enabled ==>
      Edge(Tap(l, PitchTarget(k)), ParamIn(Freq(Oscillator(a)))) in SwappedEdges(SwappedEdges(es, k, a, p), k, b, p)
      && Edge(Tap(l, PitchTarget(k)), ParamIn(Freq(Oscillator(b)))) in SwappedEdges(SwappedEdges(es, k, a, p), k, b, p)
  {
    SwapWiring(es, k, a, p);
    SwapWiring(SwappedEdges(es, k, a, p), k, b, p);
  }

  /**
   * `stop()` stops only the closure's sources: a replacement oscillator keeps
   * sounding and keeps its connection into the oscillator gain.
   */
  lemma StopLeavesReplacement(log: seq<SourceOp>, es: set<Edge>, id: nat, k: OscNum)
    requires 2 <= id
    ensures Sounding(log, Oscillator(id)) ==> Sounding(log + STOP_OPS, Oscillator(id))
    ensures Edge(Oscillator(id), In(OscGain(k))) in es ==> Edge(Oscillator(id), In(OscGain(k))) in StoppedEdges(es)
  {
    StoppedEdgesIff(es);
  }
}
