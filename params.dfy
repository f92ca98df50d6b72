/**
 * The parameter set of the meditation synth (the `SynthParams` / `AudioParams`
 * interfaces of the engine and its hook), the names under which the hook
 * addresses single parameters, and the dynamically typed values it passes.
 */
module Params {

  /** Waveform shapes an oscillator can take (`OscillatorType`, without 'custom'). */
  datatype Wave = Sine | Square | Sawtooth | Triangle

  /** One (LFO, target) routing flag pair. */
  datatype ModTarget = ModTarget(enabled: bool, inverted: bool)

  /** The five parameters an LFO can modulate. */
  datatype TargetName = VolumeTarget | Pitch1Target | Pitch2Target | LowPassTarget | HighPassTarget

  const ALL_TARGETS: seq<TargetName> :=
    [VolumeTarget, Pitch1Target, Pitch2Target, LowPassTarget, HighPassTarget]

  /** The `LFOTargets` record: one flag pair per target. */
  datatype ModTargets = ModTargets(
    volume: ModTarget,
    pitch1: ModTarget,
    pitch2: ModTarget,
    lowPassFreq: ModTarget,
    highPassFreq: ModTarget)
  {
    function Get(t: TargetName): ModTarget {
      match t
      case VolumeTarget => volume
      case Pitch1Target => pitch1
      case Pitch2Target => pitch2
      case LowPassTarget => lowPassFreq
      case HighPassTarget => highPassFreq
    }
  }

  datatype LfoNum = L1 | L2
  datatype OscNum = O1 | O2

  function OtherLfo(l: LfoNum): LfoNum {
    if l == L1 then L2 else L1
  }

  /** The LFO target that modulates the pitch of oscillator `k`. */
  function PitchTarget(k: OscNum): TargetName {
    if k == O1 then Pitch1Target else Pitch2Target
  }

  /** The full parameter set, fields in declaration order. */
  datatype SynthParams = SynthParams(
    volume: real,
    pitch1: real,
    pitch2: real,
    wave1Type: Wave,
    wave2Type: Wave,
    wave1Volume: real,
    wave2Volume: real,
    noiseVolume: real,
    fmBlend: real,
    lowPassFreq: real,
    lowPassResonance: real,
    highPassFreq: real,
    highPassResonance: real,
    lfo1Rate: real,
    lfo1Depth: real,
    lfo1Targets: ModTargets,
    lfo2Rate: real,
    lfo2Depth: real,
    lfo2Targets: ModTargets)
  {
    function Targets(l: LfoNum): ModTargets {
      if l == L1 then lfo1Targets else lfo2Targets
    }

    function Depth(l: LfoNum): real {
      if l == L1 then lfo1Depth else lfo2Depth
    }

    /** `params.lfoNTargets = targets`. */
    function WithTargets(l: LfoNum, t: ModTargets): (r: SynthParams)
      ensures r.Targets(l) == t && r.Targets(OtherLfo(l)) == Targets(OtherLfo(l))
      ensures r.lfo1Depth == lfo1Depth && r.lfo2Depth == lfo2Depth
    {
      if l == L1 then this.(lfo1Targets := t) else this.(lfo2Targets := t)
    }
  }

  /** `keyof AudioParams`, in declaration order. */
  datatype ParamName =
    | Volume | Pitch1 | Pitch2 | Wave1Type | Wave2Type | Wave1Volume | Wave2Volume
    | NoiseVolume | FmBlend | LowPassFreq | LowPassResonance | HighPassFreq
    | HighPassResonance | Lfo1Rate | Lfo1Depth | Lfo1Targets | Lfo2Rate | Lfo2Depth
    | Lfo2Targets

  const ALL_NAMES: seq<ParamName> :=
    [ Volume, Pitch1, Pitch2, Wave1Type, Wave2Type, Wave1Volume, Wave2Volume,
      NoiseVolume, FmBlend, LowPassFreq, LowPassResonance, HighPassFreq,
      HighPassResonance, Lfo1Rate, Lfo1Depth, Lfo1Targets, Lfo2Rate, Lfo2Depth,
      Lfo2Targets ]

  /** The run-time value behind a `value: any` argument. */
  datatype Value = Num(x: real) | WaveValue(wave: Wave) | TargetsValue(targets: ModTargets)

  /** The parameter named `name` holds values of the kind of `v`. */
  predicate Fits(name: ParamName, v: Value) {
    match name
    case Wave1Type | Wave2Type => v.WaveValue?
    case Lfo1Targets | Lfo2Targets => v.TargetsValue?
    case _ => v.Num?
  }

  /** Reads the field called `name`. */
  function Get(p: SynthParams, name: ParamName): (v: Value)
    ensures Fits(name, v)
  {
    match name
    case Volume => Num(p.volume)
    case Pitch1 => Num(p.pitch1)
    case Pitch2 => Num(p.pitch2)
    case Wave1Type => WaveValue(p.wave1Type)
    case Wave2Type => WaveValue(p.wave2Type)
    case Wave1Volume => Num(p.wave1Volume)
    case Wave2Volume => Num(p.wave2Volume)
    case NoiseVolume => Num(p.noiseVolume)
    case FmBlend => Num(p.fmBlend)
    case LowPassFreq => Num(p.lowPassFreq)
    case LowPassResonance => Num(p.lowPassResonance)
    case HighPassFreq => Num(p.highPassFreq)
    case HighPassResonance => Num(p.highPassResonance)
    case Lfo1Rate => Num(p.lfo1Rate)
    case Lfo1Depth => Num(p.lfo1Depth)
    case Lfo1Targets => TargetsValue(p.lfo1Targets)
    case Lfo2Rate => Num(p.lfo2Rate)
    case Lfo2Depth => Num(p.lfo2Depth)
    case Lfo2Targets => TargetsValue(p.lfo2Targets)
  }

  /** `{ ...p, [name]: v }`: the record with the one field replaced. */
  function Set(p: SynthParams, name: ParamName, v: Value): SynthParams
    requires Fits(name, v)
  {
    match name
    case Volume => p.(volume := v.x)
    case Pitch1 => p.(pitch1 := v.x)
    case Pitch2 => p.(pitch2 := v.x)
    case Wave1Type => p.(wave1Type := v.wave)
    case Wave2Type => p.(wave2Type := v.wave)
    case Wave1Volume => p.(wave1Volume := v.x)
    case Wave2Volume => p.(wave2Volume := v.x)
    case NoiseVolume => p.(noiseVolume := v.x)
    case FmBlend => p.(fmBlend := v.x)
    case LowPassFreq => p.(lowPassFreq := v.x)
    case LowPassResonance => p.(lowPassResonance := v.x)
    case HighPassFreq => p.(highPassFreq := v.x)
    case HighPassResonance => p.(highPassResonance := v.x)
    case Lfo1Rate => p.(lfo1Rate := v.x)
    case Lfo1Depth => p.(lfo1Depth := v.x)
    case Lfo1Targets => p.(lfo1Targets := v.targets)
    case Lfo2Rate => p.(lfo2Rate := v.x)
    case Lfo2Depth => p.(lfo2Depth := v.x)
    case Lfo2Targets => p.(lfo2Targets := v.targets)
  }

  /** Setting a field and reading it back gives the value set; every other field keeps its value. */
  lemma GetSet(p: SynthParams, name: ParamName, v: Value, other: ParamName)
    requires Fits(name, v)
    ensures Get(Set(p, name, v), name) == v
    ensures other != name ==> Get(Set(p, name, v), other) == Get(p, other)
  {
  }

  /** `Object.entries(p)`: every field with its name, in declaration order. */
  function Entries(p: SynthParams): (es: seq<(ParamName, Value)>)
    ensures |es| == |ALL_NAMES|
    ensures forall i :: 0 <= i < |es| ==> es[i] == (ALL_NAMES[i], Get(p, ALL_NAMES[i]))
    ensures forall i :: 0 <= i < |es| ==> Fits(es[i].0, es[i].1)
  {
    [ (Volume, Num(p.volume)),
      (Pitch1, Num(p.pitch1)),
      (Pitch2, Num(p.pitch2)),
      (Wave1Type, WaveValue(p.wave1Type)),
      (Wave2Type, WaveValue(p.wave2Type)),
      (Wave1Volume, Num(p.wave1Volume)),
      (Wave2Volume, Num(p.wave2Volume)),
      (NoiseVolume, Num(p.noiseVolume)),
      (FmBlend, Num(p.fmBlend)),
      (LowPassFreq, Num(p.lowPassFreq)),
      (LowPassResonance, Num(p.lowPassResonance)),
      (HighPassFreq, Num(p.highPassFreq)),
      (HighPassResonance, Num(p.highPassResonance)),
      (Lfo1Rate, Num(p.lfo1Rate)),
      (Lfo1Depth, Num(p.lfo1Depth)),
      (Lfo1Targets, TargetsValue(p.lfo1Targets)),
      (Lfo2Rate, Num(p.lfo2Rate)),
      (Lfo2Depth, Num(p.lfo2Depth)),
      (Lfo2Targets, TargetsValue(p.lfo2Targets)) ]
  }

  /** The position of `name` in declaration order. */
  function NameIndex(name: ParamName): (i: nat)
    ensures i < |ALL_NAMES| && ALL_NAMES[i] == name
  {
    match name
    case Volume => 0 case Pitch1 => 1 case Pitch2 => 2 case Wave1Type => 3
    case Wave2Type => 4 case Wave1Volume => 5 case Wave2Volume => 6
    case NoiseVolume => 7 case FmBlend => 8 case LowPassFreq => 9
    case LowPassResonance => 10 case HighPassFreq => 11 case HighPassResonance => 12
    case Lfo1Rate => 13 case Lfo1Depth => 14 case Lfo1Targets => 15
    case Lfo2Rate => 16 case Lfo2Depth => 17 case Lfo2Targets => 18
  }

  /** Every name appears exactly once in declaration order, so `Entries` visits each field once. */
  lemma NamesDistinct()
    ensures forall i :: 0 <= i < |ALL_NAMES| ==> NameIndex(ALL_NAMES[i]) == i
    ensures forall i, j :: 0 <= i < |ALL_NAMES| && 0 <= j < |ALL_NAMES| && ALL_NAMES[i] == ALL_NAMES[j] ==> i == j
  {
    forall i | 0 <= i < |ALL_NAMES| ensures NameIndex(ALL_NAMES[i]) == i {
    }
  }
}
