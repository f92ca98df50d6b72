/**
 * The preset table of the meditation tone generator and the lookup by id.
 */
module Presets {
  import opened Params
  import opened Wrappers

  datatype Preset = Preset(id: string, name: string, description: string, params: SynthParams)

  const DEEP_FOCUS: Preset :=
    Preset("deep-focus", "Deep Focus", "Clear, steady tones for concentration and mental clarity",
      SynthParams(0.4, 220.0, 330.0, Sine, Triangle, 0.8, 0.2, 1.5, 0.2, 1200.0, 0.5, 100.0, 0.5, 0.02, 0.1,
        ModTargets(ModTarget(true, false), ModTarget(false, false), ModTarget(false, false), ModTarget(false, false), ModTarget(false, false)),
        0.1, 0.05,
        ModTargets(ModTarget(false, false), ModTarget(true, false), ModTarget(false, false), ModTarget(false, false), ModTarget(false, false))))

  const SLEEP_INDUCTION: Preset :=
    Preset("sleep-induction", "Sleep Induction", "Low, warm frequencies to guide you into restful sleep",
      SynthParams(0.25, 110.0, 82.4, Sine, Sine, 0.7, 0.3, 0.8, 0.0, 400.0, 1.2, 60.0, 0.3, 0.01, 0.3,
        ModTargets(ModTarget(true, false), ModTarget(false, false), ModTarget(false, false), ModTarget(false, false), ModTarget(false, false)),
        0.03, 0.1,
        ModTargets(ModTarget(false, false), ModTarget(true, false), ModTarget(false, false), ModTarget(false, false), ModTarget(false, false))))

  const ANXIETY_RELIEF: Preset :=
    Preset("anxiety-relief", "Anxiety Relief", "Gentle, flowing tones to calm the nervous system",
      SynthParams(0.35, 174.0, 261.0, Sine, Triangle, 0.6, 0.4, 2.2, 0.1, 600.0, 0.8, 80.0, 0.4, 0.04, 0.25,
        ModTargets(ModTarget(true, false), ModTarget(false, false), ModTarget(false, false), ModTarget(false, false), ModTarget(false, false)),
        0.06, 0.08,
        ModTargets(ModTarget(false, false), ModTarget(true, false), ModTarget(false, false), ModTarget(false, false), ModTarget(false, false))))

  const CHAKRA_BALANCING: Preset :=
    Preset("chakra-balancing", "Chakra Balancing", "Sacred frequencies for energy alignment and spiritual harmony",
      SynthParams(0.4, 256.0, 384.0, Sine, Triangle, 0.5, 0.5, 0.0, 0.6, 1000.0, 1.5, 120.0, 0.6, 0.07, 0.2,
        ModTargets(ModTarget(false, false), ModTarget(true, false), ModTarget(false, false), ModTarget(false, false), ModTarget(false, false)),
        0.03, 0.15,
        ModTargets(ModTarget(true, false), ModTarget(false, false), ModTarget(false, false), ModTarget(false, false), ModTarget(false, false))))

  const NATURE_HARMONY: Preset :=
    Preset("nature-harmony", "Nature Harmony", "Organic, flowing tones that mirror natural rhythms",
      SynthParams(0.45, 196.0, 147.0, Triangle, Sine, 0.7, 0.3, 3.5, 0.4, 800.0, 1.0, 90.0, 0.7, 0.05, 0.3,
        ModTargets(ModTarget(true, false), ModTarget(false, false), ModTarget(false, false), ModTarget(false, false), ModTarget(false, false)),
        0.12, 0.12,
        ModTargets(ModTarget(false, false), ModTarget(true, false), ModTarget(false, false), ModTarget(false, false), ModTarget(false, false))))

  const MORPHEUS: Preset :=
    Preset("morpheus", "Morpheus", "Ethereal dream frequencies to guide you into the realm of dreams",
      SynthParams(0.2, 98.0, 65.4, Sine, Triangle, 0.5, 0.5, 0.5, 0.3, 300.0, 1.8, 45.0, 0.2, 0.008, 0.4,
        ModTargets(ModTarget(true, false), ModTarget(false, false), ModTarget(false, false), ModTarget(true, false), ModTarget(false, false)),
        0.02, 0.15,
        ModTargets(ModTarget(false, false), ModTarget(true, false), ModTarget(true, true), ModTarget(false, false), ModTarget(false, false))))

  const CUSTOM: Preset :=
    Preset("custom", "Custom", "Your personalized meditation settings",
      SynthParams(0.3, 220.0, 220.0, Sine, Triangle, 0.7, 0.3, 0.0, 0.0, 800.0, 1.0, 80.0, 1.0, 0.05, 0.2,
        ModTargets(ModTarget(true, false), ModTarget(false, false), ModTarget(false, false), ModTarget(false, false), ModTarget(false, false)),
        0.3, 0.1,
        ModTargets(ModTarget(false, false), ModTarget(true, false), ModTarget(false, false), ModTarget(false, false), ModTarget(false, false))))

  /** `meditationPresets`, in table order. */
  const MEDITATION_PRESETS: seq<Preset> :=
    [DEEP_FOCUS, SLEEP_INDUCTION, ANXIETY_RELIEF, CHAKRA_BALANCING, NATURE_HARMONY, MORPHEUS, CUSTOM]

  /** `ps.find(p => p.id === id)`: the first preset in order with that id. */
  function Find(ps: seq<Preset>, id: string): (r: Option<Preset>)
    ensures r.None? <==> forall i :: 0 <= i < |ps| ==> ps[i].id != id
    ensures r.Some? ==> r.value in ps && r.value.id == id
    decreases |ps|
  {
    if ps == [] then None
    else if ps[0].id == id then Some(ps[0])
    else Find(ps[1..], id)
  }

  /** `getPresetById(id)`. */
  function GetPresetById(id: string): Option<Preset> {
    Find(MEDITATION_PRESETS, id)
  }

  /** The lookup returns the first entry that matches, whatever follows it. */
  lemma {:induction false} FindFirstMatch(ps: seq<Preset>, id: string, i: nat)
    requires i < |ps| && ps[i].id == id
    requires forall j :: 0 <= j < i ==> ps[j].id != id
    ensures Find(ps, id) == Some(ps[i])
    decreases i
  {
    if i > 0 {
      FindFirstMatch(ps[1..], id, i - 1);
    }
  }

  /** No two entries of the table share an id. */
  lemma IdsDistinct()
    ensures forall i, j :: 0 <= i < j < |MEDITATION_PRESETS| ==> MEDITATION_PRESETS[i].id != MEDITATION_PRESETS[j].id
  {
  }

  /** Every entry is found under its own id. */
  lemma LookupFindsEntry(i: nat)
    requires i < |MEDITATION_PRESETS|
    ensures GetPresetById(MEDITATION_PRESETS[i].id) == Some(MEDITATION_PRESETS[i])
  {
    IdsDistinct();
    FindFirstMatch(MEDITATION_PRESETS, MEDITATION_PRESETS[i].id, i);
  }

  /** The ids the table holds, and no other, are found. */
  lemma LookupDefinedIff(id: string)
    ensures GetPresetById(id).Some? <==>
      id in {"deep-focus", "sleep-induction", "anxiety-relief", "chakra-balancing", "nature-harmony", "morpheus", "custom"}
  {
    var ps := MEDITATION_PRESETS;
    assert ps[0].id == "deep-focus" && ps[1].id == "sleep-induction" && ps[2].id == "anxiety-relief";
    assert ps[3].id == "chakra-balancing" && ps[4].id == "nature-harmony" && ps[5].id == "morpheus" && ps[6].id == "custom";
  }

  /** Every preset keeps the volume and the blend within [0, 1] and the noise within [0, 12]. */
  lemma PresetRanges()
    ensures forall p :: p in MEDITATION_PRESETS ==>
      && 0.0 <= p.params.volume <= 1.0
      && 0.0 <= p.params.fmBlend <= 1.0
      && 0.0 <= p.params.noiseVolume <= 12.0
  {
  }

  /** In every preset a target is inverted only where it is enabled. */
  lemma InvertedOnlyIfEnabled()
    ensures forall p, l, t :: p in MEDITATION_PRESETS && p.params.Targets(l).Get(t).inverted ==>
      p.params.Targets(l).Get(t).enabled
  {
    forall p, l, t | p in MEDITATION_PRESETS && p.params.Targets(l).Get(t).inverted
      ensures p.params.Targets(l).Get(t).enabled
    {
      match t
      case VolumeTarget =>
      case Pitch1Target =>
      case Pitch2Target =>
      case LowPassTarget =>
      case HighPassTarget =>
    }
  }
}
