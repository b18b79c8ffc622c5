/**
  The preset resolver: a fixed table from the seven preset names to partial
  material records, and the shallow merge that applies one of them to the
  current material settings.
 */
module Presets {
  import opened Settings

  datatype PresetName = ChromePreset | GoldPreset | NeonBlue | NeonPink | GlassPreset | Matte | Holographic

  /** A partial material record: `None` marks a key the patch does not carry. */
  datatype MaterialPatch = MaterialPatch(
    kind: Option<MaterialType>,
    color: Option<string>,
    roughness: Option<real>,
    metalness: Option<real>,
    emissiveIntensity: Option<real>,
    opacity: Option<real>)

  function PatchGet(p: MaterialPatch, f: MaterialField): Option<Value> {
    match f
    case Type => if p.kind.Some? then Some(Kind(p.kind.value)) else None
    case Color => if p.color.Some? then Some(Str(p.color.value)) else None
    case Roughness => if p.roughness.Some? then Some(Num(p.roughness.value)) else None
    case Metalness => if p.metalness.Some? then Some(Num(p.metalness.value)) else None
    case EmissiveIntensity =>
      if p.emissiveIntensity.Some? then Some(Num(p.emissiveIntensity.value)) else None
    case Opacity => if p.opacity.Some? then Some(Num(p.opacity.value)) else None
  }

  /** The keys a patch carries. */
  function Keys(p: MaterialPatch): set<MaterialField> {
    set f: MaterialField | PatchGet(p, f).Some?
  }

  function Pick<T>(o: Option<T>, current: T): T {
    if o.Some? then o.value else current
  }

  /** `{ ...m, ...p }`: every key the patch carries takes the patch's value,
      every other key keeps the value it had. */
  function Merge(m: MaterialSettings, p: MaterialPatch): (r: MaterialSettings)
    ensures forall f: MaterialField :: PatchGet(p, f).Some? ==> MaterialGet(r, f) == PatchGet(p, f).value
    ensures forall f: MaterialField :: PatchGet(p, f).None? ==> MaterialGet(r, f) == MaterialGet(m, f)
  {
    MaterialSettings(
      Pick(p.kind, m.kind),
      Pick(p.color, m.color),
      Pick(p.roughness, m.roughness),
      Pick(p.metalness, m.metalness),
      Pick(p.emissiveIntensity, m.emissiveIntensity),
      Pick(p.opacity, m.opacity))
  }

  /** The fixed preset table. */
  function PresetConfig(name: PresetName): MaterialPatch {
    match name
    case ChromePreset => MaterialPatch(Some(Chrome), Some("#e5e7eb"), Some(0.05), Some(1.0), None, None)
    case GoldPreset => MaterialPatch(Some(Gold), Some("#fbbf24"), Some(0.2), Some(1.0), None, None)
    case NeonBlue => MaterialPatch(Some(Neon), Some("#3b82f6"), Some(0.3), Some(0.5), Some(2.0), None)
    case NeonPink => MaterialPatch(Some(Neon), Some("#ec4899"), Some(0.3), Some(0.5), Some(2.0), None)
    case GlassPreset => MaterialPatch(Some(Glass), Some("#93c5fd"), Some(0.1), Some(0.0), None, Some(0.6))
    case Matte => MaterialPatch(Some(Plastic), Some("#1f2937"), Some(0.9), Some(0.0), None, None)
    case Holographic => MaterialPatch(Some(Metallic), Some("#a78bfa"), Some(0.1), Some(0.9), None, None)
  }

  function ApplyPreset(m: MaterialSettings, name: PresetName): (r: MaterialSettings)
    ensures forall f: MaterialField :: f in Keys(PresetConfig(name)) ==>
      MaterialGet(r, f) == PatchGet(PresetConfig(name), f).value
    ensures forall f: MaterialField :: f !in Keys(PresetConfig(name)) ==>
      MaterialGet(r, f) == MaterialGet(m, f)
  {
    Merge(m, PresetConfig(name))
  }

  /** Merging the same patch a second time changes nothing. */
  lemma MergeIdempotent(m: MaterialSettings, p: MaterialPatch)
    ensures Merge(Merge(m, p), p) == Merge(m, p)
  {
  }

  lemma ApplyPresetIdempotent(m: MaterialSettings, name: PresetName)
    ensures ApplyPreset(ApplyPreset(m, name), name) == ApplyPreset(m, name)
  {
    MergeIdempotent(m, PresetConfig(name));
  }

  /** Which keys each preset carries: all of them set the type, colour,
      roughness and metalness; only the neon presets set the glow and only
      glass sets the opacity. */
  lemma PresetKeys(name: PresetName)
    ensures {Type, Color, Roughness, Metalness} <= Keys(PresetConfig(name))
    ensures EmissiveIntensity in Keys(PresetConfig(name)) <==> name == NeonBlue || name == NeonPink
    ensures Opacity in Keys(PresetConfig(name)) <==> name == GlassPreset
  {
  }

  /** The fields a preset omits are left exactly as they were. */
  lemma PresetLeavesOmittedFields(m: MaterialSettings, name: PresetName)
    ensures name != NeonBlue && name != NeonPink ==>
      ApplyPreset(m, name).emissiveIntensity == m.emissiveIntensity
    ensures name != GlassPreset ==> ApplyPreset(m, name).opacity == m.opacity
  {
  }

  /** Applying "neon-blue" writes the five neon keys and keeps the opacity. */
  lemma NeonBlueScenario(m: MaterialSettings)
    ensures ApplyPreset(m, NeonBlue)
         == MaterialSettings(Neon, "#3b82f6", 0.3, 0.5, 2.0, m.opacity)
  {
  }

  /** Applies the presets of `names` in order. */
  function ApplyPresets(m: MaterialSettings, names: seq<PresetName>): MaterialSettings
    decreases |names|
  {
    if names == [] then m else ApplyPresets(ApplyPreset(m, names[0]), names[1..])
  }

  /** After any non-empty run of presets the type, colour, roughness and
      metalness are those of the last preset, whatever came before. */
  lemma {:induction false} LastPresetDecides(m: MaterialSettings, names: seq<PresetName>)
    requires names != []
    ensures var r := ApplyPresets(m, names);
            var last := PresetConfig(names[|names| - 1]);
            Some(r.kind) == last.kind && Some(r.color) == last.color &&
            Some(r.roughness) == last.roughness && Some(r.metalness) == last.metalness
    decreases |names|
  {
    if |names| == 1 {
      assert names[1..] == [];
    } else {
      LastPresetDecides(ApplyPreset(m, names[0]), names[1..]);
      assert names[1..][|names[1..]| - 1] == names[|names| - 1];
    }
  }

  /** A swatch button of the preset grid. */
  datatype Swatch = Swatch(id: PresetName, caption: string, color: string)

  const Swatches: seq<Swatch> := [
    Swatch(ChromePreset, "Chrome", "#e5e7eb"),
    Swatch(GoldPreset, "Gold", "#fbbf24"),
    Swatch(NeonBlue, "Neon Blue", "#3b82f6"),
    Swatch(NeonPink, "Neon Pink", "#ec4899"),
    Swatch(GlassPreset, "Glass", "#93c5fd"),
    Swatch(Matte, "Matte", "#1f2937"),
    Swatch(Holographic, "Holo", "#a78bfa")
  ]

  /** The presets reachable from the swatch grid. */
  function SwatchIds(): set<PresetName> {
    set i | 0 <= i < |Swatches| :: Swatches[i].id
  }

  /** The swatch grid lists every preset exactly once, and each swatch shows
      the colour its preset writes. */
  lemma SwatchesMatchPresets()
    ensures |Swatches| == 7
    ensures forall i, j :: 0 <= i < j < |Swatches| ==> Swatches[i].id != Swatches[j].id
    ensures forall name: PresetName :: name in SwatchIds()
    ensures forall i :: 0 <= i < |Swatches| ==> PresetConfig(Swatches[i].id).color == Some(Swatches[i].color)
  {
    forall name: PresetName
      ensures name in SwatchIds()
    {
      var i := match name
        case ChromePreset => 0
        case GoldPreset => 1
        case NeonBlue => 2
        case NeonPink => 3
        case GlassPreset => 4
        case Matte => 5
        case Holographic => 6;
      assert Swatches[i].id == name;
    }
  }
}
