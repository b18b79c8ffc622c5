/**
  The material parameter mapper and the glyph geometry parameters handed to
  the rendering engine.

  The mapper is a total dispatch on the material type. Metallic, glass, neon
  and plastic take some of the user's sliders; chrome and gold are fixed
  archetypes that ignore them. Keys the source leaves unset are `None`, which
  means the engine's own default applies.
 */
module Appearance {
  import opened Settings

  /** Standard is the metal/rough model; Physical adds transmission. */
  datatype ShadingModel = Standard | Physical

  /** Self-illumination: emitted colour and its strength. */
  datatype Emission = Emission(color: string, intensity: real)

  /** Transmissive glass parameters; a material carrying them is transparent. */
  datatype Refraction = Refraction(transmission: real, thickness: real, ior: real, opacity: real)

  datatype ResolvedMaterial = ResolvedMaterial(
    model: ShadingModel,
    color: string,
    roughness: real,
    metalness: real,
    envMapIntensity: Option<real>,
    emission: Option<Emission>,
    refraction: Option<Refraction>)

  const ChromeColor := "#e5e7eb"
  const GoldColor := "#fbbf24"

  /** Whether the resolved material takes the user's colour and roughness. */
  predicate UsesUserSurface(k: MaterialType) {
    !(k == Chrome || k == Gold)
  }

  /** Whether the resolved material takes the user's metalness slider. */
  predicate UsesUserMetalness(k: MaterialType) {
    k == Metallic || k == Neon || k.Unrecognised?
  }

  function Resolve(m: MaterialSettings): (r: ResolvedMaterial)
    ensures UsesUserSurface(m.kind) ==> r.color == m.color && r.roughness == m.roughness
    ensures UsesUserMetalness(m.kind) ==> r.metalness == m.metalness
    ensures !UsesUserMetalness(m.kind) && UsesUserSurface(m.kind) ==> r.metalness == 0.0
    ensures r.emission.Some? <==> m.kind == Neon
    ensures r.refraction.Some? <==> m.kind == Glass
    ensures r.model == Physical <==> m.kind == Glass
    ensures r.envMapIntensity.None? <==> m.kind == Neon || m.kind.Unrecognised?
  {
    match m.kind
    case Metallic =>
      ResolvedMaterial(Standard, m.color, m.roughness, m.metalness, Some(1.0), None, None)
    case Chrome =>
      ResolvedMaterial(Standard, ChromeColor, 0.05, 1.0, Some(1.5), None, None)
    case Gold =>
      ResolvedMaterial(Standard, GoldColor, 0.2, 1.0, Some(1.2), None, None)
    case Glass =>
      ResolvedMaterial(Physical, m.color, m.roughness, 0.0, Some(1.0), None,
                       Some(Refraction(0.9, 0.5, 1.5, m.opacity)))
    case Neon =>
      ResolvedMaterial(Standard, m.color, m.roughness, m.metalness, None,
                       Some(Emission(m.color, m.emissiveIntensity)), None)
    case Plastic =>
      ResolvedMaterial(Standard, m.color, m.roughness, 0.0, Some(0.5), None, None)
    case Unrecognised(_) =>
      ResolvedMaterial(Standard, m.color, m.roughness, m.metalness, None, None, None)
  }

  /** Chrome looks the same whatever colour, roughness and metalness the user
      stored: near-mirror light grey, fully metallic, boosted reflections. */
  lemma ChromeArchetype(m: MaterialSettings, color: string, roughness: real, metalness: real)
    requires m.kind == Chrome
    ensures Resolve(m) == Resolve(m.(color := color, roughness := roughness, metalness := metalness))
    ensures var r := Resolve(m);
            r.color == ChromeColor && r.roughness == 0.05 && r.metalness == 1.0 &&
            r.envMapIntensity == Some(1.5)
  {
  }

  /** Gold likewise ignores the user's surface sliders. */
  lemma GoldArchetype(m: MaterialSettings, color: string, roughness: real, metalness: real)
    requires m.kind == Gold
    ensures Resolve(m) == Resolve(m.(color := color, roughness := roughness, metalness := metalness))
    ensures var r := Resolve(m);
            r.color == GoldColor && r.roughness == 0.2 && r.metalness == 1.0 &&
            r.envMapIntensity == Some(1.2)
  {
  }

  /** Metallic passes the three surface sliders through with standard
      reflections and no glow. */
  lemma MetallicPassThrough(m: MaterialSettings)
    requires m.kind == Metallic
    ensures var r := Resolve(m);
            r.color == m.color && r.roughness == m.roughness && r.metalness == m.metalness &&
            r.envMapIntensity == Some(1.0) && r.emission.None? && r.model == Standard
  {
  }

  /** Glass: the user's colour, roughness and opacity, no metalness, and fixed
      transmission, thickness and index of refraction. */
  lemma GlassRefracts(m: MaterialSettings)
    requires m.kind == Glass
    ensures var r := Resolve(m);
            r.model == Physical && r.color == m.color && r.roughness == m.roughness &&
            r.metalness == 0.0 && r.envMapIntensity == Some(1.0) &&
            r.refraction == Some(Refraction(0.9, 0.5, 1.5, m.opacity))
  {
  }

  /** Neon glows in its own base colour at the user's intensity. */
  lemma NeonGlows(m: MaterialSettings)
    requires m.kind == Neon
    ensures var r := Resolve(m);
            r.emission == Some(Emission(r.color, m.emissiveIntensity)) &&
            r.color == m.color && r.roughness == m.roughness && r.metalness == m.metalness
  {
  }

  /** Plastic is never metallic, whatever the slider says, and reflects less. */
  lemma PlasticIsDielectric(m: MaterialSettings, metalness: real)
    requires m.kind == Plastic
    ensures Resolve(m) == Resolve(m.(metalness := metalness))
    ensures Resolve(m).metalness == 0.0 && Resolve(m).envMapIntensity == Some(0.5)
  {
  }

  /** A type outside the six falls back to a plain pass-through. */
  lemma UnrecognisedFallsBack(m: MaterialSettings)
    requires m.kind.Unrecognised?
    ensures Resolve(m) ==
      ResolvedMaterial(Standard, m.color, m.roughness, m.metalness, None, None, None)
  {
  }

  /** The glow slider only matters for neon and the opacity slider only for
      glass: hidden sliders have no visible effect. */
  lemma HiddenSlidersAreInert(m: MaterialSettings, glow: real, opacity: real)
    ensures m.kind != Neon ==> Resolve(m.(emissiveIntensity := glow)) == Resolve(m)
    ensures m.kind != Glass ==> Resolve(m.(opacity := opacity)) == Resolve(m)
  {
  }

  // ---------------------------------------------------------------------
  // Glyph geometry
  // ---------------------------------------------------------------------

  datatype GlyphGeometry = GlyphGeometry(
    text: string,
    size: real,
    height: real,
    letterSpacing: real,
    bevelEnabled: bool,
    bevelThickness: real,
    bevelSize: real,
    bevelSegments: nat,
    curveSegments: nat)

  /** The word shown when the text field is empty. */
  const Placeholder := "Hello"

  function Geometry(t: TextSettings): (g: GlyphGeometry)
    ensures g.text != []
    ensures t.text != [] ==> g.text == t.text
    ensures t.text == [] ==> g.text == Placeholder
    ensures g.size == t.fontSize && g.height == t.depth && g.letterSpacing == t.letterSpacing
    ensures g.bevelEnabled == t.bevelEnabled
    ensures g.bevelThickness == t.bevelThickness && g.bevelSize == t.bevelSize
    ensures g.bevelSegments == 8 && g.curveSegments == 16
  {
    GlyphGeometry(OrElse(t.text, Placeholder), t.fontSize, t.depth, t.letterSpacing,
                  t.bevelEnabled, t.bevelThickness, t.bevelSize, 8, 16)
  }

  /** Geometry depends on the text only through what is rendered: clearing
      the field renders the same glyphs as typing the placeholder. */
  lemma EmptyTextRendersPlaceholder(t: TextSettings)
    ensures Geometry(t.(text := [])) == Geometry(t.(text := Placeholder))
  {
  }
}
