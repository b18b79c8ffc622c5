/**
  The mutation contract of the control panel: every text input, colour
  input, slider, toggle and selection button of the five tabs replaces one
  key of one settings record and leaves every other key as it was. The preset
  swatches, "Reset All Settings" and "Export Image" are modelled by
  `Presets.ApplyPreset`, `Session.ResetAll` and `Session.PressExportButton`.
 */
module Controls {
  import opened Settings

  // ---------------------------------------------------------------------
  // Text tab
  // ---------------------------------------------------------------------

  datatype TextEdit =
    | TypeText(input: string)
    | SetFontSize(v: real)
    | SetDepth(v: real)
    | SetLetterSpacing(v: real)
    | ToggleBevel
    | SetBevelThickness(v: real)
    | SetBevelSize(v: real)

  function TextTarget(e: TextEdit): TextField {
    match e
    case TypeText(_) => Content
    case SetFontSize(_) => FontSize
    case SetDepth(_) => Depth
    case SetLetterSpacing(_) => LetterSpacing
    case ToggleBevel => BevelEnabled
    case SetBevelThickness(_) => BevelThickness
    case SetBevelSize(_) => BevelSize
  }

  /** `s.slice(0, n)`: the first `n` characters of `s`, or all of it. */
  function Truncate(s: string, n: nat): (r: string)
    ensures |r| <= n && r <= s
    ensures |s| <= n ==> r == s
    ensures |s| >= n ==> |r| == n
  {
    if |s| <= n then s else s[..n]
  }

  function ApplyTextEdit(t: TextSettings, e: TextEdit): (r: TextSettings)
    ensures TextChangedOnly(t, r, TextTarget(e))
    ensures e.TypeText? ==> |r.text| <= MaxTextLength && r.text <= e.input
    ensures e.TypeText? && |e.input| <= MaxTextLength ==> r.text == e.input
    ensures e.TypeText? && |e.input| >= MaxTextLength ==> |r.text| == MaxTextLength
    ensures e.ToggleBevel? ==> r.bevelEnabled == !t.bevelEnabled
    ensures e.SetFontSize? ==> r.fontSize == e.v
    ensures e.SetDepth? ==> r.depth == e.v
    ensures e.SetLetterSpacing? ==> r.letterSpacing == e.v
    ensures e.SetBevelThickness? ==> r.bevelThickness == e.v
    ensures e.SetBevelSize? ==> r.bevelSize == e.v
  {
    match e
    case TypeText(input) => t.(text := Truncate(input, MaxTextLength))
    case SetFontSize(v) => t.(fontSize := v)
    case SetDepth(v) => t.(depth := v)
    case SetLetterSpacing(v) => t.(letterSpacing := v)
    case ToggleBevel => t.(bevelEnabled := !t.bevelEnabled)
    case SetBevelThickness(v) => t.(bevelThickness := v)
    case SetBevelSize(v) => t.(bevelSize := v)
  }

  /** Turning the bevel off hides its sliders but keeps their values, so
      turning it back on restores the record exactly. */
  lemma BevelOffKeepsValues(t: TextSettings)
    requires t.bevelEnabled
    ensures var off := ApplyTextEdit(t, ToggleBevel);
            !off.bevelEnabled &&
            off.bevelThickness == t.bevelThickness && off.bevelSize == t.bevelSize &&
            ApplyTextEdit(off, ToggleBevel) == t
  {
  }

  /** Two edits of different keys of the text record commute. */
  lemma TextEditsCommute(t: TextSettings, e1: TextEdit, e2: TextEdit)
    requires TextTarget(e1) != TextTarget(e2)
    ensures ApplyTextEdit(ApplyTextEdit(t, e1), e2) == ApplyTextEdit(ApplyTextEdit(t, e2), e1)
  {
  }

  // ---------------------------------------------------------------------
  // Material tab
  // ---------------------------------------------------------------------

  datatype MaterialEdit =
    | SelectType(k: MaterialType)
    | SetColor(c: string)
    | SetRoughness(v: real)
    | SetMetalness(v: real)
    | SetEmissiveIntensity(v: real)
    | SetOpacity(v: real)

  function MaterialTarget(e: MaterialEdit): MaterialField {
    match e
    case SelectType(_) => Type
    case SetColor(_) => Color
    case SetRoughness(_) => Roughness
    case SetMetalness(_) => Metalness
    case SetEmissiveIntensity(_) => EmissiveIntensity
    case SetOpacity(_) => Opacity
  }

  function ApplyMaterialEdit(m: MaterialSettings, e: MaterialEdit): (r: MaterialSettings)
    ensures MaterialChangedOnly(m, r, MaterialTarget(e))
    ensures e.SelectType? ==> r.kind == e.k
    ensures e.SetColor? ==> r.color == e.c
    ensures e.SetRoughness? ==> r.roughness == e.v
    ensures e.SetMetalness? ==> r.metalness == e.v
    ensures e.SetEmissiveIntensity? ==> r.emissiveIntensity == e.v
    ensures e.SetOpacity? ==> r.opacity == e.v
  {
    match e
    case SelectType(k) => m.(kind := k)
    case SetColor(c) => m.(color := c)
    case SetRoughness(v) => m.(roughness := v)
    case SetMetalness(v) => m.(metalness := v)
    case SetEmissiveIntensity(v) => m.(emissiveIntensity := v)
    case SetOpacity(v) => m.(opacity := v)
  }

  /** The type buttons, in display order. */
  const TypeButtons: seq<MaterialType> := [Metallic, Chrome, Gold, Glass, Neon, Plastic]

  /** Every type button stores one of the six offered types, and every offered
      type has a button. */
  lemma TypeButtonsOfferEveryType()
    ensures forall i :: 0 <= i < |TypeButtons| ==> IsOffered(TypeButtons[i])
    ensures forall k: MaterialType :: IsOffered(k) ==> k in TypeButtons
  {
  }

  /** Switching to another type and back restores the record exactly: the
      sliders of the intermediate type's hidden fields are never cleared. */
  lemma SelectTypeRoundTrip(m: MaterialSettings, k: MaterialType)
    ensures ApplyMaterialEdit(ApplyMaterialEdit(m, SelectType(k)), SelectType(m.kind)) == m
  {
  }

  /** Applies a run of type selections in order. */
  function SelectTypes(m: MaterialSettings, ks: seq<MaterialType>): MaterialSettings
    decreases |ks|
  {
    if ks == [] then m else SelectTypes(ApplyMaterialEdit(m, SelectType(ks[0])), ks[1..])
  }

  /** Any run of type selections keeps colour, roughness, metalness, glow and
      opacity, and leaves the last selected type (or the original type when
      the run is empty). */
  lemma {:induction false} TypeSwitchesKeepSliders(m: MaterialSettings, ks: seq<MaterialType>)
    ensures MaterialChangedOnly(m, SelectTypes(m, ks), Type)
    ensures SelectTypes(m, ks).kind == if ks == [] then m.kind else ks[|ks| - 1]
    decreases |ks|
  {
    if ks != [] {
      var next := ApplyMaterialEdit(m, SelectType(ks[0]));
      TypeSwitchesKeepSliders(next, ks[1..]);
      if |ks| > 1 {
        assert ks[1..][|ks[1..]| - 1] == ks[|ks| - 1];
      }
    }
  }

  /** Opacity survives glass, then chrome, then glass again. */
  lemma GlassChromeGlassKeepsOpacity(m: MaterialSettings, opacity: real)
    requires m.kind == Glass
    ensures var edited := ApplyMaterialEdit(m, SetOpacity(opacity));
            var chrome := ApplyMaterialEdit(edited, SelectType(Chrome));
            var back := ApplyMaterialEdit(chrome, SelectType(Glass));
            back.kind == Glass && back.opacity == opacity
  {
  }

  // ---------------------------------------------------------------------
  // Scene tab
  // ---------------------------------------------------------------------

  datatype SceneEdit =
    | ToggleAutoRotate
    | SetRotationSpeed(v: real)
    | ToggleBackgroundGradient
    | SetGradientTop(c: string)
    | SetGradientBottom(c: string)
    | SetBackgroundColor(c: string)
    | ToggleGrid
    | ToggleReflection

  predicate IsSceneToggle(e: SceneEdit) {
    e.ToggleAutoRotate? || e.ToggleBackgroundGradient? || e.ToggleGrid? || e.ToggleReflection?
  }

  function SceneTarget(e: SceneEdit): SceneField {
    match e
    case ToggleAutoRotate => AutoRotate
    case SetRotationSpeed(_) => RotationSpeed
    case ToggleBackgroundGradient => BackgroundGradient
    case SetGradientTop(_) => GradientColorTop
    case SetGradientBottom(_) => GradientColorBottom
    case SetBackgroundColor(_) => BackgroundColor
    case ToggleGrid => ShowGrid
    case ToggleReflection => ShowReflection
  }

  function ApplySceneEdit(s: SceneSettings, e: SceneEdit): (r: SceneSettings)
    ensures SceneChangedOnly(s, r, SceneTarget(e))
    ensures IsSceneToggle(e) ==> SceneGet(r, SceneTarget(e)) == Flag(!SceneGet(s, SceneTarget(e)).b)
    ensures e.SetRotationSpeed? ==> r.rotationSpeed == e.v
    ensures e.SetGradientTop? ==> r.gradientColorTop == e.c
    ensures e.SetGradientBottom? ==> r.gradientColorBottom == e.c
    ensures e.SetBackgroundColor? ==> r.backgroundColor == e.c
  {
    match e
    case ToggleAutoRotate => s.(autoRotate := !s.autoRotate)
    case SetRotationSpeed(v) => s.(rotationSpeed := v)
    case ToggleBackgroundGradient => s.(backgroundGradient := !s.backgroundGradient)
    case SetGradientTop(c) => s.(gradientColorTop := c)
    case SetGradientBottom(c) => s.(gradientColorBottom := c)
    case SetBackgroundColor(c) => s.(backgroundColor := c)
    case ToggleGrid => s.(showGrid := !s.showGrid)
    case ToggleReflection => s.(showReflection := !s.showReflection)
  }

  /** Pressing a scene toggle twice is the identity. */
  lemma SceneToggleTwice(s: SceneSettings, e: SceneEdit)
    requires IsSceneToggle(e)
    ensures ApplySceneEdit(ApplySceneEdit(s, e), e) == s
  {
  }

  /** Pressing the same toggle `n` times leaves it negated exactly when `n`
      is odd, and nothing else changes. */
  function PressTimes(s: SceneSettings, e: SceneEdit, n: nat): SceneSettings
    decreases n
  {
    if n == 0 then s else PressTimes(ApplySceneEdit(s, e), e, n - 1)
  }

  lemma {:induction false} PressTimesParity(s: SceneSettings, e: SceneEdit, n: nat)
    requires IsSceneToggle(e)
    ensures PressTimes(s, e, n) == if n % 2 == 0 then s else ApplySceneEdit(s, e)
    decreases n
  {
    if n >= 2 {
      PressTimesParity(ApplySceneEdit(ApplySceneEdit(s, e), e), e, n - 2);
      SceneToggleTwice(s, e);
      assert PressTimes(s, e, n) == PressTimes(ApplySceneEdit(ApplySceneEdit(s, e), e), e, n - 2);
    } else if n == 1 {
      assert PressTimes(ApplySceneEdit(s, e), e, 0) == ApplySceneEdit(s, e);
    }
  }

  // ---------------------------------------------------------------------
  // Lighting tab
  // ---------------------------------------------------------------------

  datatype LightingEdit =
    | SelectEnvironment(p: EnvironmentPreset)
    | SetAmbientIntensity(v: real)
    | SetDirectionalIntensity(v: real)
    | SetLightX(v: real)
    | SetLightY(v: real)
    | SetLightZ(v: real)

  function LightingTarget(e: LightingEdit): LightingField {
    match e
    case SelectEnvironment(_) => Environment
    case SetAmbientIntensity(_) => AmbientIntensity
    case SetDirectionalIntensity(_) => DirectionalIntensity
    case SetLightX(_) => DirectionalPosition
    case SetLightY(_) => DirectionalPosition
    case SetLightZ(_) => DirectionalPosition
  }

  function ApplyLightingEdit(l: LightingSettings, e: LightingEdit): (r: LightingSettings)
    ensures LightingChangedOnly(l, r, LightingTarget(e))
    ensures e.SelectEnvironment? ==> r.environmentPreset == e.p
    ensures e.SetAmbientIntensity? ==> r.ambientIntensity == e.v
    ensures e.SetDirectionalIntensity? ==> r.directionalIntensity == e.v
    ensures e.SetLightX? ==> r.directionalPosition.x == e.v
    ensures e.SetLightY? ==> r.directionalPosition.y == e.v
    ensures e.SetLightZ? ==> r.directionalPosition.z == e.v
    ensures !e.SetLightX? ==> r.directionalPosition.x == l.directionalPosition.x
    ensures !e.SetLightY? ==> r.directionalPosition.y == l.directionalPosition.y
    ensures !e.SetLightZ? ==> r.directionalPosition.z == l.directionalPosition.z
  {
    var p := l.directionalPosition;
    match e
    case SelectEnvironment(preset) => l.(environmentPreset := preset)
    case SetAmbientIntensity(v) => l.(ambientIntensity := v)
    case SetDirectionalIntensity(v) => l.(directionalIntensity := v)
    case SetLightX(v) => l.(directionalPosition := Vec3(v, p.y, p.z))
    case SetLightY(v) => l.(directionalPosition := Vec3(p.x, v, p.z))
    case SetLightZ(v) => l.(directionalPosition := Vec3(p.x, p.y, v))
  }

  /** Moving the light along two different axes gives the same position in
      either order. */
  lemma LightAxesCommute(l: LightingSettings, a: real, b: real)
    ensures ApplyLightingEdit(ApplyLightingEdit(l, SetLightX(a)), SetLightY(b))
         == ApplyLightingEdit(ApplyLightingEdit(l, SetLightY(b)), SetLightX(a))
    ensures ApplyLightingEdit(ApplyLightingEdit(l, SetLightY(a)), SetLightZ(b))
         == ApplyLightingEdit(ApplyLightingEdit(l, SetLightZ(b)), SetLightY(a))
    ensures ApplyLightingEdit(ApplyLightingEdit(l, SetLightX(a)), SetLightZ(b))
         == ApplyLightingEdit(ApplyLightingEdit(l, SetLightZ(b)), SetLightX(a))
  {
  }

  /** The environment buttons, in display order. */
  const EnvironmentButtons: seq<EnvironmentPreset> := [Studio, Sunset, Dawn, Night, Warehouse, City]

  lemma EnvironmentButtonsOfferEveryPreset()
    ensures forall p: EnvironmentPreset :: p in EnvironmentButtons
  {
    forall p: EnvironmentPreset
      ensures p in EnvironmentButtons
    {
      var i := match p
        case Studio => 0
        case Sunset => 1
        case Dawn => 2
        case Night => 3
        case Warehouse => 4
        case City => 5;
      assert EnvironmentButtons[i] == p;
    }
  }

  // ---------------------------------------------------------------------
  // Export tab
  // ---------------------------------------------------------------------

  datatype ExportEdit =
    | SelectFormat(f: ImageFormat)
    | SelectResolution(res: Resolution)
    | ToggleTransparentBackground

  function ExportTarget(e: ExportEdit): ExportField {
    match e
    case SelectFormat(_) => Format
    case SelectResolution(_) => Multiplier
    case ToggleTransparentBackground => TransparentBackground
  }

  function ApplyExportEdit(x: ExportSettings, e: ExportEdit): (r: ExportSettings)
    ensures ExportChangedOnly(x, r, ExportTarget(e))
    ensures e.SelectFormat? ==> r.format == e.f
    ensures e.SelectResolution? ==> r.resolution == e.res
    ensures e.ToggleTransparentBackground? ==> r.transparentBackground == !x.transparentBackground
  {
    match e
    case SelectFormat(f) => x.(format := f)
    case SelectResolution(res) => x.(resolution := res)
    case ToggleTransparentBackground => x.(transparentBackground := !x.transparentBackground)
  }

  /** The resolution buttons, in display order. */
  const ResolutionButtons: seq<Resolution> := [X1, X2, X4]

  /** The resolution buttons store exactly the multipliers 1, 2 and 4. */
  lemma ResolutionButtonsScales()
    ensures forall i :: 0 <= i < |ResolutionButtons| ==> ResolutionButtons[i].Scale() == [1, 2, 4][i]
    ensures forall res: Resolution :: res in ResolutionButtons
  {
    forall res: Resolution
      ensures res in ResolutionButtons
    {
      var i := match res
        case X1 => 0
        case X2 => 1
        case X4 => 2;
      assert ResolutionButtons[i] == res;
    }
  }

  /** Switching the format keeps the transparency choice, even though the
      toggle is hidden while JPEG is selected. */
  lemma FormatSwitchKeepsTransparency(x: ExportSettings)
    requires x.format == Png
    ensures var j := ApplyExportEdit(x, SelectFormat(Jpeg));
            ApplyExportEdit(j, SelectFormat(Png)) == x
  {
  }
}
