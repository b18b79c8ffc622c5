/**
  The five configuration records of the 3-D text generator, their default
  snapshots, and a uniform "field view" of each record.

  A field view maps a record and the name of one of its keys to the value
  stored under that key. It is the vocabulary in which the rest of the model
  states shallow updates ("only this key changed") and the object-spread merge
  of a partial record, independently of how each update is written.
 */
module Settings {

  datatype Option<T> = None | Some(value: T)

  /** The six material kinds offered by the user interface. `Unrecognised`
      stands for a tag outside that set, which the appearance mapper must
      still accept (its `default:` arm). */
  datatype MaterialType =
    | Metallic | Chrome | Gold | Glass | Neon | Plastic
    | Unrecognised(tag: string)

  predicate IsOffered(k: MaterialType) {
    !k.Unrecognised?
  }

  datatype EnvironmentPreset = Studio | Sunset | Dawn | Night | Warehouse | City

  datatype ImageFormat = Png | Jpeg

  /** The export resolution multiplier, restricted to 1, 2 or 4. */
  datatype Resolution = X1 | X2 | X4 {
    function Scale(): (k: nat)
      ensures k == 1 || k == 2 || k == 4
    {
      match this
      case X1 => 1
      case X2 => 2
      case X4 => 4
    }
  }

  datatype Vec3 = Vec3(x: real, y: real, z: real)

  datatype TextSettings = TextSettings(
    text: string,
    fontSize: real,
    depth: real,
    letterSpacing: real,
    bevelEnabled: bool,
    bevelThickness: real,
    bevelSize: real)

  datatype MaterialSettings = MaterialSettings(
    kind: MaterialType,
    color: string,
    roughness: real,
    metalness: real,
    emissiveIntensity: real,
    opacity: real)

  datatype SceneSettings = SceneSettings(
    autoRotate: bool,
    rotationSpeed: real,
    backgroundColor: string,
    backgroundGradient: bool,
    gradientColorTop: string,
    gradientColorBottom: string,
    showGrid: bool,
    showReflection: bool)

  datatype LightingSettings = LightingSettings(
    ambientIntensity: real,
    directionalIntensity: real,
    directionalPosition: Vec3,
    environmentPreset: EnvironmentPreset)

  datatype ExportSettings = ExportSettings(
    format: ImageFormat,
    resolution: Resolution,
    transparentBackground: bool)

  /** Longest text the text field stores. */
  const MaxTextLength: nat := 20

  const DefaultText := TextSettings("Hello", 0.8, 0.3, 0.02, true, 0.03, 0.02)

  const DefaultMaterial := MaterialSettings(Metallic, "#6366f1", 0.2, 0.8, 1.0, 0.8)

  const DefaultScene :=
    SceneSettings(true, 0.5, "#f8fafc", true, "#f8fafc", "#e2e8f0", false, true)

  const DefaultLighting := LightingSettings(0.5, 1.5, Vec3(5.0, 5.0, 5.0), Studio)

  const DefaultExport := ExportSettings(Png, X2, false)

  /** JavaScript's `s || fallback` on strings: the empty string is falsy. */
  function OrElse(s: string, fallback: string): string {
    if s == [] then fallback else s
  }

  // ---------------------------------------------------------------------
  // Field views
  // ---------------------------------------------------------------------

  /** A value stored under one key of a settings record. */
  datatype Value =
    | Str(s: string)
    | Num(x: real)
    | Flag(b: bool)
    | Kind(k: MaterialType)
    | Env(e: EnvironmentPreset)
    | Point(p: Vec3)
    | Fmt(f: ImageFormat)
    | Res(r: Resolution)

  datatype TextField =
    | Content | FontSize | Depth | LetterSpacing | BevelEnabled | BevelThickness | BevelSize

  datatype MaterialField =
    | Type | Color | Roughness | Metalness | EmissiveIntensity | Opacity

  datatype SceneField =
    | AutoRotate | RotationSpeed | BackgroundColor | BackgroundGradient
    | GradientColorTop | GradientColorBottom | ShowGrid | ShowReflection

  datatype LightingField =
    | AmbientIntensity | DirectionalIntensity | DirectionalPosition | Environment

  datatype ExportField = Format | Multiplier | TransparentBackground

  function TextGet(t: TextSettings, f: TextField): Value {
    match f
    case Content => Str(t.text)
    case FontSize => Num(t.fontSize)
    case Depth => Num(t.depth)
    case LetterSpacing => Num(t.letterSpacing)
    case BevelEnabled => Flag(t.bevelEnabled)
    case BevelThickness => Num(t.bevelThickness)
    case BevelSize => Num(t.bevelSize)
  }

  function MaterialGet(m: MaterialSettings, f: MaterialField): Value {
    match f
    case Type => Kind(m.kind)
    case Color => Str(m.color)
    case Roughness => Num(m.roughness)
    case Metalness => Num(m.metalness)
    case EmissiveIntensity => Num(m.emissiveIntensity)
    case Opacity => Num(m.opacity)
  }

  function SceneGet(s: SceneSettings, f: SceneField): Value {
    match f
    case AutoRotate => Flag(s.autoRotate)
    case RotationSpeed => Num(s.rotationSpeed)
    case BackgroundColor => Str(s.backgroundColor)
    case BackgroundGradient => Flag(s.backgroundGradient)
    case GradientColorTop => Str(s.gradientColorTop)
    case GradientColorBottom => Str(s.gradientColorBottom)
    case ShowGrid => Flag(s.showGrid)
    case ShowReflection => Flag(s.showReflection)
  }

  function LightingGet(l: LightingSettings, f: LightingField): Value {
    match f
    case AmbientIntensity => Num(l.ambientIntensity)
    case DirectionalIntensity => Num(l.directionalIntensity)
    case DirectionalPosition => Point(l.directionalPosition)
    case Environment => Env(l.environmentPreset)
  }

  function ExportGet(e: ExportSettings, f: ExportField): Value {
    match f
    case Format => Fmt(e.format)
    case Multiplier => Res(e.resolution)
    case TransparentBackground => Flag(e.transparentBackground)
  }

  /** `b` differs from `a` at most under key `f`. */
  predicate TextChangedOnly(a: TextSettings, b: TextSettings, f: TextField) {
    forall g: TextField :: g != f ==> TextGet(a, g) == TextGet(b, g)
  }

  predicate MaterialChangedOnly(a: MaterialSettings, b: MaterialSettings, f: MaterialField) {
    forall g: MaterialField :: g != f ==> MaterialGet(a, g) == MaterialGet(b, g)
  }

  predicate SceneChangedOnly(a: SceneSettings, b: SceneSettings, f: SceneField) {
    forall g: SceneField :: g != f ==> SceneGet(a, g) == SceneGet(b, g)
  }

  predicate LightingChangedOnly(a: LightingSettings, b: LightingSettings, f: LightingField) {
    forall g: LightingField :: g != f ==> LightingGet(a, g) == LightingGet(b, g)
  }

  predicate ExportChangedOnly(a: ExportSettings, b: ExportSettings, f: ExportField) {
    forall g: ExportField :: g != f ==> ExportGet(a, g) == ExportGet(b, g)
  }
}
