/**
  The export compositor, as a plan: what the compositor draws, at which size,
  how it encodes the result and under which file name, computed from the size
  of the live render surface and a snapshot of the settings. The canvas
  calls themselves (allocation, filling, drawing, encoding, the download
  click) are not modelled; the plan records their arguments.
 */
module Export {
  import opened Settings

  datatype Surface = Surface(width: nat, height: nat)

  datatype Rect = Rect(x: nat, y: nat, w: nat, h: nat)

  /** A fill style: a linear gradient between two points with a colour stop
      at each end, or a single colour. */
  datatype Paint =
    | LinearGradient(x0: nat, y0: nat, x1: nat, y1: nat, top: string, bottom: string)
    | SolidColor(color: string)

  datatype BackgroundFill = BackgroundFill(paint: Paint, area: Rect)

  datatype Encoding = Encoding(mimeType: string, quality: Option<real>)

  datatype ExportPlan = ExportPlan(
    width: nat,
    height: nat,
    background: Option<BackgroundFill>,
    image: Rect,
    encoding: Encoding,
    fileName: string)

  /** The settings the deferred export reads, as they were when the export
      was triggered. */
  datatype ExportJob = ExportJob(text: string, scene: SceneSettings, output: ExportSettings)

  function Extension(f: ImageFormat): string {
    match f
    case Png => "png"
    case Jpeg => "jpeg"
  }

  function EncodingFor(f: ImageFormat): (e: Encoding)
    ensures e.mimeType == "image/" + Extension(f)
    ensures e.quality.Some? <==> f == Jpeg
    ensures f == Jpeg ==> e.quality == Some(0.95)
  {
    match f
    case Png => Encoding("image/png", None)
    case Jpeg => Encoding("image/jpeg", Some(0.95))
  }

  const NamePrefix := "3d-text-"

  /** The stem used when the text field is empty. */
  const EmptyStem := "export"

  function FileName(text: string, f: ImageFormat): string {
    NamePrefix + OrElse(text, EmptyStem) + "." + Extension(f)
  }

  /** Reads the stem and the format back out of an export file name. */
  function ParseFileName(name: string): Option<(string, ImageFormat)> {
    var n := |NamePrefix|;
    if |name| >= n + 4 && name[..n] == NamePrefix && name[|name| - 4..] == ".png" then
      Some((name[n..|name| - 4], Png))
    else if |name| >= n + 5 && name[..n] == NamePrefix && name[|name| - 5..] == ".jpeg" then
      Some((name[n..|name| - 5], Jpeg))
    else
      None
  }

  /** The file name carries the text (or "export" when it is empty) and the
      format, and both can be read back from it. */
  lemma FileNameRoundTrip(text: string, f: ImageFormat)
    ensures ParseFileName(FileName(text, f)) == Some((OrElse(text, EmptyStem), f))
  {
    var stem := OrElse(text, EmptyStem);
    var name := FileName(text, f);
    var n := |NamePrefix|;
    assert name[..n] == NamePrefix;
    match f
    case Png =>
      assert name[|name| - 4..] == ".png";
      assert name[n..|name| - 4] == stem;
    case Jpeg =>
      assert name[|name| - 4..] == "jpeg";
      assert name[|name| - 5..] == ".jpeg";
      assert name[n..|name| - 5] == stem;
  }

  /** Background painting is skipped only for a transparent PNG. */
  predicate PaintsBackground(x: ExportSettings) {
    !x.transparentBackground || x.format == Jpeg
  }

  /** The fill style the compositor uses for the page background. */
  function BackgroundPaint(s: SceneSettings, height: nat): Paint {
    if s.backgroundGradient then
      LinearGradient(0, 0, 0, height, s.gradientColorTop, s.gradientColorBottom)
    else
      SolidColor(s.backgroundColor)
  }

  function PlanExport(source: Surface, job: ExportJob): (p: ExportPlan)
    ensures p.width == source.width * job.output.resolution.Scale()
    ensures p.height == source.height * job.output.resolution.Scale()
    ensures p.image == Rect(0, 0, p.width, p.height)
    ensures job.output.format == Jpeg ==> p.background.Some?
    ensures job.output.format == Png ==> (p.background.None? <==> job.output.transparentBackground)
    ensures p.background.Some? ==> p.background.value.area == Rect(0, 0, p.width, p.height)
    ensures p.background.Some? && job.scene.backgroundGradient ==>
      p.background.value.paint ==
        LinearGradient(0, 0, 0, p.height, job.scene.gradientColorTop, job.scene.gradientColorBottom)
    ensures p.background.Some? && !job.scene.backgroundGradient ==>
      p.background.value.paint == SolidColor(job.scene.backgroundColor)
    ensures p.encoding.mimeType == "image/" + Extension(job.output.format)
    ensures p.encoding.quality == if job.output.format == Jpeg then Some(0.95) else None
    ensures ParseFileName(p.fileName) == Some((OrElse(job.text, EmptyStem), job.output.format))
  {
    var x := job.output;
    var width := source.width * x.resolution.Scale();
    var height := source.height * x.resolution.Scale();
    var area := Rect(0, 0, width, height);
    var background :=
      if PaintsBackground(x) then Some(BackgroundFill(BackgroundPaint(job.scene, height), area))
      else None;
    FileNameRoundTrip(job.text, x.format);
    ExportPlan(width, height, background, area, EncodingFor(x.format), FileName(job.text, x.format))
  }

  /** Scaling keeps the aspect ratio, and the source size is recovered by
      dividing by the multiplier. */
  lemma ExportKeepsAspect(source: Surface, job: ExportJob)
    ensures var p := PlanExport(source, job);
            var k := job.output.resolution.Scale();
            p.width * source.height == p.height * source.width &&
            p.width / k == source.width && p.height / k == source.height &&
            p.width >= source.width && p.height >= source.height
  {
    var p := PlanExport(source, job);
    var k := job.output.resolution.Scale();
    assert p.width * source.height == source.width * k * source.height;
    assert p.height * source.width == source.height * k * source.width;
  }

  // ---------------------------------------------------------------------
  // Page background
  // ---------------------------------------------------------------------

  /** The page background style behind the live view. */
  datatype ScreenBackground =
    | GradientToBottom(top: string, bottom: string)
    | BackgroundColorStyle(color: string)

  function ScreenStyle(s: SceneSettings): (b: ScreenBackground)
    ensures b.GradientToBottom? <==> s.backgroundGradient
    ensures s.backgroundGradient ==> b == GradientToBottom(s.gradientColorTop, s.gradientColorBottom)
    ensures !s.backgroundGradient ==> b == BackgroundColorStyle(s.backgroundColor)
  {
    if s.backgroundGradient then GradientToBottom(s.gradientColorTop, s.gradientColorBottom)
    else BackgroundColorStyle(s.backgroundColor)
  }

  /** A canvas fill of height `h` uses the same colours, in the same
      direction, as the page's background style: a top to bottom gradient over
      the full height with the same two colours, or the same solid colour. */
  predicate Reproduces(paint: Paint, h: nat, style: ScreenBackground) {
    match style
    case GradientToBottom(top, bottom) => paint == LinearGradient(0, 0, 0, h, top, bottom)
    case BackgroundColorStyle(c) => paint == SolidColor(c)
  }

  /** Whenever the export paints a background, it paints the page's background
      style: same colours, same direction. The half-white veil over the canvas
      and the page-height span of the on-screen gradient are not reproduced. */
  lemma ExportReproducesScreen(source: Surface, job: ExportJob)
    ensures var p := PlanExport(source, job);
            p.background.Some? ==> Reproduces(p.background.value.paint, p.height, ScreenStyle(job.scene))
  {
  }

  // ---------------------------------------------------------------------
  // The deferred export callback
  // ---------------------------------------------------------------------

  /** What the callback finds when it runs: the render surface (absent when it
      has been unmounted), whether a 2-D drawing context could be created, and
      whether any step after that check and before the download throws. A
      throw while creating the canvas or the context is reported here as a
      missing context; both paths clear the flag and produce no file. */
  datatype CaptureEnv = CaptureEnv(canvas: Option<Surface>, hasContext: bool, throws: bool)

  datatype ExportOutcome =
    | NoCanvas
    | NoContext
    | Failed
    | Downloaded(plan: ExportPlan)

  datatype CallbackResult = CallbackResult(outcome: ExportOutcome, isExporting: bool)

  /** The body of the deferred export: each early return, the caught
      exception and the success path all clear the exporting flag, and a file
      is produced only on the success path. */
  function RunExport(job: ExportJob, env: CaptureEnv): (r: CallbackResult)
    ensures !r.isExporting
    ensures r.outcome.Downloaded? <==> env.canvas.Some? && env.hasContext && !env.throws
    ensures r.outcome.Downloaded? ==> r.outcome.plan == PlanExport(env.canvas.value, job)
    ensures env.canvas.None? ==> r.outcome == NoCanvas
    ensures env.canvas.Some? && !env.hasContext ==> r.outcome == NoContext
    ensures env.canvas.Some? && env.hasContext && env.throws ==> r.outcome == Failed
  {
    if env.canvas.None? then
      CallbackResult(NoCanvas, false)
    else if !env.hasContext then
      CallbackResult(NoContext, false)
    else if env.throws then
      CallbackResult(Failed, false)
    else
      CallbackResult(Downloaded(PlanExport(env.canvas.value, job)), false)
  }

  /** Example: "Hi" as a 2x PNG over a solid background from an 800x600
      surface. */
  lemma HiPngScenario(scene: SceneSettings)
    requires !scene.backgroundGradient && scene.backgroundColor == "#f8fafc"
    ensures var p := PlanExport(Surface(800, 600), ExportJob("Hi", scene, ExportSettings(Png, X2, false)));
            p.fileName == "3d-text-Hi.png" && p.width == 1600 && p.height == 1200 &&
            p.background == Some(BackgroundFill(SolidColor("#f8fafc"), Rect(0, 0, 1600, 1200)))
  {
  }

  /** An empty text exports as "3d-text-export.jpeg". */
  lemma EmptyJpegScenario(source: Surface, scene: SceneSettings, x: ExportSettings)
    requires x.format == Jpeg
    ensures PlanExport(source, ExportJob("", scene, x)).fileName == "3d-text-export.jpeg"
  {
  }
}
