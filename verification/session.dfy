/**
  The application session: the five settings records, the exporting flag and
  the export waiting for its deferred callback, together with a superset of
  the events the user interface can deliver to them (the events also include
  presses of controls the interface hides, such as the opacity slider outside
  glass or the transparency toggle under JPEG).
 */
module Session {
  import opened Settings
  import Presets
  import opened Controls
  import opened Export

  datatype Session = Session(
    text: TextSettings,
    material: MaterialSettings,
    scene: SceneSettings,
    lighting: LightingSettings,
    output: ExportSettings,
    isExporting: bool,
    pending: Option<ExportJob>)

  /** The session as it starts: every record at its default, nothing exporting. */
  const Initial := Session(DefaultText, DefaultMaterial, DefaultScene, DefaultLighting, DefaultExport, false, None)

  /** A superset of what the interface delivers: controls it hides are
      still accepted here. */
  datatype Event =
    | EditText(te: TextEdit)
    | EditMaterial(me: MaterialEdit)
    | EditScene(se: SceneEdit)
    | EditLighting(le: LightingEdit)
    | EditExport(xe: ExportEdit)
    | ChoosePreset(name: Presets.PresetName)
    | Reset
    | PressExport(canvasMounted: bool)
    | TimerFires(env: CaptureEnv)

  predicate HasDefaults(s: Session) {
    s.text == DefaultText && s.material == DefaultMaterial && s.scene == DefaultScene &&
    s.lighting == DefaultLighting && s.output == DefaultExport
  }

  /** "Reset All Settings": all five records return to their defaults together;
      an export in flight is not affected. */
  function ResetAll(s: Session): (r: Session)
    ensures HasDefaults(r)
    ensures r.isExporting == s.isExporting && r.pending == s.pending
  {
    s.(text := DefaultText, material := DefaultMaterial, scene := DefaultScene,
       lighting := DefaultLighting, output := DefaultExport)
  }

  /** The settings the deferred callback will read. */
  function Snapshot(s: Session): ExportJob {
    ExportJob(s.text.text, s.scene, s.output)
  }

  /** The export button. It is disabled while an export is in flight; when the
      render surface is not mounted the press does nothing; otherwise the flag
      goes up and the callback is scheduled with the current settings. */
  function PressExportButton(s: Session, canvasMounted: bool): (r: Session)
    ensures r.text == s.text && r.material == s.material && r.scene == s.scene &&
            r.lighting == s.lighting && r.output == s.output
    ensures s.isExporting || !canvasMounted ==> r == s
    ensures !s.isExporting && canvasMounted ==> r.isExporting && r.pending == Some(Snapshot(s))
  {
    if s.isExporting || !canvasMounted then s
    else s.(isExporting := true, pending := Some(Snapshot(s)))
  }

  datatype TimerResult = TimerResult(session: Session, outcome: Option<ExportOutcome>)

  /** The scheduled callback runs on the job taken when the button was pressed
      and always lowers the exporting flag. */
  function FireTimer(s: Session, env: CaptureEnv): (r: TimerResult)
    ensures s.pending.None? ==> r == TimerResult(s, None)
    ensures s.pending.Some? ==>
      !r.session.isExporting && r.session.pending.None? &&
      r.outcome == Some(RunExport(s.pending.value, env).outcome)
    ensures r.session.text == s.text && r.session.material == s.material &&
            r.session.scene == s.scene && r.session.lighting == s.lighting &&
            r.session.output == s.output
  {
    if s.pending.None? then TimerResult(s, None)
    else
      var result := RunExport(s.pending.value, env);
      TimerResult(s.(isExporting := result.isExporting, pending := None), Some(result.outcome))
  }

  function Step(s: Session, e: Event): Session {
    match e
    case EditText(te) => s.(text := ApplyTextEdit(s.text, te))
    case EditMaterial(me) => s.(material := ApplyMaterialEdit(s.material, me))
    case EditScene(se) => s.(scene := ApplySceneEdit(s.scene, se))
    case EditLighting(le) => s.(lighting := ApplyLightingEdit(s.lighting, le))
    case EditExport(xe) => s.(output := ApplyExportEdit(s.output, xe))
    case ChoosePreset(name) => s.(material := Presets.ApplyPreset(s.material, name))
    case Reset => ResetAll(s)
    case PressExport(mounted) => PressExportButton(s, mounted)
    case TimerFires(env) => FireTimer(s, env).session
  }

  function Run(s: Session, es: seq<Event>): Session
    decreases |es|
  {
    if es == [] then s else Run(Step(s, es[0]), es[1..])
  }

  /** What holds of every session the interface can reach: the text fits the
      field, and the flag is up exactly while a callback is scheduled. */
  predicate Valid(s: Session) {
    |s.text.text| <= MaxTextLength && (s.isExporting <==> s.pending.Some?)
  }

  lemma InitialValid()
    ensures Valid(Initial) && HasDefaults(Initial)
    ensures !Initial.isExporting && Initial.pending.None?
  {
  }

  lemma StepPreservesValid(s: Session, e: Event)
    requires Valid(s)
    ensures Valid(Step(s, e))
  {
  }

  lemma {:induction false} RunPreservesValid(s: Session, es: seq<Event>)
    requires Valid(s)
    ensures Valid(Run(s, es))
    decreases |es|
  {
    if es != [] {
      StepPreservesValid(s, es[0]);
      RunPreservesValid(Step(s, es[0]), es[1..]);
    }
  }

  /** Every session reachable from the start is valid: the stored text never
      exceeds twenty characters and the exporting flag never outlives its
      callback. */
  lemma ReachableIsValid(es: seq<Event>)
    ensures Valid(Run(Initial, es))
  {
    InitialValid();
    RunPreservesValid(Initial, es);
  }

  lemma {:induction false} RunAppend(s: Session, es: seq<Event>, e: Event)
    ensures Run(s, es + [e]) == Step(Run(s, es), e)
    decreases |es|
  {
    if es == [] {
      assert [] + [e] == [e];
    } else {
      assert (es + [e])[0] == es[0];
      assert (es + [e])[1..] == es[1..] + [e];
      RunAppend(Step(s, es[0]), es[1..], e);
    }
  }

  /** Whatever happened before, a reset leaves every record at its default. */
  lemma ResetAfterAnyHistory(s: Session, es: seq<Event>)
    ensures HasDefaults(Run(s, es + [Reset]))
  {
    RunAppend(s, es, Reset);
  }

  /** Once a press has scheduled the callback, running it lowers the flag on
      every path: missing surface, missing context, failure and success. */
  lemma ExportNeverSticks(s: Session, env: CaptureEnv)
    requires Valid(s) && !s.isExporting
    ensures var pressed := PressExportButton(s, true);
            var done := FireTimer(pressed, env);
            pressed.isExporting && !done.session.isExporting &&
            (done.outcome.value.Downloaded? <==> env.canvas.Some? && env.hasContext && !env.throws)
  {
  }
}
