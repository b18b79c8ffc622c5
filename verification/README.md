# 3-D text generator: settings, presets, material mapper and export plan

This project is a Dafny model of the logic behind a browser tool that renders
extruded 3-D text and exports it as a PNG or JPEG image. It covers six parts:

- **Settings model** (`settings.dfy`, module `Settings`). There are five flat
  records: text, material, scene, lighting and export. Each has a default
  snapshot. A *field view* (`TextGet`, `MaterialGet`, ...) maps a record and
  one of its key names to the stored value. The other modules state shallow
  updates and merges in this vocabulary.
- **Preset resolver** (`presets.dfy`, module `Presets`). A fixed table maps
  the seven preset names to partial material records. `ApplyPreset` merges
  one of them onto the current material with object-spread semantics. The
  module also holds the preset swatch grid of the control panel.
- **Control mutations** (`controls.dfy`, module `Controls`). Each text input,
  colour input, slider, toggle and selection button of the five tabs is an
  edit. Applying an edit replaces one key of one record and leaves the other
  keys unchanged. Text input is cut to 20 characters. The remaining buttons
  are modelled elsewhere: the preset swatches by `Presets.ApplyPreset`,
  "Reset All Settings" by `Session.ResetAll` and "Export Image" by
  `Session.PressExportButton`.
- **Material parameter mapper and glyph geometry** (`appearance.dfy`, module
  `Appearance`). A total dispatch on the material type produces the shading
  parameters handed to the rendering engine. The module also fills in the
  glyph geometry parameters, with the `"Hello"` placeholder for empty text.
- **Export compositor plan** (`export.dfy`, module `Export`). From the size of
  the render surface and a snapshot of the settings it computes:
  - the target size;
  - the background fill, if any;
  - the encoder's MIME type and quality;
  - the download file name.

  The deferred export callback clears the exporting flag on every path. The
  page's background style is modelled too, so that the export can be shown to
  paint with the same colours, in the same direction, as that style.
- **Session** (`session.dfy`, module `Session`). The five records, the
  exporting flag and the scheduled export are driven by every event the
  interface can deliver (a superset: it includes presses of hidden
  controls). Two facts are proved for every reachable session:
  the stored text fits the 20-character field, and the exporting flag is up
  exactly while a callback is scheduled. A reset after any history restores
  all defaults.

Numbers are only stored, copied and compared, so they are `real`. Colours are
unvalidated strings. Canvas sizes are `nat`. The environment is a set of
parameters of the export callback (`CaptureEnv`):
- whether the render surface is still mounted, and its pixel size;
- whether a 2-D drawing context could be created;
- whether any step after the context check and before the download throws
  (a throw while creating the canvas or its context is reported as a missing
  context; both paths clear the flag and produce no file).

On these points the model follows the code:
- Text is cut to 20 code units (here: 20 `char`s), not 20 graphemes.
- A stored `transparentBackground` is kept while JPEG is selected. The
  compositor ignores it for JPEG.
- Neon leaves the reflection-environment intensity unset, which the engine
  then defaults. `envMapIntensity` is `None` for neon.
- The mapper's fallback arm is reachable in the model through
  `MaterialType.Unrecognised(tag)`, a tag outside the six offered types.
- The deferred callback reads the settings as they were when the export
  button was pressed (`ExportJob`). Edits made while it waits do not reach it.

## Model

| member | source | states |
|---|---|---|
| Presets.Merge | components/TextGenerator3D.tsx:156-159 | Every key the patch carries takes the patch's value; every key it omits keeps its previous value (object spread) |
| Presets.ApplyPreset | components/TextGenerator3D.tsx:156-159 | Applying a preset sets exactly the keys of its table entry and leaves every other material key unchanged |
| Presets.ApplyPresetIdempotent | components/TextGenerator3D.tsx:158 | Applying the same preset twice gives the same material as applying it once |
| Presets.PresetKeys | components/TextGenerator3D.tsx:98-144 | Every preset writes type, colour, roughness and metalness; only the two neon presets write the glow, and only glass writes the opacity |
| Presets.PresetLeavesOmittedFields | components/TextGenerator3D.tsx:98-144 | Chrome, gold, matte and holographic keep both glow and opacity; the neon presets keep opacity; glass keeps the glow |
| Presets.NeonBlueScenario | components/TextGenerator3D.tsx:111-117 | "neon-blue" yields neon, #3b82f6, 0.3, 0.5, glow 2, with the previous opacity |
| Presets.LastPresetDecides | components/TextGenerator3D.tsx:156-159 | After any non-empty run of presets, type, colour, roughness and metalness are those of the last preset |
| Presets.SwatchesMatchPresets | components/ControlPanel.tsx:49-57 | The swatch grid lists each of the seven presets exactly once, and each swatch colour is the colour its preset writes |
| Controls.Truncate | components/ControlPanel.tsx:194 | The stored text is a prefix of the input, at most 20 long, the whole input when it fits and exactly 20 long when it does not |
| Controls.ApplyTextEdit | components/ControlPanel.tsx:193-257 | Each text control changes only its own key; the text field stores a prefix of at most 20 characters; the bevel toggle negates bevelEnabled; sliders store their value |
| Controls.BevelOffKeepsValues | components/ControlPanel.tsx:233-261 | Turning the bevel off keeps the bevel thickness and size, and turning it back on restores the record exactly |
| Controls.TextEditsCommute | components/ControlPanel.tsx:193-257 | Two text edits of different keys give the same record in either order |
| Controls.ApplyMaterialEdit | components/ControlPanel.tsx:297-375 | Selecting a type changes only the type; the colour inputs and each slider change only their own key |
| Controls.TypeButtonsOfferEveryType | components/ControlPanel.tsx:40-47 | The type buttons offer exactly the six recognised material types |
| Controls.SelectTypeRoundTrip | components/ControlPanel.tsx:297-299 | Switching to any type and back restores the material record exactly |
| Controls.TypeSwitchesKeepSliders | components/ControlPanel.tsx:297-299 | Any run of type switches preserves colour, roughness, metalness, glow and opacity and ends on the last type selected |
| Controls.GlassChromeGlassKeepsOpacity | components/ControlPanel.tsx:297-375 | An opacity set under glass survives a switch to chrome and back to glass |
| Controls.ApplySceneEdit | components/ControlPanel.tsx:385-512 | Each scene toggle negates exactly its own flag; speed and colour inputs store their value; nothing else changes |
| Controls.SceneToggleTwice | components/ControlPanel.tsx:388-512 | Pressing a scene toggle twice is the identity |
| Controls.PressTimesParity | components/ControlPanel.tsx:388-512 | Pressing a toggle n times is the identity for even n and one press for odd n |
| Controls.ApplyLightingEdit | components/ControlPanel.tsx:525-607 | Each lighting control changes only its own key; an axis slider replaces one coordinate of the light position and keeps the other two |
| Controls.LightAxesCommute | components/ControlPanel.tsx:572-607 | Moving the light along two different axes gives the same position in either order |
| Controls.EnvironmentButtonsOfferEveryPreset | components/ControlPanel.tsx:59-66 | Each of the six environment presets has a button |
| Controls.ApplyExportEdit | components/ControlPanel.tsx:621-683 | Format and resolution buttons store their choice; the transparency toggle negates its flag; no other export key changes |
| Controls.ResolutionButtonsScales | components/ControlPanel.tsx:653-660 | The resolution buttons store the multipliers 1, 2 and 4, and every multiplier has a button |
| Controls.FormatSwitchKeepsTransparency | components/ControlPanel.tsx:674-685 | Switching from PNG to JPEG and back restores the export settings, including the hidden transparency flag |
| Appearance.Resolve | components/Text3DModel.tsx:14-79 | Non-archetype types take the user's colour and roughness; metalness is the user's for metallic, neon and the fallback, and 0 for glass and plastic; only neon glows; only glass refracts and uses the physical model; neon and the fallback leave the reflection intensity to the engine |
| Appearance.MetallicPassThrough | components/Text3DModel.tsx:18-24 | Metallic passes colour, roughness and metalness through with reflection intensity 1 and no glow |
| Appearance.ChromeArchetype | components/Text3DModel.tsx:26-32 | Chrome is #e5e7eb, roughness 0.05, metalness 1, reflection 1.5, whatever the stored colour, roughness and metalness |
| Appearance.GoldArchetype | components/Text3DModel.tsx:34-40 | Gold is #fbbf24, roughness 0.2, metalness 1, reflection 1.2, whatever the stored colour, roughness and metalness |
| Appearance.GlassRefracts | components/Text3DModel.tsx:42-53 | Glass is physical with the user's colour, roughness and opacity, metalness 0, transmission 0.9, thickness 0.5, index of refraction 1.5, reflection 1 |
| Appearance.NeonGlows | components/Text3DModel.tsx:55-62 | Neon emits its own base colour at the user's glow intensity and passes roughness and metalness through |
| Appearance.PlasticIsDielectric | components/Text3DModel.tsx:64-70 | Plastic has metalness 0 whatever the slider says, and reflection 0.5 |
| Appearance.UnrecognisedFallsBack | components/Text3DModel.tsx:72-77 | An unrecognised type gives a plain colour, roughness and metalness pass-through with no glow |
| Appearance.HiddenSlidersAreInert | components/Text3DModel.tsx:17-78 | The glow slider never affects a non-neon material and the opacity slider never affects a non-glass material |
| Appearance.Geometry | components/Text3DModel.tsx:81-93 | The rendered text is never empty: the stored text, or "Hello" when empty; size, depth, spacing and bevel pass through; 8 bevel and 16 curve segments |
| Appearance.EmptyTextRendersPlaceholder | components/Text3DModel.tsx:81 | Clearing the text renders the same glyphs as typing "Hello" |
| Export.EncodingFor | components/TextGenerator3D.tsx:212-213 | The MIME type is "image/" plus the extension; only JPEG carries a quality, 0.95 |
| Export.FileNameRoundTrip | components/TextGenerator3D.tsx:217 | The file name "3d-text-<stem>.<ext>" reads back to the text (or "export" when empty) and the format |
| Export.PlanExport | components/TextGenerator3D.tsx:182-217 | Target size is source size times the multiplier; JPEG always gets a background, PNG gets one exactly when not transparent; it covers the whole target and is a top-to-bottom gradient or the solid colour; the image fills the target; encoding and file name as above |
| Export.ExportKeepsAspect | components/TextGenerator3D.tsx:192-196 | The export keeps the aspect ratio, is never smaller than the source, and divides back to the source size |
| Export.ScreenStyle | components/TextGenerator3D.tsx:228-235 | The page shows a top-to-bottom gradient exactly when the gradient option is on, else the solid colour |
| Export.ExportReproducesScreen | components/TextGenerator3D.tsx:198-235 | Whenever the export paints a background, it uses the same colours, in the same top-to-bottom direction, as the page's background style (the veil over the canvas and the page-height span are not reproduced) |
| Export.RunExport | components/TextGenerator3D.tsx:175-224 | The callback clears the exporting flag on every path; it produces a file exactly when the surface is mounted, a context exists and nothing throws, and that file follows the plan; a missing surface, a missing context and a caught exception each give their own outcome |
| Export.HiPngScenario | components/TextGenerator3D.tsx:192-217 | "Hi" as a 2x PNG from 800x600 over #f8fafc is 3d-text-Hi.png, 1600x1200, filled with #f8fafc |
| Export.EmptyJpegScenario | components/TextGenerator3D.tsx:217 | Empty text exported as JPEG is named 3d-text-export.jpeg |
| Session.ResetAll | components/TextGenerator3D.tsx:161-167 | Reset puts all five records at their defaults together and leaves the export in flight alone |
| Session.PressExportButton | components/ControlPanel.tsx:687-689 | A press while exporting changes nothing because the button is disabled; with handleExport (components/TextGenerator3D.tsx:169-174) a press without a mounted surface changes nothing; otherwise the flag goes up and the current settings are scheduled |
| Session.FireTimer | components/TextGenerator3D.tsx:174-225 | The scheduled callback runs on the job taken at the press, lowers the flag and changes no settings |
| Session.InitialValid | components/TextGenerator3D.tsx:148-154 | The session starts at the defaults with the flag down and nothing scheduled |
| Session.StepPreservesValid | components/TextGenerator3D.tsx:172-224 | No event breaks the session invariant: text within 20 characters, flag up exactly while a callback is scheduled |
| Session.RunPreservesValid | components/TextGenerator3D.tsx:156-224 | Any sequence of events preserves the session invariant |
| Session.ReachableIsValid | components/ControlPanel.tsx:194 | In every session reachable from the start, the stored text is at most 20 characters and the flag cannot stick |
| Session.ResetAfterAnyHistory | components/TextGenerator3D.tsx:161-167 | Whatever events came before, a reset leaves every record at its default |
| Session.ExportNeverSticks | components/TextGenerator3D.tsx:169-225 | A press followed by its callback raises then lowers the flag on every path, and a file is produced only on success |

## Left out

- Export.ExportReproducesScreen: the exported background is compared with the page's background style only. On screen the canvas sits in a container with a `bg-white/50 backdrop-blur-sm` veil (components/TextGenerator3D.tsx:260), so the text is seen over a blurred half-white layer that the export does not paint; and the on-screen gradient spans the whole page height, while the exported one spans the image height.
- Canvas and DOM effects are not modelled:
  - creating the canvas and its 2-D context;
  - the pixel compositing of `fillRect` and `drawImage`;
  - gradient colour interpolation;
  - `toDataURL` encoding and the download click.

  The plan records only their arguments. Whether they succeed is a parameter (`CaptureEnv`).
- The diagnostic `console.error("Export failed:", error)` in the catch block is left out: `Failed` carries no message, since console output is I/O.
- The 100 ms `setTimeout` yield, and React state batching and render timing, are not modelled. The callback is a separate `TimerFires` event. Capturing a stale frame under load is a timing effect outside a sequential model.
- The scene graph, orbit controls, environment maps, shadows and grid (components/Scene3D.tsx) are left out. So is the per-frame `rotation.y += delta * rotationSpeed` animation, which is floating-point renderer work.
- three.js object construction and `THREE.Color` parsing of colour strings are left out. The mapper's output is a plain record, and colours stay strings.
- Glyph outline geometry and the font file are left out. Only the parameters handed to the text mesh are modelled.
- Page metadata and the Open Graph image (app/layout.tsx, app/opengraph-image.tsx) are left out: they are static markup.
- Tab switching, JSX layout, CSS and slider `parseFloat` are left out. A slider edit carries the number it stores.
- The on-screen preview label's `text || "Hello"` fallback is left out. It is the same fallback `Appearance.Geometry` states.
- Controls.Truncate: counts `char`s, not the UTF-16 code units of JavaScript's `slice`, because strings are modelled as `seq<char>`.
- Controls.ApplyExportEdit: "only png or jpeg" and "only 1, 2 or 4" hold by the types `ImageFormat` and `Resolution` rather than by a checked contract.
