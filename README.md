# Liquid light show: a verified model of the painting core

This project models, in Dafny, the core of a browser app that paints with
simulated oil and water "liquid light". It covers these parts:

- **The GPU fluid renderer.** This is `LiquidRenderer`: render-target pairs,
  the fixed-step frame loop, the stage pipeline of one step with its pressure
  passes, splats, clearing and resizing. The capability probe and its cache
  come with it.
- **The two canvas-2D particle engines** (`WebGLFluid`) and the canvases that
  drive them:
  - the classic canvas, with its preset-cycling strokes;
  - the studio canvas, with its action log, replay, snapshots, undo/redo and
    colour rotation.
- **Configuration history** (undo/redo over merged partial configurations),
  the preset-cycle engine, the preset catalogue, transitions between
  configurations and the easing curves.
- **Colour and brush helpers:** hex/HSL conversion and hue rotation, brush
  patterns, kaleidoscope symmetry, and the keyword palette and vibe generator.
- **Browser-side state:** session save and restore, the artwork gallery, and
  UI preferences.
- **Inputs and effects:** the audio-reactivity service, tilt, shake and
  two-finger gesture controls, and the flash and flicker after-effects.
- **The palette and brush panels:** the colour tray, the colour panel, the
  brush panel and the rainbow context menu.

A configuration is a map from field name to value. Spreading one partial
configuration over another (`{ ...a, ...b }`) is map union with the right
side winning.

Some things are given to the model as parameters rather than modelled:
- randomness, the clock and the trigonometric functions;
- JSON text, the platform's permission answers and window sizes;
- whatever a GPU or canvas draws.

Numbers are exact reals, not IEEE doubles. The JavaScript operators that
differ from Dafny's are written out in module `Js`:
- `%` truncates;
- `Math.round` rounds halves up;
- `||` treats 0 and `''` as missing;
- `toLowerCase` and `trim` are spelled out.

Stateful parts are classes whose methods are proved against pure
specification functions. The properties of those functions are proved as
lemmas.

Behaviours of the renderer that the model keeps as the code has them:

- **`LiquidRenderer` before its asynchronous initialisation has finished.**
  Before initialisation `splat`, `clear` and a running frame dereference
  filters and render targets that do not exist yet, so they throw; the model
  returns `Thrown`. Also, `play` sets `isRunning` before the throwing frame,
  so the renderer stays marked as running.
- **Splats with a radius of zero or less.** A radius of zero or less is
  passed to the splat pass unchanged.
- **Resizing.** This recomputes only the intended simulation size. The
  targets are not reallocated.
- **The advection dissipation factor.** It is set through a shared filter's
  uniforms. Only the first velocity advection uses 0.98; every later one
  uses the 0.995 left behind by the oil and water passes
  (`LiquidRenderer.DissipationLeak`).
- **Performance mode** switches thin-film interference off even when the
  configuration asks for it.

A few behaviours of the code that a reader may not expect are proved as they
are written:

- **Brush panel minimum size.** When the stored maximum drop radius is 0, the
  minimum-size slider is bounded by 0.15 instead, because 0 is falsy. The
  minimum can then exceed the maximum (`BrushPanel.ZeroMaximumIgnored`).
- **Studio canvas.** The action index always equals the length of the action
  log, because undo and redo move only the snapshot index. So a replay from
  the log re-applies every recorded action.
- **Shake detector.** It measures its 100 ms throttle from the last shake,
  not from the last reading.

## Model

| member | source | states |
|---|---|---|
| LiquidRenderer.Swap | engines/liquid-pixi/LiquidRenderer.ts:503-507 | `swapRT` exchanges the two slots of a pair: the new current handle is the old next one and vice versa |
| LiquidRenderer.InitialTargetsDistinct | engines/liquid-pixi/LiquidRenderer.ts:117-152 | the ten render targets `createRenderTargets` makes are pairwise distinct |
| LiquidRenderer.PassCount | engines/liquid-pixi/LiquidRenderer.ts:335-341 | the pressure `for` loop runs no pass for a count at or below 0, and otherwise the smallest whole number of passes not below the count |
| LiquidRenderer.PassCountLoop | engines/liquid-pixi/LiquidRenderer.ts:335 | pass `i` runs exactly when `i < iters`, which is when `i` is below the pass count |
| LiquidRenderer.PassCountOfInteger | engines/liquid-pixi/LiquidRenderer.ts:335-341 | a whole iteration count runs exactly that many passes |
| LiquidRenderer.Iterations | engines/liquid-pixi/LiquidRenderer.ts:334 | 8 pressure iterations in performance mode, else `pressureIterations`, else 12 |
| LiquidRenderer.FrameDelta | engines/liquid-pixi/LiquidRenderer.ts:274-279 | the frame's elapsed time is clamped into [1/120, 1/30] seconds |
| LiquidRenderer.TickBelow | engines/liquid-pixi/LiquidRenderer.ts:284-287 | while the remainder is at least 1/60 another tick runs |
| LiquidRenderer.TickExhausted | engines/liquid-pixi/LiquidRenderer.ts:284-287 | the drain loop stops exactly after the number of whole ticks in the accumulator |
| LiquidRenderer.Digits6 | engines/liquid-pixi/LiquidRenderer.ts:539-548 | the accepted colour text has six hexadecimal digits |
| LiquidRenderer.HexToRgb | engines/liquid-pixi/LiquidRenderer.ts:539-548 | `hexToRgb` gives channels in [0, 1]; anything but `#rrggbb`/`rrggbb` gives red (1, 0, 0); an accepted colour gives each byte over 255 |
| LiquidRenderer.HexToRgbOfBytes | engines/liquid-pixi/LiquidRenderer.ts:539-548 | every byte triple written with or without `#` decodes to its bytes over 255 |
| LiquidRenderer.UniformsFor | engines/liquid-pixi/LiquidRenderer.ts:518-531 | `updateUniforms` turns thin film off in performance mode and otherwise takes the configured flag, off by default |
| LiquidRenderer.SimSize | engines/liquid-pixi/LiquidRenderer.ts:111-115 | the grid side is `floor(size * (simScale ?? 0.5))`, within [0, size] for a scale in [0, 1] |
| LiquidRenderer.ScaleBounds | engines/liquid-pixi/LiquidRenderer.ts:113-114 | scaling a non-negative size by a factor in [0, 1] stays within [0, size] |
| LiquidRenderer.Renderer.constructor | engines/liquid-pixi/LiquidRenderer.ts:70-87 | the synchronous constructor: the configuration and performance mode are stored, nothing runs, no target exists yet, the clock starts at `now` |
| LiquidRenderer.Renderer.UpdateSimResolution | engines/liquid-pixi/LiquidRenderer.ts:111-115 | the grid is the renderer size scaled by `simScale ?? 0.5` |
| LiquidRenderer.Renderer.InitCallback | engines/liquid-pixi/LiquidRenderer.ts:88-108 | the init callback makes the renderer ready: grid size, ten fresh targets, filters with dissipation 0.98, uniforms from the configuration, the resize listener attached; nothing else changes |
| LiquidRenderer.Renderer.CreateRenderTargets | engines/liquid-pixi/LiquidRenderer.ts:117-152 | the four pairs and the two single targets are created, all distinct |
| LiquidRenderer.Renderer.CreateShaders | engines/liquid-pixi/LiquidRenderer.ts:154-235 | the advect filter starts at dissipation 0.98 and the uniforms follow the configuration |
| LiquidRenderer.Renderer.ApplyAdvect | engines/liquid-pixi/LiquidRenderer.ts:484-500 | `applyFilter` merges the passed uniforms into the shared filter, so the dissipation it sets stays for later advections, and issues one advect pass |
| LiquidRenderer.Renderer.Issue | engines/liquid-pixi/LiquidRenderer.ts:484-500 | a pass is appended to the passes issued |
| LiquidRenderer.Renderer.Step | engines/liquid-pixi/LiquidRenderer.ts:298-383 | `step` changes the engine state exactly as the stage pipeline `StepOf` prescribes, leaving the clock, flags and configuration alone |
| LiquidRenderer.Renderer.VelocityPhase | engines/liquid-pixi/LiquidRenderer.ts:300-332 | the first four stages issue advection, separation, diffusion and divergence passes and leave the velocity pair swapped |
| LiquidRenderer.Renderer.PressurePhase | engines/liquid-pixi/LiquidRenderer.ts:334-341 | the pressure loop issues one alternating pass per iteration and swaps the pair once per pass |
| LiquidRenderer.Renderer.FieldPhase | engines/liquid-pixi/LiquidRenderer.ts:343-383 | gradient subtraction, oil and water advection at 0.995 and surface tension on both fields, with the advect filter left at 0.995 |
| LiquidRenderer.Renderer.RunTicks | engines/liquid-pixi/LiquidRenderer.ts:284-287 | the drain loop runs one step per whole 1/60 tick and leaves the remainder in the accumulator |
| LiquidRenderer.Renderer.Render | engines/liquid-pixi/LiquidRenderer.ts:388-424 | `render` issues the shading pass once ready and throws before initialisation |
| LiquidRenderer.Renderer.Loop | engines/liquid-pixi/LiquidRenderer.ts:271-293 | one frame: nothing when stopped; otherwise clamp the delta, accumulate, run the whole ticks, render once and request the next frame; before initialisation it throws after moving the clock and accumulator |
| LiquidRenderer.Renderer.Frame | engines/liquid-pixi/LiquidRenderer.ts:284-292 | once initialised, a frame steps once per whole tick, renders once and keeps less than a tick pending |
| LiquidRenderer.Renderer.Play | engines/liquid-pixi/LiquidRenderer.ts:250-258 | `play` is a no-op while running; otherwise it marks running, restarts the clock and runs a frame (which throws before initialisation, leaving the renderer marked running) |
| LiquidRenderer.Renderer.Pause | engines/liquid-pixi/LiquidRenderer.ts:260-268 | `pause` stops and cancels the pending frame; twice is the same as once |
| LiquidRenderer.Renderer.Splat | engines/liquid-pixi/LiquidRenderer.ts:426-446 | a splat writes the chosen phase's pair only, at (x/width, y/height) with radius 2·radius/width; it throws before initialisation |
| LiquidRenderer.Renderer.UpdateConfig | engines/liquid-pixi/LiquidRenderer.ts:451-457 | the partial configuration is spread over the current one; the uniforms then follow it, thin film off in performance mode; before initialisation the refresh throws |
| LiquidRenderer.Renderer.Clear | engines/liquid-pixi/LiquidRenderer.ts:459-466 | `clear` clears the current slot of the four pairs once ready and throws before |
| LiquidRenderer.Renderer.WindowResize | engines/liquid-pixi/LiquidRenderer.ts:533-537 | the resize listener recomputes the grid size from the renderer size; without the listener nothing changes |
| LiquidRenderer.Renderer.Destroy | engines/liquid-pixi/LiquidRenderer.ts:469-476 | `destroy` pauses, detaches the listener and destroys the application |
| LiquidRenderer.PressureRunShape | engines/liquid-pixi/LiquidRenderer.ts:335-341 | a run of `n` pressure passes has `n` passes, pass `i` reading and writing alternate slots, and ends swapped iff `n` is odd |
| LiquidRenderer.StepPasses | engines/liquid-pixi/LiquidRenderer.ts:298-383 | the passes of one step in their fixed order: advect velocity, separation, diffuse, divergence, `n` pressure passes, gradient, advect oil, advect water, tension on oil, tension on water |
| LiquidRenderer.StepRestoresPairs | engines/liquid-pixi/LiquidRenderer.ts:298-383 | after a step velocity, oil and water are back in place, pressure is swapped iff the pass count is odd, and the advect filter holds 0.995 |
| LiquidRenderer.SwappedDistinct | engines/liquid-pixi/LiquidRenderer.ts:503-507 | swapping keeps the ten targets distinct |
| LiquidRenderer.NoPassReadsItsTarget | engines/liquid-pixi/LiquidRenderer.ts:298-383 | with distinct targets no pass of a step samples the texture it writes |
| LiquidRenderer.StepKeepsDistinct | engines/liquid-pixi/LiquidRenderer.ts:298-383 | a step keeps the ten targets distinct |
| LiquidRenderer.DissipationLeak | engines/liquid-pixi/LiquidRenderer.ts:300-306 | only the first velocity advection uses 0.98; from the second step on velocity is advected at the 0.995 the field advections left in the shared filter (also lines 161, 355, 364, 486) |
| LiquidRenderer.StepsRestorePairs | engines/liquid-pixi/LiquidRenderer.ts:284-287 | over `k` steps velocity, oil and water stay in place and pressure is swapped `k·n` times |
| LiquidRenderer.RenderAndClearKeepTargets | engines/liquid-pixi/LiquidRenderer.ts:388-424 | rendering and clearing issue passes only and move no target; clearing issues four clears (also lines 459-466) |
| LiquidRenderer.ClearSparesOthers | engines/liquid-pixi/LiquidRenderer.ts:459-466 | clearing never touches divergence, background or any next slot |
| LiquidRenderer.SplatTouchesOnePhase | engines/liquid-pixi/LiquidRenderer.ts:426-446 | a splat writes only its phase's next slot and swaps only that pair; two splats on one phase restore its slots |
| LiquidRenderer.FrameBounds | engines/liquid-pixi/LiquidRenderer.ts:271-293 | from less than one tick pending a frame runs at most two ticks and leaves less than one |
| LiquidRenderer.NewRenderer | engines/liquid-pixi/LiquidRenderer.ts:70-76 | construction consults the shared capability probe; without WebGL the constructor throws, otherwise a fresh renderer, not yet ready |
| Capabilities.ChooseFormat | engines/liquid-pixi/capabilities.ts:57-62 | half-float when its texture extension exists, else float when that does, else RGBA8 |
| Capabilities.Probe | engines/liquid-pixi/capabilities.ts:28-75 | a probe without a context reports no support and RGBA8; with one, the extensions it has and the format chosen from them |
| Capabilities.FormatNeedsExtensions | engines/liquid-pixi/capabilities.ts:57-62 | a format other than RGBA8 is chosen only when its texture extension exists |
| Capabilities.CapabilityCache.constructor | engines/liquid-pixi/capabilities.ts:21 | the process starts with no cached answer |
| Capabilities.CapabilityCache.Detect | engines/liquid-pixi/capabilities.ts:26-77 | the first call probes and caches; every later call returns the cached answer |
| Capabilities.CapabilityCache.SupportsWebGL | engines/liquid-pixi/capabilities.ts:82-84 | `supportsWebGL` is the detected answer's `supported` |
| Capabilities.DetectTwice | engines/liquid-pixi/capabilities.ts:26-27 | two detections probe once and agree, whatever the second context |
| ParticleFluid.TuningOf | components/LiquidCanvas.tsx:97-98 | the classic engine's constants (bursts of 5, or 3 in performance mode; cap 300 or 150; life 80+50r or 60+30r; one life and 1 % radius lost per frame); the studio engine's are 5, 1200, 350+250r, 0.5 and 0.5 % (src/components/LiquidCanvas.tsx:49,66,107-108,126); the life step is positive and a burst never exceeds the cap (also lines 43, 60, 116) |
| ParticleFluid.Burst | components/LiquidCanvas.tsx:100-114 | a splat appends one particle per draw, in draw order, each spawned at the splat point |
| ParticleFluid.FluidEngine.constructor | components/LiquidCanvas.tsx:7-12 | the engine starts with an empty list, no frame scheduled and the resize listener attached; the classic canvas sizes itself at once, the studio one (src/components/LiquidCanvas.tsx:94-99) keeps the 300 by 150 of an unsized canvas element until later (also lines 87-89) |
| ParticleFluid.FluidEngine.ResizeCanvas | components/LiquidCanvas.tsx:14-18 | the classic canvas always assigns the scaled client size (truncated, as a canvas dimension keeps); the studio canvas (src/components/LiquidCanvas.tsx:13-24) skips a zero-sized element and assigns the floored size only when it differs |
| ParticleFluid.FluidEngine.UpdateConfig | components/LiquidCanvas.tsx:92-94 | the whole configuration is replaced |
| ParticleFluid.FluidEngine.Splat | components/LiquidCanvas.tsx:95-120 | the list becomes the newest `cap` particles of the old list followed by the burst |
| ParticleFluid.FluidEngine.Draw | components/LiquidCanvas.tsx:29-85 | the reverse loop leaves exactly the frame `Survivors` of the old list, in order, and schedules the next frame |
| ParticleFluid.FluidEngine.Play | components/LiquidCanvas.tsx:121-125 | `play` draws one frame only when no frame id is held; otherwise nothing changes |
| ParticleFluid.FluidEngine.Pause | components/LiquidCanvas.tsx:126-131 | `pause` cancels the pending frame and forgets its id |
| ParticleFluid.FluidEngine.Clear | components/LiquidCanvas.tsx:20-27 | `clear` empties the list when there is a 2D context and does nothing otherwise |
| ParticleFluid.FluidEngine.Destroy | components/LiquidCanvas.tsx:133-139 | `destroy` detaches the listener, cancels the frame and empties the list, but keeps the frame id |
| ParticleFluid.SurvivorsShorter | components/LiquidCanvas.tsx:40-47 | a frame never grows the list |
| ParticleFluid.SurvivorsConcat | components/LiquidCanvas.tsx:40-47 | culling during the reverse loop keeps the survivors' relative order: a frame over two lists is the frame over each, concatenated |
| ParticleFluid.SurvivorsAlive | components/LiquidCanvas.tsx:43-47 | every particle left after a frame has positive life and is the advance of a particle of the old list |
| ParticleFluid.AllExpire | components/LiquidCanvas.tsx:43-47 | when every particle's life reaches zero this frame the list empties |
| ParticleFluid.AllSurvive | components/LiquidCanvas.tsx:40-60 | when every particle outlives the frame each is advanced in place: moved, kicked, damped by 0.98, shrunk |
| ParticleFluid.KeepNewestBounds | components/LiquidCanvas.tsx:116-119 | after the cap the list holds `min(length, cap)` particles, the newest ones in order, and is untouched below the cap |
| ParticleFluid.SplatKeepsBurst | components/LiquidCanvas.tsx:113-119 | the whole new burst survives the cap, at the end of the list |
| ParticleFluid.SpawnRanges | components/LiquidCanvas.tsx:97-112 | a new particle starts at full life in [base, base + spread), with a radius within a quarter of the requested one in device pixels and a speed in [1, 4) along its angle |
| ParticleFluid.KickBounds | components/LiquidCanvas.tsx:52-57 | the random kick moves each velocity component by less than 0.2 before the 0.98 damping |
| ParticleFluid.Lifetime | components/LiquidCanvas.tsx:43-47 | a particle kept `n` frames has lost `n` life steps, and it is still there after `n` frames exactly when that leaves positive life |
| PaintCanvas.Canvas.constructor | components/LiquidCanvas.tsx:167-177 | the component starts with the configuration and active index of its props, no stroke cycle, nothing committed and no press in progress (also line 253) |
| PaintCanvas.Canvas.ApplyEphemeralPreset | components/LiquidCanvas.tsx:255-267 | the preset is spread over the current configuration, the active index is pulled back into a palette that shrank, the cycle records the preset as last applied, and the engine receives the new configuration |
| PaintCanvas.Canvas.CycleOnSplat | components/LiquidCanvas.tsx:272-286 | the per-splat cycle step: when cycling per splat and more than 60 ms have passed since the last step, the current selection is applied, the time recorded and the position advanced with `nextIndex`; the engine holds the applied configuration exactly when a preset was applied, and keeps its own otherwise |
| PaintCanvas.Canvas.Splat | components/LiquidCanvas.tsx:269-294 | nothing in demo mode; otherwise the cycle step, then a burst in the active colour of radius `clientWidth * 0.05 * splatRadius` when that colour is a non-empty palette entry, and no particle otherwise; the engine configuration changes only when the step applied a preset |
| PaintCanvas.Canvas.PointerDown | components/LiquidCanvas.tsx:296-315 | a press begins, the stroke's cycle starts (or is dropped) as `StrokeStart` describes, then the point is splatted: the particle list gains the burst in the splat colour capped to the newest, or stays in demo mode or without a colour; the engine configuration changes only when the stroke or its splat applied a preset |
| PaintCanvas.Canvas.PointerMove | components/LiquidCanvas.tsx:329-336 | a move splats only while pressed, with the particle, refs and engine-configuration effects of `Splat`; otherwise nothing changes |
| PaintCanvas.Canvas.PointerUp | components/LiquidCanvas.tsx:317-327 | the press ends (also when leaving the canvas) and the stroke ends as `StrokeEndCommitsOnce` describes |
| PaintCanvas.Canvas.Rerender | components/LiquidCanvas.tsx:173-178 | a render sets the configuration, active-index and demo-mode refs from the props and keeps the stroke's cycle and the commits |
| PaintCanvas.ApplyClampsIndex | components/LiquidCanvas.tsx:257-263 | after a preset is applied the active index lies in the new palette (0 for an empty one), is unchanged if it already did, the configuration is the merge, and the cycle records the preset without moving |
| PaintCanvas.StrokeStart | components/LiquidCanvas.tsx:299-309 | a stroke cycles iff not in demo mode, cycling is on and both the selection and the catalogue are non-empty; the state starts at `{current: 0, dir: 1}`; per stroke the first selected preset is applied and the position advanced; the position stays in the selection |
| PaintCanvas.SplatStepThrottled | components/LiquidCanvas.tsx:274-286 | within 60 ms of the last step nothing changes; otherwise the step is recorded at `now`, the position advances with `nextIndex` and stays in range, and an existing preset is merged into the configuration |
| PaintCanvas.SecondSplatWithinGateIsQuiet | components/LiquidCanvas.tsx:276-278 | a second splat within 60 ms of a step changes nothing |
| PaintCanvas.StrokeEndCommitsOnce | components/LiquidCanvas.tsx:317-327 | ending a stroke commits the last applied preset configuration once, only when the cycle exists, something was applied and there is a commit callback; the cycle is cleared and a second end commits nothing |
| PaintCanvas.RenderOverridesPreset | components/LiquidCanvas.tsx:173-178 | a preset applied during a stroke lasts until the next render, which restores the props' configuration and index, so the next splat paints with the props' colour; only the record of what was applied survives |
| StudioCanvas.Canvas.constructor | src/components/LiquidCanvas.tsx:172-187 | the component starts with an empty action log at index 0, no images, rotation 0, nothing painted and no press in progress (also lines 234-235) |
| StudioCanvas.Canvas.RecordAction | src/components/LiquidCanvas.tsx:372-374 | the action log is cut at the index, the action appended and the index set to the new length |
| StudioCanvas.Canvas.CommitSnapshot | src/components/LiquidCanvas.tsx:257-263 | an empty capture is ignored; otherwise the images from the index on are dropped, the capture appended and the index set to the length |
| StudioCanvas.Canvas.Splat | src/components/LiquidCanvas.tsx:358-380 | nothing in demo mode or with an empty palette; otherwise the engine splats in the chosen colour with radius `clientWidth * 0.05 * splatRadius`, the splat is logged, and `onFirstPaint` is called if nothing was painted before |
| StudioCanvas.Canvas.PickColor | src/components/LiquidCanvas.tsx:364-369 | the colour and next rotation index are the ones `ColorChoice` describes |
| StudioCanvas.Canvas.MarkPainted | src/components/LiquidCanvas.tsx:375-378 | the first paint calls `onFirstPaint` (when given) once, and never again |
| StudioCanvas.Canvas.DoClear | src/components/LiquidCanvas.tsx:312-321 | the clear callback captures an image, logs a clear, clears the engine and captures again |
| StudioCanvas.Canvas.Replay | src/components/LiquidCanvas.tsx:324-335 | the engine is cleared and then the logged actions before the index are re-applied in order, clears clearing and splats splatting |
| StudioCanvas.Canvas.Undo | src/components/LiquidCanvas.tsx:337-345 | with more than one image the index steps back and the image before it is shown; otherwise the log is replayed |
| StudioCanvas.Canvas.Redo | src/components/LiquidCanvas.tsx:346-353 | with an image after the index it is shown and the index steps forward; otherwise the log is replayed |
| StudioCanvas.Canvas.PointerDown | src/components/LiquidCanvas.tsx:382-388 | a press begins; in demo mode or with an empty palette nothing else changes; otherwise the point is splatted and logged, the rotation advances as `ChooseColor` gives and the first paint is reported once |
| StudioCanvas.Canvas.PointerMove | src/components/LiquidCanvas.tsx:396-403 | released, in demo mode or with an empty palette nothing changes; pressed, the point is splatted and logged, the rotation advances and the first paint is reported once |
| StudioCanvas.Canvas.PointerUp | src/components/LiquidCanvas.tsx:390-394 | the press ends and the stroke's final image is committed |
| StudioCanvas.RecordShape | src/components/LiquidCanvas.tsx:316-318 | recording keeps the log before the index, puts the action right after it and leaves the index at the new length (also lines 372-374) |
| StudioCanvas.CommitShape | src/components/LiquidCanvas.tsx:257-263 | an empty capture changes nothing; a non-empty one keeps the images before the index, becomes the last image, and the index points past it |
| StudioCanvas.UndoThenRedo | src/components/LiquidCanvas.tsx:337-353 | an undo followed by a redo returns to the same index and shows the image that index stood on |
| StudioCanvas.RedoThenUndo | src/components/LiquidCanvas.tsx:337-353 | a redo followed by an undo returns to the same index |
| StudioCanvas.SnapIndexBounds | src/components/LiquidCanvas.tsx:339-347 | undo never goes below the first image and redo never past the last; undo replays exactly at index at most 1, redo exactly at the end |
| StudioCanvas.ColorChoice | src/components/LiquidCanvas.tsx:364-368 | `'blend'` paints the active colour (white for a missing or empty entry) and keeps the rotation; the other behaviours paint the palette entry under the rotation index and move it on by one, wrapping to 0 |
| StudioCanvas.ReplayAfterClear | src/components/LiquidCanvas.tsx:324-335 | with a 2D context, replaying a log gives the same particles as replaying only what follows a clear in it |
| StudioCanvas.ReplayBounded | src/components/LiquidCanvas.tsx:324-335 | replaying never takes the list past the cap of 1200 when it starts within it (also lines 126-127) |
| ConfigHistory.History.constructor | hooks/useHistory.ts:11-14 | the hook starts showing the initial configuration, with the history `[initial]` at position 0 |
| ConfigHistory.History.UpdateConfig | hooks/useHistory.ts:16-36 | the configuration becomes the merge with the partial; a committed update drops the redo branch, appends, shifts off the oldest past 30 and moves to the last entry; an uncommitted one leaves the history alone |
| ConfigHistory.History.Undo | hooks/useHistory.ts:38-43 | undo steps back and shows that entry when not at the first one |
| ConfigHistory.History.Redo | hooks/useHistory.ts:45-50 | redo steps forward and shows that entry when not at the last one |
| ConfigHistory.History.GetSnapshot | hooks/useHistory.ts:52-58 | the snapshot holds the shown configuration, the history and the position |
| ConfigHistory.History.SetFromSnapshot | hooks/useHistory.ts:60-65 | a snapshot without a history or a numeric index is ignored; otherwise its history is taken, the index clamped into it and the entry there shown, or the snapshot's configuration when there is none |
| ConfigHistory.History.Reset | hooks/useHistory.ts:67-71 | reset leaves the history `[next]` at position 0 showing `next` |
| ConfigHistory.UpdateMerges | hooks/useHistory.ts:19-20 | the updated configuration has the keys of both, the partial's values winning; without `pushToHistory` the history and position are unchanged |
| ConfigHistory.UpdateAppends | hooks/useHistory.ts:21-31 | a committed update ends the history with the new configuration, at the last position, in sync |
| ConfigHistory.UpdateKeepsPast | hooks/useHistory.ts:22-29 | a committed update keeps the entries up to the position followed by the new one, dropping the oldest only when that would exceed 30 |
| ConfigHistory.BoundedPreserved | hooks/useHistory.ts:38-50 | update, undo, redo and reset keep 1 to 30 entries with the position inside (also lines 21-31, 67-71) |
| ConfigHistory.RestoreBounded | hooks/useHistory.ts:60-65 | restoring a list of 1 to 30 entries is bounded and in sync again; restoring an empty list leaves position 0 outside it and shows the snapshot's configuration |
| ConfigHistory.ReachablePreserved | hooks/useHistory.ts:16-71 | every operation, restoring any snapshot included, keeps the position inside the list or at 0 of an empty list, so undo and redo never index out of range |
| ConfigHistory.UndoRedoMoves | hooks/useHistory.ts:38-50 | undo at the first entry and redo at the last do nothing; otherwise they move by one and show that entry |
| ConfigHistory.RedoUndoes | hooks/useHistory.ts:38-50 | redo after an undo returns to the state before it |
| ConfigHistory.UpdateUndoRedo | tests/useHistory.test.ts:11-26 | after an update, undo shows the configuration before it and redo the updated one again |
| ConfigHistory.ResetThenRestore | tests/useHistory.test.ts:29-50 | after a reset, restoring an earlier snapshot brings back its configuration, history and position |
| PresetCycle.RandomPick | features/presets/PresetCycleEngine.ts:11 | `floor(random * listLen)` lies in [0, listLen) |
| PresetCycle.EmptyListKeepsState | features/presets/PresetCycleEngine.ts:9 | a list length at or below 0 returns the state unchanged |
| PresetCycle.NextInRange | features/presets/PresetCycleEngine.ts:8-33 | every mode keeps an index in [0, listLen) inside it, and keeps the direction +1 or -1 |
| PresetCycle.RandomAvoidsRepeat | features/presets/PresetCycleEngine.ts:10-16 | random mode never repeats the current index when there are two or more, and keeps the direction |
| PresetCycle.SequentialStep | features/presets/PresetCycleEngine.ts:18-21 | sequential mode gives `(current + 1) mod listLen` with direction 1 |
| PresetCycle.Visit | tests/PresetCycleEngine.test.ts:4-12 | the test helper `run`: `k` successive calls from a state collect one visited index per call |
| PresetCycle.SequentialThree | tests/PresetCycleEngine.test.ts:15-18 | sequential from 0 over three entries visits 1, 2, 0, 1, 2 |
| PresetCycle.PingPongThree | tests/PresetCycleEngine.test.ts:19-22 | ping-pong from 0 over three entries visits 1, 2, 1, 0, 1, 2 |
| PresetCycle.SequentialLands | features/presets/PresetCycleEngine.ts:18-21 | `k` sequential steps from an in-range index land on `(current + k) mod listLen` |
| PresetCycle.SequentialPeriod | features/presets/PresetCycleEngine.ts:18-21 | `listLen` sequential steps return to the starting index |
| Presets.Base | constants/presets.ts:18-26 | `base(cfg)` has the six defaults' keys and cfg's, and every key of cfg overrides the default |
| Presets.CorePresets | constants/presets.ts:154-162 | the nine hand-written core presets, each in category Core |
| Presets.AcidPresets | constants/presets.ts:165-178 | one `acidDrippy` preset per listed entry, each in category Acid |
| Presets.GoofyPresets | constants/presets.ts:181-194 | one `goofy60s` preset per listed entry, each in category Goofy |
| Presets.NitrousPresets | constants/presets.ts:197-210 | one `nitrous` preset per listed entry, each in category Nitrous |
| Presets.HealingPresets | constants/presets.ts:213-221 | one `healing` preset per listed level, each in category Healing |
| Presets.BlendPresets | constants/presets.ts:224-235 | one `blendy` preset per listed entry, each in category Blends |
| Presets.CoreCategories | constants/presets.ts:154-162 | there are 9 core presets |
| Presets.AcidCategories | constants/presets.ts:165-178 | there are 12 acid presets |
| Presets.GoofyCategories | constants/presets.ts:181-194 | there are 12 sixties presets |
| Presets.NitrousCategories | constants/presets.ts:197-210 | there are 12 nitrous presets |
| Presets.HealingCategories | constants/presets.ts:213-221 | there are 7 healing presets |
| Presets.BlendCategories | constants/presets.ts:224-235 | there are 10 blend presets |
| Presets.CatalogueLayout | constants/presets.ts:153-236 | `PRESETS` holds 62 presets: 9 core, 12 acid, 12 sixties, 12 nitrous, 7 healing, 10 blends, grouped in that order |
| Presets.BaseKeepsDropperDefaults | constants/presets.ts:18-26 | a look that sets no dropper field gets all five dropper defaults from `base` |
| Presets.AcidKeepsDropperDefaults | constants/presets.ts:28-57 | an acid preset keeps the dropper defaults |
| Presets.GoofyKeepsDropperDefaults | constants/presets.ts:59-83 | a sixties preset keeps the dropper defaults |
| Presets.NitrousKeepsDropperDefaults | constants/presets.ts:85-111 | a nitrous preset keeps the dropper defaults |
| Presets.HealingKeepsDropperDefaults | constants/presets.ts:113-134 | a healing preset keeps the dropper defaults |
| Presets.BlendKeepsDropperDefaults | constants/presets.ts:136-151 | a blend keeps the dropper defaults unless its extra fields set them |
| Presets.AcidShape | constants/presets.ts:28-57 | an acid preset is in category Acid under its name, turns symmetry on (overriding the base's off) at six-fold, and carries the given colours |
| Presets.SymmetryOffByDefault | constants/presets.ts:59-134 | sixties, nitrous and healing presets keep the base's symmetry off (also lines 18-26) |
| Presets.BlendExtraWins | constants/presets.ts:136-151 | a blend's extra fields win over its own look and the base; without them it is eight-fold with symmetry on |
| Presets.MandaloozeSymmetry | constants/presets.ts:225 | entry 52 is Mandalooze, twelve-fold at 15 degrees |
| Presets.HealingLinear | constants/presets.ts:117-123 | each healing field moves by a fixed step per level: +0.01, +0.02, -0.01, +0.05, +0.04, +0.03 |
| Presets.HealingCarriesLook | constants/presets.ts:113-134 | a healing preset carries every field of its level's look over the base |
| Transition.EaseEnds | services/transitionService.ts:19-24 | every entry of the service's easing table maps 0 to 0 and 1 to 1 and keeps [0, 1] inside [0, 1] |
| Transition.ValidChannel | services/transitionService.ts:38-44 | a channel of a `#rrggbb` colour parses to the byte its two digits spell, which prints back as those digits lowercased |
| Transition.MixIsByte | services/transitionService.ts:47-49 | between two bytes and for t in [0, 1] the rounded blend is a byte |
| Transition.BlendedChannel | services/transitionService.ts:47-52 | a blended channel of two `#rrggbb` colours prints as two lowercase hex digits |
| Transition.LerpColorFormat | services/transitionService.ts:36-53 | for two `#rrggbb` colours and t in [0, 1] `lerpColor` returns `#` and six lowercase hex digits |
| Transition.SameChannel | services/transitionService.ts:38-52 | a channel blended with itself prints as its own digits lowercased |
| Transition.LerpColorSame | services/transitionService.ts:36-53 | `lerpColor(c, c, t)` is c lowercased |
| Transition.LerpColorEnds | services/transitionService.ts:29-53 | at t = 0 `lerpColor` gives the start colour and at t = 1 the end colour, lowercased |
| Transition.Padded | services/transitionService.ts:64-69 | padding brings a list to the target length and never shortens it |
| Transition.LerpColors | services/transitionService.ts:71 | the pairwise blend has one colour per pair, each the `lerpColor` of the pair |
| Transition.PadTo | services/transitionService.ts:64-69 | the padding loop pushes the fill colour until the list reaches the length |
| Transition.LerpColorArray | services/transitionService.ts:58-72 | `lerpColorArray` pads both lists to the longer length and blends them pairwise |
| Transition.LerpColorArrayShape | services/transitionService.ts:58-72 | the result is as long as the longer list; within both lists the pairs blend, past the shorter one its last colour is used |
| Transition.EmptyPadsBlack | services/transitionService.ts:65-68 | an empty list is padded with `#000000` |
| Transition.NumericNotSwitched | services/transitionService.ts:113-129 | the numeric fields and the switching fields are disjoint (also lines 81-89) |
| Transition.NumericNotPalette | services/transitionService.ts:81-110 | the numeric fields and the palettes are disjoint |
| Transition.PaletteNotSwitched | services/transitionService.ts:100-129 | the palettes and the switching fields are disjoint |
| Transition.SpecAt | services/transitionService.ts:77-132 | every field of the blended configuration is the answer of its field rule |
| Transition.AbsentStaysAbsent | services/transitionService.ts:78-129 | a field neither side has stays absent from the blend |
| Transition.BlendNumbers | services/transitionService.ts:78-97 | the numeric pass over a copy of start blends each listed field that both sides hold as a number, in list order |
| Transition.BlendPalettes | services/transitionService.ts:100-110 | the palette pass blends each of the three palettes that both sides have |
| Transition.SwitchFields | services/transitionService.ts:113-129 | the switching pass sets the seven fields from one side and leaves the rest |
| Transition.LerpConfig | services/transitionService.ts:77-132 | `lerpConfig` returns exactly the field-by-field blend |
| Transition.LerpConfigEnds | services/transitionService.ts:77-132 | at t = 0 every field but the palettes is start's; at t = 1 the switching fields and the numeric fields set on both sides are end's, the rest start's |
| Transition.LerpConfigNumbers | services/transitionService.ts:91-97 | a numeric field is blended iff both sides hold a number; otherwise start's value stays |
| Transition.LerpConfigSwitch | services/transitionService.ts:113-129 | each switching field comes from start below t = 0.5 and from end from 0.5 on |
| Transition.LerpConfigPalettes | services/transitionService.ts:100-110 | a palette is blended iff both sides have one; otherwise start's value stays |
| Transition.Progress | services/transitionService.ts:157 | progress is at most 1, exactly 1 once the duration has elapsed, and in [0, 1) before |
| Transition.ProgressBelowOne | services/transitionService.ts:156-169 | the progress is below 1 exactly while the elapsed time is below the duration, so the frame test `progress < 1` and the time test agree |
| Transition.Interpolate | services/transitionService.ts:156-163 | a frame's configuration is `lerpConfig` of the two ends at the eased progress of the elapsed time |
| Transition.TransitionService.Emit | services/transitionService.ts:156-166 | `onUpdate` receives exactly one more configuration, the one for this frame's elapsed time |
| Transition.TransitionService.constructor | services/transitionService.ts:134-137 | a new service runs nothing and holds no frame, at start time 0 |
| Transition.TransitionService.Cancel | services/transitionService.ts:184-190 | `cancel` always leaves nothing running and no frame scheduled |
| Transition.TransitionService.Transition | services/transitionService.ts:142-179 | `transition` cancels what runs, then runs this transition from `now` with a frame scheduled |
| Transition.TransitionService.Animate | services/transitionService.ts:153-176 | a frame of a stopped transition does nothing; otherwise it hands `onUpdate` the blend at eased progress, then schedules another frame while the elapsed time is below the duration (which is `progress < 1`, see ProgressBelowOne), or stops and calls `onComplete` once |
| Transition.TransitionService.IsTransitioning | services/transitionService.ts:195-197 | `isTransitioning` reports whether a transition runs |
| Transition.FinalUpdate | services/transitionService.ts:157-172 | the last update of a finished transition is the blend at t = 1 |
| Transition.ServiceSlot.constructor | services/transitionService.ts:201 | no service exists at first |
| Transition.ServiceSlot.Get | services/transitionService.ts:203-208 | the first call creates the service and every later call returns the same one |
| Easing.Clamp01 | utils/easing.ts:9 | the clamp lies in [0, 1], is the identity on [0, 1], and sends inputs below 0 to 0 and above 1 to 1 |
| Easing.GetEasing | utils/easing.ts:34-43 | `getEasing` gives the curve of the matching name, and ease-out for the default or any other name |
| Easing.Lerp | utils/easing.ts:47-49 | `lerp` gives start at t = 0 and end at t = 1, and start when both ends agree |
| Easing.LerpBetween | utils/easing.ts:47-49 | for t in [0, 1] the interpolation lies between its ends |
| Easing.EasingBounds | utils/easing.ts:8-29 | every curve maps into [0, 1] |
| Easing.EasingEnds | utils/easing.ts:8-29 | every curve maps 0 to 0 and 1 to 1, and treats inputs below 0 as 0 and above 1 as 1 |
| Easing.CurveShapes | utils/easing.ts:12-29 | ease-in is t², ease-out 1-(1-t)², ease-in-out 2t² below 0.5 and 1-(2-2t)²/2 from there, the two halves meeting at 0.5 |
| Easing.EasingMonotone | utils/easing.ts:8-29 | every curve is non-decreasing |
| ColorUtils.Channel | utils/colorUtils.ts:9-11 | a channel that parses is a fraction in [0, 1] |
| ColorUtils.Max3 | utils/colorUtils.ts:13 | `Math.max` of the three channels is one of them and at least each |
| ColorUtils.Min3 | utils/colorUtils.ts:14 | `Math.min` of the three channels is one of them and at most each |
| ColorUtils.NormalizeHue | utils/colorUtils.ts:89-90 | the rotated hue after `% 360` and the correction of a negative remainder lies in [0, 360), and a hue already there is kept |
| ColorUtils.SaturationUnit | utils/colorUtils.ts:22 | for distinct extremes in [0, 1] the saturation lies in [0, 1] |
| ColorUtils.HueUnit | utils/colorUtils.ts:24-34 | for distinct channels in [0, 1] the hue lies in [0, 1) of a turn |
| ColorUtils.HslRanges | utils/colorUtils.ts:13-41 | for channels in [0, 1] the hue lies in [0, 360) and saturation and lightness in [0, 100] |
| ColorUtils.GreyHsl | utils/colorUtils.ts:17-21 | equal channels give hue 0, saturation 0 and lightness the channel times 100 |
| ColorUtils.HashOptional | utils/colorUtils.ts:6 | a leading `#` does not change the conversion |
| ColorUtils.SixDigitsConvert | utils/colorUtils.ts:4-42 | six hex digits, with or without `#`, always convert, into the ranges above |
| ColorUtils.ChannelUnit | utils/colorUtils.ts:57-64 | `hue2rgb` between two levels in [0, 1], for a hue fraction in [-1, 2), gives a value in [0, 1] |
| ColorUtils.LevelsUnit | utils/colorUtils.ts:66-67 | for saturation and lightness fractions in [0, 1] both levels lie in [0, 1] |
| ColorUtils.ToHexByte | utils/colorUtils.ts:74-77 | a channel in [0, 1] prints as the two lowercase hex digits of its rounded byte |
| ColorUtils.RgbUnit | utils/colorUtils.ts:48-72 | for hue, saturation and lightness in range every channel lies in [0, 1] |
| ColorUtils.HslToHexFormat | utils/colorUtils.ts:47-80 | for hue in [0, 360) and saturation and lightness in [0, 100] the result is `#` and six lowercase hex digits |
| ColorUtils.GreyHex | utils/colorUtils.ts:54-79 | saturation 0 gives three equal channels |
| ColorUtils.RotateHueFormat | utils/colorUtils.ts:87-92 | a six-digit colour rotates to `#` and six lowercase hex digits |
| ColorUtils.RotateHueShape | utils/colorUtils.ts:87-92 | the rotated colour has the old saturation and lightness and the hue plus the rotation brought into [0, 360) |
| ColorUtils.HueShift | utils/colorUtils.ts:100-106 | no shift returns the base colour itself; any other shift of a six-digit colour gives a six-digit lowercase colour |
| Hex.ParseInt16 | utils/colorUtils.ts:9-11 | `parseInt(s, 16)` is NaN exactly when no hex digit leads (after an optional `0x`) |
| Hex.ToString16 | utils/colorUtils.ts:75 | `n.toString(16)` is one or more lowercase hex digits, one below 16 and two below 256 |
| Hex.PadStart2 | services/transitionService.ts:52 | `padStart(2, '0')` leaves two or more characters alone and otherwise fills with `0` on the left to length 2 |
| Hex.Byte2 | services/transitionService.ts:52 | a byte prints as exactly two lowercase hex digits |
| Hex.Byte2RoundTrip | services/transitionService.ts:38-52 | printing a byte and parsing it back gives the byte |
| Hex.ParseThenFormat | services/transitionService.ts:38-52 | two hex digits parse to a byte that prints back as the digits lowercased |
| Hex.ParseTwoDigits | utils/colorUtils.ts:9-11 | `parseInt` of two hex digits reads both |
| Hex.ShortParse | services/transitionService.ts:38-44 | `parseInt` of at most two characters gives at most a byte |
| Config.Merge | hooks/useHistory.ts:19 | the spread `{ ...base, ...partial }` has the keys of both, the partial's value winning where both have one |
| Config.MergeEmpty | hooks/useHistory.ts:19 | spreading an empty partial changes nothing |
| Config.MergeIdempotent | hooks/useHistory.ts:19 | spreading the same partial twice is spreading it once |
| Config.MergeTwice | hooks/useHistory.ts:19 | two successive spreads are one spread of the second partial over the first |
| Config.NumOr | components/GestureControls.tsx:73-81 | `c[k] ?? d` is the stored number, or d when none is stored |
| Config.TruthyNumOr | components/controls/BrushPanel.tsx:180-181 | `c[k] \|\| d` is the stored number unless it is missing or zero, which give d |
| Js.Clamp | components/GestureControls.tsx:73 | the clamp lies within the bounds and keeps a value already inside |
| Js.Round | components/GestureControls.tsx:74-85 | `Math.round` is the integer within half of its input, halves going up |
| Js.Rem | components/GestureControls.tsx:84 | `%` keeps the sign of its dividend and stays below the divisor in size, unlike the Euclidean remainder |
| Js.TrimEmptyIffBlank | components/controls/ColorPanel.tsx:68-72 | `trim()` gives the empty string exactly when every character is white space |
| Js.IRem | features/presets/PresetCycleEngine.ts:14-19 | `%` on integers agrees with the Euclidean remainder for a non-negative dividend and takes the dividend's sign otherwise |
| Js.ToLower | services/paletteService.ts:34-48 | `toLowerCase()` keeps the length and lowers each character |
| Js.Slice | services/transitionService.ts:38-44 | `slice(a, b)` is the substring when it fits and is never longer than `b - a` |
| Js.NatToString | components/ColorContextMenu.tsx:21 | a whole number prints as one or more decimal digits |
| Js.Utf16Length | utils/brushPatterns.ts:82-84 | `length` counts UTF-16 code units: at least one and at most two per character |
| Js.Utf16LengthBmp | utils/brushPatterns.ts:82-84 | text within the Basic Multilingual Plane has exactly one code unit per character |
| Js.Utf16LengthAstral | utils/brushPatterns.ts:82-84 | a character outside the Basic Multilingual Plane makes the code-unit count exceed the character count |
| BrushPatterns.PatternName | utils/brushPatterns.ts:20 | the pattern is never empty: a stored non-empty name, otherwise `single` |
| BrushPatterns.BrushText | utils/brushPatterns.ts:77 | the brush text is never empty: an empty or missing one is `Hello` |
| BrushPatterns.StripeAngle | utils/brushPatterns.ts:52-57 | without a previous sample the stripe angle is 0 |
| BrushPatterns.GeneratePolkadots | utils/brushPatterns.ts:27-43 | the loop pushes exactly the five-dot cluster of the specification |
| BrushPatterns.GenerateStripes | utils/brushPatterns.ts:45-67 | the loop from -1 to 1 pushes exactly the three stripes of the specification |
| BrushPatterns.GenerateGlyphs | utils/brushPatterns.ts:74-90 | the loop pushes exactly one point per UTF-16 code unit (`text.length`) of the brush text |
| BrushPatterns.GenerateBrushPattern | utils/brushPatterns.ts:12-101 | the method's points are the specification's for every pattern name |
| BrushPatterns.SingleByDefault | utils/brushPatterns.ts:24-25 | `single` and any unknown name give the sample itself at the base radius (also lines 98-99) |
| BrushPatterns.NeverEmpty | utils/brushPatterns.ts:12-101 | every pattern yields at least one point |
| BrushPatterns.LineAndStamp | utils/brushPatterns.ts:69-96 | `line` is one point of a fifth of the radius, `stamp` one of twice the radius |
| BrushPatterns.PolkadotRadii | utils/brushPatterns.ts:30-40 | for a positive base radius and draws in [0, 1), five dots, each of radius in [0.4, 0.7) of the base |
| BrushPatterns.StripesShape | utils/brushPatterns.ts:48-65 | three stripes of radius 0.6 of the base, the middle one exactly on the sample |
| BrushPatterns.StripesWithoutLastPos | utils/brushPatterns.ts:52-65 | without a previous sample (and cos 0 = 1, sin 0 = 0) the three stripes lie on the sample's row, one stripe spacing apart, centred on the sample |
| BrushPatterns.TextShape | utils/brushPatterns.ts:77-89 | one point per UTF-16 code unit of the text (at least one), on the sample's row, two base radii apart starting half the text's width left of the sample, each of half the base radius |
| BrushPatterns.EmptyTextIsHello | utils/brushPatterns.ts:77 | an empty brush text draws the five points of `Hello` |
| Symmetry.Wedge | utils/symmetry.ts:34-36 | `count` wedges make up a full turn |
| Symmetry.RelativeAngle | utils/symmetry.ts:39 | the double remainder puts the angle inside its wedge, [0, wedge) |
| Symmetry.Folded | utils/symmetry.ts:42-48 | mirroring reflects an angle past the half wedge to `wedge - angle`, leaving the rest, so a mirrored angle is at most half a wedge |
| Symmetry.Copy | utils/symmetry.ts:54-63 | every copy is clamped into the unit square |
| Symmetry.GetSymmetryPoints | utils/symmetry.ts:22-67 | the loop pushes exactly the copies of the specification, one per wedge in order |
| Symmetry.IsSymmetryActive | utils/symmetry.ts:72-74 | active exactly when enabled is `true` and the count, a missing or zero one reading as 0, is at least 2 |
| Symmetry.CopiesInUnitSquare | utils/symmetry.ts:53-64 | exactly `count` copies, all inside the unit square |
| Symmetry.EvenlySpaced | utils/symmetry.ts:53-54 | successive copies are one wedge apart and the copies go once round the full turn |
| Symmetry.FoldedInWedge | utils/symmetry.ts:39-48 | the folded angle lies in the first wedge, and in its first half when mirroring |
| Symmetry.CopyUnclamped | utils/symmetry.ts:30-62 | a copy not moved by the clamp is at the input's distance from the origin in its own direction |
| PaletteService.ThemeFor | services/paletteService.ts:34-39 | a theme is found exactly when the lowercased prompt names one of the keywords |
| PaletteService.Byte | services/paletteService.ts:28 | `Math.floor(Math.random() * 256)` is a byte |
| PaletteService.RandomHex | services/paletteService.ts:27-31 | a random colour is seven characters starting with `#` |
| PaletteService.GenerateColorPalette | services/paletteService.ts:33-45 | the method, with its `while` loop, returns the specification's palette |
| PaletteService.GenerateVibe | services/paletteService.ts:47-63 | the method returns the specification's vibe |
| PaletteService.RandomHexRoundTrip | services/paletteService.ts:27-31 | a random colour is `#` and six lowercase hex digits whose pairs parse back to the drawn bytes |
| PaletteService.KeywordOrder | services/paletteService.ts:35-39 | keywords are tried in order: lava before the ocean, the sea before neon |
| PaletteService.CaseInsensitive | services/paletteService.ts:34 | the keyword match ignores case |
| PaletteService.FallbackPalette | services/paletteService.ts:40-44 | without a keyword the palette has exactly five colours, each `#` and six lowercase hex digits |
| PaletteService.VibeAgreesWithPalette | services/paletteService.ts:47-62 | the vibe's colours are the palette's, and a named theme comes back whole |
| PaletteService.FallbackKeywords | services/paletteService.ts:56-61 | the fallback settings have exactly the four keys; calm gives velocity 0.3 and neither calm nor chaos 0.6; molasses gives viscosity 0.7; heavy gives density 0.9; pressure is 0.8 exactly when storm is named |
| SessionPersistence.Cleared | hooks/useSessionPersistence.ts:58-85 | removing the two keys drops exactly them and keeps every other entry |
| SessionPersistence.UnloadSpec | hooks/useSessionPersistence.ts:28-44 | other keys are untouched; disabled removes both keys; a save that succeeds stores the text and the `'true'` flag; a throw while collecting, serialising or writing leaves no flag |
| SessionPersistence.MountSpec | hooks/useSessionPersistence.ts:51-66 | the prompt shows exactly when enabled, the flag is `'true'` and a non-empty session is stored; prompting keeps storage, otherwise both keys go |
| SessionPersistence.RestoreSpec | hooks/useSessionPersistence.ts:68-81 | a state is handed back exactly when a non-empty session parses; a parse failure removes the session; the flag always goes |
| SessionPersistence.Session.constructor | hooks/useSessionPersistence.ts:51-66 | mounting applies the prompt decision to storage and the prompt flag (also line 24) |
| SessionPersistence.Session.SetEnabled | hooks/useSessionPersistence.ts:23-48 | a new `enabled` changes nothing else |
| SessionPersistence.Session.BeforeUnload | hooks/useSessionPersistence.ts:28-44 | the new storage is the unload specification of the old |
| SessionPersistence.Session.HandleRestore | hooks/useSessionPersistence.ts:68-81 | state and storage follow the restore specification and the prompt is hidden |
| SessionPersistence.Session.HandleDismiss | hooks/useSessionPersistence.ts:83-87 | both keys are removed and the prompt is hidden |
| SessionPersistence.SaveThenMount | hooks/useSessionPersistence.ts:36-56 | a successful save of a non-empty session is offered on the next enabled mount and never on a disabled one |
| SessionPersistence.FailedSaveNotOffered | hooks/useSessionPersistence.ts:29-55 | an unload while disabled, or a save that throws, is never offered |
| SessionPersistence.SaveThenRestore | hooks/useSessionPersistence.ts:38-73 | saving then restoring hands back the saved state when parsing inverts serialising |
| SessionPersistence.NoSecondPrompt | hooks/useSessionPersistence.ts:77-86 | after a restore or a dismissal the next mount does not prompt |
| SessionPersistence.MountSettles | hooks/useSessionPersistence.ts:55-60 | a mount that does not prompt leaves nothing to prompt for, and mounting twice is mounting once |
| ArtworkGallery.Without | hooks/useArtworkGallery.ts:44 | the filter keeps exactly the artworks with another id, and never grows the list |
| ArtworkGallery.FindByIdFirst | hooks/useArtworkGallery.ts:49 | the lookup is null exactly when no artwork has the id, and otherwise the first that has it |
| ArtworkGallery.Gallery.constructor | hooks/useArtworkGallery.ts:7-17 | a stored list becomes the state, none gives the empty list |
| ArtworkGallery.Gallery.Persist | hooks/useArtworkGallery.ts:19-26 | state and storage both become the list |
| ArtworkGallery.Gallery.AddArtwork | hooks/useArtworkGallery.ts:28-30 | the artwork is appended, and storage mirrors the state |
| ArtworkGallery.Gallery.CreateAndSaveArtwork | hooks/useArtworkGallery.ts:32-41 | the artwork carries the clock reading as id and the given fields, is appended and returned, and storage mirrors the state |
| ArtworkGallery.Gallery.DeleteArtwork | hooks/useArtworkGallery.ts:43-46 | the state is the filtered list, and storage mirrors it |
| ArtworkGallery.Gallery.GetArtworkById | hooks/useArtworkGallery.ts:48-50 | the lookup over the current list |
| ArtworkGallery.WithoutAppend | hooks/useArtworkGallery.ts:44 | deleting distributes over concatenation, so survivors keep their order |
| ArtworkGallery.WithoutAbsent | hooks/useArtworkGallery.ts:44 | deleting an id nobody has changes nothing |
| ArtworkGallery.CreateThenDelete | hooks/useArtworkGallery.ts:32-46 | creating an artwork with a fresh id and deleting it restores the list |
| ArtworkGallery.AddThenFind | hooks/useArtworkGallery.ts:28-50 | an added artwork with a fresh id is found by its id |
| Prefs.Write | ui/prefs.ts:17-31 | a write sets its key and leaves every other key alone; a throwing storage stays throwing |
| Prefs.TopPanelEnabled | ui/prefs.ts:3-14 | `ui=top` gives true, `ui=classic` false, otherwise true unless storage holds `'0'` |
| Prefs.ReducedMotionPref | ui/prefs.ts:27-29 | the preference is never empty: the stored string when non-empty, otherwise `auto` |
| Prefs.PrefersReducedMotion | ui/prefs.ts:34-42 | `on` reduces, `off` does not, anything else follows the media query, false without one |
| Prefs.Preferences.constructor | ui/prefs.ts:1-42 | the preferences read the given storage |
| Prefs.Preferences.SetTopPanelEnabled | ui/prefs.ts:16-18 | storage gets `'1'` or `'0'` under the top-panel key |
| Prefs.Preferences.SetPerfMode | ui/prefs.ts:23-25 | storage gets `'1'` or `'0'` under the performance key |
| Prefs.Preferences.SetReducedMotionPref | ui/prefs.ts:30-32 | storage gets the value under the reduced-motion key |
| Prefs.TopPanelRoundTrip | ui/prefs.ts:9-18 | setting the top panel and reading it back without a URL parameter gives the value set |
| Prefs.UrlWins | ui/prefs.ts:6-8 | the URL parameter outranks what is stored |
| Prefs.PerfModeRoundTrip | ui/prefs.ts:20-25 | performance mode round-trips, and a throwing storage reads as off |
| Prefs.ReducedMotionRoundTrip | ui/prefs.ts:27-32 | each of `auto`, `on`, `off` round-trips, and the setters leave each other's keys alone |
| Prefs.Defaults | ui/prefs.ts:12-41 | a throwing storage gives the top panel on, performance mode off and `auto`, so motion follows the media query |
| AudioService.Bin | services/audioService.ts:181-182 | the bin of a non-negative frequency is non-negative |
| AudioService.Spectrum | services/audioService.ts:165 | one entry per bin, each byte over 255 in [0, 1] |
| AudioService.Waveform | services/audioService.ts:166 | one entry per sample, each `(v - 128) / 128` in [-1, 1) |
| AudioService.Zeros | services/audioService.ts:133-134 | a fresh `Uint8Array` of the given length, all bytes |
| AudioService.SumBand | services/audioService.ts:184-190 | the loop counts exactly the bins from the start bin below both the end bin and the length, and sums them |
| AudioService.AudioReactivityService.constructor | services/audioService.ts:56-78 | no nodes, the default parameters, zeroed levels, no frame, not initialised |
| AudioService.AudioReactivityService.SetupAnalyser | services/audioService.ts:127-135 | a new analyser with smoothing 0.8 and two zeroed arrays of the bin count, nothing else changed |
| AudioService.AudioReactivityService.InitializeAudioElement | services/audioService.ts:112-125 | a no-op once a source exists; otherwise a new context at the given sample rate, an analyser with smoothing 0.8 and a source, initialised; when no frame was scheduled the state is the frame analysed from the old levels (`AnalyzedFrom`), otherwise the scheduled frame, the levels and the zeroed arrays stay |
| AudioService.AudioReactivityService.InitializeMicrophone | services/audioService.ts:83-107 | a no-op when already live on a microphone; a refused permission throws, leaves the new context at the given rate and changes nothing else; a granted one has an analyser and a microphone, is initialised and, when no frame was scheduled, holds the frame analysed from the old levels |
| AudioService.AudioReactivityService.StartAnalysis | services/audioService.ts:140-171 | with no frame scheduled and an analyser, the state is the frame analysed from the old levels; otherwise nothing changes |
| AudioService.AudioReactivityService.Tick | services/audioService.ts:143-168 | a scheduled frame firing with an analyser leaves the frame analysed from the old levels; a cancelled frame never fires |
| AudioService.AudioReactivityService.Analyze | services/audioService.ts:143-169 | without an analyser nothing changes; otherwise the arrays are the frame's, the levels are `Analysis` of the old ones (each band smoothed toward its average, the arrays normalised) and the next frame is requested |
| AudioService.AudioReactivityService.GetFrequencyAverage | services/audioService.ts:177-193 | 0 without an analyser, otherwise the band's mean byte over 255 times the sensitivity, 0 for an empty band |
| AudioService.AudioReactivityService.GetPrimaryValue | services/audioService.ts:212-220 | the level of the selected band, the overall one for `full` |
| AudioService.AudioReactivityService.UpdateParams | services/audioService.ts:225-231 | the parameters are the old ones patched, and a live analyser takes the new smoothing; nothing else changes |
| AudioService.AudioReactivityService.Pause | services/audioService.ts:252-257 | no frame stays scheduled, nothing else changes |
| AudioService.AudioReactivityService.Play | services/audioService.ts:262-266 | when initialised, idle and with an analyser, the frame analysed from the old levels; otherwise nothing changes; the parameters and nodes are outside its frame |
| AudioService.AudioReactivityService.Destroy | services/audioService.ts:271-297 | no frame, no nodes, not initialised; parameters, levels, arrays and sample rate kept |
| AudioService.ServiceSlot.constructor | services/audioService.ts:301 | no instance yet |
| AudioService.ServiceSlot.Get | services/audioService.ts:303-308 | the first call makes a fresh default service, later calls return that same one |
| AudioService.SumBound | services/audioService.ts:187-190 | a run of bytes sums to at most 255 per entry |
| AudioService.AverageBounds | services/audioService.ts:177-193 | for byte data and a non-negative sensitivity a band average lies in [0, sensitivity] |
| AudioService.SmoothEnds | services/audioService.ts:198-200 | smoothing interpolates from the target toward the current level: 1 keeps the level, 0 jumps to the target |
| AudioService.SmoothBetween | services/audioService.ts:158-162 | with smoothing in [0, 1], levels in [0, s] stay in [0, s] (also lines 198-200) |
| AudioService.AnalysisBounds | services/audioService.ts:143-169 | an analysed frame keeps every level in [0, sensitivity] when smoothing is in [0, 1], and normalises one entry per bin |
| AudioService.PatchLaws | services/audioService.ts:226 | an empty patch changes nothing, a patch applied twice is applied once, and a patch's fields win |
| TiltControls.Controls.constructor | hooks/useTiltControls.ts:17-29 | both tilts zero, no permission, no error, support as the platform reports |
| TiltControls.Controls.RequestPermission | hooks/useTiltControls.ts:32-54 | without `DeviceOrientationEvent` the call throws and nothing changes; otherwise granted exactly without a permission API or on `'granted'`, which clears the error; a denial or a rejection keeps the flag and sets an error |
| TiltControls.Controls.SmoothStep | hooks/useTiltControls.ts:57-71 | while enabled each axis takes one smoothing step toward the reading; disabled, nothing changes |
| TiltControls.Controls.HandleOrientation | hooks/useTiltControls.ts:74-94 | while enabled, supported and permitted, a complete reading is stored with the asked inversions and smoothed once; otherwise nothing changes |
| TiltControls.Controls.SetOptions | hooks/useTiltControls.ts:57-71 | new options; a change of `enabled` or `smoothing` re-runs the smoothing step when enabled, and nothing else moves the smoothed tilt |
| TiltControls.SmoothingBetween | hooks/useTiltControls.ts:60-62 | with a factor in [0, 1] the smoothed value lies between the previous value and the reading; 1 keeps, 0 jumps |
| TiltControls.GravityAngleRange | hooks/useTiltControls.ts:100-113 | for an arc tangent in [-pi, pi] the gravity angle lies in [0, 360) |
| TiltControls.GravityStrengthRange | hooks/useTiltControls.ts:119-130 | the strength lies in [0, sensitivity], reaching it from a tilt of 180 on |
| TiltControls.NormalizedRange | hooks/useTiltControls.ts:135-142 | each normalised axis lies in [-sensitivity, sensitivity], and a tilt within 90 degrees maps linearly |
| TiltControls.InversionInvolutive | hooks/useTiltControls.ts:81-85 | inversion leaves alpha alone and inverting twice restores the reading |
| ShakeToClear.ShakeListener.constructor | components/ShakeToClear.tsx:18-71 | threshold 15 unless given; listening exactly when motion events exist and permission is not needed or granted; zero baseline, no shake (also lines 8-16) |
| ShakeToClear.ShakeListener.HandleMotion | components/ShakeToClear.tsx:25-57 | while listening the detector takes one step and a shake shows the indicator and calls `onShake` once; otherwise nothing changes |
| ShakeToClear.ShakeListener.IndicatorTimeout | components/ShakeToClear.tsx:49 | the indicator hides and nothing else changes |
| ShakeToClear.FiresExactly | components/ShakeToClear.tsx:27-46 | a shake fires exactly on a complete reading with some axis jumping past the threshold more than a second after the last shake, and it stamps the time |
| ShakeToClear.Cooldown | components/ShakeToClear.tsx:42-46 | two shakes are more than a second apart |
| ShakeToClear.IgnoredReadings | components/ShakeToClear.tsx:27-32 | a null axis, or a reading within 100 ms of the last shake, changes nothing, not even the baseline |
| ShakeToClear.Baseline | components/ShakeToClear.tsx:53-56 | every other reading becomes the next baseline, shake or not |
| ShakeToClear.StillDevice | components/ShakeToClear.tsx:35-40 | repeating the baseline reading never fires for a non-negative threshold |
| GestureControls.Gestures.constructor | components/GestureControls.tsx:16-20 | no touches, no gesture, zero references |
| GestureControls.Gestures.TouchStart | components/GestureControls.tsx:44-58 | exactly two fingers record both touches, fix the reference angle and distance and start the gesture; otherwise nothing changes |
| GestureControls.Gestures.TouchMove | components/GestureControls.tsx:60-89 | during a two-finger gesture, a twist past 5 degrees sets the light angle and moves the reference angle, a pinch past 10 pixels sets the gravity angle and moves the reference distance; otherwise nothing changes |
| GestureControls.Gestures.TouchEnd | components/GestureControls.tsx:91-96 | fewer than two fingers left clears the touches and ends the gesture |
| GestureControls.LightAngleRange | components/GestureControls.tsx:73-74 | the light angle is a whole number in [0, 90] |
| GestureControls.LightAngleMonotone | components/GestureControls.tsx:73-74 | a larger twist never gives a smaller light angle |
| GestureControls.GravityAngleRange | components/GestureControls.tsx:81-85 | the gravity angle stays within one turn either way, non-negative when the pinched angle is |
| GestureControls.GestureFollowsFingers | components/GestureControls.tsx:73-85 | within range the new angles are the old ones plus half the twist and 0.3 of the pinch, rounded |
| AfterEffects.FlickerRate | components/AfterEffects.tsx:54 | for a random draw in [0, 1) the flicker loses between 0.06 and 0.14 a frame |
| AfterEffects.OverlayAlpha | components/AfterEffects.tsx:61 | the overlay opacity lies in [0, 1] and is the plain sum when that sum already does |
| AfterEffects.Overlay.constructor | components/AfterEffects.tsx:25-26 | both alphas start at 0 |
| AfterEffects.Overlay.OnResize | components/AfterEffects.tsx:29-32 | with `flashOnResize` the flash rises to at least its intensity (0.15 by default); otherwise nothing changes |
| AfterEffects.Overlay.OnSplat | components/AfterEffects.tsx:39-42 | with `flickerEnabled` the flicker rises to at least its intensity (0.2 by default); otherwise nothing changes |
| AfterEffects.Overlay.Frame | components/AfterEffects.tsx:50-55 | each frame the flash decays by its intensity over its duration in 60 ms frames and the flicker by the random rate, so a positive flicker strictly falls |
| AfterEffects.Overlay.SetConfig | components/AfterEffects.tsx:20-22 | a new configuration keeps both alphas |
| AfterEffects.DecayBounds | components/AfterEffects.tsx:52 | decay never goes below zero and never raises a value for a non-negative rate |
| AfterEffects.DecayedClosedForm | components/AfterEffects.tsx:52-55 | n frames at a non-negative rate remove n times the rate, stopping at zero |
| AfterEffects.FlashFadesOut | components/AfterEffects.tsx:31-53 | a flash of at most its intensity is gone after the duration has passed in 60 ms frames |
| AfterEffects.OverlayShownIff | components/AfterEffects.tsx:61 | for non-negative alphas the overlay shows exactly when one of them is positive |
| PaletteEdits.SetAt | ui/Trays/ColorTray.tsx:22-26 | in range the entry is replaced, one past the end it is appended, and every other entry is kept |
| PaletteEdits.Removed | ui/Trays/ColorTray.tsx:46-50 | at most one colour left means no change, so the palette never empties |
| PaletteEdits.WithoutIndexSplice | ui/Trays/ColorTray.tsx:48 | the index filter removes exactly index i when it is in range and nothing otherwise |
| PaletteEdits.RemovedExactly | ui/Trays/ColorTray.tsx:46-50 | with two or more colours removing i takes out exactly that entry, keeping the rest in order |
| PaletteEdits.AddThenRemove | ui/Trays/ColorTray.tsx:40-50 | adding white and removing the last entry gives the palette back |
| PaletteEdits.SetAtIdempotent | ui/Trays/ColorTray.tsx:22-26 | writing the colour already there changes nothing |
| PaletteEdits.ShufflePermutes | ui/Trays/ColorTray.tsx:52-55 | a shuffle keeps the length and the colours with their multiplicities |
| ColorTray.Shown | ui/Trays/ColorTray.tsx:37-65 | `colors[i] \|\| '#000000'` is a non-empty entry or black |
| ColorTray.Mount | ui/Trays/ColorTray.tsx:15 | the field starts as the active entry, or empty |
| ColorTray.Sync | ui/Trays/ColorTray.tsx:18-20 | a non-empty active entry is copied into the field, otherwise the field is kept |
| ColorTray.Picker | ui/Trays/ColorTray.tsx:28-32 | the picked colour goes into the field and the active entry |
| ColorTray.HexBlur | ui/Trays/ColorTray.tsx:34-38 | a valid hex colour is committed to the active entry, the others kept; anything else is replaced by the shown colour |
| ColorTray.Add | ui/Trays/ColorTray.tsx:40-44 | white is appended and selected |
| ColorTray.Remove | ui/Trays/ColorTray.tsx:46-50 | the palette loses entry i, the active index stays as it was (also lines 98, 107) |
| ColorTray.Shuffle | ui/Trays/ColorTray.tsx:52-55 | the palette is shuffled, the rest kept |
| ColorTray.ArrowRight | ui/Trays/ColorTray.tsx:96 | the next swatch, stopping at the last |
| ColorTray.ArrowLeft | ui/Trays/ColorTray.tsx:97 | the previous swatch, stopping at the first |
| ColorTray.ArrowsStayInPalette | ui/Trays/ColorTray.tsx:96-97 | on a swatch of a non-empty palette the arrows select a swatch of it, one step away or staying at an end |
| ColorTray.CommitThenSync | ui/Trays/ColorTray.tsx:18-38 | a committed colour is what the field keeps showing after the effect runs |
| ColorTray.BlurUnchangedIsNoOp | ui/Trays/ColorTray.tsx:34-38 | blurring a field that shows a valid active entry changes nothing |
| ColorTray.RevertIsValid | ui/Trays/ColorTray.tsx:37 | an invalid entry is reverted to a valid colour whenever the palette's entries are valid |
| ColorTray.AddThenRemove | ui/Trays/ColorTray.tsx:40-50 | adding selects the new white entry and removing it restores the palette |
| ColorPanel.WithColors | components/controls/ColorPanel.tsx:34 | `updateConfig({ colors })` sets the palette and keeps every other field |
| ColorPanel.Mount | components/controls/ColorPanel.tsx:21-22 | the prompt starts at its default and the field as the active entry, or empty |
| ColorPanel.Sync | components/controls/ColorPanel.tsx:25-29 | a non-empty active entry is copied into the field, otherwise the field is kept |
| ColorPanel.ColorChange | components/controls/ColorPanel.tsx:31-35 | entry `index` becomes the value, the rest of the panel kept |
| ColorPanel.PickerChange | components/controls/ColorPanel.tsx:50-54 | the picked colour goes into the field and the active entry |
| ColorPanel.HexBlur | components/controls/ColorPanel.tsx:41-48 | a valid hex colour is committed to the active entry; anything else, `undefined` included, reverts to the entry |
| ColorPanel.AddColor | components/controls/ColorPanel.tsx:56-60 | white is appended and selected |
| ColorPanel.RemoveColor | components/controls/ColorPanel.tsx:62-66 | the palette loses entry `index` unless one colour or fewer is left; the active index stays |
| ColorPanel.ShuffleColors | components/controls/ColorPanel.tsx:78-81 | the palette is shuffled |
| ColorPanel.SelectPhase | components/controls/ColorPanel.tsx:90-94 | the phase becomes active with its own palette, or the current colours when it has none |
| ColorPanel.PresetClick | components/controls/ColorPanel.tsx:74-76 | the preset's fields win over the current ones, the rest kept |
| ColorPanel.GeneratesIff | components/controls/ColorPanel.tsx:68-72 | a generator runs exactly for an idle panel and a prompt with some non-space character (also lines 179, 187) |
| ColorPanel.SelectPhaseIdempotent | components/controls/ColorPanel.tsx:90-94 | selecting a phase twice is selecting it once |
| ColorPanel.EditsKeepOtherFields | components/controls/ColorPanel.tsx:56-66 | adding and removing colours keep every other configuration field |
| ColorPanel.ShuffleIsPermutation | components/controls/ColorPanel.tsx:78-81 | a shuffle permutes the palette |
| BrushPanel.ModePatch | components/controls/BrushPanel.tsx:69-89 | a mode button sets its own flag and clears the other two |
| BrushPanel.MinRadiusPatch | components/controls/BrushPanel.tsx:181 | the minimum is the value, but no more than `dropMaxRadius \|\| 0.15` |
| BrushPanel.MaxRadiusPatch | components/controls/BrushPanel.tsx:192 | the maximum is the value, but no less than `dropMinRadius \|\| 0.01` |
| BrushPanel.RoundedPatch | components/controls/BrushPanel.tsx:137-169 | the stored value is the nearest integer, halves going up |
| BrushPanel.EraserPatch | components/controls/BrushPanel.tsx:442 | the eraser flag is negated |
| BrushPanel.PatternPatch | components/controls/BrushPanel.tsx:345-375 | a pattern button stores exactly its name |
| BrushPanel.StampPatch | components/controls/BrushPanel.tsx:50-53 | an upload stores the image and selects the stamp pattern together |
| BrushPanel.ModesExclusive | components/controls/BrushPanel.tsx:69-97 | after any mode button exactly one of dropper, drip and line is on: the one clicked |
| BrushPanel.RadiusEditsKeepOrder | components/controls/BrushPanel.tsx:181-192 | editing the minimum keeps it at or below a stored non-zero maximum, and the maximum at or above a stored non-zero minimum |
| BrushPanel.ZeroMaximumIgnored | components/controls/BrushPanel.tsx:181 | a stored maximum of 0 is falsy and ignored, so the minimum can exceed it |
| BrushPanel.RoundedStaysInRange | components/controls/BrushPanel.tsx:137-169 | a rounded slider value within integer bounds stays within them |
| BrushPanel.EraserTwice | components/controls/BrushPanel.tsx:442 | one click flips the eraser and two leave it as it was |
| BrushPanel.StampSelectsStamp | components/controls/BrushPanel.tsx:52 | after an upload the brush draws the uploaded stamp |
| ColorContextMenu.Rainbow | components/ColorContextMenu.tsx:11-26 | the palette has one entry per hue step and variation |
| ColorContextMenu.GenerateRainbowPalette | components/ColorContextMenu.tsx:11-26 | the nested loops push exactly the rainbow palette |
| ColorContextMenu.MenuPosition | components/ColorContextMenu.tsx:60-65 | each coordinate is the click point or the screen size less the menu size, whichever is smaller |
| ColorContextMenu.Callbacks | components/ColorContextMenu.tsx:38-57 | a swatch click selects its colour then closes; a mouse-down closes exactly when outside the menu; a key closes exactly when it is Escape (also lines 83-90) |
| ColorContextMenu.RainbowLayout | components/ColorContextMenu.tsx:13-22 | 64 colours; entry `h * 4 + sl` is hue h/16 of a turn at full saturation and lightness `90 - 20 * sl` |
| ColorContextMenu.HueTextSamples | components/ColorContextMenu.tsx:17-21 | hue steps 0, 1 and 15 print as 0, 22.5 and 337.5 |
| ColorContextMenu.FitsStays | components/ColorContextMenu.tsx:62-63 | a menu that fits opens where it was clicked |

## Left out

- **GLSL kernels.** Their bodies (advection, divergence, pressure, gradient, diffusion, splat, surface tension, separation, shading) are in files that are not part of this model. Each is an opaque pass recorded with the targets it reads and writes. Nothing is claimed about what they compute.
- **PIXI calls.** The application set-up, `app.init`/`destroy`, `requestAnimationFrame`/`cancelAnimationFrame` and the DOM listeners are reduced to flags, frame ids and logged passes.
- **Light and gravity directions.** `computeGravityDir`/`computeLightDir` and the other trigonometry are uninterpreted: trigonometric functions are parameters.
- **Canvas 2D drawing.** Gradients, `fillRect`, `drawImage`, `toDataURL`/`captureStream` and `ResizeObserver` are not modelled. The particle engines model the particle list, not the pixels. The capture URL is a parameter.
- **Timers and intervals.** The demo-mode interval, the ambient-motion interval, the play/pause effects and the initial 50 ms snapshot timer of the studio canvas are not modelled.
- **`sampleStampImage`.** It loads an image asynchronously and reads back pixels.
- **Out of scope entirely.** These are I/O or composition and are not part of this model:
  - `services/geminiService.ts`, video recording and the test mocks;
  - the React roots `App.tsx` and `src/App.tsx`;
  - the pure layout components.
- **Numbers and text.**
  - Numbers are exact reals: no NaN, no infinities, no rounding error.
  - `toLowerCase` is ASCII only.
  - `parseInt` is modelled for the hex digit strings the code passes. Leading white space and signs are not.
  - Canvas size assignment truncates toward zero, as the DOM does.
- **Undefined fields.** A configuration field explicitly set to `undefined` is modelled as absent.
- **Aliasing of returned state.** `getSnapshot` hands out the live history array and the model returns a copy. Mutating a returned snapshot is not modelled.
- LiquidRenderer.Renderer.constructor: requires a positive parent size. The code divides by it later and would produce NaN.
- ConfigHistory.History.SetFromSnapshot: a fractional or non-finite `historyIndex` is not modelled; the index is an integer. With an empty history any index clamps to 0 and the snapshot's own config is used, as in the code.
- ConfigHistory.History.Undo: requires the position to lie within the history (or be 0 for an empty one), which every operation of the hook keeps.
- ConfigHistory.History.Redo: requires the same as Undo.
- StudioCanvas.Canvas.Replay: relies on the invariant that the action index equals the log length, which the code keeps because undo and redo never move it.
- PaintCanvas.Canvas.CycleOnSplat: the `__onCycleStep`/`__onCycleEnd` heads-up display hooks are not modelled.
- Transition.TransitionService.Transition: requires a positive duration. With a duration of 0 the code divides by zero on the first frame.
- Symmetry.GetSymmetryPoints: requires a positive count. The type allows only 2, 4, 6, 8 and 12.
- BrushPatterns.GenerateBrushPattern: `canvasWidth` is read by no branch and is not a parameter. A non-string `brushPattern` is not modelled.
- PaletteService.GenerateColorPalette: the returned Promise is a plain value. `Math.random` draws are a parameter.
- PaletteService.GenerateVibe: as GenerateColorPalette.
- SessionPersistence.Session.constructor: a storage that throws on mount is left out. The error is only logged.
- SessionPersistence.Session.HandleRestore: a `restore` callback that throws is treated like a parse failure by the code; the model covers only parsing.
- ArtworkGallery.Gallery.constructor: stored JSON that fails to parse, and a `setItem` that throws in `persist`, are left out. Both are only logged.
- Prefs.ReducedMotionPref: the stored string is returned unchecked, as in the code. Values other than `auto`, `on` and `off` are not rejected.
- AudioService.AudioReactivityService.SetupAnalyser: the Web Audio graph is reduced to flags. Resetting the smoothing to 0.8 on each set-up is modelled as written.
- AudioService.AudioReactivityService.InitializeMicrophone: a refused permission leaves the new context behind, as in the code. `getUserMedia` is a parameter.
- AudioService.AudioReactivityService.GetFrequencyAverage: requires a non-negative start frequency, which every caller passes.
- AudioService.AudioReactivityService.GetPrimaryValue: the `default` branch cannot be reached for the four declared ranges and has no case of its own.
- AudioService.AudioReactivityService.Tick: the animation-frame callback is a method the caller invokes. `getAudioData`, `getParams` and `resume` are copies or asynchronous context calls and are not modelled.
- TiltControls.Controls.constructor: support is a parameter. The event listener's lifecycle is the enabled/supported/permitted guard in HandleOrientation.
- ShakeToClear.ShakeListener.constructor: a rejected permission promise is only logged and is modelled as not listening.
- ShakeToClear.ShakeListener.IndicatorTimeout: the 500 ms timer is a method the caller invokes. `onShake` is counted in `shakes`.
- GestureControls.Gestures.TouchMove: `preventDefault` is not modelled. `atan2` and `sqrt` are parameters. The two `updateConfig` calls set different fields and are merged into one.
- AfterEffects.Overlay.Frame: requires `flashDurationMs` to be non-zero. The code divides by it and would produce an infinite or NaN rate.
- AfterEffects.Overlay.constructor: the SVG filters, the noise overlay and the bloom and chromatic-aberration rendering are not modelled. The `__onSplat` hook is the OnSplat method.
- PaletteEdits.SetAt: requires the index to be at most the length. A write further out leaves holes in a JavaScript array, which the sequence model excludes.
- ColorTray.Picker: requires the active index to be at most the length, as SetAt does.
- ColorTray.HexBlur: requires the same as Picker.
- ColorPanel.ColorChange: requires the same as SetAt.
- ColorPanel.PickerChange: requires the same as SetAt.
- ColorPanel.HexBlur: requires the same as SetAt.
- ColorPanel.GeneratesIff: the generator callbacks are represented by the predicate that says whether one runs.
- BrushPanel.RoundedPatch: the other sliders are plain assignments of the slider value and have no member of their own. The cursor image upload is I/O.
- ColorContextMenu.Callbacks: the DOM listeners are modelled as the callbacks each event produces.
