/**
 * The classic paint canvas component around the particle engine: mouse and touch
 * strokes become splats in the active colour, and with preset cycling on a
 * stroke steps through the selected presets (once per stroke, or on splats at
 * most every 60 ms), applying each over the current configuration and
 * committing the last one applied when the stroke ends.
 */
module PaintCanvas {
  import opened Wrappers
  import C = Config
  import PF = ParticleFluid
  import PC = PresetCycle
  import P = Presets

  datatype Cadence = PerStroke | PerSplat

  /** The cycle of the current stroke: the position, the last preset configuration applied and when */
  datatype Cycle = Cycle(state: PC.CycleState, lastApplied: Option<C.Config>, lastAt: Option<real>)

  /** The component's props that drive cycling */
  datatype Props = Props(
    cycleEnabled: bool, cycleMode: PC.CycleMode, cadence: Cadence,
    selected: seq<int>, presets: seq<P.Preset>, hasCommit: bool)

  /** The refs the handlers read and write */
  datatype Refs = Refs(config: C.Config, activeColorIndex: int, cycle: Option<Cycle>, committed: seq<C.Config>)

  /** `presets[selectedPresets[i]]`, when both lookups land */
  function SelectedPreset(p: Props, i: int): Option<P.Preset> {
    if 0 <= i < |p.selected| && 0 <= p.selected[i] < |p.presets| then Some(p.presets[p.selected[i]]) else None
  }

  /**
   * `applyEphemeralPreset`: the preset is spread over the current
   * configuration; an active colour index past the new palette is pulled
   * back to its last entry (or 0); the stroke remembers what it applied.
   */
  function ApplySpec(r: Refs, presetConfig: C.Config): Refs {
    var target := C.Merge(r.config, presetConfig);
    var n := |C.ColorsOf(target)|;
    var index := if r.activeColorIndex >= n then (if n - 1 > 0 then n - 1 else 0) else r.activeColorIndex;
    var cycle := if r.cycle.Some? then Some(r.cycle.value.(lastApplied := Some(presetConfig))) else None;
    r.(config := target, activeColorIndex := index, cycle := cycle)
  }

  /** Whether the handlers may cycle at all */
  predicate CanCycle(p: Props, demo: bool) {
    !demo && p.cycleEnabled && |p.selected| > 0 && |p.presets| > 0
  }

  /** The start of `handlePointerDown`, before its splat */
  function StrokeStartSpec(p: Props, demo: bool, r: Refs, draw: real): Refs
    requires 0.0 <= draw < 1.0
  {
    if !CanCycle(p, demo) then r.(cycle := None)
    else
      var started := r.(cycle := Some(Cycle(PC.CycleState(0, 1), None, None)));
      if p.cadence == PerStroke then
        var applied := match SelectedPreset(p, 0)
          case Some(preset) => ApplySpec(started, preset.config)
          case None => started;
        var c := applied.cycle.value;
        applied.(cycle := Some(c.(state := PC.NextIndex(p.cycleMode, c.state, |p.selected|, draw))))
      else started
  }

  /** Whether a per-splat step is due: more than 60 ms since the last one (or since time 0) */
  predicate StepDue(c: Cycle, now: real) {
    now - c.lastAt.GetOr(0.0) > 60.0
  }

  /** The per-splat step at the start of `splat` */
  function SplatStepSpec(p: Props, demo: bool, r: Refs, now: real, draw: real): Refs
    requires 0.0 <= draw < 1.0
  {
    if demo || r.cycle.None? || p.cadence != PerSplat || |p.selected| == 0 || |p.presets| == 0 then r
    else if !StepDue(r.cycle.value, now) then r
    else
      var applied := match SelectedPreset(p, r.cycle.value.state.current)
        case Some(preset) => ApplySpec(r, preset.config)
        case None => r;
      var c := applied.cycle.value;
      applied.(cycle := Some(c.(lastAt := Some(now), state := PC.NextIndex(p.cycleMode, c.state, |p.selected|, draw))))
  }

  /** Whether the per-splat step hands a preset to the engine: the step is due and the selection lands on a preset */
  predicate SplatStepApplies(p: Props, demo: bool, r: Refs, now: real) {
    !demo && r.cycle.Some? && p.cadence == PerSplat && |p.selected| > 0 && |p.presets| > 0
    && StepDue(r.cycle.value, now) && SelectedPreset(p, r.cycle.value.state.current).Some?
  }

  /** Whether the start of a stroke hands a preset to the engine: cycling per stroke with a first selected preset */
  predicate StrokeApplies(p: Props, demo: bool) {
    CanCycle(p, demo) && p.cadence == PerStroke && SelectedPreset(p, 0).Some?
  }

  /** The colour a splat paints with: a non-empty palette entry at the active index */
  function SplatColor(r: Refs): Option<string> {
    var colors := C.ColorsOf(r.config);
    if 0 <= r.activeColorIndex < |colors| && colors[r.activeColorIndex] != "" then Some(colors[r.activeColorIndex])
    else None
  }

  /** `handlePointerUp`: commit what the stroke applied last, once, and drop the cycle */
  function StrokeEndSpec(p: Props, r: Refs): Refs {
    var commit := r.cycle.Some? && r.cycle.value.lastApplied.Some? && p.hasCommit;
    r.(committed := if commit then r.committed + [r.cycle.value.lastApplied.value] else r.committed,
       cycle := None)
  }

  /** A render of the component: the configuration and active-index refs take the current props again */
  function RenderSpec(r: Refs, config: C.Config, activeColorIndex: int): Refs {
    r.(config := config, activeColorIndex := activeColorIndex)
  }

  /** The cycle position stays within the selection and the direction stays +1 or -1 */
  predicate CycleInRange(p: Props, r: Refs) {
    r.cycle.Some? ==> 0 <= r.cycle.value.state.current < |p.selected| && PC.ValidDir(r.cycle.value.state)
  }

  // ---------------------------------------------------------------------

  class Canvas {
    const props: Props
    const engine: PF.FluidEngine
    /** The canvas width in CSS pixels */
    const clientWidth: real
    var refs: Refs
    var isDemoMode: bool
    var isPointerDown: bool

    ghost predicate Valid()
      reads this, engine
    {
      engine.Valid() && engine.variant.Classic? && CycleInRange(props, refs)
    }

    constructor (props: Props, engine: PF.FluidEngine, clientWidth: real, config: C.Config, activeColorIndex: int, isDemoMode: bool)
      requires engine.Valid() && engine.variant.Classic?
      ensures Valid() && this.props == props && this.engine == engine && this.clientWidth == clientWidth
      ensures refs == Refs(config, activeColorIndex, None, []) && this.isDemoMode == isDemoMode && !isPointerDown
    {
      this.props := props;
      this.engine := engine;
      this.clientWidth := clientWidth;
      refs := Refs(config, activeColorIndex, None, []);
      this.isDemoMode := isDemoMode;
      isPointerDown := false;
    }

    /** `applyEphemeralPreset`, which also hands the new configuration to the engine */
    method ApplyEphemeralPreset(presetConfig: C.Config)
      requires Valid()
      modifies this`refs, engine`config
      ensures Valid() && refs == ApplySpec(old(refs), presetConfig) && engine.config == refs.config
    {
      var target := C.Merge(refs.config, presetConfig);
      var n := |C.ColorsOf(target)|;
      var index := refs.activeColorIndex;
      if index >= n {
        index := if n - 1 > 0 then n - 1 else 0;
      }
      engine.UpdateConfig(target);
      var cycle := refs.cycle;
      if cycle.Some? {
        cycle := Some(cycle.value.(lastApplied := Some(presetConfig)));
      }
      refs := refs.(config := target, activeColorIndex := index, cycle := cycle);
    }

    /** The per-splat cycle step: apply the current selection if due, then advance */
    method CycleOnSplat(now: real, draw: real)
      requires Valid() && 0.0 <= draw < 1.0
      modifies this`refs, engine`config
      ensures Valid() && refs == SplatStepSpec(props, isDemoMode, old(refs), now, draw)
      ensures engine.config == if SplatStepApplies(props, isDemoMode, old(refs), now) then refs.config else old(engine.config)
    {
      if isDemoMode || refs.cycle.None? || props.cadence != PerSplat || |props.selected| == 0 || |props.presets| == 0 {
        return;
      }
      if !StepDue(refs.cycle.value, now) {
        return;
      }
      match SelectedPreset(props, refs.cycle.value.state.current) {
        case Some(preset) => ApplyEphemeralPreset(preset.config);
        case None =>
      }
      var c := refs.cycle.value;
      PC.NextInRange(props.cycleMode, c.state, |props.selected|, draw);
      refs := refs.(cycle := Some(c.(lastAt := Some(now), state := PC.NextIndex(props.cycleMode, c.state, |props.selected|, draw))));
    }

    /**
     * `splat`: nothing in demo mode; otherwise the per-splat cycle step, then
     * a burst in the active colour with radius `clientWidth * 0.05 * splatRadius`.
     */
    method Splat(x: real, y: real, now: real, draw: real, dpr: real, lifeDraw: real, spawns: seq<PF.SpawnDraw>)
      requires Valid() && 0.0 <= draw < 1.0 && |spawns| == PF.TuningOf(engine.variant).burst
      modifies this`refs, engine`config, engine`particles
      ensures Valid()
      ensures isDemoMode ==> refs == old(refs) && engine.particles == old(engine.particles)
      ensures !isDemoMode ==> refs == SplatStepSpec(props, false, old(refs), now, draw)
      ensures !isDemoMode && SplatColor(refs).Some? ==>
        engine.particles == PF.KeepNewest(
          old(engine.particles) + PF.Burst(x, y, PF.SplatRadius(refs.config, clientWidth), SplatColor(refs).value, dpr,
                                           PF.MaxLife(PF.TuningOf(engine.variant), lifeDraw), spawns),
          PF.TuningOf(engine.variant).cap)
      ensures !isDemoMode && SplatColor(refs).None? ==> engine.particles == old(engine.particles)
      ensures engine.config == if SplatStepApplies(props, isDemoMode, old(refs), now) then refs.config else old(engine.config)
    {
      if isDemoMode {
        return;
      }
      CycleOnSplat(now, draw);
      var color := SplatColor(refs);
      if color.Some? {
        engine.Splat(x, y, PF.SplatRadius(refs.config, clientWidth), color.value, dpr, lifeDraw, spawns);
      }
    }

    /** `handlePointerDown`: start (or drop) the stroke's cycle, then splat */
    method PointerDown(x: real, y: real, now: real, strokeDraw: real, splatDraw: real, dpr: real, lifeDraw: real,
                       spawns: seq<PF.SpawnDraw>)
      requires Valid() && 0.0 <= strokeDraw < 1.0 && 0.0 <= splatDraw < 1.0
      requires |spawns| == PF.TuningOf(engine.variant).burst
      modifies this`refs, this`isPointerDown, engine`config, engine`particles
      ensures Valid() && isPointerDown
      ensures !isDemoMode ==>
        refs == SplatStepSpec(props, false, StrokeStartSpec(props, false, old(refs), strokeDraw), now, splatDraw)
      ensures isDemoMode ==> refs == old(refs).(cycle := None)
      ensures isDemoMode || SplatColor(refs).None? ==> engine.particles == old(engine.particles)
      ensures !isDemoMode && SplatColor(refs).Some? ==>
        engine.particles == PF.KeepNewest(
          old(engine.particles) + PF.Burst(x, y, PF.SplatRadius(refs.config, clientWidth), SplatColor(refs).value, dpr,
                                           PF.MaxLife(PF.TuningOf(engine.variant), lifeDraw), spawns),
          PF.TuningOf(engine.variant).cap)
      ensures engine.config ==
        if StrokeApplies(props, isDemoMode) || SplatStepApplies(props, isDemoMode, StrokeStartSpec(props, isDemoMode, old(refs), strokeDraw), now)
        then refs.config else old(engine.config)
    {
      isPointerDown := true;
      if CanCycle(props, isDemoMode) {
        refs := refs.(cycle := Some(Cycle(PC.CycleState(0, 1), None, None)));
        if props.cadence == PerStroke {
          match SelectedPreset(props, 0) {
            case Some(preset) => ApplyEphemeralPreset(preset.config);
            case None =>
          }
          var c := refs.cycle.value;
          PC.NextInRange(props.cycleMode, c.state, |props.selected|, strokeDraw);
          refs := refs.(cycle := Some(c.(state := PC.NextIndex(props.cycleMode, c.state, |props.selected|, strokeDraw))));
        }
      } else {
        refs := refs.(cycle := None);
      }
      Splat(x, y, now, splatDraw, dpr, lifeDraw, spawns);
    }

    /** `handlePointerMove`: a splat while pressed */
    method PointerMove(x: real, y: real, now: real, draw: real, dpr: real, lifeDraw: real, spawns: seq<PF.SpawnDraw>)
      requires Valid() && 0.0 <= draw < 1.0 && |spawns| == PF.TuningOf(engine.variant).burst
      modifies this`refs, engine`config, engine`particles
      ensures Valid()
      ensures !isPointerDown ==> refs == old(refs) && engine.particles == old(engine.particles)
      ensures isPointerDown && !isDemoMode ==> refs == SplatStepSpec(props, false, old(refs), now, draw)
      ensures isPointerDown && isDemoMode ==> refs == old(refs)
      ensures isPointerDown && (isDemoMode || SplatColor(refs).None?) ==> engine.particles == old(engine.particles)
      ensures isPointerDown && !isDemoMode && SplatColor(refs).Some? ==>
        engine.particles == PF.KeepNewest(
          old(engine.particles) + PF.Burst(x, y, PF.SplatRadius(refs.config, clientWidth), SplatColor(refs).value, dpr,
                                           PF.MaxLife(PF.TuningOf(engine.variant), lifeDraw), spawns),
          PF.TuningOf(engine.variant).cap)
      ensures engine.config == if isPointerDown && SplatStepApplies(props, isDemoMode, old(refs), now) then refs.config else old(engine.config)
    {
      if isPointerDown {
        Splat(x, y, now, draw, dpr, lifeDraw, spawns);
      }
    }

    /** A render: `configRef`, `activeColorIndexRef` and `isDemoModeRef` are set from the props; the stroke's cycle and the commits stay */
    method Rerender(config: C.Config, activeColorIndex: int, isDemoMode: bool)
      requires Valid()
      modifies this`refs, this`isDemoMode
      ensures Valid() && refs == RenderSpec(old(refs), config, activeColorIndex) && this.isDemoMode == isDemoMode
    {
      refs := refs.(config := config, activeColorIndex := activeColorIndex);
      this.isDemoMode := isDemoMode;
    }

    /** `handlePointerUp` (also when the press leaves the canvas) */
    method PointerUp()
      requires Valid()
      modifies this`refs, this`isPointerDown
      ensures Valid() && !isPointerDown && refs == StrokeEndSpec(props, old(refs))
    {
      isPointerDown := false;
      var r := refs;
      if r.cycle.Some? && r.cycle.value.lastApplied.Some? && props.hasCommit {
        r := r.(committed := r.committed + [r.cycle.value.lastApplied.value]);
      }
      refs := r.(cycle := None);
    }
  }

  // ---------------------------------------------------------------------

  /** After a preset is applied the active index is inside the new palette (or 0 for an empty one), and unchanged if it already was */
  lemma ApplyClampsIndex(r: Refs, presetConfig: C.Config)
    requires r.activeColorIndex >= 0
    ensures
      var t := ApplySpec(r, presetConfig);
      var n := |C.ColorsOf(t.config)|;
      && (n > 0 ==> 0 <= t.activeColorIndex < n)
      && (n == 0 ==> t.activeColorIndex == 0)
      && (r.activeColorIndex < n ==> t.activeColorIndex == r.activeColorIndex)
      && t.config == C.Merge(r.config, presetConfig)
      && (r.cycle.Some? ==> t.cycle.value.lastApplied == Some(presetConfig) && t.cycle.value.state == r.cycle.value.state)
  {
  }

  /**
   * A stroke cycles exactly when cycling is enabled with a non-empty
   * selection and catalogue; per stroke it applies the first selected preset
   * and moves on with `nextIndex`, per splat it starts at position 0.
   */
  lemma StrokeStart(p: Props, demo: bool, r: Refs, draw: real)
    requires 0.0 <= draw < 1.0
    ensures
      var t := StrokeStartSpec(p, demo, r, draw);
      && (t.cycle.Some? <==> CanCycle(p, demo))
      && (CanCycle(p, demo) && p.cadence == PerSplat ==> t == r.(cycle := Some(Cycle(PC.CycleState(0, 1), None, None))))
      && (CanCycle(p, demo) && p.cadence == PerStroke ==>
            t.cycle.value.state == PC.NextIndex(p.cycleMode, PC.CycleState(0, 1), |p.selected|, draw)
            && (SelectedPreset(p, 0).Some? ==>
                  t.config == C.Merge(r.config, SelectedPreset(p, 0).value.config)
                  && t.cycle.value.lastApplied == Some(SelectedPreset(p, 0).value.config)))
      && CycleInRange(p, t)
  {
    if CanCycle(p, demo) && p.cadence == PerStroke {
      PC.NextInRange(p.cycleMode, PC.CycleState(0, 1), |p.selected|, draw);
    }
  }

  /** A per-splat step applies and advances only when due; otherwise the refs are untouched */
  lemma SplatStepThrottled(p: Props, r: Refs, now: real, draw: real)
    requires 0.0 <= draw < 1.0 && r.cycle.Some? && p.cadence == PerSplat && |p.selected| > 0 && |p.presets| > 0
    requires CycleInRange(p, r)
    ensures !StepDue(r.cycle.value, now) ==> SplatStepSpec(p, false, r, now, draw) == r
    ensures StepDue(r.cycle.value, now) ==>
      var t := SplatStepSpec(p, false, r, now, draw);
      && t.cycle.value.lastAt == Some(now)
      && t.cycle.value.state == PC.NextIndex(p.cycleMode, r.cycle.value.state, |p.selected|, draw)
      && CycleInRange(p, t)
    ensures StepDue(r.cycle.value, now) && SelectedPreset(p, r.cycle.value.state.current).Some? ==>
      SplatStepSpec(p, false, r, now, draw).config == C.Merge(r.config, SelectedPreset(p, r.cycle.value.state.current).value.config)
  {
    PC.NextInRange(p.cycleMode, r.cycle.value.state, |p.selected|, draw);
  }

  /** Two splats within 60 ms of a step apply one preset between them */
  lemma SecondSplatWithinGateIsQuiet(p: Props, r: Refs, now: real, later: real, draw: real, draw2: real)
    requires 0.0 <= draw < 1.0 && 0.0 <= draw2 < 1.0
    requires r.cycle.Some? && p.cadence == PerSplat && |p.selected| > 0 && |p.presets| > 0
    requires StepDue(r.cycle.value, now) && later - now <= 60.0
    ensures
      var t := SplatStepSpec(p, false, r, now, draw);
      SplatStepSpec(p, false, t, later, draw2) == t
  {
  }

  /**
   * A preset applied during a stroke lasts only until the next render: the
   * render restores the props' configuration and index, and only the record
   * of what the stroke applied survives; a splat then paints with the props'
   * colour whatever the stroke applied before
   */
  lemma RenderOverridesPreset(r: Refs, presetConfig: C.Config, config: C.Config, activeColorIndex: int)
    ensures var t := RenderSpec(ApplySpec(r, presetConfig), config, activeColorIndex);
      && t.config == config && t.activeColorIndex == activeColorIndex && t.committed == r.committed
      && (r.cycle.Some? <==> t.cycle.Some?)
      && (r.cycle.Some? ==> t.cycle.value.lastApplied == Some(presetConfig) && t.cycle.value.state == r.cycle.value.state)
      && SplatColor(t) == SplatColor(RenderSpec(r, config, activeColorIndex))
  {
  }

  /** Ending a stroke commits at most one configuration, the last one the stroke applied, and clears the cycle */
  lemma StrokeEndCommitsOnce(p: Props, r: Refs)
    ensures
      var t := StrokeEndSpec(p, r);
      && t.cycle.None? && t.config == r.config
      && (r.cycle.Some? && r.cycle.value.lastApplied.Some? && p.hasCommit ==>
            t.committed == r.committed + [r.cycle.value.lastApplied.value])
      && (!(r.cycle.Some? && r.cycle.value.lastApplied.Some? && p.hasCommit) ==> t.committed == r.committed)
      && StrokeEndSpec(p, t) == t
  {
  }
}
