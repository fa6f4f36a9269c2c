/**
 * The orchestration side of the two-phase GPU fluid engine: ping-pong
 * render-target pairs, the fixed per-tick stage pipeline, the frame loop that
 * drains accumulated time in 1/60 s ticks, splats routed to one phase, and the
 * configuration and uniform updates.
 *
 * Render targets are opaque handles and each shader pass is a value recorded
 * in `passes`, in the order the engine issues it; what a kernel computes is
 * not modelled. Until the asynchronous initialisation has run (`ready`), the
 * targets and filters do not exist and the methods that touch them throw.
 */
module LiquidRenderer {
  import opened Wrappers
  import opened Js
  import Hex
  import C = Config
  import Capabilities

  /** The identity of one render texture */
  type Handle = nat

  datatype Rgb = Rgb(r: real, g: real, b: real)

  /** One shader pass or clear, with the textures it samples and the one it writes */
  datatype Pass =
    | Advect(field: Handle, velocity: Handle, target: Handle, dissipation: real)
    | Separation(velocity: Handle, oil: Handle, water: Handle, target: Handle)
    | Diffuse(velocity: Handle, target: Handle, viscosity: real)
    | Divergence(velocity: Handle, target: Handle)
    | PressureSolve(pressure: Handle, divergence: Handle, target: Handle)
    | Gradient(velocity: Handle, pressure: Handle, target: Handle)
    | Tension(field: Handle, target: Handle, tension: real)
    | Splat(field: Handle, target: Handle, point: (real, real), radius: real, color: Rgb, thickness: real)
    | Clear(target: Handle)
    | Shade(oil: Handle, water: Handle, background: Handle)

  /** The textures a pass samples */
  function Reads(p: Pass): seq<Handle> {
    match p
    case Advect(f, v, _, _) => [f, v]
    case Separation(v, o, w, _) => [v, o, w]
    case Diffuse(v, _, _) => [v]
    case Divergence(v, _) => [v]
    case PressureSolve(pr, d, _) => [pr, d]
    case Gradient(v, pr, _) => [v, pr]
    case Tension(f, _, _) => [f]
    case Splat(f, _, _, _, _, _) => [f]
    case Clear(_) => []
    case Shade(o, w, b) => [o, w, b]
  }

  /** The texture a pass writes; the shading pass writes a fresh output texture */
  function Writes(p: Pass): Option<Handle> {
    match p
    case Advect(_, _, t, _) => Some(t)
    case Separation(_, _, _, t) => Some(t)
    case Diffuse(_, t, _) => Some(t)
    case Divergence(_, t) => Some(t)
    case PressureSolve(_, _, t) => Some(t)
    case Gradient(_, _, t) => Some(t)
    case Tension(_, t, _) => Some(t)
    case Splat(_, t, _, _, _, _) => Some(t)
    case Clear(t) => Some(t)
    case Shade(_, _, _) => None
  }

  /** A ping-pong pair: `cur` is slot [0], the texture read; `next` is slot [1] */
  datatype Pair = Pair(cur: Handle, next: Handle)

  /** `swapRT`: exchange the two slots, copying nothing */
  function Swap(p: Pair): (q: Pair)
    ensures q.cur == p.next && q.next == p.cur
  {
    Pair(p.next, p.cur)
  }

  datatype Fields = Fields(
    velocity: Pair, pressure: Pair, divergence: Handle,
    oil: Pair, water: Pair, background: Handle)

  /** The ten textures of the engine */
  function HandlesOf(f: Fields): seq<Handle> {
    [f.velocity.cur, f.velocity.next, f.pressure.cur, f.pressure.next, f.divergence,
     f.oil.cur, f.oil.next, f.water.cur, f.water.next, f.background]
  }

  predicate Distinct(f: Fields) {
    var hs := HandlesOf(f);
    forall i, j :: 0 <= i < j < |hs| ==> hs[i] != hs[j]
  }

  /** The ten targets `createRenderTargets` makes are ten distinct textures */
  function InitialTargets(): Fields {
    Fields(Pair(0, 1), Pair(2, 3), 4, Pair(5, 6), Pair(7, 8), 9)
  }

  lemma InitialTargetsDistinct()
    ensures Distinct(InitialTargets())
  {
    var hs := HandlesOf(InitialTargets());
    assert forall i | 0 <= i < |hs| :: hs[i] == i;
  }

  /** The GPU-side state: the targets, the advect filter's dissipation uniform and the passes issued */
  datatype Gpu = Gpu(fields: Fields, dissipation: real, passes: seq<Pass>)

  datatype Phase = Oil | Water

  /** The dissipation the initialised advect filter starts with */
  const InitialDissipation: real := 0.98
  /** The dissipation the oil and water advections write into the shared advect filter */
  const FieldDissipation: real := 0.995
  /** The splat thickness uniform */
  const SplatThickness: real := 1.5
  /** The fixed tick length, in seconds */
  const TickSeconds: real := 1.0 / 60.0

  /** The number of passes `for (let i = 0; i < iters; i++)` runs */
  function PassCount(iters: real): (n: nat)
    ensures iters <= 0.0 ==> n == 0
    ensures 0.0 < iters ==> n as real - 1.0 < iters <= n as real
  {
    if iters <= 0.0 then 0 else -((-iters).Floor)
  }

  lemma PassCountLoop(iters: real, i: nat)
    ensures (i as real) < iters <==> i < PassCount(iters)
  {
  }

  /** An integral iteration count runs exactly that many passes */
  lemma PassCountOfInteger(n: nat)
    ensures PassCount(n as real) == n
  {
  }

  /** `performanceMode ? 8 : (pressureIterations ?? 12)` */
  function Iterations(performanceMode: bool, config: C.Config): (iters: real)
    ensures performanceMode ==> iters == 8.0
    ensures !performanceMode && C.NumAt(config, C.PressureIterations).None? ==> iters == 12.0
    ensures !performanceMode && C.NumAt(config, C.PressureIterations).Some? ==>
      iters == C.NumAt(config, C.PressureIterations).value
  {
    if performanceMode then 8.0 else C.NumOr(config, C.PressureIterations, 12.0)
  }

  /** `n` Jacobi pressure passes against `divergence`, swapping the pair after each */
  function PressureRun(p: Pair, divergence: Handle, n: nat): (seq<Pass>, Pair) {
    if n == 0 then ([], p)
    else
      var (ps, q) := PressureRun(p, divergence, n - 1);
      (ps + [PressureSolve(q.cur, divergence, q.next)], Swap(q))
  }

  /**
   * One simulation step: advect velocity, separation, diffusion, divergence,
   * `n` pressure passes, gradient subtraction, advection of oil then water,
   * surface tension on oil then water. Each pass reads slot [0] of its pair
   * and writes slot [1], which is then swapped in.
   */
  function StepSpec(g: Gpu, n: nat, viscosity: real, tension: real): Gpu {
    var f := g.fields;
    var run := PressureRun(f.pressure, f.divergence, n);
    Gpu(f.(pressure := run.1), FieldDissipation,
        g.passes + VelocityStages(f, g.dissipation, viscosity) + run.0 + FieldStages(f, run.1, tension))
  }

  /** Advection, separation and diffusion of velocity, then its divergence */
  function VelocityStages(f: Fields, dissipation: real, viscosity: real): seq<Pass> {
    var v, o, w := f.velocity, f.oil, f.water;
    [ Advect(v.cur, v.cur, v.next, dissipation),
      Separation(v.next, o.cur, w.cur, v.cur),
      Diffuse(v.cur, v.next, viscosity),
      Divergence(v.next, f.divergence) ]
  }

  /** Gradient subtraction with the solved pressure, then the two phase fields */
  function FieldStages(f: Fields, pressure: Pair, tension: real): seq<Pass> {
    var v, o, w := f.velocity, f.oil, f.water;
    [ Gradient(v.next, pressure.cur, v.cur),
      Advect(o.cur, v.cur, o.next, FieldDissipation),
      Advect(w.cur, v.cur, w.next, FieldDissipation),
      Tension(o.next, o.cur, tension),
      Tension(w.next, w.cur, tension) ]
  }

  /** One step with the iteration count, viscosity and surface tension the configuration gives */
  function StepOf(g: Gpu, config: C.Config, performanceMode: bool): Gpu {
    StepSpec(g, PassCount(Iterations(performanceMode, config)),
             C.NumOr(config, C.Viscosity, 0.2), C.NumOr(config, C.SurfaceTension, 0.5))
  }

  /** `k` successive steps under one configuration */
  function Steps(g: Gpu, config: C.Config, performanceMode: bool, k: nat): Gpu {
    if k == 0 then g else StepOf(Steps(g, config, performanceMode, k - 1), config, performanceMode)
  }

  /** `render`: clear the background target, then shade the current oil and water fields */
  function RenderSpec(g: Gpu): Gpu {
    var f := g.fields;
    g.(passes := g.passes + [Clear(f.background), Shade(f.oil.cur, f.water.cur, f.background)])
  }

  /** `clear`: clear slot [0] of the four pairs */
  function ClearSpec(g: Gpu): Gpu {
    var f := g.fields;
    g.(passes := g.passes + [Clear(f.velocity.cur), Clear(f.pressure.cur), Clear(f.oil.cur), Clear(f.water.cur)])
  }

  /** `splat`: one splat pass on the chosen phase's pair, which is then swapped */
  function SplatSpec(g: Gpu, phase: Phase, x: real, y: real, radius: real, color: string,
                     width: nat, height: nat): Gpu
    requires width > 0 && height > 0
  {
    var f := g.fields;
    var pair := if phase == Oil then f.oil else f.water;
    var pass := Splat(pair.cur, pair.next, (x / width as real, y / height as real),
                      radius / width as real * 2.0, HexToRgb(color), SplatThickness);
    var fields := if phase == Oil then f.(oil := Swap(pair)) else f.(water := Swap(pair));
    g.(fields := fields, passes := g.passes + [pass])
  }

  /** The frame delta, in seconds, clamped into [1/120, 1/30] */
  function FrameDelta(now: real, lastTime: real): (dt: real)
    ensures 1.0 / 120.0 <= dt <= 1.0 / 30.0
  {
    Clamp((now - lastTime) / 1000.0, 1.0 / 120.0, 1.0 / 30.0)
  }

  /** How many whole ticks `while (acc >= 1/60) acc -= 1/60` drains */
  function Ticks(acc: real): nat {
    if acc < 0.0 then 0 else (acc * 60.0).Floor
  }

  /** Another tick fits while the remainder is at least 1/60 */
  lemma TickBelow(total: real, k: nat)
    requires total - k as real / 60.0 >= 1.0 / 60.0
    ensures k + 1 <= Ticks(total)
  {
    assert total * 60.0 >= k as real + 1.0;
  }

  /** Taking one tick off the remainder after `k` ticks leaves the remainder after `k + 1` */
  lemma TickTaken(total: real, k: nat, acc: real)
    requires acc == total - k as real / 60.0
    ensures acc - TickSeconds == total - (k + 1) as real / 60.0
  {
  }

  /** The loop stops exactly after `Ticks(total)` ticks */
  lemma TickExhausted(total: real, k: nat)
    requires k <= Ticks(total)
    requires total - k as real / 60.0 < 1.0 / 60.0
    ensures k == Ticks(total)
  {
    assert total * 60.0 < k as real + 1.0;
  }

  /** `#rrggbb` or `rrggbb`, case-insensitive: what `/^#?([a-f\d]{2}){3}$/i` accepts */
  predicate IsHexColor6(s: string) {
    (|s| == 7 && s[0] == '#' && Hex.AllHex(s[1..])) || (|s| == 6 && Hex.AllHex(s))
  }

  /** The six digits of an accepted colour */
  function Digits6(s: string): (d: string)
    requires IsHexColor6(s)
    ensures |d| == 6 && Hex.AllHex(d)
  {
    if |s| == 7 then s[1..] else s
  }

  /** `hexToRgb`: each byte over 255, or red for anything else */
  function HexToRgb(s: string): (c: Rgb)
    ensures 0.0 <= c.r <= 1.0 && 0.0 <= c.g <= 1.0 && 0.0 <= c.b <= 1.0
    ensures !IsHexColor6(s) ==> c == Rgb(1.0, 0.0, 0.0)
    ensures IsHexColor6(s) ==>
      var d := Digits6(s);
      c == Rgb(Hex.ValueOf(d[0..2]) as real / 255.0,
               Hex.ValueOf(d[2..4]) as real / 255.0,
               Hex.ValueOf(d[4..6]) as real / 255.0)
  {
    if IsHexColor6(s) then
      var d := Digits6(s);
      Hex.ParseThenFormat(d[0..2]);
      Hex.ParseThenFormat(d[2..4]);
      Hex.ParseThenFormat(d[4..6]);
      Rgb(Hex.ValueOf(d[0..2]) as real / 255.0,
          Hex.ValueOf(d[2..4]) as real / 255.0,
          Hex.ValueOf(d[4..6]) as real / 255.0)
    else Rgb(1.0, 0.0, 0.0)
  }

  /** Separation and shading uniforms as `updateUniforms` sets them */
  datatype Uniforms = Uniforms(
    oilDensity: real, waterDensity: real, gravityStrength: real, gravityAngleDeg: real,
    refractiveIndexOil: real, gloss: real, lightAngleDeg: real, lightIntensity: real,
    refractionStrength: real, thinFilm: bool)

  function UniformsFor(config: C.Config, performanceMode: bool): (u: Uniforms)
    ensures performanceMode ==> !u.thinFilm
    ensures !performanceMode ==> u.thinFilm == C.BoolOr(config, C.ThinFilm, false)
  {
    Uniforms(
      C.NumOr(config, C.OilDensity, 0.85),
      C.NumOr(config, C.WaterDensity, 1.0),
      C.NumOr(config, C.GravityStrength, 0.4),
      C.NumOr(config, C.GravityAngleDeg, 90.0),
      C.NumOr(config, C.RefractiveIndexOil, 1.45),
      C.NumOr(config, C.Gloss, 0.75),
      C.NumOr(config, C.LightAngleDeg, 45.0),
      C.NumOr(config, C.LightIntensity, 1.0),
      C.NumOr(config, C.RefractionStrength, 0.6),
      if performanceMode then false else C.BoolOr(config, C.ThinFilm, false))
  }

  /** `Math.floor(size * (simScale ?? 0.5))` */
  function SimSize(size: nat, config: C.Config): (n: int)
    ensures 0.0 <= C.NumOr(config, C.SimScale, 0.5) <= 1.0 ==> 0 <= n <= size
  {
    var scale := C.NumOr(config, C.SimScale, 0.5);
    var y := size as real * scale;
    ScaleBounds(size as real, scale);
    FloorWithin(y, size);
    y.Floor
  }

  lemma FloorWithin(y: real, size: nat)
    ensures 0.0 <= y <= size as real ==> 0 <= y.Floor <= size
  {
  }

  lemma ScaleBounds(x: real, s: real)
    requires 0.0 <= x
    ensures 0.0 <= s <= 1.0 ==> 0.0 <= x * s <= x
  {
    if 0.0 <= s <= 1.0 {
      assert x * (1.0 - s) >= 0.0;
    }
  }

  class Renderer {
    const performanceMode: bool
    /** The asynchronous initialisation callback has run */
    var ready: bool
    var config: C.Config
    /** The PIXI renderer's size, from the parent element */
    var width: nat
    var height: nat
    var simWidth: int
    var simHeight: int
    var isRunning: bool
    /** `rafId !== null` */
    var frameRequested: bool
    var accumTime: real
    var lastTime: real
    /** The window resize listener is registered */
    var listening: bool
    var destroyed: bool
    const velocity: array<Handle>
    const pressure: array<Handle>
    const oil: array<Handle>
    const water: array<Handle>
    var divergence: Handle
    var background: Handle
    /** The advect filter's `uDissipation` uniform */
    var dissipation: real
    var uniforms: Uniforms
    var passes: seq<Pass>

    ghost predicate Valid()
      reads this
    {
      && velocity.Length == 2 && pressure.Length == 2 && oil.Length == 2 && water.Length == 2
      && velocity != pressure && velocity != oil && velocity != water
      && pressure != oil && pressure != water && oil != water
      && width > 0 && height > 0
      && 0.0 <= accumTime
      && (ready ==> uniforms == UniformsFor(config, performanceMode))
    }

    function Targets(): Fields
      reads this, velocity, pressure, oil, water
      requires Valid()
    {
      Fields(Pair(velocity[0], velocity[1]), Pair(pressure[0], pressure[1]), divergence,
             Pair(oil[0], oil[1]), Pair(water[0], water[1]), background)
    }

    function View(): Gpu
      reads this, velocity, pressure, oil, water
      requires Valid()
    {
      Gpu(Targets(), dissipation, passes)
    }

    /**
     * The synchronous part of the constructor, once the capability probe has
     * reported support: the application exists, no target does yet.
     */
    constructor (config: C.Config, performanceMode: Option<bool>, now: real, parentWidth: nat, parentHeight: nat)
      requires parentWidth > 0 && parentHeight > 0
      ensures Valid() && !ready && !isRunning && !frameRequested && !listening && !destroyed
      ensures this.config == config && this.performanceMode == performanceMode.GetOr(false)
      ensures accumTime == 0.0 && lastTime == now && simWidth == 0 && simHeight == 0
      ensures width == parentWidth && height == parentHeight && passes == []
      ensures fresh(velocity) && fresh(pressure) && fresh(oil) && fresh(water)
    {
      this.performanceMode := performanceMode.GetOr(false);
      this.config := config;
      ready := false;
      width, height := parentWidth, parentHeight;
      simWidth, simHeight := 0, 0;
      isRunning, frameRequested := false, false;
      accumTime, lastTime := 0.0, now;
      listening, destroyed := false, false;
      velocity := new Handle[2];
      pressure := new Handle[2];
      oil := new Handle[2];
      water := new Handle[2];
      divergence, background := 0, 0;
      dissipation := 0.0;
      uniforms := UniformsFor(config, performanceMode.GetOr(false));
      passes := [];
    }

    /** `updateSimResolution`: the simulation grid is the renderer size scaled by `simScale ?? 0.5` */
    method UpdateSimResolution()
      modifies this`simWidth, this`simHeight
      ensures simWidth == SimSize(width, config) && simHeight == SimSize(height, config)
    {
      simWidth := SimSize(width, config);
      simHeight := SimSize(height, config);
    }

    /**
     * The initialisation callback: grid size, ten distinct targets, filters
     * (the advect filter's dissipation at 0.98) and the resize listener.
     */
    method InitCallback()
      requires Valid() && !ready
      modifies this`simWidth, this`simHeight, this`divergence, this`background, this`dissipation, this`uniforms
      modifies this`ready, this`listening, velocity, pressure, oil, water
      ensures Valid() && ready && listening
      ensures Targets() == InitialTargets()
      ensures dissipation == InitialDissipation
      ensures uniforms == UniformsFor(config, performanceMode)
      ensures simWidth == SimSize(width, config) && simHeight == SimSize(height, config)
    {
      UpdateSimResolution();
      CreateRenderTargets();
      CreateShaders();
      ready := true;
      listening := true;
    }

    /** `createRenderTargets` */
    method CreateRenderTargets()
      requires Valid()
      modifies this`divergence, this`background, velocity, pressure, oil, water
      ensures Valid() && Targets() == InitialTargets()
    {
      var t := InitialTargets();
      Fill(velocity, t.velocity);
      Fill(pressure, t.pressure);
      Fill(oil, t.oil);
      Fill(water, t.water);
      divergence, background := t.divergence, t.background;
    }

    /** `createShaders`: the uniforms the filters start with */
    method CreateShaders()
      modifies this`dissipation, this`uniforms
      ensures dissipation == InitialDissipation
      ensures uniforms == UniformsFor(config, performanceMode)
    {
      dissipation := InitialDissipation;
      uniforms := UniformsFor(config, performanceMode);
    }

    /** A new pair of textures in the two slots */
    static method Fill(pair: array<Handle>, p: Pair)
      requires pair.Length == 2
      modifies pair
      ensures Pair(pair[0], pair[1]) == p
    {
      pair[0], pair[1] := p.cur, p.next;
    }

    /** `swapRT` */
    static method SwapRT(pair: array<Handle>)
      requires pair.Length == 2
      modifies pair
      ensures pair[0] == old(pair[1]) && pair[1] == old(pair[0])
    {
      var temp := pair[0];
      pair[0] := pair[1];
      pair[1] := temp;
    }

    /**
     * `applyFilter` with the advect filter and a dissipation among the
     * uniforms: `Object.assign` merges them into the filter's, so the value
     * stays for every later advection that does not pass one (the velocity
     * advection passes none).
     */
    method ApplyAdvect(field: Handle, vel: Handle, target: Handle, setDissipation: real)
      modifies this`passes, this`dissipation
      ensures dissipation == setDissipation
      ensures passes == old(passes) + [Advect(field, vel, target, setDissipation)]
    {
      dissipation := setDissipation;
      passes := passes + [Advect(field, vel, target, dissipation)];
    }

    method Issue(p: Pass)
      modifies this`passes
      ensures passes == old(passes) + [p]
    {
      passes := passes + [p];
    }

    /** `step(1/60)`, after initialisation */
    method Step()
      requires Valid() && ready
      modifies this`passes, this`dissipation, this`uniforms, velocity, pressure, oil, water
      ensures Valid()
      ensures View() == StepOf(old(View()), config, performanceMode)
      ensures uniforms == old(uniforms)
    {
      ghost var g := View();
      uniforms := UniformsFor(config, performanceMode);
      VelocityPhase(C.NumOr(config, C.Viscosity, 0.2));
      var iters := Iterations(performanceMode, config);
      PressurePhase(iters);
      FieldPhase(C.NumOr(config, C.SurfaceTension, 0.5));
      ghost var run := PressureRun(g.fields.pressure, g.fields.divergence, PassCount(iters));
      assert passes == g.passes + VelocityStages(g.fields, g.dissipation, C.NumOr(config, C.Viscosity, 0.2))
        + run.0 + FieldStages(g.fields, run.1, C.NumOr(config, C.SurfaceTension, 0.5));
    }

    /** Stages 1 to 4 of `step`: velocity is swapped three times */
    method VelocityPhase(viscosity: real)
      requires Valid()
      modifies this`passes, velocity
      ensures Valid()
      ensures passes == old(passes) + VelocityStages(old(Targets()), dissipation, viscosity)
      ensures velocity[0] == old(velocity[1]) && velocity[1] == old(velocity[0])
    {
      Issue(Advect(velocity[0], velocity[0], velocity[1], dissipation));
      SwapRT(velocity);
      Issue(Separation(velocity[0], oil[0], water[0], velocity[1]));
      SwapRT(velocity);
      Issue(Diffuse(velocity[0], velocity[1], viscosity));
      SwapRT(velocity);
      Issue(Divergence(velocity[0], divergence));
    }

    /** Stage 5 of `step`: the pressure loop */
    method PressurePhase(iters: real)
      requires Valid()
      modifies this`passes, pressure
      ensures Valid()
      ensures var run := PressureRun(old(Pair(pressure[0], pressure[1])), divergence, PassCount(iters));
        passes == old(passes) + run.0 && Pair(pressure[0], pressure[1]) == run.1
    {
      ghost var p0 := Pair(pressure[0], pressure[1]);
      ghost var before := passes;
      ghost var n := PassCount(iters);
      var i: nat := 0;
      PassCountLoop(iters, 0);
      assert passes[|before|..] == [];
      while (i as real) < iters
        invariant i <= n
        invariant |before| <= |passes| && passes[..|before|] == before
        invariant PressureRun(p0, divergence, i) == (passes[|before|..], Pair(pressure[0], pressure[1]))
        decreases n - i
      {
        PassCountLoop(iters, i);
        ghost var prev := passes;
        Issue(PressureSolve(pressure[0], divergence, pressure[1]));
        SwapRT(pressure);
        i := i + 1;
        assert passes[|before|..] == prev[|before|..] + [passes[|passes| - 1]];
        PassCountLoop(iters, i);
      }
      PassCountLoop(iters, i);
      assert passes == before + passes[|before|..];
    }

    /** Stages 6 to 10 of `step`, on the velocity pair as the pressure loop left it */
    method FieldPhase(tension: real)
      requires Valid()
      modifies this`passes, this`dissipation, velocity, oil, water
      ensures Valid()
      ensures dissipation == FieldDissipation
      ensures var f := old(Targets()).(velocity := Swap(old(Targets()).velocity));
        passes == old(passes) + FieldStages(f, old(Targets()).pressure, tension)
      ensures velocity[0] == old(velocity[1]) && velocity[1] == old(velocity[0])
      ensures oil[..] == old(oil[..]) && water[..] == old(water[..])
    {
      Issue(Gradient(velocity[0], pressure[0], velocity[1]));
      SwapRT(velocity);
      ApplyAdvect(oil[0], velocity[0], oil[1], FieldDissipation);
      SwapRT(oil);
      ApplyAdvect(water[0], velocity[0], water[1], FieldDissipation);
      SwapRT(water);
      Issue(Tension(oil[0], oil[1], tension));
      SwapRT(oil);
      Issue(Tension(water[0], water[1], tension));
      SwapRT(water);
    }

    /** The `while (accumTime >= 1/60)` part of `loop`: one step per whole tick */
    method RunTicks() returns (k: nat)
      requires Valid() && ready
      modifies this`passes, this`dissipation, this`uniforms, this`accumTime, velocity, pressure, oil, water
      ensures Valid()
      ensures k == Ticks(old(accumTime)) && accumTime == old(accumTime) - k as real / 60.0
      ensures View() == Steps(old(View()), config, performanceMode, k)
      ensures uniforms == old(uniforms)
    {
      ghost var total := accumTime;
      ghost var g := View();
      k := 0;
      while accumTime >= TickSeconds
        invariant Valid() && uniforms == old(uniforms)
        invariant k <= Ticks(total)
        invariant accumTime == total - k as real / 60.0
        invariant View() == Steps(g, config, performanceMode, k)
        decreases Ticks(total) - k
      {
        TickBelow(total, k);
        Step();
        assert View() == Steps(g, config, performanceMode, k + 1);
        TickTaken(total, k, accumTime);
        accumTime := accumTime - TickSeconds;
        k := k + 1;
      }
      TickExhausted(total, k);
    }

    /** `render`, which throws before initialisation */
    method Render() returns (outcome: Outcome)
      requires Valid()
      modifies this`passes
      ensures ready ==> outcome == Done && View() == RenderSpec(old(View()))
      ensures !ready ==> outcome == Thrown && passes == old(passes)
    {
      if !ready {
        return Thrown;
      }
      Issue(Pass.Clear(background));
      Issue(Shade(oil[0], water[0], background));
      outcome := Done;
    }

    /**
     * One animation frame (`loop`): clamp the elapsed time, add it to the
     * accumulator, run a step per whole tick in it, render once and request
     * the next frame. Before initialisation the first step or the render
     * throws, after the clock and the accumulator have moved.
     */
    method Loop(now: real) returns (outcome: Outcome)
      requires Valid()
      modifies this`passes, this`dissipation, this`uniforms, this`accumTime, this`frameRequested
      modifies this`lastTime, velocity, pressure, oil, water
      ensures Valid() && uniforms == old(uniforms)
      ensures !old(isRunning) ==>
        outcome == Done && View() == old(View()) && accumTime == old(accumTime)
        && lastTime == old(lastTime) && frameRequested == old(frameRequested)
      ensures old(isRunning) ==> lastTime == now
      ensures old(isRunning) && ready ==>
        var total := old(accumTime) + FrameDelta(now, old(lastTime));
        && outcome == Done && frameRequested
        && accumTime == total - Ticks(total) as real / 60.0
        && View() == RenderSpec(Steps(old(View()), config, performanceMode, Ticks(total)))
      ensures old(isRunning) && !ready ==>
        && outcome == Thrown && View() == old(View()) && frameRequested == old(frameRequested)
        && accumTime == old(accumTime) + FrameDelta(now, old(lastTime))
    {
      if !isRunning {
        return Done;
      }
      var frameDt := FrameDelta(now, lastTime);
      lastTime := now;
      accumTime := accumTime + frameDt;
      if !ready {
        return Thrown;
      }
      Frame();
      outcome := Done;
    }

    /** The initialised part of `loop` once the accumulator has moved: ticks, render, next frame */
    method Frame()
      requires Valid() && ready
      modifies this`passes, this`dissipation, this`uniforms, this`accumTime, this`frameRequested
      modifies velocity, pressure, oil, water
      ensures Valid() && frameRequested
      ensures accumTime == old(accumTime) - Ticks(old(accumTime)) as real / 60.0
      ensures View() == RenderSpec(Steps(old(View()), config, performanceMode, Ticks(old(accumTime))))
      ensures uniforms == old(uniforms)
    {
      var k := RunTicks();
      ghost var g := View();
      var rendered := Render();
      assert View() == RenderSpec(g);
      frameRequested := true;
    }


    /**
     * `play`: a no-op while running; otherwise mark running, restart the
     * clock and run one frame. Before initialisation that frame throws and
     * the renderer is left marked running, so later calls are no-ops.
     */
    method Play(now: real, loopNow: real) returns (outcome: Outcome)
      requires Valid()
      modifies this`passes, this`dissipation, this`uniforms, this`accumTime, this`frameRequested
      modifies this`lastTime, this`isRunning, velocity, pressure, oil, water
      ensures Valid() && uniforms == old(uniforms)
      ensures old(isRunning) ==>
        outcome == Done && View() == old(View()) && lastTime == old(lastTime)
        && accumTime == old(accumTime) && frameRequested == old(frameRequested)
      ensures isRunning
      ensures !old(isRunning) ==> lastTime == loopNow
      ensures !old(isRunning) && ready ==>
        var total := old(accumTime) + FrameDelta(loopNow, now);
        && outcome == Done && frameRequested
        && accumTime == total - Ticks(total) as real / 60.0
        && View() == RenderSpec(Steps(old(View()), config, performanceMode, Ticks(total)))
      ensures !old(isRunning) && !ready ==>
        && outcome == Thrown && View() == old(View()) && frameRequested == old(frameRequested)
        && accumTime == old(accumTime) + FrameDelta(loopNow, now)
    {
      if isRunning {
        return Done;
      }
      isRunning := true;
      lastTime := now;
      outcome := Loop(loopNow);
    }

    /** `pause`: stop and cancel the pending frame */
    method Pause()
      modifies this`isRunning, this`frameRequested
      ensures !isRunning && !frameRequested
    {
      isRunning := false;
      frameRequested := false;
    }

    /**
     * `splat`: one splat into the phase's field, position normalised by the
     * renderer size, radius by twice its width. Before initialisation the
     * renderer has no size to read and the call throws.
     */
    method Splat(x: real, y: real, radius: real, color: string, phase: Phase) returns (outcome: Outcome)
      requires Valid()
      modifies this`passes, oil, water
      ensures Valid()
      ensures ready ==> outcome == Done && View() == SplatSpec(old(View()), phase, x, y, radius, color, width, height)
      ensures !ready ==> outcome == Thrown && View() == old(View())
    {
      if !ready {
        return Thrown;
      }
      var rgb := HexToRgb(color);
      var field := if phase == Oil then oil else water;
      var point := (x / width as real, y / height as real);
      Issue(Pass.Splat(field[0], field[1], point, radius / width as real * 2.0, rgb, SplatThickness));
      SwapRT(field);
      outcome := Done;
    }

    /**
     * `updateConfig`: the partial configuration is spread over the current
     * one first; refreshing the uniforms then throws before initialisation.
     */
    method UpdateConfig(partial: C.Config) returns (outcome: Outcome)
      requires Valid()
      modifies this`config, this`uniforms
      ensures Valid()
      ensures config == C.Merge(old(config), partial)
      ensures ready ==> outcome == Done && uniforms == UniformsFor(config, performanceMode)
      ensures !ready ==> outcome == Thrown && uniforms == old(uniforms)
    {
      config := C.Merge(config, partial);
      if !ready {
        return Thrown;
      }
      uniforms := UniformsFor(config, performanceMode);
      outcome := Done;
    }

    /** `clear`: the current slot of the four ping-pong pairs is cleared; before initialisation it throws */
    method Clear() returns (outcome: Outcome)
      requires Valid()
      modifies this`passes
      ensures ready ==> outcome == Done && View() == ClearSpec(old(View()))
      ensures !ready ==> outcome == Thrown && passes == old(passes)
    {
      if !ready {
        return Thrown;
      }
      Issue(Pass.Clear(velocity[0]));
      Issue(Pass.Clear(pressure[0]));
      Issue(Pass.Clear(oil[0]));
      Issue(Pass.Clear(water[0]));
      outcome := Done;
    }

    /**
     * The window `resize` listener, attached once initialised: the grid size
     * is recomputed from the unchanged renderer size and the current
     * `simScale`, and no target is recreated.
     */
    method WindowResize()
      modifies this`simWidth, this`simHeight
      ensures listening ==> simWidth == SimSize(width, config) && simHeight == SimSize(height, config)
      ensures !listening ==> simWidth == old(simWidth) && simHeight == old(simHeight)
    {
      if listening {
        UpdateSimResolution();
      }
    }

    /** `destroy`: pause, detach the resize listener and destroy the application */
    method Destroy()
      modifies this`isRunning, this`frameRequested, this`listening, this`destroyed
      ensures !isRunning && !frameRequested && !listening && destroyed
    {
      Pause();
      listening := false;
      destroyed := true;
    }
  }

  // ---------------------------------------------------------------------
  // Properties of the pipeline
  // ---------------------------------------------------------------------

  /** The pair after `n` swaps */
  function Swapped(p: Pair, n: nat): Pair {
    if n % 2 == 0 then p else Swap(p)
  }

  /** Pressure pass `i` of a run: reads the slot it last wrote, writes the other */
  function PressurePass(p: Pair, divergence: Handle, i: nat): Pass {
    var q := Swapped(p, i);
    PressureSolve(q.cur, divergence, q.next)
  }

  /** A pressure run alternates between the two slots and ends swapped iff it ran an odd number of passes */
  lemma {:induction false} PressureRunShape(p: Pair, divergence: Handle, n: nat)
    ensures |PressureRun(p, divergence, n).0| == n
    ensures forall i :: 0 <= i < n ==> PressureRun(p, divergence, n).0[i] == PressurePass(p, divergence, i)
    ensures PressureRun(p, divergence, n).1 == Swapped(p, n)
  {
    if n > 0 {
      PressureRunShape(p, divergence, n - 1);
    }
  }

  /**
   * The passes one step issues, stage by stage: velocity advection with the
   * filter's current dissipation, separation, diffusion, divergence, `n`
   * alternating pressure passes, gradient with the last pressure written,
   * oil and water advection at 0.995, then tension on oil and on water.
   */
  lemma StepPasses(g: Gpu, n: nat, viscosity: real, tension: real)
    ensures
      var f, s := g.fields, StepSpec(g, n, viscosity, tension).passes;
      var v, o, w, pr := f.velocity, f.oil, f.water, Swapped(f.pressure, n);
      && |s| == |g.passes| + 9 + n
      && s[..|g.passes|] == g.passes
      && s[|g.passes|] == Advect(v.cur, v.cur, v.next, g.dissipation)
      && s[|g.passes| + 1] == Separation(v.next, o.cur, w.cur, v.cur)
      && s[|g.passes| + 2] == Diffuse(v.cur, v.next, viscosity)
      && s[|g.passes| + 3] == Divergence(v.next, f.divergence)
      && (forall i :: 0 <= i < n ==> s[|g.passes| + 4 + i] == PressurePass(f.pressure, f.divergence, i))
      && s[|g.passes| + 4 + n] == Gradient(v.next, pr.cur, v.cur)
      && s[|g.passes| + 5 + n] == Advect(o.cur, v.cur, o.next, FieldDissipation)
      && s[|g.passes| + 6 + n] == Advect(w.cur, v.cur, w.next, FieldDissipation)
      && s[|g.passes| + 7 + n] == Tension(o.next, o.cur, tension)
      && s[|g.passes| + 8 + n] == Tension(w.next, w.cur, tension)
  {
    PressureRunShape(g.fields.pressure, g.fields.divergence, n);
  }

  /**
   * After a step velocity, oil and water are back in their slots (each pair
   * is swapped an even number of times), pressure is swapped iff the run was
   * odd, and the advect filter is left at the fields' 0.995.
   */
  lemma StepRestoresPairs(g: Gpu, n: nat, viscosity: real, tension: real)
    ensures
      var f, h := g.fields, StepSpec(g, n, viscosity, tension);
      && h.fields == f.(pressure := Swapped(f.pressure, n))
      && h.dissipation == FieldDissipation
  {
    PressureRunShape(g.fields.pressure, g.fields.divergence, n);
  }

  /** The slot each of the ten positions takes its texture from after the pressure pair is swapped */
  function SwapIndex(i: nat): nat {
    if i == 2 then 3 else if i == 3 then 2 else i
  }

  /** Swapping permutes the ten textures among the same slots, so distinctness is kept */
  lemma SwappedDistinct(f: Fields, n: nat)
    requires Distinct(f)
    ensures Distinct(f.(pressure := Swapped(f.pressure, n)))
  {
    var hs, ks := HandlesOf(f), HandlesOf(f.(pressure := Swapped(f.pressure, n)));
    if n % 2 == 1 {
      assert forall i :: 0 <= i < 10 ==> ks[i] == hs[SwapIndex(i)];
      forall i, j | 0 <= i < j < |ks|
        ensures ks[i] != ks[j]
      {
        var a, b := SwapIndex(i), SwapIndex(j);
        if a < b {
          assert hs[a] != hs[b];
        } else {
          assert hs[b] != hs[a];
        }
      }
    } else {
      assert ks == hs;
    }
  }

  /** A pressure pass writes the slot it does not read, as long as the pair and the divergence are distinct */
  lemma PressurePassSafe(p: Pair, divergence: Handle, i: nat)
    requires p.cur != p.next && p.cur != divergence && p.next != divergence
    ensures var pass := PressurePass(p, divergence, i);
      Writes(pass).Some? && Writes(pass).value !in Reads(pass)
  {
    var q := Swapped(p, i);
    assert q == p || q == Swap(p);
  }

  /** After any number of swaps the current slot holds one of the pair's two textures */
  lemma SwappedCur(p: Pair, n: nat)
    ensures Swapped(p, n).cur == p.cur || Swapped(p, n).cur == p.next
  {
  }

  /** No pass of a step samples the texture it writes, as long as the ten targets are distinct */
  lemma NoPassReadsItsTarget(g: Gpu, n: nat, viscosity: real, tension: real)
    requires Distinct(g.fields)
    ensures
      var s := StepSpec(g, n, viscosity, tension).passes;
      forall i :: |g.passes| <= i < |s| ==> Writes(s[i]).Some? && Writes(s[i]).value !in Reads(s[i])
  {
    DistinctFacts(g.fields);
    StepPassesSafe(g, n, viscosity, tension);
  }

  /** The inequalities among the ten targets that the passes of a step rely on */
  predicate StepSeparated(f: Fields) {
    var v, p, o, w, d := f.velocity, f.pressure, f.oil, f.water, f.divergence;
    && v.cur != v.next && v.next != d
    && p.cur != p.next && p.cur != d && p.next != d
    && o.cur != o.next && w.cur != w.next
    && v.cur != o.cur && v.cur != o.next && v.cur != w.cur && v.cur != w.next
    && v.cur != p.cur && v.cur != p.next
  }

  lemma DistinctFacts(f: Fields)
    requires Distinct(f)
    ensures StepSeparated(f)
  {
    var hs := HandlesOf(f);
    assert forall i, j :: 0 <= i < j < |hs| ==> hs[i] != hs[j];
    assert hs[0] != hs[1] && hs[1] != hs[4];
    assert hs[2] != hs[3] && hs[2] != hs[4] && hs[3] != hs[4];
    assert hs[5] != hs[6] && hs[7] != hs[8];
    assert hs[0] != hs[5] && hs[0] != hs[6] && hs[0] != hs[7] && hs[0] != hs[8];
    assert hs[0] != hs[2] && hs[0] != hs[3];
  }

  lemma StepPassesSafe(g: Gpu, n: nat, viscosity: real, tension: real)
    requires StepSeparated(g.fields)
    ensures
      var s := StepSpec(g, n, viscosity, tension).passes;
      forall i :: |g.passes| <= i < |s| ==> Writes(s[i]).Some? && Writes(s[i]).value !in Reads(s[i])
  {
    StepPasses(g, n, viscosity, tension);
    var f, s := g.fields, StepSpec(g, n, viscosity, tension).passes;
    forall i | |g.passes| <= i < |s|
      ensures Writes(s[i]).Some? && Writes(s[i]).value !in Reads(s[i])
    {
      var k := i - |g.passes|;
      if 4 <= k < 4 + n {
        assert s[i] == PressurePass(f.pressure, f.divergence, k - 4);
        PressurePassSafe(f.pressure, f.divergence, k - 4);
      } else if k == 4 + n {
        SwappedCur(f.pressure, n);
      }
    }
  }

  /** A step keeps the ten targets distinct */
  lemma StepKeepsDistinct(g: Gpu, n: nat, viscosity: real, tension: real)
    requires Distinct(g.fields)
    ensures Distinct(StepSpec(g, n, viscosity, tension).fields)
  {
    StepRestoresPairs(g, n, viscosity, tension);
    SwappedDistinct(g.fields, n);
  }

  /**
   * The oil and water advections write 0.995 into the shared advect filter,
   * so only the very first velocity advection uses the initial 0.98; from
   * the second step on velocity is advected with 0.995.
   */
  lemma DissipationLeak(g: Gpu, n: nat, viscosity: real, tension: real)
    ensures
      var h := StepSpec(g, n, viscosity, tension);
      var v := h.fields.velocity;
      StepSpec(h, n, viscosity, tension).passes[|h.passes|] == Advect(v.cur, v.cur, v.next, FieldDissipation)
  {
    var h := StepSpec(g, n, viscosity, tension);
    StepRestoresPairs(g, n, viscosity, tension);
    StepPasses(h, n, viscosity, tension);
  }

  /** Over several steps velocity, oil and water stay in place and pressure is swapped `k * n` times */
  lemma {:induction false} StepsRestorePairs(g: Gpu, config: C.Config, performanceMode: bool, k: nat)
    ensures
      var f, n := g.fields, PassCount(Iterations(performanceMode, config));
      Steps(g, config, performanceMode, k).fields == f.(pressure := Swapped(f.pressure, k * n))
  {
    var n := PassCount(Iterations(performanceMode, config));
    if k > 0 {
      StepsRestorePairs(g, config, performanceMode, k - 1);
      MulSucc(k, n);
      StepAfterSwaps(g, config, performanceMode, k, (k - 1) * n);
    }
  }

  /** If `k - 1` steps swapped pressure `m` times, `k` steps swap it `m + n` times */
  lemma StepAfterSwaps(g: Gpu, config: C.Config, performanceMode: bool, k: nat, m: nat)
    requires k > 0
    requires Steps(g, config, performanceMode, k - 1).fields == g.fields.(pressure := Swapped(g.fields.pressure, m))
    ensures
      var f, n := g.fields, PassCount(Iterations(performanceMode, config));
      Steps(g, config, performanceMode, k).fields == f.(pressure := Swapped(f.pressure, m + n))
  {
    var h := Steps(g, config, performanceMode, k - 1);
    StepOfFields(h, config, performanceMode);
    SwappedAdd(g.fields.pressure, m, PassCount(Iterations(performanceMode, config)));
  }

  lemma MulSucc(k: nat, n: nat)
    requires k > 0
    ensures 0 <= (k - 1) * n && k * n == (k - 1) * n + n
  {
  }

  /** One step under a configuration swaps pressure once per pressure pass and moves nothing else */
  lemma StepOfFields(g: Gpu, config: C.Config, performanceMode: bool)
    ensures
      var f, n := g.fields, PassCount(Iterations(performanceMode, config));
      StepOf(g, config, performanceMode).fields == f.(pressure := Swapped(f.pressure, n))
  {
    var n := PassCount(Iterations(performanceMode, config));
    StepRestoresPairs(g, n, C.NumOr(config, C.Viscosity, 0.2), C.NumOr(config, C.SurfaceTension, 0.5));
  }

  /** `a` swaps followed by `b` swaps are `a + b` swaps */
  lemma SwappedAdd(p: Pair, a: nat, b: nat)
    ensures Swapped(Swapped(p, a), b) == Swapped(p, a + b)
  {
    if a % 2 == 1 && b % 2 == 1 {
      assert (a + b) % 2 == 0;
    }
  }

  /** Rendering and clearing issue passes only, moving no target */
  lemma RenderAndClearKeepTargets(g: Gpu)
    ensures RenderSpec(g).fields == g.fields && RenderSpec(g).dissipation == g.dissipation
    ensures ClearSpec(g).fields == g.fields && |ClearSpec(g).passes| == |g.passes| + 4
    ensures forall i :: |g.passes| <= i < |ClearSpec(g).passes| ==>
      ClearSpec(g).passes[i].Clear? &&
      ClearSpec(g).passes[i].target in {g.fields.velocity.cur, g.fields.pressure.cur, g.fields.oil.cur, g.fields.water.cur}
  {
  }

  /** Clearing never touches the divergence, background or any slot [1] texture */
  lemma ClearSparesOthers(g: Gpu)
    requires Distinct(g.fields)
    ensures
      var f := g.fields;
      forall i :: |g.passes| <= i < |ClearSpec(g).passes| ==>
        ClearSpec(g).passes[i].target !in {f.divergence, f.background, f.velocity.next, f.pressure.next, f.oil.next, f.water.next}
  {
    var hs := HandlesOf(g.fields);
    assert forall i, j :: 0 <= i < j < |hs| ==> hs[i] != hs[j];
    assert hs[0] !in {hs[4], hs[9], hs[1], hs[3], hs[6], hs[8]};
    assert hs[2] !in {hs[4], hs[9], hs[1], hs[3], hs[6], hs[8]};
    assert hs[5] !in {hs[4], hs[9], hs[1], hs[3], hs[6], hs[8]};
    assert hs[7] !in {hs[4], hs[9], hs[1], hs[3], hs[6], hs[8]};
  }

  /** A splat writes slot [1] of its phase only, swaps that pair only, and two splats on a phase restore it */
  lemma SplatTouchesOnePhase(g: Gpu, phase: Phase, x: real, y: real, radius: real, color: string,
                             width: nat, height: nat)
    requires width > 0 && height > 0
    ensures
      var f, h := g.fields, SplatSpec(g, phase, x, y, radius, color, width, height);
      var pair := if phase == Oil then f.oil else f.water;
      && h.passes[..|g.passes|] == g.passes && |h.passes| == |g.passes| + 1
      && Writes(h.passes[|g.passes|]) == Some(pair.next)
      && Reads(h.passes[|g.passes|]) == [pair.cur]
      && h.fields.velocity == f.velocity && h.fields.pressure == f.pressure
      && (phase == Oil ==> h.fields.water == f.water && h.fields.oil == Swap(f.oil))
      && (phase == Water ==> h.fields.oil == f.oil && h.fields.water == Swap(f.water))
      && SplatSpec(h, phase, x, y, radius, color, width, height).fields == f
  {
  }

  /** A frame that starts with less than one tick pending runs at most two ticks and leaves less than one */
  lemma FrameBounds(acc: real, now: real, lastTime: real)
    requires 0.0 <= acc < TickSeconds
    ensures
      var total := acc + FrameDelta(now, lastTime);
      var k := Ticks(total);
      && k <= 2
      && 0.0 <= total - k as real / 60.0 < TickSeconds
  {
    var total := acc + FrameDelta(now, lastTime);
    assert total * 60.0 < 3.0;
  }

  /** Every byte triple written as `#rrggbb` or `rrggbb` decodes to its bytes over 255 */
  lemma HexToRgbOfBytes(r: nat, g: nat, b: nat)
    requires r < 256 && g < 256 && b < 256
    ensures HexToRgb("#" + Hex.Byte2(r) + Hex.Byte2(g) + Hex.Byte2(b)) == Rgb(r as real / 255.0, g as real / 255.0, b as real / 255.0)
    ensures HexToRgb(Hex.Byte2(r) + Hex.Byte2(g) + Hex.Byte2(b)) == Rgb(r as real / 255.0, g as real / 255.0, b as real / 255.0)
  {
    var x, y, z := Hex.Byte2(r), Hex.Byte2(g), Hex.Byte2(b);
    DigitsOfBytes(r, g, b);
    assert "#" + x + y + z == "#" + (x + y + z);
    HashDigits(x + y + z);
  }

  /** Six digits spelling three bytes decode to those bytes over 255 */
  lemma DigitsOfBytes(r: nat, g: nat, b: nat)
    requires r < 256 && g < 256 && b < 256
    ensures var d := Hex.Byte2(r) + Hex.Byte2(g) + Hex.Byte2(b);
      IsHexColor6(d) && HexToRgb(d) == Rgb(r as real / 255.0, g as real / 255.0, b as real / 255.0)
  {
    Hex.Byte2RoundTrip(r);
    Hex.Byte2RoundTrip(g);
    Hex.Byte2RoundTrip(b);
    PairsDecode(Hex.Byte2(r), Hex.Byte2(g), Hex.Byte2(b));
  }

  /** Three digit pairs decode pair by pair */
  lemma PairsDecode(x: string, y: string, z: string)
    requires |x| == 2 && |y| == 2 && |z| == 2 && Hex.AllHex(x) && Hex.AllHex(y) && Hex.AllHex(z)
    ensures IsHexColor6(x + y + z)
    ensures HexToRgb(x + y + z) == Rgb(Hex.ValueOf(x) as real / 255.0, Hex.ValueOf(y) as real / 255.0, Hex.ValueOf(z) as real / 255.0)
  {
    JoinPairs(x, y, z);
    var d := x + y + z;
    assert Digits6(d) == d;
  }

  /** A `#` in front of six digits changes nothing */
  lemma HashDigits(d: string)
    requires |d| == 6 && Hex.AllHex(d)
    ensures HexToRgb("#" + d) == HexToRgb(d)
  {
    var s := "#" + d;
    assert s[1..] == d;
    assert IsHexColor6(s) && Digits6(s) == d && Digits6(d) == d;
  }

  /** Three digit pairs side by side: six digits with the pairs at 0, 2 and 4 */
  lemma JoinPairs(x: string, y: string, z: string)
    requires |x| == 2 && |y| == 2 && |z| == 2 && Hex.AllHex(x) && Hex.AllHex(y) && Hex.AllHex(z)
    ensures var d := x + y + z; |d| == 6 && Hex.AllHex(d) && d[0..2] == x && d[2..4] == y && d[4..6] == z
  {
    var d := x + y + z;
    assert forall j :: 0 <= j < 6 ==> d[j] == if j < 2 then x[j] else if j < 4 then y[j - 2] else z[j - 4];
    assert d[0..2] == x && d[2..4] == y && d[4..6] == z;
  }

  /**
   * Construction as a caller sees it: the shared capability probe decides;
   * without WebGL support the constructor throws and there is no renderer.
   */
  method NewRenderer(cache: Capabilities.CapabilityCache, ctx: Capabilities.Context, config: C.Config,
                     performanceMode: Option<bool>, now: real, parentWidth: nat, parentHeight: nat)
    returns (r: Option<Renderer>)
    requires parentWidth > 0 && parentHeight > 0
    modifies cache
    ensures cache.cached.Some?
    ensures r.Some? <==> cache.cached.value.supported
    ensures r.Some? ==> fresh(r.value) && r.value.Valid() && !r.value.ready && r.value.config == config
  {
    var caps := cache.Detect(ctx);
    if !caps.supported {
      return None;
    }
    var renderer := new Renderer(config, performanceMode, now, parentWidth, parentHeight);
    r := Some(renderer);
  }
}
