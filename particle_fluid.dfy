/**
 * The Canvas2D particle engine behind both paint canvases: a splat appends a
 * burst of particles and evicts the oldest past a cap; each frame every
 * particle loses life, the dead are removed, and the survivors move, take a
 * random velocity kick, are damped and shrink. The two canvases use the same
 * engine with different constants (`Variant`).
 *
 * `Math.random()` draws, `Math.cos`/`Math.sin` and the device pixel ratio
 * are inputs; drawing pixels is not modelled.
 */
module ParticleFluid {
  import opened Wrappers
  import C = Config

  datatype Particle = Particle(
    x: real, y: real, radius: real, color: string,
    life: real, maxLife: real, vx: real, vy: real)

  /** The classic canvas (with or without performance mode) or the studio canvas */
  datatype Variant = Classic(performanceMode: bool) | Studio

  /** Particles per splat, list cap, life range, life lost per frame and radius shrink per frame */
  datatype Tuning = Tuning(burst: nat, cap: nat, lifeBase: real, lifeSpread: real, lifeStep: real, shrink: real)

  function TuningOf(v: Variant): (t: Tuning)
    ensures t.lifeStep > 0.0 && t.burst <= t.cap
  {
    match v
    case Classic(perf) =>
      if perf then Tuning(3, 150, 60.0, 30.0, 1.0, 0.99) else Tuning(5, 300, 80.0, 50.0, 1.0, 0.99)
    case Studio => Tuning(5, 1200, 350.0, 250.0, 0.5, 0.995)
  }

  /** The draws one new particle consumes: its angle (through cosine and sine), its speed and its radius jitter */
  datatype SpawnDraw = SpawnDraw(cosAngle: real, sinAngle: real, speedDraw: real, radiusDraw: real)

  /** The two draws one surviving particle consumes for its velocity kick */
  datatype KickDraw = KickDraw(dx: real, dy: real)

  predicate InUnit(r: real) {
    0.0 <= r < 1.0
  }

  predicate ValidSpawn(d: SpawnDraw) {
    InUnit(d.speedDraw) && InUnit(d.radiusDraw) && d.cosAngle * d.cosAngle + d.sinAngle * d.sinAngle == 1.0
  }

  /** The life every particle of one splat starts with */
  function MaxLife(t: Tuning, draw: real): real {
    t.lifeBase + draw * t.lifeSpread
  }

  /** One new particle at the splat point, scaled to device pixels */
  function Spawn(x: real, y: real, radius: real, color: string, dpr: real, maxLife: real, d: SpawnDraw): Particle {
    var speed := d.speedDraw * 3.0 + 1.0;
    Particle(x * dpr, y * dpr, (radius + (d.radiusDraw - 0.5) * radius * 0.5) * dpr, color,
             maxLife, maxLife, d.cosAngle * speed, d.sinAngle * speed)
  }

  /** The burst one splat appends, one particle per draw, in draw order */
  function Burst(x: real, y: real, radius: real, color: string, dpr: real, maxLife: real, draws: seq<SpawnDraw>): (b: seq<Particle>)
    ensures |b| == |draws|
    ensures forall i :: 0 <= i < |b| ==> b[i] == Spawn(x, y, radius, color, dpr, maxLife, draws[i])
  {
    seq(|draws|, i requires 0 <= i < |draws| => Spawn(x, y, radius, color, dpr, maxLife, draws[i]))
  }

  /** `splice(0, length - cap)` past the cap: the newest `cap` particles */
  function KeepNewest(ps: seq<Particle>, cap: nat): seq<Particle> {
    if |ps| > cap then ps[|ps| - cap..] else ps
  }

  /** A survivor's frame: move by the old velocity, kick, damp by 0.98, shrink, lose life */
  function Advance(p: Particle, t: Tuning, k: KickDraw): Particle {
    p.(x := p.x + p.vx, y := p.y + p.vy,
       vx := (p.vx + (k.dx - 0.5) * 0.4) * 0.98,
       vy := (p.vy + (k.dy - 0.5) * 0.4) * 0.98,
       radius := p.radius * t.shrink,
       life := p.life - t.lifeStep)
  }

  /** Whether a particle is still alive after losing this frame's life */
  predicate Survives(p: Particle, t: Tuning) {
    p.life - t.lifeStep > 0.0
  }

  /** One frame over the list: the dead removed, the survivors advanced, order kept */
  function Survivors(ps: seq<Particle>, ks: seq<KickDraw>, t: Tuning): seq<Particle>
    requires |ks| == |ps|
  {
    if ps == [] then []
    else (if Survives(ps[0], t) then [Advance(ps[0], t, ks[0])] else []) + Survivors(ps[1..], ks[1..], t)
  }

  // ---------------------------------------------------------------------

  /** The closure `WebGLFluid` returns, with the state it captures */
  /** The size of a `<canvas>` element whose width and height were never assigned */
  const UnsizedWidth: int := 300
  const UnsizedHeight: int := 150

  class FluidEngine {
    const variant: Variant
    /** Whether `getContext('2d')` returned a context */
    const hasContext: bool
    var particles: seq<Particle>
    var config: C.Config
    /** `animationFrameId !== null` */
    var frameIdSet: bool
    /** Whether a `draw` callback is actually scheduled */
    var framePending: bool
    /** Whether the window resize listener is attached */
    var listening: bool
    var canvasWidth: int
    var canvasHeight: int
    /** How many times the canvas size was assigned, each of which wipes the bitmap */
    var sizeAssignments: nat

    ghost predicate Valid()
      reads this
    {
      |particles| <= TuningOf(variant).cap && (framePending ==> frameIdSet)
    }

    /**
     * Creation: the resize listener is attached and the list is empty. The
     * classic canvas sizes itself at once; the studio one keeps the size of
     * an unsized canvas element until a later `ResizeCanvas` call.
     */
    constructor (variant: Variant, hasContext: bool, config: C.Config, dpr: real, clientWidth: real, clientHeight: real)
      ensures Valid() && this.variant == variant && this.hasContext == hasContext && this.config == config
      ensures particles == [] && !frameIdSet && !framePending && listening
      ensures variant.Classic? ==>
        canvasWidth == Truncated(clientWidth * dpr) && canvasHeight == Truncated(clientHeight * dpr) && sizeAssignments == 1
      ensures variant.Studio? ==> canvasWidth == UnsizedWidth && canvasHeight == UnsizedHeight && sizeAssignments == 0
    {
      this.variant := variant;
      this.hasContext := hasContext;
      this.config := config;
      particles := [];
      frameIdSet, framePending := false, false;
      listening := true;
      canvasWidth, canvasHeight, sizeAssignments := UnsizedWidth, UnsizedHeight, 0;
      new;
      if variant.Classic? {
        ResizeCanvas(dpr, clientWidth, clientHeight);
      }
    }

    /**
     * `resizeCanvas`. The classic canvas assigns the scaled client size every
     * time; the studio canvas waits for a laid-out element and assigns the
     * floored size only when it differs.
     */
    method ResizeCanvas(dpr: real, clientWidth: real, clientHeight: real)
      modifies this`canvasWidth, this`canvasHeight, this`sizeAssignments
      ensures variant.Classic? ==>
        canvasWidth == Truncated(clientWidth * dpr) && canvasHeight == Truncated(clientHeight * dpr)
        && sizeAssignments == old(sizeAssignments) + 1
      ensures variant.Studio? && (clientWidth == 0.0 || clientHeight == 0.0) ==>
        canvasWidth == old(canvasWidth) && canvasHeight == old(canvasHeight) && sizeAssignments == old(sizeAssignments)
      ensures variant.Studio? && clientWidth != 0.0 && clientHeight != 0.0 ==>
        canvasWidth == (clientWidth * dpr).Floor && canvasHeight == (clientHeight * dpr).Floor
        && sizeAssignments == old(sizeAssignments) +
             (if old(canvasWidth) != (clientWidth * dpr).Floor || old(canvasHeight) != (clientHeight * dpr).Floor then 1 else 0)
    {
      if variant.Classic? {
        canvasWidth := Truncated(clientWidth * dpr);
        canvasHeight := Truncated(clientHeight * dpr);
        sizeAssignments := sizeAssignments + 1;
        return;
      }
      if clientWidth == 0.0 || clientHeight == 0.0 {
        return;
      }
      var desiredW := (clientWidth * dpr).Floor;
      var desiredH := (clientHeight * dpr).Floor;
      if canvasWidth != desiredW || canvasHeight != desiredH {
        canvasWidth := desiredW;
        canvasHeight := desiredH;
        sizeAssignments := sizeAssignments + 1;
      }
    }

    /** `updateConfig`: the whole configuration is replaced */
    method UpdateConfig(newConfig: C.Config)
      modifies this`config
      ensures config == newConfig
    {
      config := newConfig;
    }

    /**
     * `splat`: one life draw for the whole burst, one spawn draw per particle,
     * then the list is cut back to the cap from the front.
     */
    method Splat(x: real, y: real, radius: real, color: string, dpr: real, lifeDraw: real, draws: seq<SpawnDraw>)
      requires Valid() && |draws| == TuningOf(variant).burst
      modifies this`particles
      ensures Valid()
      ensures particles == KeepNewest(old(particles) + Burst(x, y, radius, color, dpr, MaxLife(TuningOf(variant), lifeDraw), draws),
                                      TuningOf(variant).cap)
    {
      var t := TuningOf(variant);
      var maxLife := MaxLife(t, lifeDraw);
      ghost var before := particles;
      var i := 0;
      while i < t.burst
        invariant 0 <= i <= t.burst
        invariant particles == before + Burst(x, y, radius, color, dpr, maxLife, draws[..i])
      {
        assert draws[..i + 1] == draws[..i] + [draws[i]];
        particles := particles + [Spawn(x, y, radius, color, dpr, maxLife, draws[i])];
        i := i + 1;
      }
      assert draws[..i] == draws;
      if |particles| > t.cap {
        particles := particles[|particles| - t.cap..];
      }
    }

    /**
     * `draw`: the reverse loop over the list, culling dead particles and
     * advancing survivors, then the next frame is requested. `kicks[i]` is
     * the pair of draws particle `i` consumes if it survives.
     */
    method Draw(kicks: seq<KickDraw>)
      requires Valid() && |kicks| == |particles|
      modifies this`particles, this`frameIdSet, this`framePending
      ensures Valid() && frameIdSet && framePending
      ensures particles == Survivors(old(particles), kicks, TuningOf(variant))
    {
      var t := TuningOf(variant);
      ghost var ps := particles;
      var i := |particles|;
      while i > 0
        invariant 0 <= i <= |ps|
        invariant particles == ps[..i] + Survivors(ps[i..], kicks[i..], t)
        decreases i
      {
        i := i - 1;
        assert ps[i..][1..] == ps[i + 1..] && kicks[i..][1..] == kicks[i + 1..];
        var p := particles[i];
        if p.life - t.lifeStep <= 0.0 {
          particles := particles[..i] + particles[i + 1..];
        } else {
          particles := particles[..i] + [Advance(p, t, kicks[i])] + particles[i + 1..];
        }
      }
      SurvivorsShorter(ps, kicks, t);
      frameIdSet, framePending := true, true;
    }

    /** `play`: draws a frame only when no frame id is held */
    method Play(kicks: seq<KickDraw>)
      requires Valid() && |kicks| == |particles|
      modifies this`particles, this`frameIdSet, this`framePending
      ensures Valid() && frameIdSet
      ensures old(frameIdSet) ==> particles == old(particles) && framePending == old(framePending)
      ensures !old(frameIdSet) ==> particles == Survivors(old(particles), kicks, TuningOf(variant)) && framePending
    {
      if !frameIdSet {
        Draw(kicks);
      }
    }

    /** `pause`: cancels the pending frame and forgets its id */
    method Pause()
      requires Valid()
      modifies this`frameIdSet, this`framePending
      ensures Valid() && !frameIdSet && !framePending
    {
      if frameIdSet {
        frameIdSet, framePending := false, false;
      }
    }

    /** `clear`: paints black and empties the list, only when there is a 2D context */
    method Clear()
      requires Valid()
      modifies this`particles
      ensures Valid()
      ensures hasContext ==> particles == []
      ensures !hasContext ==> particles == old(particles)
    {
      if hasContext {
        particles := [];
      }
    }

    /**
     * `destroy`: detaches the listener, cancels the pending frame and empties
     * the list, but keeps the frame id, so a later `play` draws nothing.
     */
    method Destroy()
      requires Valid()
      modifies this`listening, this`framePending, this`particles
      ensures Valid() && !listening && !framePending && particles == []
    {
      listening := false;
      framePending := false;
      particles := [];
    }
  }

  /** The radius both paint canvases hand to `splat`: `clientWidth * 0.05 * splatRadius` */
  function SplatRadius(config: C.Config, clientWidth: real): real {
    clientWidth * 0.05 * C.NumOr(config, C.SplatRadius, 0.0)
  }

  /** What assigning a non-negative number to a canvas dimension keeps: the integer part */
  function Truncated(v: real): int {
    if v >= 0.0 then v.Floor else -((-v).Floor)
  }

  // ---------------------------------------------------------------------

  /** A frame never grows the list */
  lemma {:induction false} SurvivorsShorter(ps: seq<Particle>, ks: seq<KickDraw>, t: Tuning)
    requires |ks| == |ps|
    ensures |Survivors(ps, ks, t)| <= |ps|
  {
    if ps != [] {
      SurvivorsShorter(ps[1..], ks[1..], t);
    }
  }

  /** A frame over two lists is the frame over each, in order: survivors keep their relative order */
  lemma {:induction false} SurvivorsConcat(a: seq<Particle>, ka: seq<KickDraw>, b: seq<Particle>, kb: seq<KickDraw>, t: Tuning)
    requires |ka| == |a| && |kb| == |b|
    ensures Survivors(a + b, ka + kb, t) == Survivors(a, ka, t) + Survivors(b, kb, t)
  {
    if a == [] {
      assert a + b == b && ka + kb == kb;
    } else {
      assert (a + b)[1..] == a[1..] + b && (ka + kb)[1..] == ka[1..] + kb;
      SurvivorsConcat(a[1..], ka[1..], b, kb, t);
    }
  }

  /** Every particle left after a frame is alive, and is the frame's advance of an alive particle */
  lemma {:induction false} SurvivorsAlive(ps: seq<Particle>, ks: seq<KickDraw>, t: Tuning)
    requires |ks| == |ps|
    ensures forall q :: q in Survivors(ps, ks, t) ==> q.life > 0.0
    ensures forall q :: q in Survivors(ps, ks, t) ==>
      exists i :: 0 <= i < |ps| && Survives(ps[i], t) && q == Advance(ps[i], t, ks[i])
  {
    if ps != [] {
      SurvivorsAlive(ps[1..], ks[1..], t);
      forall q | q in Survivors(ps, ks, t)
        ensures exists i :: 0 <= i < |ps| && Survives(ps[i], t) && q == Advance(ps[i], t, ks[i])
      {
        if q !in Survivors(ps[1..], ks[1..], t) {
          assert Survives(ps[0], t) && q == Advance(ps[0], t, ks[0]);
        } else {
          var j :| 0 <= j < |ps[1..]| && Survives(ps[1..][j], t) && q == Advance(ps[1..][j], t, ks[1..][j]);
          assert ps[j + 1] == ps[1..][j];
        }
      }
    }
  }

  /** When every particle would reach zero life this frame, the list empties */
  lemma {:induction false} AllExpire(ps: seq<Particle>, ks: seq<KickDraw>, t: Tuning)
    requires |ks| == |ps|
    requires forall i :: 0 <= i < |ps| ==> ps[i].life <= t.lifeStep
    ensures Survivors(ps, ks, t) == []
  {
    if ps != [] {
      AllExpire(ps[1..], ks[1..], t);
    }
  }

  /** When every particle outlives this frame, each one advances in place */
  lemma {:induction false} AllSurvive(ps: seq<Particle>, ks: seq<KickDraw>, t: Tuning)
    requires |ks| == |ps|
    requires forall i :: 0 <= i < |ps| ==> ps[i].life > t.lifeStep
    ensures |Survivors(ps, ks, t)| == |ps|
    ensures forall i :: 0 <= i < |ps| ==> Survivors(ps, ks, t)[i] == Advance(ps[i], t, ks[i])
  {
    if ps != [] {
      AllSurvive(ps[1..], ks[1..], t);
    }
  }

  /** After the cap the list holds at most `cap` particles, the newest ones, in order */
  lemma KeepNewestBounds(ps: seq<Particle>, cap: nat)
    ensures |KeepNewest(ps, cap)| == if |ps| > cap then cap else |ps|
    ensures KeepNewest(ps, cap) == ps[|ps| - |KeepNewest(ps, cap)|..]
    ensures |ps| <= cap ==> KeepNewest(ps, cap) == ps
  {
  }

  /** A splat's whole burst survives the cap (the cap exceeds the burst), at the end of the list */
  lemma SplatKeepsBurst(old_: seq<Particle>, x: real, y: real, radius: real, color: string, dpr: real,
                        lifeDraw: real, draws: seq<SpawnDraw>, v: Variant)
    requires |draws| == TuningOf(v).burst
    ensures
      var t := TuningOf(v);
      var b := Burst(x, y, radius, color, dpr, MaxLife(t, lifeDraw), draws);
      var r := KeepNewest(old_ + b, t.cap);
      |r| >= |b| && r[|r| - |b|..] == b
  {
    var t := TuningOf(v);
    var b := Burst(x, y, radius, color, dpr, MaxLife(t, lifeDraw), draws);
    var all := old_ + b;
    assert all[|all| - |b|..] == b;
  }

  /**
   * The life, radius and speed a new particle starts with: life at its full
   * `maxLife`, which lies in [base, base + spread); radius within a quarter
   * of the requested one (in device pixels); speed in [1, 4) along the angle.
   */
  lemma SpawnRanges(x: real, y: real, radius: real, color: string, dpr: real, lifeDraw: real, d: SpawnDraw, v: Variant)
    requires InUnit(lifeDraw) && ValidSpawn(d) && radius >= 0.0 && dpr > 0.0
    ensures
      var t := TuningOf(v);
      var m := MaxLife(t, lifeDraw);
      var p := Spawn(x, y, radius, color, dpr, m, d);
      && t.lifeBase <= m < t.lifeBase + t.lifeSpread
      && p.life == p.maxLife == m
      && 0.75 * radius * dpr <= p.radius <= 1.25 * radius * dpr
      && var speed := d.speedDraw * 3.0 + 1.0;
         1.0 <= speed < 4.0 && p.vx * p.vx + p.vy * p.vy == speed * speed
  {
    var t := TuningOf(v);
    var speed := d.speedDraw * 3.0 + 1.0;
    var p := Spawn(x, y, radius, color, dpr, MaxLife(t, lifeDraw), d);
    assert lifeDraw * t.lifeSpread < t.lifeSpread;
    var factor := 0.75 + d.radiusDraw * 0.5;
    var r := radius * dpr;
    assert p.radius == factor * r;
    ScaleBetween(factor, r);
    assert 0.75 * radius * dpr == 0.75 * r && 1.25 * radius * dpr == 1.25 * r;
    assert p.vx * p.vx + p.vy * p.vy == (d.cosAngle * d.cosAngle + d.sinAngle * d.sinAngle) * (speed * speed);
  }

  lemma ScaleBetween(f: real, r: real)
    requires 0.75 <= f <= 1.25 && r >= 0.0
    ensures 0.75 * r <= f * r <= 1.25 * r
  {
  }

  /** A kick from two draws in [0, 1) moves each velocity component by less than 0.2 before damping */
  lemma KickBounds(p: Particle, t: Tuning, k: KickDraw)
    requires InUnit(k.dx) && InUnit(k.dy)
    ensures
      var q := Advance(p, t, k);
      && 0.98 * (p.vx - 0.2) <= q.vx < 0.98 * (p.vx + 0.2)
      && 0.98 * (p.vy - 0.2) <= q.vy < 0.98 * (p.vy + 0.2)
  {
  }

  /**
   * A particle that starts at `life` and keeps surviving loses `lifeStep`
   * per frame: after `n` frames it holds `life - n * lifeStep`, and it is
   * gone by the frame where that would drop to zero.
   */
  function AfterFrames(p: Particle, t: Tuning, ks: seq<KickDraw>): (r: Option<Particle>)
    decreases |ks|
  {
    if ks == [] then Some(p)
    else if Survives(p, t) then AfterFrames(Advance(p, t, ks[0]), t, ks[1..])
    else None
  }

  lemma {:induction false} Lifetime(p: Particle, t: Tuning, ks: seq<KickDraw>)
    requires t.lifeStep > 0.0
    ensures AfterFrames(p, t, ks).Some? ==> AfterFrames(p, t, ks).value.life == p.life - |ks| as real * t.lifeStep
    ensures AfterFrames(p, t, ks).Some? <==> (|ks| == 0 || p.life - |ks| as real * t.lifeStep > 0.0)
    decreases |ks|
  {
    if ks != [] {
      var q := Advance(p, t, ks[0]);
      Lifetime(q, t, ks[1..]);
    }
  }
}
