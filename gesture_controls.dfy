/**
 * Two-finger gestures on the canvas: twisting two fingers turns the light
 * angle, pinching or spreading them turns the gravity angle. Each event gives
 * the touches still on the screen, in order; `Math.atan2` and `Math.sqrt` are
 * parameters, and `updateConfig` merges into the configuration held here.
 */
module GestureControls {
  import opened Wrappers
  import Js
  import C = Config

  datatype Touch = Touch(id: int, x: real, y: real)

  datatype Trig = Trig(atan2: (real, real) -> real, sqrt: real -> real)

  /** A twist smaller than this, in degrees, is ignored */
  const AngleThreshold: real := 5.0
  /** A pinch smaller than this, in pixels, is ignored */
  const DistanceThreshold: real := 10.0
  const DefaultLightAngle: real := 45.0
  const DefaultGravityAngle: real := 90.0

  /** `getTwoFingerAngle`: the direction from the first finger to the second, in degrees */
  function TwoFingerAngle(t1: Touch, t2: Touch, trig: Trig): real {
    trig.atan2(t2.y - t1.y, t2.x - t1.x) * (180.0 / Js.Pi)
  }

  /** `getTwoFingerDistance` */
  function TwoFingerDistance(t1: Touch, t2: Touch, trig: Trig): real {
    trig.sqrt((t2.x - t1.x) * (t2.x - t1.x) + (t2.y - t1.y) * (t2.y - t1.y))
  }

  /** The light angle after a twist of `delta` degrees: half the twist, kept in [0, 90], rounded */
  function LightAngle(config: C.Config, delta: real): int {
    Js.Round(Js.Clamp(C.NumOr(config, C.LightAngleDeg, DefaultLightAngle) + delta * 0.5, 0.0, 90.0))
  }

  /** The gravity angle after a pinch of `delta` pixels: three tenths of it, reduced by `% 360`, rounded */
  function GravityAngle(config: C.Config, delta: real): int {
    Js.Round(Js.Rem(C.NumOr(config, C.GravityAngleDeg, DefaultGravityAngle) + delta * 0.3, 360.0))
  }

  /** The gesture recogniser's refs and the configuration it updates */
  class Gestures {
    var touches: map<int, Touch>
    var initialAngle: real
    var initialDistance: real
    var active: bool
    var config: C.Config

    constructor(config: C.Config)
      ensures this.config == config && touches == map[] && !active
      ensures initialAngle == 0.0 && initialDistance == 0.0
    {
      this.config := config;
      touches := map[];
      initialAngle := 0.0;
      initialDistance := 0.0;
      active := false;
    }

    /** `touchstart`: exactly two fingers start a gesture and fix the reference angle and distance */
    method TouchStart(current: seq<Touch>, trig: Trig)
      modifies this
      ensures |current| == 2 ==>
        && active
        && touches == old(touches)[current[0].id := current[0]][current[1].id := current[1]]
        && initialAngle == TwoFingerAngle(current[0], current[1], trig)
        && initialDistance == TwoFingerDistance(current[0], current[1], trig)
      ensures |current| != 2 ==>
        && active == old(active) && touches == old(touches)
        && initialAngle == old(initialAngle) && initialDistance == old(initialDistance)
      ensures config == old(config)
    {
      if |current| == 2 {
        var t1, t2 := current[0], current[1];
        touches := touches[t1.id := t1];
        touches := touches[t2.id := t2];
        initialAngle := TwoFingerAngle(t1, t2, trig);
        initialDistance := TwoFingerDistance(t1, t2, trig);
        active := true;
      }
    }

    /**
     * `touchmove` during a two-finger gesture: a twist past 5 degrees sets
     * the light angle and moves the reference angle; a pinch past 10 pixels
     * sets the gravity angle and moves the reference distance.
     */
    method TouchMove(current: seq<Touch>, trig: Trig)
      modifies this
      ensures active == old(active) && touches == old(touches)
      ensures !(|current| == 2 && old(active)) ==>
        && config == old(config)
        && initialAngle == old(initialAngle) && initialDistance == old(initialDistance)
      ensures |current| == 2 && old(active) ==>
        var angle := TwoFingerAngle(current[0], current[1], trig);
        var distance := TwoFingerDistance(current[0], current[1], trig);
        var twist := Js.Abs(angle - old(initialAngle)) > AngleThreshold;
        var pinch := Js.Abs(distance - old(initialDistance)) > DistanceThreshold;
        config == C.Merge(old(config),
            (if twist then map[C.LightAngleDeg := C.Num(LightAngle(old(config), angle - old(initialAngle)) as real)] else map[])
            + (if pinch then map[C.GravityAngleDeg := C.Num(GravityAngle(old(config), distance - old(initialDistance)) as real)] else map[]))
        && initialAngle == (if twist then angle else old(initialAngle))
        && initialDistance == (if pinch then distance else old(initialDistance))
    {
      if |current| != 2 || !active {
        return;
      }
      var t1, t2 := current[0], current[1];
      var currentAngle := TwoFingerAngle(t1, t2, trig);
      var currentDistance := TwoFingerDistance(t1, t2, trig);
      var light: map<C.Key, C.Value> := map[];
      var gravity: map<C.Key, C.Value> := map[];
      var angleDelta := currentAngle - initialAngle;
      if Js.Abs(angleDelta) > AngleThreshold {
        light := map[C.LightAngleDeg := C.Num(LightAngle(config, angleDelta) as real)];
        initialAngle := currentAngle;
      }
      var distanceDelta := currentDistance - initialDistance;
      if Js.Abs(distanceDelta) > DistanceThreshold {
        gravity := map[C.GravityAngleDeg := C.Num(GravityAngle(config, distanceDelta) as real)];
        initialDistance := currentDistance;
      }
      config := C.Merge(config, light + gravity);
    }

    /** `touchend` and `touchcancel`: with fewer than two fingers left the gesture ends */
    method TouchEnd(remaining: nat)
      modifies this
      ensures remaining < 2 ==> touches == map[] && !active
      ensures remaining >= 2 ==> touches == old(touches) && active == old(active)
      ensures config == old(config) && initialAngle == old(initialAngle) && initialDistance == old(initialDistance)
    {
      if remaining < 2 {
        touches := map[];
        active := false;
      }
    }
  }

  // ---------------------------------------------------------------------

  /** The light angle is always a whole number of degrees in [0, 90] */
  lemma LightAngleRange(config: C.Config, delta: real)
    ensures 0 <= LightAngle(config, delta) <= 90
  {
  }

  /** Twisting further never turns the light back: the light angle grows with the twist */
  lemma LightAngleMonotone(config: C.Config, d1: real, d2: real)
    requires d1 <= d2
    ensures LightAngle(config, d1) <= LightAngle(config, d2)
  {
    var base := C.NumOr(config, C.LightAngleDeg, DefaultLightAngle);
    ClampMonotone(base + d1 * 0.5, base + d2 * 0.5, 0.0, 90.0);
    RoundMonotone(Js.Clamp(base + d1 * 0.5, 0.0, 90.0), Js.Clamp(base + d2 * 0.5, 0.0, 90.0));
  }

  lemma ClampMonotone(a: real, b: real, lo: real, hi: real)
    requires a <= b && lo <= hi
    ensures Js.Clamp(a, lo, hi) <= Js.Clamp(b, lo, hi)
  {
  }

  lemma RoundMonotone(a: real, b: real)
    requires a <= b
    ensures Js.Round(a) <= Js.Round(b)
  {
  }

  /** The gravity angle stays within one turn either way, and is non-negative when the pinched angle is */
  lemma GravityAngleRange(config: C.Config, delta: real)
    ensures -360 <= GravityAngle(config, delta) <= 360
    ensures C.NumOr(config, C.GravityAngleDeg, DefaultGravityAngle) + delta * 0.3 >= 0.0 ==> GravityAngle(config, delta) >= 0
  {
  }

  /** Within a turn and with the light inside its range, the new angles follow the gesture exactly (up to rounding) */
  lemma GestureFollowsFingers(config: C.Config, twist: real, pinch: real)
    requires 0.0 <= C.NumOr(config, C.LightAngleDeg, DefaultLightAngle) + twist * 0.5 <= 90.0
    requires 0.0 <= C.NumOr(config, C.GravityAngleDeg, DefaultGravityAngle) + pinch * 0.3 < 360.0
    ensures LightAngle(config, twist) == Js.Round(C.NumOr(config, C.LightAngleDeg, DefaultLightAngle) + twist * 0.5)
    ensures GravityAngle(config, pinch) == Js.Round(C.NumOr(config, C.GravityAngleDeg, DefaultGravityAngle) + pinch * 0.3)
  {
  }
}
