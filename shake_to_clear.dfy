/**
 * Shake to clear: device-motion readings are compared with the previous
 * reading, and a jump on any axis beyond a threshold counts as a shake,
 * at most one per second. The clock reading of each event and the answer
 * to the platform's permission request are parameters.
 */
module ShakeToClear {
  import opened Wrappers
  import Js
  import T = TiltControls

  const DefaultThreshold: real := 15.0
  /** Readings this soon after the last shake are dropped, in milliseconds */
  const ThrottleMs := 100
  /** Shakes closer than this to the previous one do not fire, in milliseconds */
  const CooldownMs := 1000

  /** What the handler remembers between readings */
  datatype Detector = Detector(lastShakeTime: int, lastX: real, lastY: real, lastZ: real)

  const Initial := Detector(0, 0.0, 0.0, 0.0)

  /** Some axis moved by more than the threshold since the last reading */
  predicate Jolt(d: Detector, x: real, y: real, z: real, threshold: real) {
    Js.Abs(x - d.lastX) > threshold || Js.Abs(y - d.lastY) > threshold || Js.Abs(z - d.lastZ) > threshold
  }

  /**
   * `handleMotion` on an acceleration whose axes may be null, at clock
   * reading `now`: the new detector and whether `onShake` was called.
   */
  function Step(d: Detector, x: Option<real>, y: Option<real>, z: Option<real>, now: int, threshold: real): (Detector, bool) {
    if x.None? || y.None? || z.None? then (d, false)
    else if now - d.lastShakeTime < ThrottleMs then (d, false)
    else
      var fire := Jolt(d, x.value, y.value, z.value, threshold) && now - d.lastShakeTime > CooldownMs;
      (Detector(if fire then now else d.lastShakeTime, x.value, y.value, z.value), fire)
  }

  /** Whether the motion listener gets attached: events exist and, where permission is asked, it is granted */
  predicate Listens(motionEvents: bool, permission: T.PermissionApi) {
    motionEvents && (permission == T.NoPermissionApi || permission == T.Answer("granted"))
  }

  /** The component: its detector, the "Canvas Cleared!" indicator and the shakes reported so far */
  class ShakeListener {
    const threshold: real
    const listening: bool
    var detector: Detector
    var isShaking: bool
    var shakes: nat

    /** Mounting, with the threshold prop (default 15) */
    constructor(threshold: Option<real>, motionEvents: bool, permission: T.PermissionApi)
      ensures this.threshold == threshold.GetOr(DefaultThreshold)
      ensures listening == Listens(motionEvents, permission)
      ensures detector == Initial && !isShaking && shakes == 0
    {
      this.threshold := threshold.GetOr(DefaultThreshold);
      listening := Listens(motionEvents, permission);
      detector := Initial;
      isShaking := false;
      shakes := 0;
    }

    /** A `devicemotion` event; `fired` says whether `onShake` was called */
    method HandleMotion(x: Option<real>, y: Option<real>, z: Option<real>, now: int) returns (fired: bool)
      modifies this
      ensures listening ==> (detector, fired) == Step(old(detector), x, y, z, now, threshold)
      ensures !listening ==> !fired && detector == old(detector)
      ensures fired ==> isShaking && shakes == old(shakes) + 1
      ensures !fired ==> isShaking == old(isShaking) && shakes == old(shakes)
    {
      fired := false;
      if !listening || x.None? || y.None? || z.None? {
        return;
      }
      var current := now;
      if current - detector.lastShakeTime < ThrottleMs {
        return;
      }
      var dx := Js.Abs(x.value - detector.lastX);
      var dy := Js.Abs(y.value - detector.lastY);
      var dz := Js.Abs(z.value - detector.lastZ);
      var last := detector.lastShakeTime;
      if dx > threshold || dy > threshold || dz > threshold {
        if current - last > CooldownMs {
          isShaking := true;
          shakes := shakes + 1;
          fired := true;
          last := current;
        }
      }
      detector := Detector(last, x.value, y.value, z.value);
    }

    /** The 500 ms timer that hides the indicator */
    method IndicatorTimeout()
      modifies this
      ensures !isShaking && detector == old(detector) && shakes == old(shakes)
    {
      isShaking := false;
    }
  }

  // ---------------------------------------------------------------------

  /** A shake fires only on a complete reading that jumps past the threshold more than a second after the last shake */
  lemma FiresExactly(d: Detector, x: Option<real>, y: Option<real>, z: Option<real>, now: int, threshold: real)
    ensures Step(d, x, y, z, now, threshold).1 <==>
      x.Some? && y.Some? && z.Some? && Jolt(d, x.value, y.value, z.value, threshold) && now - d.lastShakeTime > CooldownMs
    ensures Step(d, x, y, z, now, threshold).1 ==> Step(d, x, y, z, now, threshold).0.lastShakeTime == now
  {
  }

  /** Two shakes are more than a second apart, whatever readings come between */
  lemma Cooldown(d: Detector, x: Option<real>, y: Option<real>, z: Option<real>, t1: int, x2: Option<real>, y2: Option<real>, z2: Option<real>, t2: int, threshold: real)
    requires Step(d, x, y, z, t1, threshold).1
    ensures Step(Step(d, x, y, z, t1, threshold).0, x2, y2, z2, t2, threshold).1 ==> t2 - t1 > CooldownMs
  {
  }

  /** A null axis, or a reading within 100 ms of the last shake, changes nothing: not even the baseline */
  lemma IgnoredReadings(d: Detector, x: Option<real>, y: Option<real>, z: Option<real>, now: int, threshold: real)
    requires x.None? || y.None? || z.None? || now - d.lastShakeTime < ThrottleMs
    ensures Step(d, x, y, z, now, threshold) == (d, false)
  {
  }

  /** Every other reading becomes the baseline for the next, shake or not */
  lemma Baseline(d: Detector, x: real, y: real, z: real, now: int, threshold: real)
    requires now - d.lastShakeTime >= ThrottleMs
    ensures var d' := Step(d, Some(x), Some(y), Some(z), now, threshold).0;
      d'.lastX == x && d'.lastY == y && d'.lastZ == z
    ensures !Step(d, Some(x), Some(y), Some(z), now, threshold).1 ==>
      Step(d, Some(x), Some(y), Some(z), now, threshold).0.lastShakeTime == d.lastShakeTime
  {
  }

  /** A device held still never shakes: repeating the baseline reading does not fire for a non-negative threshold */
  lemma StillDevice(d: Detector, now: int, threshold: real)
    requires threshold >= 0.0
    ensures !Step(d, Some(d.lastX), Some(d.lastY), Some(d.lastZ), now, threshold).1
  {
  }
}
