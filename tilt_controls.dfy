/**
 * Device tilt as a control: orientation readings (optionally inverted per
 * axis) are smoothed exponentially, and the smoothed tilt is turned into a
 * gravity angle, a gravity strength and a normalised 2D tilt. `Math.atan2`
 * and `Math.sqrt` are parameters, and so is the outcome of the platform's
 * permission request.
 */
module TiltControls {
  import opened Wrappers
  import Js
  import Easing

  /** Compass heading, front-to-back and left-to-right tilt, in degrees */
  datatype Tilt = Tilt(alpha: real, beta: real, gamma: real)

  datatype Options = Options(enabled: bool, smoothing: real, sensitivity: real, invertX: bool, invertY: bool)

  /** What `DeviceOrientationEvent.requestPermission` does: absent, answers, or rejects */
  datatype PermissionApi = NoPermissionApi | Answer(permission: string) | Rejects

  const DeniedMessage := "Permission denied for device orientation"
  const FailedMessage := "Failed to request device orientation permission"

  /** `smooth(current, target, factor)` */
  function Smooth(current: real, target: real, factor: real): real {
    current * factor + target * (1.0 - factor)
  }

  /** One smoothing step on every axis */
  function SmoothTilt(prev: Tilt, target: Tilt, factor: real): Tilt {
    Tilt(Smooth(prev.alpha, target.alpha, factor), Smooth(prev.beta, target.beta, factor), Smooth(prev.gamma, target.gamma, factor))
  }

  /** A reading as stored: beta negated for `invertY`, gamma for `invertX`, alpha as it came */
  function Oriented(alpha: real, beta: real, gamma: real, options: Options): Tilt {
    Tilt(alpha, if options.invertY then -beta else beta, if options.invertX then -gamma else gamma)
  }

  /** `getGravityAngle`: the direction of (gamma, beta) in degrees, shifted by a turn and reduced by `% 360` */
  function GravityAngle(t: Tilt, atan2: (real, real) -> real): real {
    var angle := atan2(t.gamma, t.beta) * (180.0 / Js.Pi);
    var shifted := angle + 360.0;
    Js.Rem(shifted, 360.0)
  }

  /** `getGravityStrength`: the tilt magnitude over 180, capped at 1, times the sensitivity */
  function GravityStrength(t: Tilt, sqrt: real -> real, sensitivity: real): real {
    Js.Min(Magnitude(t, sqrt) / 180.0, 1.0) * sensitivity
  }

  /** `Math.sqrt(beta * beta + gamma * gamma)` */
  function Magnitude(t: Tilt, sqrt: real -> real): real {
    sqrt(t.beta * t.beta + t.gamma * t.gamma)
  }

  /** `getNormalizedTilt`: each axis over 90, clamped to [-1, 1], times the sensitivity */
  function NormalizedTilt(t: Tilt, sensitivity: real): (real, real) {
    (NormalizedAxis(t.gamma, sensitivity), NormalizedAxis(t.beta, sensitivity))
  }

  function NormalizedAxis(degrees: real, sensitivity: real): real {
    Js.Clamp(degrees / 90.0, -1.0, 1.0) * sensitivity
  }

  /** The hook's state */
  class Controls {
    var options: Options
    var tiltData: Tilt
    var smoothedTilt: Tilt
    var isSupported: bool
    var isPermissionGranted: bool
    var error: Option<string>

    /** Mounting: support is whether the platform has orientation events */
    constructor(options: Options, orientationEvents: bool)
      ensures this.options == options && isSupported == orientationEvents
      ensures tiltData == Tilt(0.0, 0.0, 0.0) && smoothedTilt == Tilt(0.0, 0.0, 0.0)
      ensures !isPermissionGranted && error.None?
    {
      this.options := options;
      tiltData := Tilt(0.0, 0.0, 0.0);
      smoothedTilt := Tilt(0.0, 0.0, 0.0);
      isSupported := orientationEvents;
      isPermissionGranted := false;
      error := None;
    }

    /**
     * `requestPermission`: without `DeviceOrientationEvent` at all, reading
     * its `requestPermission` throws and nothing changes; otherwise granted
     * without a permission API or on `'granted'`, and false with an error
     * on any other answer or a rejection.
     */
    method RequestPermission(orientationEvents: bool, api: PermissionApi) returns (outcome: Outcome, granted: bool)
      modifies this
      ensures !orientationEvents ==> outcome == Thrown && !granted && unchanged(this)
      ensures orientationEvents ==> outcome == Done
      ensures orientationEvents ==> (granted <==> api == NoPermissionApi || api == Answer("granted"))
      ensures granted ==> isPermissionGranted
      ensures !granted ==> isPermissionGranted == old(isPermissionGranted)
      ensures orientationEvents && !granted ==> error.Some?
      ensures api == Answer("granted") && orientationEvents ==> error.None?
      ensures api == NoPermissionApi ==> error == old(error)
      ensures options == old(options) && tiltData == old(tiltData) && smoothedTilt == old(smoothedTilt) && isSupported == old(isSupported)
    {
      if !orientationEvents {
        return Thrown, false;
      }
      outcome := Done;
      match api
      case NoPermissionApi =>
        isPermissionGranted := true;
        granted := true;
      case Answer(permission) =>
        if permission == "granted" {
          isPermissionGranted := true;
          error := None;
          granted := true;
        } else {
          error := Some(DeniedMessage);
          granted := false;
        }
      case Rejects =>
        error := Some(FailedMessage);
        granted := false;
    }

    /** The smoothing effect: one step toward the latest reading, nothing while disabled */
    method SmoothStep()
      modifies this`smoothedTilt
      ensures options.enabled ==> smoothedTilt == SmoothTilt(old(smoothedTilt), tiltData, options.smoothing)
      ensures !options.enabled ==> smoothedTilt == old(smoothedTilt)
      ensures options == old(options) && tiltData == old(tiltData) && isSupported == old(isSupported)
      ensures isPermissionGranted == old(isPermissionGranted) && error == old(error)
    {
      if !options.enabled {
        return;
      }
      smoothedTilt := SmoothTilt(smoothedTilt, tiltData, options.smoothing);
    }

    /**
     * `handleOrientation`, listening only while enabled, supported and
     * permitted: a reading with every angle present is stored (inverted as
     * asked), and the new reading triggers one smoothing step.
     */
    method HandleOrientation(alpha: Option<real>, beta: Option<real>, gamma: Option<real>)
      modifies this
      ensures old(options.enabled && isSupported && isPermissionGranted) && alpha.Some? && beta.Some? && gamma.Some? ==>
        tiltData == Oriented(alpha.value, beta.value, gamma.value, options) && smoothedTilt == SmoothTilt(old(smoothedTilt), tiltData, options.smoothing)
      ensures !(old(options.enabled && isSupported && isPermissionGranted) && alpha.Some? && beta.Some? && gamma.Some?) ==>
        tiltData == old(tiltData) && smoothedTilt == old(smoothedTilt)
      ensures options == old(options) && isSupported == old(isSupported)
      ensures isPermissionGranted == old(isPermissionGranted) && error == old(error)
    {
      if !options.enabled || !isSupported || !isPermissionGranted {
        return;
      }
      if alpha.Some? && beta.Some? && gamma.Some? {
        tiltData := Oriented(alpha.value, beta.value, gamma.value, options);
        SmoothStep();
      }
    }

    /** New options; a change of `enabled` or `smoothing` re-runs the smoothing effect */
    method SetOptions(next: Options)
      modifies this`options, this`smoothedTilt
      ensures options == next && tiltData == old(tiltData)
      ensures isSupported == old(isSupported) && isPermissionGranted == old(isPermissionGranted) && error == old(error)
      ensures (next.enabled != old(options.enabled) || next.smoothing != old(options.smoothing)) && next.enabled ==>
        smoothedTilt == SmoothTilt(old(smoothedTilt), tiltData, next.smoothing)
      ensures !((next.enabled != old(options.enabled) || next.smoothing != old(options.smoothing)) && next.enabled) ==>
        smoothedTilt == old(smoothedTilt)
    {
      var rerun := next.enabled != options.enabled || next.smoothing != options.smoothing;
      options := next;
      if rerun {
        SmoothStep();
      }
    }

    function GetGravityAngle(atan2: (real, real) -> real): real
      reads this
    {
      GravityAngle(smoothedTilt, atan2)
    }

    function GetGravityStrength(sqrt: real -> real): real
      reads this
    {
      GravityStrength(smoothedTilt, sqrt, options.sensitivity)
    }

    function GetNormalizedTilt(): (real, real)
      reads this
    {
      NormalizedTilt(smoothedTilt, options.sensitivity)
    }
  }

  // ---------------------------------------------------------------------

  /** With a factor in [0, 1] each smoothed axis lies between the previous value and the reading; 1 keeps, 0 jumps */
  lemma SmoothingBetween(prev: real, target: real, factor: real)
    requires 0.0 <= factor <= 1.0
    ensures Js.Min(prev, target) <= Smooth(prev, target, factor) <= Js.Max(prev, target)
    ensures Smooth(prev, target, 1.0) == prev && Smooth(prev, target, 0.0) == target
  {
    assert Smooth(prev, target, factor) == Easing.Lerp(target, prev, factor);
    Easing.LerpBetween(target, prev, factor);
  }

  /** For an arc tangent in [-pi, pi] the gravity angle lies in [0, 360) */
  lemma GravityAngleRange(t: Tilt, atan2: (real, real) -> real)
    requires -Js.Pi <= atan2(t.gamma, t.beta) <= Js.Pi
    ensures 0.0 <= GravityAngle(t, atan2) < 360.0
  {
    var a := atan2(t.gamma, t.beta);
    var k := 180.0 / Js.Pi;
    assert k > 0.0;
    Js.MulSign(a + Js.Pi, k);
    assert (a + Js.Pi) * k == a * k + 180.0;
  }

  /** For a non-negative root and sensitivity the strength lies in [0, sensitivity], reaching it from a tilt of 180 on */
  lemma GravityStrengthRange(t: Tilt, sqrt: real -> real, sensitivity: real)
    requires Magnitude(t, sqrt) >= 0.0 && sensitivity >= 0.0
    ensures 0.0 <= GravityStrength(t, sqrt, sensitivity) <= sensitivity
    ensures Magnitude(t, sqrt) >= 180.0 ==> GravityStrength(t, sqrt, sensitivity) == sensitivity
  {
    var n := Js.Min(Magnitude(t, sqrt) / 180.0, 1.0);
    assert 0.0 <= n <= 1.0;
    Easing.ScaleDown(sensitivity, n);
    assert n * sensitivity == sensitivity * n;
  }

  /** Each normalised axis lies in [-sensitivity, sensitivity], and a tilt within 90 degrees maps linearly */
  lemma NormalizedRange(t: Tilt, sensitivity: real)
    requires sensitivity >= 0.0
    ensures -sensitivity <= NormalizedTilt(t, sensitivity).0 <= sensitivity
    ensures -sensitivity <= NormalizedTilt(t, sensitivity).1 <= sensitivity
    ensures -90.0 <= t.gamma <= 90.0 ==> NormalizedTilt(t, sensitivity).0 == t.gamma / 90.0 * sensitivity
    ensures -90.0 <= t.beta <= 90.0 ==> NormalizedTilt(t, sensitivity).1 == t.beta / 90.0 * sensitivity
  {
    AxisRange(t.gamma, sensitivity);
    AxisRange(t.beta, sensitivity);
  }

  lemma AxisRange(degrees: real, sensitivity: real)
    requires sensitivity >= 0.0
    ensures -sensitivity <= NormalizedAxis(degrees, sensitivity) <= sensitivity
    ensures -90.0 <= degrees <= 90.0 ==> NormalizedAxis(degrees, sensitivity) == degrees / 90.0 * sensitivity
  {
    var c := Js.Clamp(degrees / 90.0, -1.0, 1.0);
    Bounded(c, sensitivity);
  }

  lemma Bounded(c: real, s: real)
    requires -1.0 <= c <= 1.0 && s >= 0.0
    ensures -s <= c * s <= s
  {
    if c >= 0.0 {
      Easing.ScaleDown(s, c);
      assert c * s == s * c;
    } else {
      Easing.ScaleDown(s, -c);
      assert c * s == -(s * -c);
    }
  }

  /** Inversion negates only its own axis, and inverting twice restores the reading */
  lemma InversionInvolutive(alpha: real, beta: real, gamma: real, options: Options)
    ensures Oriented(alpha, beta, gamma, options).alpha == alpha
    ensures var t := Oriented(alpha, beta, gamma, options); Oriented(t.alpha, t.beta, t.gamma, options) == Tilt(alpha, beta, gamma)
  {
  }
}
