/**
 * The easing curves of the animation helpers. Each curve first clamps its
 * input into [0, 1], so every output lies in [0, 1].
 */
module Easing {
  import opened Wrappers

  /** `Math.max(0, Math.min(1, t))` */
  function Clamp01(t: real): (r: real)
    ensures 0.0 <= r <= 1.0
    ensures 0.0 <= t <= 1.0 ==> r == t
    ensures t < 0.0 ==> r == 0.0
    ensures t > 1.0 ==> r == 1.0
  {
    if 1.0 < t then 1.0 else if t < 0.0 then 0.0 else t
  }

  datatype EasingType = Linear | EaseIn | EaseOut | EaseInOut

  function LinearCurve(t: real): real {
    Clamp01(t)
  }

  function EaseInCurve(t: real): real {
    var c := Clamp01(t);
    c * c
  }

  function EaseOutCurve(t: real): real {
    var c := Clamp01(t);
    1.0 - (1.0 - c) * (1.0 - c)
  }

  function EaseInOutCurve(t: real): real {
    var c := Clamp01(t);
    if c < 0.5 then InHalf(c) else OutHalf(c)
  }

  /** The accelerating first half of ease-in-out */
  function InHalf(c: real): real {
    2.0 * c * c
  }

  /** The decelerating second half of ease-in-out */
  function OutHalf(c: real): real {
    1.0 - (-2.0 * c + 2.0) * (-2.0 * c + 2.0) / 2.0
  }

  /** The curve `getEasing` hands out, applied to `t` */
  function Apply(e: EasingType, t: real): real {
    match e
    case Linear => LinearCurve(t)
    case EaseIn => EaseInCurve(t)
    case EaseOut => EaseOutCurve(t)
    case EaseInOut => EaseInOutCurve(t)
  }

  /** `getEasing(type)`: the curve of that name; the default and any other name give ease-out */
  function GetEasing(name: Option<string>): (e: EasingType)
    ensures name == Some("linear") ==> e == Linear
    ensures name == Some("ease-in") ==> e == EaseIn
    ensures name == Some("ease-in-out") ==> e == EaseInOut
    ensures name.None? || name.value !in {"linear", "ease-in", "ease-in-out"} ==> e == EaseOut
  {
    match name.GetOr("ease-out")
    case "linear" => Linear
    case "ease-in" => EaseIn
    case "ease-out" => EaseOut
    case "ease-in-out" => EaseInOut
    case _ => EaseOut
  }

  /** `lerp(start, end, t)` */
  function Lerp(start: real, end: real, t: real): (r: real)
    ensures t == 0.0 ==> r == start
    ensures t == 1.0 ==> r == end
    ensures start == end ==> r == start
  {
    start + (end - start) * t
  }

  /** For t in [0, 1] the interpolation stays between its ends */
  lemma LerpBetween(start: real, end: real, t: real)
    requires 0.0 <= t <= 1.0
    ensures start <= end ==> start <= Lerp(start, end, t) <= end
    ensures end <= start ==> end <= Lerp(start, end, t) <= start
  {
    var d := end - start;
    assert Lerp(start, end, t) == start + d * t;
    if d >= 0.0 {
      ScaleDown(d, t);
    } else {
      ScaleDown(-d, t);
      assert d * t == -((-d) * t);
    }
  }

  lemma ScaleDown(d: real, t: real)
    requires 0.0 <= d && 0.0 <= t <= 1.0
    ensures 0.0 <= d * t <= d
  {
    assert d * t <= d * 1.0 by {
      assert d * (1.0 - t) >= 0.0;
    }
  }

  lemma UnitSquare(c: real)
    requires 0.0 <= c <= 1.0
    ensures 0.0 <= c * c <= c
  {
  }

  /** Every curve maps into [0, 1] */
  lemma EasingBounds(e: EasingType, t: real)
    ensures 0.0 <= Apply(e, t) <= 1.0
  {
    match e
    case Linear =>
    case EaseIn => EaseInBounds(t);
    case EaseOut => EaseOutBounds(t);
    case EaseInOut => EaseInOutBounds(t);
  }

  lemma EaseInBounds(t: real)
    ensures 0.0 <= EaseInCurve(t) <= 1.0
  {
    var c := Clamp01(t);
    UnitSquare(c);
    assert EaseInCurve(t) == c * c;
  }

  lemma EaseOutBounds(t: real)
    ensures 0.0 <= EaseOutCurve(t) <= 1.0
  {
    var d := 1.0 - Clamp01(t);
    UnitSquare(d);
    assert EaseOutCurve(t) == 1.0 - d * d;
  }

  lemma EaseInOutBounds(t: real)
    ensures 0.0 <= EaseInOutCurve(t) <= 1.0
  {
    var c := Clamp01(t);
    if c < 0.5 {
      LowHalf(c);
      assert EaseInOutCurve(t) == InHalf(c);
    } else {
      HighHalf(c);
      assert EaseInOutCurve(t) == OutHalf(c);
    }
  }

  /** The first half of ease-in-out rises from 0 to 0.5 */
  lemma LowHalf(c: real)
    requires 0.0 <= c <= 0.5
    ensures 0.0 <= InHalf(c) <= 0.5
  {
    MulMonotone(c, 0.5);
    assert InHalf(c) == 2.0 * (c * c);
  }

  /** The second half of ease-in-out rises from 0.5 to 1 */
  lemma HighHalf(c: real)
    requires 0.5 <= c <= 1.0
    ensures 0.5 <= OutHalf(c) <= 1.0
  {
    var d := -2.0 * c + 2.0;
    UnitSquare(d);
    assert OutHalf(c) == 1.0 - d * d / 2.0;
  }

  /** Every curve fixes both ends, and treats inputs outside [0, 1] as the nearer end */
  lemma EasingEnds(e: EasingType, t: real)
    ensures Apply(e, 0.0) == 0.0 && Apply(e, 1.0) == 1.0
    ensures t < 0.0 ==> Apply(e, t) == Apply(e, 0.0)
    ensures t > 1.0 ==> Apply(e, t) == Apply(e, 1.0)
  {
  }

  /** The curves' shapes on [0, 1]; the two halves of ease-in-out meet at 0.5 */
  lemma CurveShapes(t: real)
    requires 0.0 <= t <= 1.0
    ensures EaseInCurve(t) == t * t
    ensures EaseOutCurve(t) == 1.0 - (1.0 - t) * (1.0 - t)
    ensures t < 0.5 ==> EaseInOutCurve(t) == 2.0 * t * t
    ensures t >= 0.5 ==> EaseInOutCurve(t) == 1.0 - (2.0 - 2.0 * t) * (2.0 - 2.0 * t) / 2.0
    ensures EaseInOutCurve(0.5) == 0.5 && 2.0 * 0.5 * 0.5 == 0.5
  {
  }

  /** Each curve is non-decreasing */
  lemma EasingMonotone(e: EasingType, s: real, t: real)
    requires s <= t
    ensures Apply(e, s) <= Apply(e, t)
  {
    match e
    case Linear =>
    case EaseIn => EaseInMonotone(s, t);
    case EaseOut => EaseOutMonotone(s, t);
    case EaseInOut => EaseInOutMonotone(s, t);
  }

  lemma EaseInMonotone(s: real, t: real)
    requires s <= t
    ensures EaseInCurve(s) <= EaseInCurve(t)
  {
    var a, b := Clamp01(s), Clamp01(t);
    MulMonotone(a, b);
    assert EaseInCurve(s) == a * a && EaseInCurve(t) == b * b;
  }

  lemma EaseOutMonotone(s: real, t: real)
    requires s <= t
    ensures EaseOutCurve(s) <= EaseOutCurve(t)
  {
    var a, b := 1.0 - Clamp01(s), 1.0 - Clamp01(t);
    MulMonotone(b, a);
    assert EaseOutCurve(s) == 1.0 - a * a && EaseOutCurve(t) == 1.0 - b * b;
  }

  lemma EaseInOutMonotone(s: real, t: real)
    requires s <= t
    ensures EaseInOutCurve(s) <= EaseInOutCurve(t)
  {
    var a, b := Clamp01(s), Clamp01(t);
    if b < 0.5 {
      MulMonotone(a, b);
      assert InHalf(a) == 2.0 * (a * a) && InHalf(b) == 2.0 * (b * b);
      assert EaseInOutCurve(s) == InHalf(a) && EaseInOutCurve(t) == InHalf(b);
    } else if a >= 0.5 {
      MulMonotone(-2.0 * b + 2.0, -2.0 * a + 2.0);
      assert EaseInOutCurve(s) == OutHalf(a) && EaseInOutCurve(t) == OutHalf(b);
    } else {
      LowHalf(a);
      HighHalf(b);
      assert EaseInOutCurve(s) == InHalf(a) && EaseInOutCurve(t) == OutHalf(b);
    }
  }

  lemma MulMonotone(a: real, b: real)
    requires 0.0 <= a <= b
    ensures a * a <= b * b
  {
    assert a * a <= a * b <= b * b;
  }
}
