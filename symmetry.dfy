/**
 * Kaleidoscope symmetry: one normalised input point becomes `count` points
 * spread evenly around an origin, optionally mirrored within each wedge.
 * `Math.sqrt`, `Math.atan2`, `Math.cos` and `Math.sin` are parameters.
 */
module Symmetry {
  import Js
  import C = Config

  datatype Point = Point(x: real, y: real)

  /** `origin` normalised to [0, 1]; `count` is one of 2, 4, 6, 8 or 12 in the source's type */
  datatype Options = Options(origin: Point, count: nat, mirror: bool, rotationDeg: real)

  datatype Trig = Trig(sqrt: real -> real, atan2: (real, real) -> real, cos: real -> real, sin: real -> real)

  /** The angle of one wedge */
  function Wedge(count: nat): (w: real)
    requires count > 0
    ensures w > 0.0 && w * count as real == 2.0 * Js.Pi
  {
    Js.Pi * 2.0 / count as real
  }

  /** `((theta - rotationRad) % wedge + wedge) % wedge`: the angle inside its wedge */
  function RelativeAngle(theta: real, rotationRad: real, wedge: real): (t: real)
    requires wedge > 0.0
    ensures 0.0 <= t < wedge
  {
    Js.Rem(Js.Rem(theta - rotationRad, wedge) + wedge, wedge)
  }

  /** The relative angle, reflected into the first half of the wedge when mirroring */
  function Folded(relative: real, wedge: real, mirror: bool): (t: real)
    requires 0.0 <= relative < wedge
    ensures 0.0 <= t < wedge
    ensures mirror ==> t <= wedge / 2.0
    ensures !mirror || relative <= wedge / 2.0 ==> t == relative
    ensures mirror && relative > wedge / 2.0 ==> t == wedge - relative
  {
    if mirror && relative > wedge / 2.0 then wedge - relative else relative
  }

  /** The input point in polar form about the origin, and its folded angle */
  function Radius(point: Point, origin: Point, trig: Trig): real {
    var dx := point.x - origin.x;
    var dy := point.y - origin.y;
    trig.sqrt(dx * dx + dy * dy)
  }

  function FoldedAngle(point: Point, options: Options, trig: Trig): real
    requires options.count > 0
  {
    var wedge := Wedge(options.count);
    var theta := trig.atan2(point.y - options.origin.y, point.x - options.origin.x);
    Folded(RelativeAngle(theta, RotationRad(options), wedge), wedge, options.mirror)
  }

  function RotationRad(options: Options): real {
    options.rotationDeg * Js.Pi / 180.0
  }

  /** The angle of copy `k` */
  function CopyAngle(point: Point, options: Options, trig: Trig, k: nat): real
    requires options.count > 0
  {
    RotationRad(options) + k as real * Wedge(options.count) + FoldedAngle(point, options, trig)
  }

  /** Copy `k`: at its angle and the input's radius from the origin, clamped into the unit square */
  function Copy(point: Point, options: Options, trig: Trig, k: nat): (p: Point)
    requires options.count > 0
    ensures 0.0 <= p.x <= 1.0 && 0.0 <= p.y <= 1.0
  {
    var r := Radius(point, options.origin, trig);
    var angle := CopyAngle(point, options, trig, k);
    Point(Js.Clamp(options.origin.x + r * trig.cos(angle), 0.0, 1.0), Js.Clamp(options.origin.y + r * trig.sin(angle), 0.0, 1.0))
  }

  /** `getSymmetryPoints(point, options)` */
  function SymmetrySpec(point: Point, options: Options, trig: Trig): seq<Point>
    requires options.count > 0
  {
    seq(options.count, k requires 0 <= k < options.count => Copy(point, options, trig, k))
  }

  /** `getSymmetryPoints`, the loop pushing one copy per wedge */
  method GetSymmetryPoints(point: Point, options: Options, trig: Trig) returns (points: seq<Point>)
    requires options.count > 0
    ensures points == SymmetrySpec(point, options, trig)
  {
    points := [];
    for k := 0 to options.count
      invariant |points| == k
      invariant forall j :: 0 <= j < k ==> points[j] == Copy(point, options, trig, j)
    {
      points := points + [Copy(point, options, trig, k)];
    }
  }

  /** `isSymmetryActive(config)`: enabled exactly, and a count of at least 2 (a missing or zero count is 0) */
  function IsSymmetryActive(config: C.Config): (active: bool)
    ensures active <==> C.IsTrue(config, C.SymmetryEnabled) && C.NumAt(config, C.SymmetryCount).Some? && C.NumAt(config, C.SymmetryCount).value >= 2.0
  {
    C.IsTrue(config, C.SymmetryEnabled) && C.TruthyNumOr(config, C.SymmetryCount, 0.0) >= 2.0
  }

  // ---------------------------------------------------------------------

  /** Exactly `count` copies come out, all inside the unit square */
  lemma CopiesInUnitSquare(point: Point, options: Options, trig: Trig)
    requires options.count > 0
    ensures var ps := SymmetrySpec(point, options, trig);
      |ps| == options.count && forall k :: 0 <= k < |ps| ==> 0.0 <= ps[k].x <= 1.0 && 0.0 <= ps[k].y <= 1.0
  {
  }

  /** Successive copies are one wedge apart, and the wedges make up a full turn */
  lemma EvenlySpaced(point: Point, options: Options, trig: Trig, k: nat)
    requires options.count > 0
    ensures CopyAngle(point, options, trig, k + 1) - CopyAngle(point, options, trig, k) == Wedge(options.count)
    ensures CopyAngle(point, options, trig, 0) + 2.0 * Js.Pi == CopyAngle(point, options, trig, options.count)
  {
  }

  /** The folded angle sits in the first wedge; mirrored, in its first half */
  lemma FoldedInWedge(point: Point, options: Options, trig: Trig)
    requires options.count > 0
    ensures 0.0 <= FoldedAngle(point, options, trig) < Wedge(options.count)
    ensures options.mirror ==> FoldedAngle(point, options, trig) <= Wedge(options.count) / 2.0
  {
  }

  /** A copy whose unclamped position lies in the unit square is at the input's distance from the origin, in the copy's direction */
  lemma CopyUnclamped(point: Point, options: Options, trig: Trig, k: nat)
    requires options.count > 0
    requires var r := Radius(point, options.origin, trig);
      var a := CopyAngle(point, options, trig, k);
      0.0 <= options.origin.x + r * trig.cos(a) <= 1.0 && 0.0 <= options.origin.y + r * trig.sin(a) <= 1.0
    ensures var p := Copy(point, options, trig, k);
      var r := Radius(point, options.origin, trig);
      var a := CopyAngle(point, options, trig, k);
      p.x - options.origin.x == r * trig.cos(a) && p.y - options.origin.y == r * trig.sin(a)
  {
  }
}
