/**
 * The brush patterns: the splat points one input sample turns into. The
 * pattern name and spacing come from the configuration; `Math.cos`,
 * `Math.sin`, `Math.atan2` and `Math.random` are parameters (the random draws
 * a sequence of values in [0, 1)).
 */
module BrushPatterns {
  import opened Wrappers
  import C = Config
  import Js

  datatype SplatPoint = SplatPoint(x: real, y: real, radius: real)

  /** How many dots a polka-dot cluster has, and how many stripes a stripe brush draws */
  const DotCount: nat := 5
  const StripeCount: nat := 3

  /** The trigonometric functions the patterns use */
  datatype Trig = Trig(cos: real -> real, sin: real -> real, atan2: (real, real) -> real)

  predicate Draws(rand: seq<real>) {
    forall i :: 0 <= i < |rand| ==> 0.0 <= rand[i] < 1.0
  }

  /** `config.brushPattern || 'single'` */
  function PatternName(config: C.Config): (name: string)
    ensures name != ""
    ensures C.StrAt(config, C.BrushPattern).Some? && C.StrAt(config, C.BrushPattern).value != "" ==>
      name == C.StrAt(config, C.BrushPattern).value
  {
    match C.StrAt(config, C.BrushPattern)
    case Some(s) => if s == "" then "single" else s
    case None => "single"
  }

  /** `config.brushSpacing ?? 0.5` */
  function Spacing(config: C.Config): real {
    C.NumOr(config, C.BrushSpacing, 0.5)
  }

  /** `config.brushText || 'Hello'` */
  function BrushText(config: C.Config): (text: string)
    ensures |text| > 0
  {
    match C.StrAt(config, C.BrushText)
    case Some(s) => if s == "" then "Hello" else s
    case None => "Hello"
  }

  // ---------------------------------------------------------------------
  // One point of each looping pattern

  /** Dot `i` of a polka-dot cluster: at angle i/5 of a turn, its distance and radius from two draws */
  function Dot(x: real, y: real, baseRadius: real, spacing: real, trig: Trig, distanceDraw: real, radiusDraw: real, i: nat): SplatPoint {
    var spread := baseRadius * (1.0 + spacing) * 3.0;
    var angle := (i as real / DotCount as real) * Js.Pi * 2.0;
    var distance := spread * (0.5 + distanceDraw * 0.5);
    SplatPoint(x + trig.cos(angle) * distance, y + trig.sin(angle) * distance, baseRadius * (0.4 + radiusDraw * 0.3))
  }

  /** The stripe direction: perpendicular to the movement since the last sample, 0 without one */
  function StripeAngle(x: real, y: real, lastPos: Option<(real, real)>, trig: Trig): (angle: real)
    ensures lastPos.None? ==> angle == 0.0
  {
    match lastPos
    case Some((lx, ly)) => trig.atan2(y - ly, x - lx) + Js.Pi / 2.0
    case None => 0.0
  }

  /** Stripe `i` (from -1 to 1) across the stroke */
  function Stripe(x: real, y: real, baseRadius: real, spacing: real, angle: real, trig: Trig, i: int): SplatPoint {
    var stripeSpacing := baseRadius * (2.0 + spacing * 3.0);
    SplatPoint(x + trig.cos(angle) * i as real * stripeSpacing, y + trig.sin(angle) * i as real * stripeSpacing, baseRadius * 0.6)
  }

  /** The point for character `i` of the brush text */
  function Glyph(x: real, y: real, baseRadius: real, length: nat, i: nat): SplatPoint {
    SplatPoint(x + (i as real - length as real / 2.0) * (baseRadius * 2.0), y, baseRadius * 0.5)
  }

  // ---------------------------------------------------------------------
  // The whole pattern, as a value

  function Polkadots(x: real, y: real, baseRadius: real, spacing: real, trig: Trig, rand: seq<real>): seq<SplatPoint>
    requires |rand| >= 2 * DotCount
  {
    seq(DotCount, i requires 0 <= i < DotCount => Dot(x, y, baseRadius, spacing, trig, rand[2 * i], rand[2 * i + 1], i))
  }

  function Stripes(x: real, y: real, baseRadius: real, spacing: real, angle: real, trig: Trig): seq<SplatPoint> {
    seq(StripeCount, k => Stripe(x, y, baseRadius, spacing, angle, trig, k - StripeCount / 2))
  }

  function Glyphs(x: real, y: real, baseRadius: real, length: nat): seq<SplatPoint> {
    seq(length, i requires 0 <= i < length => Glyph(x, y, baseRadius, length, i))
  }

  /** `generateBrushPattern(x, y, baseRadius, config, canvasWidth, lastPos)` */
  function PatternSpec(x: real, y: real, baseRadius: real, config: C.Config, lastPos: Option<(real, real)>, trig: Trig, rand: seq<real>): seq<SplatPoint>
    requires |rand| >= 2 * DotCount
  {
    var spacing := Spacing(config);
    match PatternName(config)
    case "single" => [SplatPoint(x, y, baseRadius)]
    case "polkadots" => Polkadots(x, y, baseRadius, spacing, trig, rand)
    case "stripes" => Stripes(x, y, baseRadius, spacing, StripeAngle(x, y, lastPos, trig), trig)
    case "line" => [SplatPoint(x, y, baseRadius * 0.2)]
    case "text" => Glyphs(x, y, baseRadius, Js.Utf16Length(BrushText(config)))
    case "stamp" => [SplatPoint(x, y, baseRadius * 2.0)]
    case _ => [SplatPoint(x, y, baseRadius)]
  }

  // ---------------------------------------------------------------------
  // The loops

  method GeneratePolkadots(x: real, y: real, baseRadius: real, spacing: real, trig: Trig, rand: seq<real>) returns (points: seq<SplatPoint>)
    requires |rand| >= 2 * DotCount
    ensures points == Polkadots(x, y, baseRadius, spacing, trig, rand)
  {
    points := [];
    for i := 0 to DotCount
      invariant |points| == i
      invariant forall j :: 0 <= j < i ==> points[j] == Dot(x, y, baseRadius, spacing, trig, rand[2 * j], rand[2 * j + 1], j)
    {
      points := points + [Dot(x, y, baseRadius, spacing, trig, rand[2 * i], rand[2 * i + 1], i)];
    }
  }

  method GenerateStripes(x: real, y: real, baseRadius: real, spacing: real, angle: real, trig: Trig) returns (points: seq<SplatPoint>)
    ensures points == Stripes(x, y, baseRadius, spacing, angle, trig)
  {
    points := [];
    var half := StripeCount / 2;
    var i: int := -half;
    while i <= half
      invariant -half <= i <= half + 1
      invariant |points| == i + half
      invariant forall j :: 0 <= j < |points| ==> points[j] == Stripe(x, y, baseRadius, spacing, angle, trig, j - half)
    {
      points := points + [Stripe(x, y, baseRadius, spacing, angle, trig, i)];
      i := i + 1;
    }
  }

  /** The `'text'` loop: one point per UTF-16 code unit of the text */
  method GenerateGlyphs(x: real, y: real, baseRadius: real, text: string) returns (points: seq<SplatPoint>)
    ensures points == Glyphs(x, y, baseRadius, Js.Utf16Length(text))
  {
    points := [];
    var length := Js.Utf16Length(text);
    for i := 0 to length
      invariant |points| == i
      invariant forall j :: 0 <= j < i ==> points[j] == Glyph(x, y, baseRadius, length, j)
    {
      points := points + [Glyph(x, y, baseRadius, length, i)];
    }
  }

  /** `generateBrushPattern`; `canvasWidth` is not read by any branch and is not a parameter here */
  method GenerateBrushPattern(x: real, y: real, baseRadius: real, config: C.Config, lastPos: Option<(real, real)>, trig: Trig, rand: seq<real>)
    returns (points: seq<SplatPoint>)
    requires |rand| >= 2 * DotCount
    ensures points == PatternSpec(x, y, baseRadius, config, lastPos, trig, rand)
  {
    var spacing := Spacing(config);
    match PatternName(config)
    case "single" =>
      points := [SplatPoint(x, y, baseRadius)];
    case "polkadots" =>
      points := GeneratePolkadots(x, y, baseRadius, spacing, trig, rand);
    case "stripes" =>
      var angle := StripeAngle(x, y, lastPos, trig);
      points := GenerateStripes(x, y, baseRadius, spacing, angle, trig);
    case "line" =>
      points := [SplatPoint(x, y, baseRadius * 0.2)];
    case "text" =>
      points := GenerateGlyphs(x, y, baseRadius, BrushText(config));
    case "stamp" =>
      points := [SplatPoint(x, y, baseRadius * 2.0)];
    case _ =>
      points := [SplatPoint(x, y, baseRadius)];
  }

  // ---------------------------------------------------------------------
  // Properties

  /** A missing or unknown pattern, and `single`, give exactly the sample itself */
  lemma SingleByDefault(x: real, y: real, baseRadius: real, config: C.Config, lastPos: Option<(real, real)>, trig: Trig, rand: seq<real>)
    requires |rand| >= 2 * DotCount
    requires PatternName(config) !in {"polkadots", "stripes", "line", "text", "stamp"}
    ensures PatternSpec(x, y, baseRadius, config, lastPos, trig, rand) == [SplatPoint(x, y, baseRadius)]
  {
  }

  /** Every pattern yields at least one point */
  lemma NeverEmpty(x: real, y: real, baseRadius: real, config: C.Config, lastPos: Option<(real, real)>, trig: Trig, rand: seq<real>)
    requires |rand| >= 2 * DotCount
    ensures |PatternSpec(x, y, baseRadius, config, lastPos, trig, rand)| >= 1
  {
  }

  /** `line` and `stamp` are one point at the sample, a fifth and twice the radius */
  lemma LineAndStamp(x: real, y: real, baseRadius: real, config: C.Config, lastPos: Option<(real, real)>, trig: Trig, rand: seq<real>)
    requires |rand| >= 2 * DotCount
    ensures PatternName(config) == "line" ==> PatternSpec(x, y, baseRadius, config, lastPos, trig, rand) == [SplatPoint(x, y, baseRadius * 0.2)]
    ensures PatternName(config) == "stamp" ==> PatternSpec(x, y, baseRadius, config, lastPos, trig, rand) == [SplatPoint(x, y, baseRadius * 2.0)]
  {
  }

  /** A polka-dot cluster has five dots, each of radius in [0.4, 0.7) times the base */
  lemma PolkadotRadii(x: real, y: real, baseRadius: real, spacing: real, trig: Trig, rand: seq<real>)
    requires |rand| >= 2 * DotCount && Draws(rand) && baseRadius > 0.0
    ensures var dots := Polkadots(x, y, baseRadius, spacing, trig, rand);
      |dots| == 5 && forall i :: 0 <= i < 5 ==> 0.4 * baseRadius <= dots[i].radius < 0.7 * baseRadius
  {
    var dots := Polkadots(x, y, baseRadius, spacing, trig, rand);
    forall i | 0 <= i < 5
      ensures 0.4 * baseRadius <= dots[i].radius < 0.7 * baseRadius
    {
      var d := rand[2 * i + 1];
      assert dots[i].radius == baseRadius * (0.4 + d * 0.3);
      assert baseRadius * d < baseRadius by {
        assert baseRadius * (1.0 - d) > 0.0;
      }
      assert baseRadius * d >= 0.0;
    }
  }

  /** Three stripes of radius 0.6 times the base, the middle one on the sample itself */
  lemma StripesShape(x: real, y: real, baseRadius: real, spacing: real, angle: real, trig: Trig)
    ensures var s := Stripes(x, y, baseRadius, spacing, angle, trig);
      |s| == 3 && s[1] == SplatPoint(x, y, baseRadius * 0.6) && forall k :: 0 <= k < 3 ==> s[k].radius == baseRadius * 0.6
  {
    var s := Stripes(x, y, baseRadius, spacing, angle, trig);
    assert s[1] == Stripe(x, y, baseRadius, spacing, angle, trig, 0);
    var gap := baseRadius * (2.0 + spacing * 3.0);
    assert trig.cos(angle) * 0 as real * gap == 0.0;
    assert trig.sin(angle) * 0 as real * gap == 0.0;
    forall k | 0 <= k < 3
      ensures s[k].radius == baseRadius * 0.6
    {
      assert s[k] == Stripe(x, y, baseRadius, spacing, angle, trig, k - 1);
    }
  }

  /** With no previous sample, and cos 0 = 1 and sin 0 = 0, the stripes lie along the x axis one stripe spacing apart */
  lemma StripesWithoutLastPos(x: real, y: real, baseRadius: real, config: C.Config, trig: Trig, rand: seq<real>)
    requires |rand| >= 2 * DotCount
    requires PatternName(config) == "stripes" && trig.cos(0.0) == 1.0 && trig.sin(0.0) == 0.0
    ensures var s := PatternSpec(x, y, baseRadius, config, None, trig, rand);
      var gap := baseRadius * (2.0 + Spacing(config) * 3.0);
      |s| == 3 && forall k :: 0 <= k < 3 ==> s[k].y == y && s[k].x == x + (k - 1) as real * gap
  {
    var s := PatternSpec(x, y, baseRadius, config, None, trig, rand);
    assert s == Stripes(x, y, baseRadius, Spacing(config), 0.0, trig);
    forall k | 0 <= k < 3
      ensures s[k].y == y && s[k].x == x + (k - 1) as real * baseRadius * (2.0 + Spacing(config) * 3.0)
    {
      assert s[k] == Stripe(x, y, baseRadius, Spacing(config), 0.0, trig, k - 1);
    }
  }

  /** One point per UTF-16 code unit of the brush text, on the sample's row, two base radii apart, centred on the sample */
  lemma TextShape(x: real, y: real, baseRadius: real, config: C.Config, lastPos: Option<(real, real)>, trig: Trig, rand: seq<real>)
    requires |rand| >= 2 * DotCount
    requires PatternName(config) == "text"
    ensures var s := PatternSpec(x, y, baseRadius, config, lastPos, trig, rand);
      |s| == Js.Utf16Length(BrushText(config)) >= 1
      && (forall i :: 0 <= i < |s| ==> s[i].y == y && s[i].radius == baseRadius * 0.5)
      && (forall i :: 0 < i < |s| ==> s[i].x - s[i - 1].x == 2.0 * baseRadius)
      && s[0].x == x - (|s| as real / 2.0) * (2.0 * baseRadius)
  {
    var s := PatternSpec(x, y, baseRadius, config, lastPos, trig, rand);
    var n := Js.Utf16Length(BrushText(config));
    forall i | 0 < i < |s|
      ensures s[i].x - s[i - 1].x == 2.0 * baseRadius
    {
      var a := i as real - n as real / 2.0;
      assert s[i].x == x + a * (baseRadius * 2.0);
      assert s[i - 1].x == x + (a - 1.0) * (baseRadius * 2.0);
    }
  }

  /** An empty brush text is drawn as "Hello" */
  lemma EmptyTextIsHello(config: C.Config)
    requires C.StrAt(config, C.BrushText) == Some("") || C.StrAt(config, C.BrushText).None?
    ensures |Glyphs(0.0, 0.0, 1.0, Js.Utf16Length(BrushText(config)))| == 5
  {
    Js.Utf16LengthBmp(BrushText(config));
  }
}
