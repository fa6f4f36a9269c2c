/**
 * Conversions between `#rrggbb` colours and hue/saturation/lightness (the
 * HSL model of section 7 of CSS Color Module Level 4), hue rotation, and the
 * age-driven hue shift of the particle colours.
 */
module ColorUtils {
  import opened Wrappers
  import Js
  import Hex
  import Easing

  /** Hue in degrees, saturation and lightness in percent */
  datatype Hsl = Hsl(h: real, s: real, l: real)

  /** `hex.replace(/^#/, '')`: one leading `#` is dropped */
  function StripHash(hex: string): string {
    if |hex| > 0 && hex[0] == '#' then hex[1..] else hex
  }

  /** `parseInt(hex.substring(i, i + 2), 16) / 255`; None is NaN */
  function Channel(hex: string, i: nat): (c: Option<real>)
    ensures c.Some? ==> InUnit(c.value)
  {
    var piece := Js.Slice(hex, i, i + 2);
    match Hex.ParseInt16(piece)
    case Some(v) =>
      Hex.ShortParse(piece);
      Some(v as real / 255.0)
    case None => None
  }

  predicate InUnit(x: real) {
    0.0 <= x <= 1.0
  }

  function Max3(a: real, b: real, c: real): (m: real)
    ensures m == a || m == b || m == c
    ensures a <= m && b <= m && c <= m
  {
    Js.Max(Js.Max(a, b), c)
  }

  function Min3(a: real, b: real, c: real): (m: real)
    ensures m == a || m == b || m == c
    ensures m <= a && m <= b && m <= c
  {
    Js.Min(Js.Min(a, b), c)
  }

  /** The saturation for distinct extremes */
  function Saturation(max: real, min: real): real
    requires 0.0 <= min < max <= 1.0
  {
    var l := (max + min) / 2.0;
    if l > 0.5 then (max - min) / (2.0 - max - min) else (max - min) / (max + min)
  }

  /** The hue as a fraction of a turn, for distinct extremes; the first channel equal to the maximum decides */
  function HueTurn(r: real, g: real, b: real): real
    requires Max3(r, g, b) != Min3(r, g, b)
  {
    var max := Max3(r, g, b);
    var delta := max - Min3(r, g, b);
    if max == r then ((g - b) / delta + (if g < b then 6.0 else 0.0)) / 6.0
    else if max == g then ((b - r) / delta + 2.0) / 6.0
    else ((r - g) / delta + 4.0) / 6.0
  }

  /** The HSL of three channels in [0, 1] */
  function HslOf(r: real, g: real, b: real): Hsl
    requires InUnit(r) && InUnit(g) && InUnit(b)
  {
    var max, min := Max3(r, g, b), Min3(r, g, b);
    var l := (max + min) / 2.0;
    if max - min != 0.0 then Hsl(HueTurn(r, g, b) * 360.0, Saturation(max, min) * 100.0, l * 100.0)
    else Hsl(0.0, 0.0, l * 100.0)
  }

  /** `hexToHSL`: None when a channel does not parse (JavaScript then yields NaN saturation and lightness) */
  function HexToHsl(hex: string): Option<Hsl> {
    var body := StripHash(hex);
    match (Channel(body, 0), Channel(body, 2), Channel(body, 4))
    case (Some(r), Some(g), Some(b)) => Some(HslOf(r, g, b))
    case _ => None
  }

  /** `toHex` inside `hslToHex`: the rounded byte in hex, a single digit padded with `0` */
  function ToHex(x: real): string {
    var digits := Hex.IntToString16(Js.Round(x * 255.0));
    if |digits| == 1 then "0" + digits else digits
  }

  /** `hue2rgb(p, q, t)` */
  function HueToChannel(p: real, q: real, t0: real): real {
    RampAt(p, q, WrapHue(t0))
  }

  /** The hue fraction moved once into range: one added below 0, one taken off above 1 */
  function WrapHue(t0: real): real {
    var t1 := if t0 < 0.0 then t0 + 1.0 else t0;
    if t1 > 1.0 then t1 - 1.0 else t1
  }

  /** The channel at a wrapped hue fraction: up, flat at q, down, flat at p */
  function RampAt(p: real, q: real, t: real): real {
    if t < 1.0 / 6.0 then p + (q - p) * 6.0 * t
    else if t < 1.0 / 2.0 then q
    else if t < 2.0 / 3.0 then p + (q - p) * (2.0 / 3.0 - t) * 6.0
    else p
  }

  /** The two levels the channels are drawn between, from lightness and saturation as fractions */
  function Levels(s: real, l: real): (real, real) {
    var q := if l < 0.5 then l * (1.0 + s) else l + s - l * s;
    (2.0 * l - q, q)
  }

  /** The red, green and blue fractions of hue, saturation and lightness given as fractions */
  function Rgb(h: real, s: real, l: real): (real, real, real) {
    if s == 0.0 then (l, l, l)
    else
      var (p, q) := Levels(s, l);
      (HueToChannel(p, q, h + 1.0 / 3.0), HueToChannel(p, q, h), HueToChannel(p, q, h - 1.0 / 3.0))
  }

  /** `hslToHex(h, s, l)` */
  function HslToHex(h: real, s: real, l: real): string {
    var (r, g, b) := Rgb(h / 360.0, s / 100.0, l / 100.0);
    "#" + ToHex(r) + ToHex(g) + ToHex(b)
  }

  /** A hue brought into [0, 360): the remainder keeps the sign of its input, so a negative one gets a turn added */
  function NormalizeHue(h: real): (r: real)
    ensures 0.0 <= r < 360.0
    ensures 0.0 <= h < 360.0 ==> r == h
  {
    var m := Js.Rem(h, 360.0);
    if m < 0.0 then m + 360.0 else m
  }

  /** `rotateHue(hex, rotation)`; a colour that does not parse comes out as NaN channels */
  function RotateHue(hex: string, rotation: real): string {
    match HexToHsl(hex)
    case Some(c) => HslToHex(NormalizeHue(c.h + rotation), c.s, c.l)
    case None => "#NaNNaNNaN"
  }

  /** `getHueShiftedColor`: no shift returns the colour untouched, otherwise the hue turns by age times shift */
  function HueShiftedColor(baseColor: string, ageRatio: real, shiftAmount: real): string {
    if shiftAmount == 0.0 then baseColor else RotateHue(baseColor, ageRatio * shiftAmount * 360.0)
  }

  // ---------------------------------------------------------------------

  /** `x / d` for `d > 0` and `|x| <= d` lies in [-1, 1] and has the sign of x */
  lemma DivUnit(x: real, d: real)
    requires d > 0.0 && -d <= x <= d
    ensures -1.0 <= x / d <= 1.0
    ensures x < 0.0 ==> x / d < 0.0
    ensures x >= 0.0 ==> x / d >= 0.0
  {
    var q := x / d;
    assert q * d == x;
    Js.MulSign(q - 1.0, d);
    Js.MulSign(q + 1.0, d);
    Js.MulSign(q, d);
  }

  lemma SaturationUnit(max: real, min: real)
    requires 0.0 <= min < max <= 1.0
    ensures 0.0 <= Saturation(max, min) <= 1.0
  {
    if (max + min) / 2.0 > 0.5 {
      DivUnit(max - min, 2.0 - max - min);
    } else {
      DivUnit(max - min, max + min);
    }
  }

  lemma HueUnit(r: real, g: real, b: real)
    requires Max3(r, g, b) != Min3(r, g, b)
    ensures 0.0 <= HueTurn(r, g, b) < 1.0
  {
    var max := Max3(r, g, b);
    var delta := max - Min3(r, g, b);
    if max == r {
      DivUnit(g - b, delta);
    } else if max == g {
      DivUnit(b - r, delta);
    } else {
      DivUnit(r - g, delta);
    }
  }

  /** For channels in [0, 1], hue lies in [0, 360) and saturation and lightness in [0, 100] */
  lemma HslRanges(r: real, g: real, b: real)
    requires InUnit(r) && InUnit(g) && InUnit(b)
    ensures var c := HslOf(r, g, b);
      0.0 <= c.h < 360.0 && 0.0 <= c.s <= 100.0 && 0.0 <= c.l <= 100.0
  {
    var max, min := Max3(r, g, b), Min3(r, g, b);
    if max - min != 0.0 {
      HueUnit(r, g, b);
      SaturationUnit(max, min);
    }
  }

  /** Grey (equal channels) has no hue and no saturation, and its lightness is the channel's */
  lemma GreyHsl(x: real)
    requires InUnit(x)
    ensures HslOf(x, x, x) == Hsl(0.0, 0.0, x * 100.0)
  {
  }

  /** A `#` in front changes nothing */
  lemma HashOptional(body: string)
    requires |body| == 0 || body[0] != '#'
    ensures HexToHsl("#" + body) == HexToHsl(body)
  {
    assert StripHash("#" + body) == body;
  }

  /** Six hex digits, with or without `#`, always convert */
  lemma SixDigitsConvert(hex: string)
    requires |StripHash(hex)| == 6 && Hex.AllHex(StripHash(hex))
    ensures HexToHsl(hex).Some?
    ensures var c := HexToHsl(hex).value;
      0.0 <= c.h < 360.0 && 0.0 <= c.s <= 100.0 && 0.0 <= c.l <= 100.0
  {
    var d := StripHash(hex);
    PairParses(d, 0);
    PairParses(d, 2);
    PairParses(d, 4);
    var r, g, b := Channel(d, 0).value, Channel(d, 2).value, Channel(d, 4).value;
    HslRanges(r, g, b);
  }

  lemma PairParses(d: string, i: nat)
    requires |d| == 6 && Hex.AllHex(d) && i <= 4
    ensures Channel(d, i).Some?
  {
    var piece := d[i..i + 2];
    assert Hex.IsHexDigit(d[i]) && Hex.IsHexDigit(d[i + 1]);
    assert piece == [d[i], d[i + 1]];
    Hex.ParseTwoDigits(piece);
  }

  /** Between the two levels: for p, q in [0, 1] and a hue fraction in (-1, 2), each channel is in [0, 1] */
  lemma ChannelUnit(p: real, q: real, t0: real)
    requires InUnit(p) && InUnit(q) && -1.0 <= t0 < 2.0
    ensures InUnit(HueToChannel(p, q, t0))
  {
    var t := WrapHue(t0);
    assert 0.0 <= t <= 1.0;
    RampAtUnit(p, q, t);
  }

  lemma RampAtUnit(p: real, q: real, t: real)
    requires InUnit(p) && InUnit(q) && 0.0 <= t <= 1.0
    ensures InUnit(RampAt(p, q, t))
  {
    if t < 1.0 / 6.0 {
      Ramp(p, q, 6.0, t);
      assert RampAt(p, q, t) == p + (q - p) * 6.0 * t;
    } else if 1.0 / 2.0 <= t < 2.0 / 3.0 {
      Ramp(p, q, 2.0 / 3.0 - t, 6.0);
      assert RampAt(p, q, t) == p + (q - p) * (2.0 / 3.0 - t) * 6.0;
    }
  }

  /** A ramp `p + (q - p) * a * b` whose factor `a * b` is in [0, 1] stays between the levels */
  lemma Ramp(p: real, q: real, a: real, b: real)
    requires InUnit(p) && InUnit(q) && 0.0 <= a * b <= 1.0
    ensures InUnit(p + (q - p) * a * b)
  {
    var f := a * b;
    Between(p, q, f);
    assert (q - p) * a * b == (q - p) * f;
  }

  /** `p + (q - p) * f` for f in [0, 1] lies between p and q */
  lemma Between(p: real, q: real, f: real)
    requires InUnit(p) && InUnit(q) && 0.0 <= f <= 1.0
    ensures InUnit(p + (q - p) * f)
  {
    Easing.LerpBetween(p, q, f);
  }

  /** For saturation and lightness fractions in [0, 1] both levels are in [0, 1] */
  lemma LevelsUnit(s: real, l: real)
    requires InUnit(s) && InUnit(l)
    ensures InUnit(Levels(s, l).0) && InUnit(Levels(s, l).1)
  {
    var ls := l * s;
    Easing.ScaleDown(l, s);
    Easing.ScaleDown(s, l);
    assert s * l == ls;
    Easing.ScaleDown(1.0 - l, s);
    assert (1.0 - l) * s == s - ls;
    var q := Levels(s, l).1;
    if l < 0.5 {
      assert q == l * (1.0 + s) == l + ls;
    } else {
      assert q == l + (s - ls);
      assert s - ls <= 1.0 - l;
      assert q <= 1.0;
      assert 0.0 <= q;
    }
  }

  /** A channel fraction in [0, 1] prints as two lowercase hex digits */
  lemma ToHexByte(x: real)
    requires InUnit(x)
    ensures ToHex(x) == Hex.Byte2(Js.Round(x * 255.0))
  {
    var n := Js.Round(x * 255.0);
    assert 0.0 <= x * 255.0 <= 255.0;
    assert 0 <= n <= 255;
  }

  /** For fractions in range every channel is in [0, 1] */
  lemma RgbUnit(h: real, s: real, l: real)
    requires 0.0 <= h < 1.0 && InUnit(s) && InUnit(l)
    ensures InUnit(Rgb(h, s, l).0) && InUnit(Rgb(h, s, l).1) && InUnit(Rgb(h, s, l).2)
  {
    if s != 0.0 {
      LevelsUnit(s, l);
      var (p, q) := Levels(s, l);
      ChannelUnit(p, q, h + 1.0 / 3.0);
      ChannelUnit(p, q, h);
      ChannelUnit(p, q, h - 1.0 / 3.0);
    }
  }

  /** For hue in [0, 360) and saturation and lightness in [0, 100] the result is `#` and six lowercase hex digits */
  lemma HslToHexFormat(h: real, s: real, l: real)
    requires 0.0 <= h < 360.0 && 0.0 <= s <= 100.0 && 0.0 <= l <= 100.0
    ensures var r := HslToHex(h, s, l); |r| == 7 && r[0] == '#' && Hex.AllLowerHex(r[1..])
  {
    RgbUnit(h / 360.0, s / 100.0, l / 100.0);
    var (rf, gf, bf) := Rgb(h / 360.0, s / 100.0, l / 100.0);
    ToHexByte(rf);
    ToHexByte(gf);
    ToHexByte(bf);
    HexTriple(ToHex(rf), ToHex(gf), ToHex(bf));
  }

  lemma HexTriple(a: string, b: string, c: string)
    requires |a| == 2 && |b| == 2 && |c| == 2
    requires Hex.AllLowerHex(a) && Hex.AllLowerHex(b) && Hex.AllLowerHex(c)
    ensures var r := "#" + a + b + c; |r| == 7 && r[0] == '#' && Hex.AllLowerHex(r[1..])
  {
    var r := "#" + a + b + c;
    assert r[1..] == a + b + c;
    assert forall j :: 0 <= j < 6 ==> (a + b + c)[j] == if j < 2 then a[j] else if j < 4 then b[j - 2] else c[j - 4];
  }

  /** Zero saturation gives three equal channels */
  lemma GreyHex(h: real, l: real)
    ensures var r := HslToHex(h, 0.0, l);
      var c := ToHex(l / 100.0);
      r == "#" + c + c + c
  {
  }

  /** A six-digit colour rotates to a six-digit lowercase colour */
  lemma RotateHueFormat(hex: string, rotation: real)
    requires |StripHash(hex)| == 6 && Hex.AllHex(StripHash(hex))
    ensures var r := RotateHue(hex, rotation); |r| == 7 && r[0] == '#' && Hex.AllLowerHex(r[1..])
  {
    SixDigitsConvert(hex);
    var c := HexToHsl(hex).value;
    HslToHexFormat(NormalizeHue(c.h + rotation), c.s, c.l);
  }

  /** The rotated hue is the old one plus the rotation, brought into [0, 360) */
  lemma RotateHueShape(hex: string, rotation: real)
    requires HexToHsl(hex).Some?
    ensures var c := HexToHsl(hex).value;
      RotateHue(hex, rotation) == HslToHex(NormalizeHue(c.h + rotation), c.s, c.l)
    ensures var c := HexToHsl(hex).value;
      0.0 <= c.h + rotation < 360.0 ==> RotateHue(hex, rotation) == HslToHex(c.h + rotation, c.s, c.l)
  {
  }

  /** No shift returns the base colour itself; any other shift of a six-digit colour yields a six-digit lowercase colour */
  lemma HueShift(baseColor: string, ageRatio: real, shiftAmount: real)
    ensures shiftAmount == 0.0 ==> HueShiftedColor(baseColor, ageRatio, shiftAmount) == baseColor
    ensures shiftAmount != 0.0 && |StripHash(baseColor)| == 6 && Hex.AllHex(StripHash(baseColor)) ==>
      var r := HueShiftedColor(baseColor, ageRatio, shiftAmount);
      |r| == 7 && r[0] == '#' && Hex.AllLowerHex(r[1..])
  {
    if shiftAmount != 0.0 && |StripHash(baseColor)| == 6 && Hex.AllHex(StripHash(baseColor)) {
      RotateHueFormat(baseColor, ageRatio * shiftAmount * 360.0);
    }
  }
}
