/**
 * Smooth transitions between two configurations: the easing curves of the
 * transition service, per-channel colour interpolation, palette
 * interpolation with padding, the configuration blend, and the
 * frame-driven transition runner.
 */
module Transition {
  import opened Wrappers
  import opened Config
  import Js
  import Hex
  import E = Easing

  /** The transition service's own easing table, which does not clamp */
  datatype Curve = LinearT | EaseInOutT | EaseInT | EaseOutT

  function Ease(c: Curve, t: real): real {
    match c
    case LinearT => t
    case EaseInOutT => if t < 0.5 then 2.0 * t * t else -1.0 + (4.0 - 2.0 * t) * t
    case EaseInT => t * t
    case EaseOutT => t * (2.0 - t)
  }

  /** Every table entry fixes 0 and 1 and keeps [0, 1] inside [0, 1] */
  lemma EaseEnds(c: Curve, t: real)
    ensures Ease(c, 0.0) == 0.0 && Ease(c, 1.0) == 1.0
    ensures 0.0 <= t <= 1.0 ==> 0.0 <= Ease(c, t) <= 1.0
  {
    if 0.0 <= t <= 1.0 {
      E.UnitSquare(t);
      E.UnitSquare(1.0 - t);
      assert t * (2.0 - t) == 1.0 - (1.0 - t) * (1.0 - t);
      if t < 0.5 {
        E.MulMonotone(t, 0.5);
        assert 2.0 * t * t == 2.0 * (t * t);
      } else {
        E.UnitSquare(2.0 - 2.0 * t);
        assert -1.0 + (4.0 - 2.0 * t) * t == 1.0 - (2.0 - 2.0 * t) * (2.0 - 2.0 * t) / 2.0;
      }
    }
  }

  // ---------------------------------------------------------------------
  // Colours

  /** A `#rrggbb` colour, in either case */
  predicate IsHex7(c: string) {
    |c| == 7 && c[0] == '#' && Hex.AllHex(c[1..])
  }

  /** `parseInt(c.slice(i, i + 2), 16)`; None is NaN */
  function Channel(c: string, i: nat): Option<nat> {
    Hex.ParseInt16(Js.Slice(c, i, i + 2))
  }

  /** `Math.round(lerp(a, b, t))`, NaN when either side is */
  function MixChannel(a: Option<nat>, b: Option<nat>, t: real): Option<int> {
    if a.Some? && b.Some? then Some(Js.Round(E.Lerp(a.value as real, b.value as real, t))) else None
  }

  /** `v.toString(16).padStart(2, '0')`, where NaN prints as `NaN` */
  function FormatChannel(v: Option<int>): string {
    match v
    case Some(n) => Hex.PadStart2(Hex.IntToString16(n))
    case None => Hex.PadStart2("NaN")
  }

  /** `lerpColor(start, end, t)` */
  function LerpColor(start: string, end: string, t: real): string {
    "#" + FormatChannel(MixChannel(Channel(start, 1), Channel(end, 1), t))
        + FormatChannel(MixChannel(Channel(start, 3), Channel(end, 3), t))
        + FormatChannel(MixChannel(Channel(start, 5), Channel(end, 5), t))
  }

  /** A channel of a `#rrggbb` colour is the byte its two digits spell */
  lemma ValidChannel(c: string, i: nat)
    requires IsHex7(c) && i in {1, 3, 5}
    ensures Channel(c, i) == Some(Hex.ValueOf(c[i..i + 2]))
    ensures Hex.ValueOf(c[i..i + 2]) < 256
    ensures Hex.Byte2(Hex.ValueOf(c[i..i + 2])) == Js.ToLower(c[i..i + 2])
  {
    var d := c[i..i + 2];
    assert Hex.AllHex(d) by { HexPair(c, i); }
    Hex.ParseTwoDigits(d);
    Hex.ParseThenFormat(d);
  }

  lemma HexPair(c: string, i: nat)
    requires IsHex7(c) && 1 <= i <= 5
    ensures Hex.AllHex(c[i..i + 2])
  {
    var body := c[1..];
    assert Hex.IsHexDigit(body[i - 1]) && Hex.IsHexDigit(body[i]);
    assert c[i..i + 2] == [body[i - 1], body[i]];
  }

  /** Between two bytes, for t in [0, 1], the rounded blend is a byte */
  lemma MixIsByte(a: nat, b: nat, t: real)
    requires a < 256 && b < 256 && 0.0 <= t <= 1.0
    ensures 0 <= Js.Round(E.Lerp(a as real, b as real, t)) < 256
  {
    var x := E.Lerp(a as real, b as real, t);
    E.LerpBetween(a as real, b as real, t);
    assert 0.0 <= x <= 255.0;
    var n := Js.Round(x);
    assert -0.5 < n as real <= 255.5;
  }

  /** One channel of the blend of two `#rrggbb` colours, for t in [0, 1], prints as two lowercase digits */
  lemma BlendedChannel(start: string, end: string, t: real, i: nat)
    requires IsHex7(start) && IsHex7(end) && 0.0 <= t <= 1.0 && i in {1, 3, 5}
    ensures var s := FormatChannel(MixChannel(Channel(start, i), Channel(end, i), t));
      |s| == 2 && Hex.AllLowerHex(s)
  {
    ValidChannel(start, i);
    ValidChannel(end, i);
    var a, b := Hex.ValueOf(start[i..i + 2]), Hex.ValueOf(end[i..i + 2]);
    MixIsByte(a, b, t);
    var n := Js.Round(E.Lerp(a as real, b as real, t));
    assert MixChannel(Channel(start, i), Channel(end, i), t) == Some(n);
    FormatByte(n);
  }

  /** A byte prints as two lowercase digits */
  lemma FormatByte(n: int)
    requires 0 <= n < 256
    ensures var s := FormatChannel(Some(n)); |s| == 2 && Hex.AllLowerHex(s)
  {
    assert FormatChannel(Some(n)) == Hex.Byte2(n);
  }

  lemma SixDigits(a: string, b: string, c: string)
    requires |a| == 2 && |b| == 2 && |c| == 2 && Hex.AllLowerHex(a) && Hex.AllLowerHex(b) && Hex.AllLowerHex(c)
    ensures |a + b + c| == 6 && Hex.AllLowerHex(a + b + c)
  {
    var s := a + b + c;
    assert forall j :: 0 <= j < 6 ==> s[j] == if j < 2 then a[j] else if j < 4 then b[j - 2] else c[j - 4];
  }

  /** For two `#rrggbb` colours and t in [0, 1] the blend is `#` and six lowercase hex digits */
  lemma LerpColorFormat(start: string, end: string, t: real)
    requires IsHex7(start) && IsHex7(end) && 0.0 <= t <= 1.0
    ensures var r := LerpColor(start, end, t);
      |r| == 7 && r[0] == '#' && Hex.AllLowerHex(r[1..])
  {
    var a := FormatChannel(MixChannel(Channel(start, 1), Channel(end, 1), t));
    var b := FormatChannel(MixChannel(Channel(start, 3), Channel(end, 3), t));
    var c := FormatChannel(MixChannel(Channel(start, 5), Channel(end, 5), t));
    BlendedChannel(start, end, t, 1);
    BlendedChannel(start, end, t, 3);
    BlendedChannel(start, end, t, 5);
    SixDigits(a, b, c);
    Shape7(a, b, c);
  }

  lemma Shape7(a: string, b: string, c: string)
    requires |a + b + c| == 6
    ensures var r := "#" + a + b + c; |r| == 7 && r[0] == '#' && r[1..] == a + b + c
  {
    var r := "#" + a + b + c;
    assert r == "#" + (a + b + c);
  }

  /** One channel of a `#rrggbb` colour blended with itself prints as its digits lowercased */
  lemma SameChannel(c: string, t: real, i: nat)
    requires IsHex7(c) && i in {1, 3, 5}
    ensures FormatChannel(MixChannel(Channel(c, i), Channel(c, i), t)) == Js.ToLower(c[i..i + 2])
  {
    var v := Hex.ValueOf(c[i..i + 2]);
    ValidChannel(c, i);
    var x := E.Lerp(v as real, v as real, t);
    assert x == v as real;
    RoundWhole(v);
    assert MixChannel(Channel(c, i), Channel(c, i), t) == Some(v);
    assert FormatChannel(Some(v)) == Hex.Byte2(v);
  }

  /** Rounding a whole number gives it back */
  lemma RoundWhole(n: int)
    ensures Js.Round(n as real) == n
  {
  }

  /** Blending a `#rrggbb` colour with itself gives its lowercase form */
  lemma LerpColorSame(c: string, t: real)
    requires IsHex7(c)
    ensures LerpColor(c, c, t) == Js.ToLower(c)
  {
    SameChannel(c, t, 1);
    SameChannel(c, t, 3);
    SameChannel(c, t, 5);
    LowerSplit(c);
  }

  lemma LowerSplit(c: string)
    requires IsHex7(c)
    ensures Js.ToLower(c) == "#" + Js.ToLower(c[1..3]) + Js.ToLower(c[3..5]) + Js.ToLower(c[5..7])
  {
    var h, a, b, d := c[..1], c[1..3], c[3..5], c[5..7];
    assert c == h + a + b + d;
    Js.ToLowerAppend(h + a + b, d);
    Js.ToLowerAppend(h + a, b);
    Js.ToLowerAppend(h, a);
    assert Js.ToLower(h) == "#";
  }

  /** At t = 0 the blend is the start colour and at t = 1 the end colour, both lowercased */
  lemma LerpColorEnds(start: string, end: string)
    requires IsHex7(start) && IsHex7(end)
    ensures LerpColor(start, end, 0.0) == Js.ToLower(start)
    ensures LerpColor(start, end, 1.0) == Js.ToLower(end)
  {
    ValidChannel(start, 1); ValidChannel(start, 3); ValidChannel(start, 5);
    ValidChannel(end, 1); ValidChannel(end, 3); ValidChannel(end, 5);
    assert LerpColor(start, end, 0.0) == LerpColor(start, start, 0.0);
    assert LerpColor(start, end, 1.0) == LerpColor(end, end, 1.0);
    LerpColorSame(start, 0.0);
    LerpColorSame(end, 1.0);
  }

  // ---------------------------------------------------------------------
  // Palettes

  /** What padding appends: the last colour, or `#000000` when there is none (or it is empty) */
  function FillOf(s: seq<string>): string {
    if |s| > 0 && s[|s| - 1] != "" then s[|s| - 1] else "#000000"
  }

  /** `s` padded to length `n` */
  function Padded(s: seq<string>, n: nat): (r: seq<string>)
    ensures |r| == if n < |s| then |s| else n
  {
    if n <= |s| then s else s + seq(n - |s|, _ => FillOf(s))
  }

  /** Pairwise blend of two equally long palettes */
  function LerpColors(a: seq<string>, b: seq<string>, t: real): (r: seq<string>)
    requires |a| == |b|
    ensures |r| == |a| && forall i :: 0 <= i < |a| ==> r[i] == LerpColor(a[i], b[i], t)
  {
    seq(|a|, i requires 0 <= i < |a| => LerpColor(a[i], b[i], t))
  }

  /** The palette blend `lerpColorArray` returns */
  function LerpColorArraySpec(start: seq<string>, end: seq<string>, t: real): seq<string> {
    var n := if |start| < |end| then |end| else |start|;
    LerpColors(Padded(start, n), Padded(end, n), t)
  }

  /** The padding loop: push the fill until the list reaches `n` */
  method PadTo(s: seq<string>, n: nat) returns (r: seq<string>)
    ensures r == Padded(s, n)
  {
    r := s;
    while |r| < n
      invariant |s| <= |r| && (|r| <= n || r == s)
      invariant r[..|s|] == s && forall i :: |s| <= i < |r| ==> r[i] == FillOf(s)
      decreases n - |r|
    {
      r := r + [FillOf(r)];
    }
    if n > |s| {
      assert r == s + seq(n - |s|, _ => FillOf(s));
    }
  }

  /** `lerpColorArray`: pad the shorter list, then blend pairwise */
  method LerpColorArray(start: seq<string>, end: seq<string>, t: real) returns (r: seq<string>)
    ensures r == LerpColorArraySpec(start, end, t)
  {
    var n := if |start| < |end| then |end| else |start|;
    var ps := PadTo(start, n);
    var pe := PadTo(end, n);
    r := seq(|ps|, i requires 0 <= i < |ps| => LerpColor(ps[i], pe[i], t));
  }

  /** The blended palette is as long as the longer input; the shorter one is padded with its fill colour */
  lemma LerpColorArrayShape(start: seq<string>, end: seq<string>, t: real)
    ensures var r := LerpColorArraySpec(start, end, t);
      && |r| == (if |start| < |end| then |end| else |start|)
      && (forall i :: 0 <= i < |start| && i < |end| ==> r[i] == LerpColor(start[i], end[i], t))
      && (forall i :: |start| <= i < |end| ==> r[i] == LerpColor(FillOf(start), end[i], t))
      && (forall i :: |end| <= i < |start| ==> r[i] == LerpColor(start[i], FillOf(end), t))
  {
  }

  /** An empty palette is padded with black */
  lemma EmptyPadsBlack(end: seq<string>, t: real)
    ensures forall i :: 0 <= i < |end| ==> LerpColorArraySpec([], end, t)[i] == LerpColor("#000000", end[i], t)
  {
    var fill := Padded([], |end|);
    assert forall i :: 0 <= i < |end| ==> fill[i] == "#000000";
    assert LerpColorArraySpec([], end, t) == LerpColors(fill, Padded(end, |end|), t);
  }

  // ---------------------------------------------------------------------
  // Configurations

  /** The numeric fields `lerpConfig` blends, in its order */
  const NumericKeys: seq<Key> := [
    Density, Velocity, Viscosity, Pressure, Diffusion,
    Bloom, Sunrays, SplatRadius, ChromaticAberration, Grain,
    SurfaceTension, OilDensity, WaterDensity, GravityAngleDeg,
    GravityStrength, SimScale, PressureIterations,
    RefractiveIndexOil, Gloss, LightAngleDeg, LightIntensity,
    RefractionStrength, BrushSpacing, BackgroundOpacity,
    BackgroundScale, HueShift]

  /** The palette fields, in `lerpConfig`'s order */
  const PaletteKeys: seq<Key> := [Colors, OilPalette, WaterPalette]

  /** The fields that switch from start to end at t = 0.5 */
  predicate IsSwitched(k: Key) {
    k == BlendMode || k == ActivePhase || k == BrushPattern || k == BackgroundPattern
    || k == ThinFilm || k == DropperEnabled || k == EraserMode
  }

  /** The three groups of fields are disjoint */
  lemma NumericNotSwitched(k: Key)
    ensures k in NumericKeys ==> !IsSwitched(k)
  {
  }

  lemma NumericNotPalette(k: Key)
    ensures k in NumericKeys ==> k !in PaletteKeys
  {
  }

  lemma PaletteNotSwitched(k: Key)
    ensures k in PaletteKeys ==> !IsSwitched(k)
  {
  }

  function Get(c: Config, k: Key): Option<Value> {
    if k in c then Some(c[k]) else None
  }

  /** Both sides hold a number under `k` */
  predicate BothNumbers(start: Config, end: Config, k: Key) {
    NumAt(start, k).Some? && NumAt(end, k).Some?
  }

  /** Both sides hold a list under `k` */
  predicate BothLists(start: Config, end: Config, k: Key) {
    StrsAt(start, k).Some? && StrsAt(end, k).Some?
  }

  function NumberBlend(start: Config, end: Config, t: real, k: Key): Value
    requires BothNumbers(start, end, k)
  {
    Num(E.Lerp(NumAt(start, k).value, NumAt(end, k).value, t))
  }

  function PaletteBlendOf(start: Config, end: Config, t: real, k: Key): Value
    requires BothLists(start, end, k)
  {
    Strs(LerpColorArraySpec(StrsAt(start, k).value, StrsAt(end, k).value, t))
  }

  /** What `lerpConfig` leaves under one field */
  function BlendedField(start: Config, end: Config, t: real, k: Key): Option<Value> {
    if IsSwitched(k) then (if t < 0.5 then Get(start, k) else Get(end, k))
    else if k in PaletteKeys && BothLists(start, end, k) then Some(PaletteBlendOf(start, end, t, k))
    else if k in NumericKeys && BothNumbers(start, end, k) then Some(NumberBlend(start, end, t, k))
    else Get(start, k)
  }

  /** The configuration `lerpConfig` returns, field by field */
  function LerpConfigSpec(start: Config, end: Config, t: real): Config {
    map k | k in start.Keys + end.Keys && BlendedField(start, end, t, k).Some? :: BlendedField(start, end, t, k).value
  }

  /** Every field of the blend is the field rule's answer, absent fields included */
  lemma SpecAt(start: Config, end: Config, t: real, k: Key)
    ensures Get(LerpConfigSpec(start, end, t), k) == BlendedField(start, end, t, k)
  {
    if k !in start && k !in end {
      AbsentStaysAbsent(start, end, t, k);
    }
  }

  /** A field neither side has is not in the blend */
  lemma AbsentStaysAbsent(start: Config, end: Config, t: real, k: Key)
    requires k !in start && k !in end
    ensures BlendedField(start, end, t, k) == None
  {
    assert !BothLists(start, end, k) && !BothNumbers(start, end, k);
    if !IsSwitched(k) {
      assert BlendedField(start, end, t, k) == Get(start, k);
    }
  }

  /** Two configurations that agree on every field are equal */
  lemma FieldsEqual(a: Config, b: Config)
    requires forall k :: Get(a, k) == Get(b, k)
    ensures a == b
  {
    assert forall k :: k in a <==> Get(a, k).Some?;
    assert a.Keys == b.Keys;
  }

  /** `result[key] = value`, where an absent value leaves the field undefined */
  function Assign(c: Config, k: Key, v: Option<Value>): Config {
    if v.Some? then c[k := v.value] else c - {k}
  }

  lemma AssignAt(c: Config, k: Key, v: Option<Value>, j: Key)
    ensures Get(Assign(c, k, v), j) == if j == k then v else Get(c, j)
  {
  }

  /** The numeric rule over the first keys of the list */
  function AfterNumbers(start: Config, end: Config, t: real, ks: seq<Key>, k: Key): Option<Value> {
    if k in ks && BothNumbers(start, end, k) then Some(NumberBlend(start, end, t, k)) else Get(start, k)
  }

  /** The palette rule over the first keys of the list, on top of `base` */
  function AfterPalettes(start: Config, end: Config, t: real, ks: seq<Key>, base: Config, k: Key): Option<Value> {
    if k in ks && BothLists(start, end, k) then Some(PaletteBlendOf(start, end, t, k)) else Get(base, k)
  }

  /** The numeric pass of `lerpConfig` over a copy of start */
  method BlendNumbers(start: Config, end: Config, t: real) returns (result: Config)
    ensures forall k :: Get(result, k) == AfterNumbers(start, end, t, NumericKeys, k)
  {
    result := start;
    for i := 0 to |NumericKeys|
      invariant forall k :: Get(result, k) == AfterNumbers(start, end, t, NumericKeys[..i], k)
    {
      var key := NumericKeys[i];
      assert NumericKeys[..i + 1] == NumericKeys[..i] + [key];
      var startVal, endVal := NumAt(start, key), NumAt(end, key);
      if startVal.Some? && endVal.Some? {
        ghost var before := result;
        result := Assign(result, key, Some(Num(E.Lerp(startVal.value, endVal.value, t))));
        forall k
          ensures Get(result, k) == AfterNumbers(start, end, t, NumericKeys[..i + 1], k)
        {
          AssignAt(before, key, Some(Num(E.Lerp(startVal.value, endVal.value, t))), k);
        }
      }
    }
    assert NumericKeys[..|NumericKeys|] == NumericKeys;
  }

  /** The palette pass of `lerpConfig` */
  method BlendPalettes(start: Config, end: Config, t: real, numbers: Config) returns (result: Config)
    ensures forall k :: Get(result, k) == AfterPalettes(start, end, t, PaletteKeys, numbers, k)
  {
    result := numbers;
    for i := 0 to |PaletteKeys|
      invariant forall k :: Get(result, k) == AfterPalettes(start, end, t, PaletteKeys[..i], numbers, k)
    {
      var key := PaletteKeys[i];
      assert PaletteKeys[..i + 1] == PaletteKeys[..i] + [key];
      var a, b := StrsAt(start, key), StrsAt(end, key);
      if a.Some? && b.Some? {
        var blended := LerpColorArray(a.value, b.value, t);
        ghost var before := result;
        result := Assign(result, key, Some(Strs(blended)));
        forall k
          ensures Get(result, k) == AfterPalettes(start, end, t, PaletteKeys[..i + 1], numbers, k)
        {
          AssignAt(before, key, Some(Strs(blended)), k);
        }
      }
    }
    assert PaletteKeys[..|PaletteKeys|] == PaletteKeys;
  }

  /** The switching pass of `lerpConfig`: seven fields taken from `from` */
  method SwitchFields(c: Config, from: Config) returns (result: Config)
    ensures forall k :: Get(result, k) == if IsSwitched(k) then Get(from, k) else Get(c, k)
  {
    var r1 := Assign(c, BlendMode, Get(from, BlendMode));
    var r2 := Assign(r1, ActivePhase, Get(from, ActivePhase));
    var r3 := Assign(r2, BrushPattern, Get(from, BrushPattern));
    var r4 := Assign(r3, BackgroundPattern, Get(from, BackgroundPattern));
    var r5 := Assign(r4, ThinFilm, Get(from, ThinFilm));
    var r6 := Assign(r5, DropperEnabled, Get(from, DropperEnabled));
    result := Assign(r6, EraserMode, Get(from, EraserMode));
    forall k
      ensures Get(result, k) == if IsSwitched(k) then Get(from, k) else Get(c, k)
    {
      AssignAt(r6, EraserMode, Get(from, EraserMode), k);
      AssignAt(r5, DropperEnabled, Get(from, DropperEnabled), k);
      AssignAt(r4, ThinFilm, Get(from, ThinFilm), k);
      AssignAt(r3, BackgroundPattern, Get(from, BackgroundPattern), k);
      AssignAt(r2, BrushPattern, Get(from, BrushPattern), k);
      AssignAt(r1, ActivePhase, Get(from, ActivePhase), k);
      AssignAt(c, BlendMode, Get(from, BlendMode), k);
    }
  }

  /** `lerpConfig(start, end, t)` */
  method LerpConfig(start: Config, end: Config, t: real) returns (result: Config)
    ensures result == LerpConfigSpec(start, end, t)
  {
    var numbers := BlendNumbers(start, end, t);
    var palettes := BlendPalettes(start, end, t, numbers);
    result := SwitchFields(palettes, if t < 0.5 then start else end);
    forall k
      ensures Get(result, k) == Get(LerpConfigSpec(start, end, t), k)
    {
      SpecAt(start, end, t, k);
    }
    FieldsEqual(result, LerpConfigSpec(start, end, t));
  }

  /**
   * The blend at its ends: at t = 0 every field but the palettes is start's;
   * at t = 1 the numeric fields set on both sides and the switching fields
   * are end's, and every other non-palette field is start's.
   */
  lemma LerpConfigEnds(start: Config, end: Config, k: Key)
    requires k !in PaletteKeys
    ensures Get(LerpConfigSpec(start, end, 0.0), k) == Get(start, k)
    ensures IsSwitched(k) || (k in NumericKeys && BothNumbers(start, end, k)) ==>
      Get(LerpConfigSpec(start, end, 1.0), k) == Get(end, k)
    ensures !(IsSwitched(k) || (k in NumericKeys && BothNumbers(start, end, k))) ==>
      Get(LerpConfigSpec(start, end, 1.0), k) == Get(start, k)
  {
    SpecAt(start, end, 0.0, k);
    SpecAt(start, end, 1.0, k);
    NumericNotSwitched(k);
  }

  /** A numeric field is blended only when both sides hold a number; otherwise start's value stays */
  lemma LerpConfigNumbers(start: Config, end: Config, t: real, k: Key)
    requires k in NumericKeys
    ensures BothNumbers(start, end, k) ==>
      Get(LerpConfigSpec(start, end, t), k) == Some(Num(E.Lerp(NumAt(start, k).value, NumAt(end, k).value, t)))
    ensures !BothNumbers(start, end, k) ==> Get(LerpConfigSpec(start, end, t), k) == Get(start, k)
  {
    SpecAt(start, end, t, k);
    NumericNotSwitched(k);
    NumericNotPalette(k);
  }

  /** The switching fields come from start below t = 0.5 and from end from 0.5 on */
  lemma LerpConfigSwitch(start: Config, end: Config, t: real, k: Key)
    requires IsSwitched(k)
    ensures Get(LerpConfigSpec(start, end, t), k) == if t < 0.5 then Get(start, k) else Get(end, k)
  {
    SpecAt(start, end, t, k);
  }

  /** A palette is blended only when both sides have one */
  lemma LerpConfigPalettes(start: Config, end: Config, t: real, k: Key)
    requires k in PaletteKeys
    ensures BothLists(start, end, k) ==>
      Get(LerpConfigSpec(start, end, t), k) == Some(Strs(LerpColorArraySpec(StrsAt(start, k).value, StrsAt(end, k).value, t)))
    ensures !BothLists(start, end, k) ==> Get(LerpConfigSpec(start, end, t), k) == Get(start, k)
  {
    SpecAt(start, end, t, k);
    PaletteNotSwitched(k);
    NumericNotPalette(k);
    assert k !in NumericKeys;
  }

  // ---------------------------------------------------------------------
  // The runner

  /** One requested transition: the two ends, the duration in ms, the curve and whether `onComplete` was given */
  datatype Request = Request(start: Config, end: Config, duration: real, curve: Curve, hasOnComplete: bool)

  /** `min(elapsed / duration, 1)` */
  function Progress(elapsed: real, duration: real): (p: real)
    requires duration > 0.0
    ensures p <= 1.0
    ensures elapsed >= duration ==> p == 1.0
    ensures 0.0 <= elapsed < duration ==> 0.0 <= p < 1.0
  {
    if elapsed / duration < 1.0 then elapsed / duration else 1.0
  }

  /** The progress stays below 1 exactly while the elapsed time is below the duration */
  lemma ProgressBelowOne(elapsed: real, duration: real)
    requires duration > 0.0
    ensures Progress(elapsed, duration) < 1.0 <==> elapsed < duration
  {
    if elapsed < duration {
      assert elapsed / duration < 1.0 by { DivBelow(elapsed, duration); }
    }
  }

  lemma DivBelow(a: real, b: real)
    requires b > 0.0 && a < b
    ensures a / b < 1.0
  {
    assert a / b * b == a;
  }

  /** The configuration handed to `onUpdate` `elapsed` ms into the transition */
  function UpdateAt(r: Request, elapsed: real): Config
    requires r.duration > 0.0
  {
    LerpConfigSpec(r.start, r.end, Ease(r.curve, Progress(elapsed, r.duration)))
  }

  /** One frame's configuration: the eased progress fed to `lerpConfig` */
  method Interpolate(r: Request, elapsed: real) returns (c: Config)
    requires r.duration > 0.0
    ensures c == UpdateAt(r, elapsed)
  {
    var progress := Progress(elapsed, r.duration);
    var eased := Ease(r.curve, progress);
    c := LerpConfig(r.start, r.end, eased);
  }

  class TransitionService {
    var isRunning: bool
    /** `animationFrameId !== null` */
    var frameIdSet: bool
    var startTime: real
    /** The transition whose frame callback is scheduled */
    var request: Option<Request>
    /** The configurations handed to `onUpdate`, in order */
    var updates: seq<Config>
    /** How many times `onComplete` ran */
    var completions: nat

    ghost predicate Valid()
      reads this
    {
      (isRunning ==> frameIdSet && request.Some? && request.value.duration > 0.0)
      && (frameIdSet ==> request.Some?)
    }

    constructor ()
      ensures Valid() && !isRunning && !frameIdSet && startTime == 0.0 && request == None
      ensures updates == [] && completions == 0
    {
      isRunning, frameIdSet, startTime, request := false, false, 0.0, None;
      updates, completions := [], 0;
    }

    /** `cancel`: nothing runs and no frame is scheduled afterwards */
    method Cancel()
      requires Valid()
      modifies this`isRunning, this`frameIdSet
      ensures Valid() && !isRunning && !frameIdSet
    {
      isRunning := false;
      if frameIdSet {
        frameIdSet := false;
      }
    }

    /** `transition`: cancel whatever runs, then start this one at `now` */
    method Transition(req: Request, now: real)
      requires Valid() && req.duration > 0.0
      modifies this`isRunning, this`frameIdSet, this`startTime, this`request
      ensures Valid() && isRunning && frameIdSet && startTime == now && request == Some(req)
    {
      Cancel();
      isRunning := true;
      startTime := now;
      request := Some(req);
      frameIdSet := true;
    }

    /**
     * The scheduled frame callback at `currentTime`: hand the blended
     * configuration to `onUpdate`, then schedule another frame, or finish
     * once the progress reaches 1.
     */
    method Animate(currentTime: real)
      requires Valid()
      modifies this`isRunning, this`frameIdSet, this`updates, this`completions
      ensures Valid()
      ensures !old(isRunning) ==>
        isRunning == old(isRunning) && frameIdSet == old(frameIdSet) && updates == old(updates) && completions == old(completions)
      ensures old(isRunning) ==> updates == old(updates) + [UpdateAt(request.value, currentTime - startTime)]
      ensures old(isRunning) && currentTime - startTime < request.value.duration ==>
        isRunning && frameIdSet && completions == old(completions)
      ensures old(isRunning) && currentTime - startTime >= request.value.duration ==>
        !isRunning && !frameIdSet && completions == old(completions) + (if request.value.hasOnComplete then 1 else 0)
    {
      if !isRunning {
        return;
      }
      var r := request.value;
      Emit(currentTime);
      // progress < 1 exactly while the elapsed time is below the duration (ProgressBelowOne)
      if currentTime - startTime < r.duration {
        frameIdSet := true;
      } else {
        isRunning := false;
        frameIdSet := false;
        if r.hasOnComplete {
          completions := completions + 1;
        }
      }
    }

    /** Hand this frame's blended configuration to `onUpdate` */
    method Emit(currentTime: real)
      requires Valid() && isRunning
      modifies this`updates
      ensures updates == old(updates) + [UpdateAt(request.value, currentTime - startTime)]
    {
      var interpolated := Interpolate(request.value, currentTime - startTime);
      updates := updates + [interpolated];
    }

    /** `isTransitioning` */
    method IsTransitioning() returns (b: bool)
      ensures b == isRunning
    {
      b := isRunning;
    }
  }

  /** The last update of a finished transition is the blend at eased progress 1 */
  lemma FinalUpdate(r: Request, elapsed: real)
    requires r.duration > 0.0 && elapsed >= r.duration
    ensures Progress(elapsed, r.duration) == 1.0
    ensures UpdateAt(r, elapsed) == LerpConfigSpec(r.start, r.end, 1.0)
  {
    EaseEnds(r.curve, 1.0);
  }

  /** The process-wide service: created on first use and then always the same object */
  class ServiceSlot {
    var instance: Option<TransitionService>

    constructor ()
      ensures instance == None
    {
      instance := None;
    }

    /** `getTransitionService` */
    method Get() returns (s: TransitionService)
      modifies this
      ensures instance == Some(s)
      ensures old(instance).Some? ==> s == old(instance).value
      ensures old(instance).None? ==> fresh(s)
    {
      if instance.None? {
        s := new TransitionService();
        instance := Some(s);
      } else {
        s := instance.value;
      }
    }
  }
}
