/**
 * The brush panel's handlers. Each computes the partial configuration it
 * hands to `updateConfig`, which merges it over the current configuration.
 * The file reader's data URL for an uploaded stamp is a parameter.
 */
module BrushPanel {
  import opened Wrappers
  import Js
  import C = Config
  import BP = BrushPatterns

  datatype Mode = Dropper | Drip | Line

  const DefaultMaxRadius: real := 0.15
  const DefaultMinRadius: real := 0.01

  /** The patch of a mode button: its own flag on, the other two off */
  function ModePatch(mode: Mode): (patch: C.Config)
    ensures patch.Keys == {C.DropperEnabled, C.DripEnabled, C.LineEnabled}
    ensures patch[C.DropperEnabled] == C.Bool(mode == Dropper)
    ensures patch[C.DripEnabled] == C.Bool(mode == Drip)
    ensures patch[C.LineEnabled] == C.Bool(mode == Line)
  {
    map[C.DropperEnabled := C.Bool(mode == Dropper), C.DripEnabled := C.Bool(mode == Drip), C.LineEnabled := C.Bool(mode == Line)]
  }

  /** The minimum-size slider: the value, but no more than the maximum (`dropMaxRadius || 0.15`) */
  function MinRadiusPatch(config: C.Config, v: real): (patch: C.Config)
    ensures patch.Keys == {C.DropMinRadius}
    ensures patch[C.DropMinRadius].Num? && patch[C.DropMinRadius].n <= C.TruthyNumOr(config, C.DropMaxRadius, DefaultMaxRadius)
    ensures v <= C.TruthyNumOr(config, C.DropMaxRadius, DefaultMaxRadius) ==> patch[C.DropMinRadius] == C.Num(v)
  {
    map[C.DropMinRadius := C.Num(Js.Min(v, C.TruthyNumOr(config, C.DropMaxRadius, DefaultMaxRadius)))]
  }

  /** The maximum-size slider: the value, but no less than the minimum (`dropMinRadius || 0.01`) */
  function MaxRadiusPatch(config: C.Config, v: real): (patch: C.Config)
    ensures patch.Keys == {C.DropMaxRadius}
    ensures patch[C.DropMaxRadius].Num? && patch[C.DropMaxRadius].n >= C.TruthyNumOr(config, C.DropMinRadius, DefaultMinRadius)
    ensures v >= C.TruthyNumOr(config, C.DropMinRadius, DefaultMinRadius) ==> patch[C.DropMaxRadius] == C.Num(v)
  {
    map[C.DropMaxRadius := C.Num(Js.Max(v, C.TruthyNumOr(config, C.DropMinRadius, DefaultMinRadius)))]
  }

  /** The sliders that store whole numbers: dropper size, rotation and the two tip offsets */
  predicate IsRoundedSlider(k: C.Key) {
    k == C.DropperCursorSizePx || k == C.DropperCursorRotationDeg || k == C.DropperCursorTipOffsetX || k == C.DropperCursorTipOffsetY
  }

  /** `updateConfig({ [k]: Math.round(v) })` */
  function RoundedPatch(k: C.Key, v: real): (patch: C.Config)
    requires IsRoundedSlider(k)
    ensures patch.Keys == {k} && patch[k].Num?
    ensures patch[k].n == (Js.Round(v) as real) && v - 0.5 < patch[k].n <= v + 0.5
  {
    map[k := C.Num(Js.Round(v) as real)]
  }

  /** The eraser button: `eraserMode: !config.eraserMode` */
  function EraserPatch(config: C.Config): (patch: C.Config)
    ensures patch.Keys == {C.EraserMode}
    ensures patch[C.EraserMode] == C.Bool(!C.IsTrue(config, C.EraserMode))
  {
    map[C.EraserMode := C.Bool(!C.IsTrue(config, C.EraserMode))]
  }

  /** A pattern button */
  function PatternPatch(name: string): (patch: C.Config)
    ensures patch == map[C.BrushPattern := C.Str(name)]
  {
    map[C.BrushPattern := C.Str(name)]
  }

  /** The stamp upload's reader callback: the image and the stamp pattern together */
  function StampPatch(dataUrl: string): (patch: C.Config)
    ensures patch.Keys == {C.BrushStampImage, C.BrushPattern}
    ensures patch[C.BrushStampImage] == C.Str(dataUrl) && patch[C.BrushPattern] == C.Str("stamp")
  {
    map[C.BrushStampImage := C.Str(dataUrl), C.BrushPattern := C.Str("stamp")]
  }

  // ---------------------------------------------------------------------

  /** After any mode button exactly one of dropper, drip and line is on: the one clicked */
  lemma ModesExclusive(config: C.Config, mode: Mode)
    ensures var r := C.Merge(config, ModePatch(mode));
      (C.IsTrue(r, C.DropperEnabled) <==> mode == Dropper)
      && (C.IsTrue(r, C.DripEnabled) <==> mode == Drip)
      && (C.IsTrue(r, C.LineEnabled) <==> mode == Line)
  {
  }

  /** Editing the minimum keeps it at or below a stored non-zero maximum, and the maximum at or above a stored non-zero minimum */
  lemma RadiusEditsKeepOrder(config: C.Config, v: real)
    ensures var m := C.NumAt(config, C.DropMaxRadius);
      m.Some? && m.value != 0.0 ==> C.NumAt(C.Merge(config, MinRadiusPatch(config, v)), C.DropMinRadius).value <= m.value
    ensures var m := C.NumAt(config, C.DropMinRadius);
      m.Some? && m.value != 0.0 ==> C.NumAt(C.Merge(config, MaxRadiusPatch(config, v)), C.DropMaxRadius).value >= m.value
  {
  }

  /** A stored maximum of 0 is falsy and so ignored: the minimum can then be set above it */
  lemma ZeroMaximumIgnored(config: C.Config)
    requires C.NumAt(config, C.DropMaxRadius) == Some(0.0)
    ensures C.NumAt(C.Merge(config, MinRadiusPatch(config, 0.1)), C.DropMinRadius) == Some(0.1)
  {
  }

  /** A rounded slider within its range stores a whole number within the same range */
  lemma RoundedStaysInRange(k: C.Key, v: real, lo: int, hi: int)
    requires IsRoundedSlider(k) && lo as real <= v <= hi as real
    ensures lo as real <= RoundedPatch(k, v)[k].n <= hi as real
  {
    var n := Js.Round(v);
    assert (n as real) > (lo - 1) as real;
    assert (n as real) < (hi + 1) as real;
    assert lo - 1 < n < hi + 1;
  }

  /** Two clicks on the eraser leave its flag as it was */
  lemma EraserTwice(config: C.Config)
    ensures var once := C.Merge(config, EraserPatch(config));
      C.IsTrue(C.Merge(once, EraserPatch(once)), C.EraserMode) == C.IsTrue(config, C.EraserMode)
    ensures C.IsTrue(C.Merge(config, EraserPatch(config)), C.EraserMode) != C.IsTrue(config, C.EraserMode)
  {
  }

  /** After an upload the brush draws the uploaded stamp */
  lemma StampSelectsStamp(config: C.Config, dataUrl: string)
    ensures BP.PatternName(C.Merge(config, StampPatch(dataUrl))) == "stamp"
    ensures C.StrAt(C.Merge(config, StampPatch(dataUrl)), C.BrushStampImage) == Some(dataUrl)
  {
  }
}
