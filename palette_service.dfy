/**
 * Offline palette and "vibe" generation: a prompt that names one of five
 * themes gets that theme; any other prompt gets five random colours and a
 * configuration picked by keywords. `Math.random` is a parameter: a sequence
 * of draws in [0, 1), three per random colour.
 */
module PaletteService {
  import opened Wrappers
  import Js
  import Hex
  import C = Config

  /** A theme: its colours and the partial configuration that goes with them */
  datatype Theme = Theme(colors: seq<string>, config: C.Config)

  function Settings(velocity: real, viscosity: real, density: real, pressure: real): C.Config {
    map[C.Velocity := C.Num(velocity), C.Viscosity := C.Num(viscosity), C.Density := C.Num(density), C.Pressure := C.Num(pressure)]
  }

  const Lava := Theme(["#ff4800", "#ff8400", "#ff0000", "#7a1e00"], Settings(0.7, 0.15, 0.8, 0.6))
  const Ocean := Theme(["#003366", "#006699", "#00aacc", "#66ddff"], Settings(0.3, 0.6, 0.6, 0.3))
  const Neon := Theme(["#ff00ff", "#00ffff", "#aaff00", "#ffaa00"], Settings(0.8, 0.1, 0.5, 0.7))
  const Forest := Theme(["#0b3d0b", "#146b14", "#2da12d", "#a7f866"], Settings(0.4, 0.4, 0.7, 0.4))
  const Pastel := Theme(["#ffd6e7", "#ffe9c7", "#fff6a9", "#c9ffd9", "#c9f0ff"], Settings(0.4, 0.35, 0.6, 0.5))

  /** The theme a prompt names, the keywords tried in order: lava or fire, ocean or sea, neon, forest, pastel */
  function ThemeFor(prompt: string): (t: Option<Theme>)
    ensures t.None? <==> !MentionsTheme(Js.ToLower(prompt))
  {
    var p := Js.ToLower(prompt);
    if Js.Contains(p, "lava") || Js.Contains(p, "fire") then Some(Lava)
    else if Js.Contains(p, "ocean") || Js.Contains(p, "sea") then Some(Ocean)
    else if Js.Contains(p, "neon") then Some(Neon)
    else if Js.Contains(p, "forest") then Some(Forest)
    else if Js.Contains(p, "pastel") then Some(Pastel)
    else None
  }

  /** Some theme keyword occurs in the (lowercased) prompt */
  predicate MentionsTheme(p: string) {
    Js.Contains(p, "lava") || Js.Contains(p, "fire") || Js.Contains(p, "ocean") || Js.Contains(p, "sea")
    || Js.Contains(p, "neon") || Js.Contains(p, "forest") || Js.Contains(p, "pastel")
  }

  predicate Draw(d: real) {
    0.0 <= d < 1.0
  }

  predicate ValidDraws(draws: seq<real>) {
    forall i :: 0 <= i < |draws| ==> Draw(draws[i])
  }

  /** `Math.floor(Math.random() * 256)` */
  function Byte(d: real): (n: nat)
    requires Draw(d)
    ensures n < 256
  {
    (d * 256.0).Floor
  }

  /** `randomHex()`: three random bytes as two lowercase digits each */
  function RandomHex(r: real, g: real, b: real): (hex: string)
    requires Draw(r) && Draw(g) && Draw(b)
    ensures |hex| == 7 && hex[0] == '#'
  {
    "#" + Hex.Byte2(Byte(r)) + Hex.Byte2(Byte(g)) + Hex.Byte2(Byte(b))
  }

  /** Random colour `i` of the fallback palette, from draws 3i to 3i + 2 */
  function RandomColor(draws: seq<real>, i: nat): string
    requires ValidDraws(draws) && |draws| >= 3 * i + 3
  {
    RandomHex(draws[3 * i], draws[3 * i + 1], draws[3 * i + 2])
  }

  /** The number of colours the fallback palette has */
  const FallbackSize: nat := 5

  /** `generateColorPalette(prompt)` */
  function PaletteSpec(prompt: string, draws: seq<real>): seq<string>
    requires ValidDraws(draws) && |draws| >= 3 * FallbackSize
  {
    match ThemeFor(prompt)
    case Some(t) => t.colors
    case None => seq(FallbackSize, i requires 0 <= i < FallbackSize => RandomColor(draws, i))
  }

  /** The fallback settings: velocity by calm or chaos, viscosity by syrup or molasses or smoke, density by heavy or light, pressure by storm */
  function FallbackSettings(prompt: string): C.Config {
    var p := Js.ToLower(prompt);
    Settings(
      if Js.Contains(p, "calm") then 0.3 else if Js.Contains(p, "chaos") then 0.85 else 0.6,
      if Js.Contains(p, "syrup") || Js.Contains(p, "molasses") then 0.7 else if Js.Contains(p, "smoke") then 0.15 else 0.35,
      if Js.Contains(p, "heavy") then 0.9 else if Js.Contains(p, "light") then 0.4 else 0.6,
      if Js.Contains(p, "storm") then 0.8 else 0.5)
  }

  /** `generateVibe(prompt)`; it never returns null */
  function VibeSpec(prompt: string, draws: seq<real>): Theme
    requires ValidDraws(draws) && |draws| >= 3 * FallbackSize
  {
    match ThemeFor(prompt)
    case Some(t) => t
    case None => Theme(PaletteSpec(prompt, draws), FallbackSettings(prompt))
  }

  /** `generateColorPalette`: a theme's colours, or a first random colour then more pushed until there are five */
  method GenerateColorPalette(prompt: string, draws: seq<real>) returns (out: seq<string>)
    requires ValidDraws(draws) && |draws| >= 3 * FallbackSize
    ensures out == PaletteSpec(prompt, draws)
  {
    var theme := ThemeFor(prompt);
    if theme.Some? {
      return theme.value.colors;
    }
    out := [RandomColor(draws, 0)];
    while |out| < FallbackSize
      invariant 1 <= |out| <= FallbackSize
      invariant forall i :: 0 <= i < |out| ==> out[i] == RandomColor(draws, i)
      decreases FallbackSize - |out|
    {
      out := out + [RandomColor(draws, |out|)];
    }
  }

  method GenerateVibe(prompt: string, draws: seq<real>) returns (vibe: Theme)
    requires ValidDraws(draws) && |draws| >= 3 * FallbackSize
    ensures vibe == VibeSpec(prompt, draws)
  {
    var theme := ThemeFor(prompt);
    if theme.Some? {
      return theme.value;
    }
    var colors := GenerateColorPalette(prompt, draws);
    vibe := Theme(colors, FallbackSettings(prompt));
  }

  // ---------------------------------------------------------------------

  /** A random colour is `#` and six lowercase hex digits, whose pairs read back as the three drawn bytes */
  lemma RandomHexRoundTrip(r: real, g: real, b: real)
    requires Draw(r) && Draw(g) && Draw(b)
    ensures var hex := RandomHex(r, g, b);
      Hex.AllLowerHex(hex[1..])
      && Hex.ParseInt16(hex[1..3]) == Some(Byte(r))
      && Hex.ParseInt16(hex[3..5]) == Some(Byte(g))
      && Hex.ParseInt16(hex[5..7]) == Some(Byte(b))
  {
    var x, y, z := Hex.Byte2(Byte(r)), Hex.Byte2(Byte(g)), Hex.Byte2(Byte(b));
    HashJoin(x, y, z);
    Hex.Byte2RoundTrip(Byte(r));
    Hex.Byte2RoundTrip(Byte(g));
    Hex.Byte2RoundTrip(Byte(b));
  }

  /** `#` and three lowercase digit pairs: the pairs sit at 1, 3 and 5 */
  lemma HashJoin(x: string, y: string, z: string)
    requires |x| == 2 && |y| == 2 && |z| == 2
    requires Hex.AllLowerHex(x) && Hex.AllLowerHex(y) && Hex.AllLowerHex(z)
    ensures var hex := "#" + x + y + z;
      Hex.AllLowerHex(hex[1..]) && hex[1..3] == x && hex[3..5] == y && hex[5..7] == z
  {
    var hex := "#" + x + y + z;
    assert hex[1..] == x + y + z;
    assert forall j :: 0 <= j < 6 ==> hex[1..][j] == if j < 2 then x[j] else if j < 4 then y[j - 2] else z[j - 4];
    assert hex[1..3] == x && hex[3..5] == y && hex[5..7] == z;
  }

  /** The first keyword in order wins: a prompt naming lava and the ocean gets lava, one naming the sea and neon gets the ocean */
  lemma KeywordOrder(prompt: string)
    ensures var p := Js.ToLower(prompt);
      (Js.Contains(p, "lava") || Js.Contains(p, "fire") ==> ThemeFor(prompt) == Some(Lava))
      && (!Js.Contains(p, "lava") && !Js.Contains(p, "fire") && (Js.Contains(p, "ocean") || Js.Contains(p, "sea")) ==> ThemeFor(prompt) == Some(Ocean))
      && (!Js.Contains(p, "lava") && !Js.Contains(p, "fire") && !Js.Contains(p, "ocean") && !Js.Contains(p, "sea") && Js.Contains(p, "neon") ==> ThemeFor(prompt) == Some(Neon))
  {
  }

  /** The match ignores case */
  lemma CaseInsensitive(prompt: string)
    ensures ThemeFor(Js.ToLower(prompt)) == ThemeFor(prompt)
  {
    LowerIdempotent(prompt);
  }

  lemma LowerIdempotent(s: string)
    ensures Js.ToLower(Js.ToLower(s)) == Js.ToLower(s)
  {
    var once := Js.ToLower(s);
    assert forall i :: 0 <= i < |s| ==> Js.LowerChar(once[i]) == once[i];
  }

  /** Without a keyword the palette has exactly five well-formed colours */
  lemma FallbackPalette(prompt: string, draws: seq<real>)
    requires ValidDraws(draws) && |draws| >= 3 * FallbackSize
    requires !MentionsTheme(Js.ToLower(prompt))
    ensures var out := PaletteSpec(prompt, draws);
      |out| == 5 && forall i :: 0 <= i < 5 ==> |out[i]| == 7 && out[i][0] == '#' && Hex.AllLowerHex(out[i][1..])
  {
    var out := PaletteSpec(prompt, draws);
    forall i | 0 <= i < 5
      ensures |out[i]| == 7 && out[i][0] == '#' && Hex.AllLowerHex(out[i][1..])
    {
      RandomHexRoundTrip(draws[3 * i], draws[3 * i + 1], draws[3 * i + 2]);
    }
  }

  /** The vibe's colours are the palette's, and a named theme comes back whole */
  lemma VibeAgreesWithPalette(prompt: string, draws: seq<real>)
    requires ValidDraws(draws) && |draws| >= 3 * FallbackSize
    ensures VibeSpec(prompt, draws).colors == PaletteSpec(prompt, draws)
    ensures ThemeFor(prompt).Some? ==> VibeSpec(prompt, draws) == ThemeFor(prompt).value
  {
  }

  /** The fallback settings read the keywords: calm 0.3 velocity, molasses 0.7 viscosity, heavy 0.9 density, storm 0.8 pressure */
  lemma FallbackKeywords(prompt: string, draws: seq<real>)
    requires ValidDraws(draws) && |draws| >= 3 * FallbackSize
    requires !MentionsTheme(Js.ToLower(prompt))
    ensures var v := VibeSpec(prompt, draws); var p := Js.ToLower(prompt);
      v.config.Keys == {C.Velocity, C.Viscosity, C.Density, C.Pressure}
      && (Js.Contains(p, "calm") ==> v.config[C.Velocity] == C.Num(0.3))
      && (!Js.Contains(p, "calm") && !Js.Contains(p, "chaos") ==> v.config[C.Velocity] == C.Num(0.6))
      && (Js.Contains(p, "molasses") ==> v.config[C.Viscosity] == C.Num(0.7))
      && (Js.Contains(p, "heavy") ==> v.config[C.Density] == C.Num(0.9))
      && (Js.Contains(p, "storm") <==> v.config[C.Pressure] == C.Num(0.8))
  {
  }
}
