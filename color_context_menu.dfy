/**
 * The right-click quick colour picker: a fixed 64-colour rainbow of CSS
 * `hsl()` strings, a menu kept on screen, and the callbacks its clicks and
 * keys produce. The window size is a parameter.
 */
module ColorContextMenu {
  import Js

  const HueSteps: nat := 16
  const SatLightSteps: nat := 4
  const MenuWidth: real := 340.0
  const MenuHeight: real := 380.0

  /** `${(h / 16) * 360}`: 22.5 degrees a step, so a whole number on even steps and a half on odd ones */
  function HueText(h: nat): string {
    Js.NatToString(h * 45 / 2) + (if h % 2 == 1 then ".5" else "")
  }

  /** Lightness 90, 70, 50 and 30 percent for the four variations */
  function Lightness(sl: nat): nat
    requires sl < SatLightSteps
  {
    90 - sl * 20
  }

  /** The entry for hue step `h` and variation `sl` */
  function Entry(h: nat, sl: nat): string
    requires sl < SatLightSteps
  {
    "hsl(" + HueText(h) + ", 100%, " + Js.NatToString(Lightness(sl)) + "%)"
  }

  /** The palette as a whole: entry `h * 4 + sl` for every hue step and variation */
  function Rainbow(): (colors: seq<string>)
    ensures |colors| == HueSteps * SatLightSteps
  {
    seq(HueSteps * SatLightSteps, i requires 0 <= i < HueSteps * SatLightSteps => Entry(i / SatLightSteps, i % SatLightSteps))
  }

  /** `generateRainbowPalette`: hue steps outside, light-to-dark variations inside */
  method GenerateRainbowPalette() returns (colors: seq<string>)
    ensures colors == Rainbow()
  {
    colors := [];
    var h := 0;
    while h < HueSteps
      invariant 0 <= h <= HueSteps
      invariant colors == Rainbow()[..h * SatLightSteps]
    {
      var sl := 0;
      while sl < SatLightSteps
        invariant 0 <= sl <= SatLightSteps
        invariant colors == Rainbow()[..h * SatLightSteps + sl]
      {
        assert (h * SatLightSteps + sl) / SatLightSteps == h && (h * SatLightSteps + sl) % SatLightSteps == sl;
        colors := colors + [Entry(h, sl)];
        sl := sl + 1;
      }
      h := h + 1;
    }
  }

  /** Where the menu's top-left corner goes: the click point, pulled back to keep a 340 by 380 box on screen */
  function MenuPosition(x: real, y: real, innerWidth: real, innerHeight: real): (pos: (real, real))
    ensures pos.0 <= x && pos.0 <= innerWidth - MenuWidth && (pos.0 == x || pos.0 == innerWidth - MenuWidth)
    ensures pos.1 <= y && pos.1 <= innerHeight - MenuHeight && (pos.1 == y || pos.1 == innerHeight - MenuHeight)
  {
    (Js.Min(x, innerWidth - MenuWidth), Js.Min(y, innerHeight - MenuHeight))
  }

  /** The props the menu calls back */
  datatype Callback = ColorSelected(color: string) | Closed

  /** What reaches the menu: a mouse-down inside it or not, a key, a swatch click */
  datatype Event = MouseDown(insideMenu: bool) | KeyDown(key: string) | SwatchClick(index: nat)

  /** The callbacks an event produces, in order */
  function Callbacks(e: Event): (calls: seq<Callback>)
    requires e.SwatchClick? ==> e.index < |Rainbow()|
    ensures e.SwatchClick? ==> calls == [ColorSelected(Rainbow()[e.index]), Closed]
    ensures e.MouseDown? ==> (calls == [Closed] <==> !e.insideMenu) && (e.insideMenu ==> calls == [])
    ensures e.KeyDown? ==> (calls == [Closed] <==> e.key == "Escape") && (e.key != "Escape" ==> calls == [])
  {
    match e
    case MouseDown(inside) => if inside then [] else [Closed]
    case KeyDown(key) => if key == "Escape" then [Closed] else []
    case SwatchClick(i) => [ColorSelected(Rainbow()[i]), Closed]
  }

  // ---------------------------------------------------------------------

  /** There are 64 colours; entry `h * 4 + sl` is hue step `h` at lightness `90 - 20 * sl` */
  lemma RainbowLayout(h: nat, sl: nat)
    requires h < HueSteps && sl < SatLightSteps
    ensures |Rainbow()| == 64
    ensures Rainbow()[h * SatLightSteps + sl] == "hsl(" + HueText(h) + ", 100%, " + Js.NatToString(90 - 20 * sl) + "%)"
  {
    assert (h * SatLightSteps + sl) / SatLightSteps == h && (h * SatLightSteps + sl) % SatLightSteps == sl;
  }

  /** Hue steps 0, 1 and 15 read 0, 22.5 and 337.5 degrees */
  lemma HueTextSamples()
    ensures HueText(0) == "0" && HueText(1) == "22.5"
    ensures HueText(15) == "337.5"
  {
    assert Js.NatToString(22) == "22" && Js.NatToString(337) == "337";
  }

  /** A menu opened where it fits stays where it was opened */
  lemma FitsStays(x: real, y: real, innerWidth: real, innerHeight: real)
    requires x <= innerWidth - MenuWidth && y <= innerHeight - MenuHeight
    ensures MenuPosition(x, y, innerWidth, innerHeight) == (x, y)
  {
  }
}
