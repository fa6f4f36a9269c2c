/**
 * The colour panel of the control dock: the phase buttons, the active
 * colour's hex field and picker, the palette's add/remove/shuffle buttons,
 * and the two prompt-driven generators. Each handler is a function from the
 * panel's state to the state after it; `updateConfig` merges into the
 * configuration held in that state.
 */
module ColorPanel {
  import opened Wrappers
  import Js
  import C = Config
  import P = PaletteEdits

  const InitialPrompt := "Vibrant sunset over a neon city"

  /** The hex field holds a string, or `undefined` after reverting to a missing entry */
  datatype Panel = Panel(config: C.Config, active: int, hexInput: Option<string>, prompt: string)

  datatype Phase = Oil | Water

  function Colors(p: Panel): seq<string> {
    C.ColorsOf(p.config)
  }

  /** `config.colors[i]`, undefined out of range */
  function ColorAt(colors: seq<string>, i: int): Option<string> {
    if 0 <= i < |colors| then Some(colors[i]) else None
  }

  /** `updateConfig({ colors })` */
  function WithColors(config: C.Config, colors: seq<string>): (r: C.Config)
    ensures C.ColorsOf(r) == colors
    ensures forall k :: k != C.Colors ==> (k in r <==> k in config) && (k in config ==> r[k] == config[k])
  {
    C.Merge(config, map[C.Colors := C.Strs(colors)])
  }

  /** Mounting: the field starts as the active entry, or empty */
  function Mount(config: C.Config, active: int): (p: Panel)
    ensures p.config == config && p.active == active && p.prompt == InitialPrompt
    ensures p.hexInput == Some(ColorAt(C.ColorsOf(config), active).GetOr(""))
  {
    Panel(config, active, Some(ColorAt(C.ColorsOf(config), active).GetOr("")), InitialPrompt)
  }

  /** The effect on the active index and the palette: a non-empty active entry is copied into the field */
  function Sync(p: Panel): (r: Panel)
    ensures r.config == p.config && r.active == p.active && r.prompt == p.prompt
    ensures ColorAt(Colors(p), p.active).Some? && Colors(p)[p.active] != "" ==> r.hexInput == Some(Colors(p)[p.active])
    ensures !(ColorAt(Colors(p), p.active).Some? && Colors(p)[p.active] != "") ==> r.hexInput == p.hexInput
  {
    match ColorAt(Colors(p), p.active)
    case Some(c) => if c != "" then p.(hexInput := Some(c)) else p
    case None => p
  }

  /** `handleColorChange(index, value)` */
  function ColorChange(p: Panel, index: nat, value: string): (r: Panel)
    requires index <= |Colors(p)|
    ensures Colors(r) == P.SetAt(Colors(p), index, value)
    ensures r.active == p.active && r.hexInput == p.hexInput && r.prompt == p.prompt
  {
    p.(config := WithColors(p.config, P.SetAt(Colors(p), index, value)))
  }

  /** `handlePickerChange`: the picked colour goes into the field and the active entry */
  function PickerChange(p: Panel, value: string): (r: Panel)
    requires 0 <= p.active <= |Colors(p)|
    ensures r.hexInput == Some(value) && ColorAt(Colors(r), p.active) == Some(value)
    ensures r.active == p.active && r.prompt == p.prompt
  {
    ColorChange(p, p.active, value).(hexInput := Some(value))
  }

  /** `handleHexInputBlur`: a valid hex colour is committed; anything else, `undefined` included, reverts to the entry */
  function HexBlur(p: Panel): (r: Panel)
    requires 0 <= p.active <= |Colors(p)|
    ensures r.active == p.active && r.prompt == p.prompt
    ensures p.hexInput.Some? && P.IsHexColor(p.hexInput.value) ==>
      ColorAt(Colors(r), p.active) == p.hexInput && r.hexInput == p.hexInput
    ensures p.hexInput.Some? && P.IsHexColor(p.hexInput.value) ==>
      forall k :: 0 <= k < |Colors(p)| && k != p.active ==> ColorAt(Colors(r), k) == Some(Colors(p)[k])
    ensures !(p.hexInput.Some? && P.IsHexColor(p.hexInput.value)) ==>
      r.config == p.config && r.hexInput == ColorAt(Colors(p), p.active)
  {
    if p.hexInput.Some? && P.IsHexColor(p.hexInput.value) then ColorChange(p, p.active, p.hexInput.value)
    else p.(hexInput := ColorAt(Colors(p), p.active))
  }

  /** `handleAddColor`: white is appended and selected */
  function AddColor(p: Panel): (r: Panel)
    ensures Colors(r) == P.Added(Colors(p)) && r.active == |Colors(p)|
    ensures ColorAt(Colors(r), r.active) == Some(P.White)
  {
    p.(config := WithColors(p.config, P.Added(Colors(p))), active := |Colors(p)|)
  }

  /** `handleRemoveColor(index)`; the active index is left as it was */
  function RemoveColor(p: Panel, index: int): (r: Panel)
    ensures Colors(r) == P.Removed(Colors(p), index) && r.active == p.active && r.hexInput == p.hexInput
  {
    p.(config := WithColors(p.config, P.Removed(Colors(p), index)))
  }

  function ShuffleColors(p: Panel, exchanges: seq<P.Exchange>): (r: Panel)
    requires P.InRange(exchanges, |Colors(p)|)
    ensures Colors(r) == P.Shuffled(Colors(p), exchanges) && r.active == p.active
  {
    p.(config := WithColors(p.config, P.Shuffled(Colors(p), exchanges)))
  }

  /** Whether a generator button calls its generator: it is enabled and the prompt is not blank once trimmed */
  predicate Generates(prompt: string, isGenerating: bool) {
    !isGenerating && Js.Trim(prompt) != ""
  }

  /** The Oil and Water buttons: the phase becomes active with its palette, or the current colours if it has none */
  function SelectPhase(p: Panel, phase: Phase): (r: Panel)
    ensures C.StrAt(r.config, C.ActivePhase) == Some(if phase == Oil then "oil" else "water")
    ensures var palette := C.StrsAt(p.config, if phase == Oil then C.OilPalette else C.WaterPalette);
      Colors(r) == if palette.Some? then palette.value else Colors(p)
    ensures r.active == p.active && r.hexInput == p.hexInput
  {
    var name := if phase == Oil then "oil" else "water";
    var palette := C.StrsAt(p.config, if phase == Oil then C.OilPalette else C.WaterPalette);
    p.(config := C.Merge(p.config, map[C.ActivePhase := C.Str(name), C.Colors := C.Strs(palette.GetOr(Colors(p)))]))
  }

  /** `handlePresetClick`: the preset's fields over the current configuration */
  function PresetClick(p: Panel, preset: C.Config): (r: Panel)
    ensures forall k :: k in preset ==> k in r.config && r.config[k] == preset[k]
    ensures forall k :: k in p.config && k !in preset ==> k in r.config && r.config[k] == p.config[k]
  {
    p.(config := C.Merge(p.config, preset))
  }

  // ---------------------------------------------------------------------

  /** The generators run exactly for an idle panel and a prompt with some non-space character */
  lemma GeneratesIff(prompt: string, isGenerating: bool)
    ensures Generates(prompt, isGenerating) <==> !isGenerating && !Js.IsBlank(prompt)
  {
    Js.TrimEmptyIffBlank(prompt);
  }

  /** Selecting a phase twice is selecting it once */
  lemma SelectPhaseIdempotent(p: Panel, phase: Phase)
    ensures SelectPhase(SelectPhase(p, phase), phase) == SelectPhase(p, phase)
  {
    var once := SelectPhase(p, phase);
    var key := if phase == Oil then C.OilPalette else C.WaterPalette;
    assert C.StrsAt(once.config, key) == C.StrsAt(p.config, key);
    assert SelectPhase(once, phase).config == once.config;
  }

  /** Every edit of the palette keeps the other configuration fields */
  lemma EditsKeepOtherFields(p: Panel, index: int, k: C.Key)
    requires k != C.Colors && k in p.config
    ensures k in RemoveColor(p, index).config && RemoveColor(p, index).config[k] == p.config[k]
    ensures k in AddColor(p).config && AddColor(p).config[k] == p.config[k]
  {
  }

  /** A shuffle permutes the palette */
  lemma ShuffleIsPermutation(p: Panel, exchanges: seq<P.Exchange>)
    requires P.InRange(exchanges, |Colors(p)|)
    ensures multiset(Colors(ShuffleColors(p, exchanges))) == multiset(Colors(p))
  {
    P.ShufflePermutes(Colors(p), exchanges);
  }
}
