/**
 * The floating colour tray: the palette with the active entry, a hex field
 * and a picker for that entry, add/remove/shuffle buttons and arrow-key
 * moves between swatches. Each handler is a function from the tray's state
 * to the state after it; `colors` stands for the configuration's palette
 * and `active` for the parent's active index.
 */
module ColorTray {
  import opened Wrappers
  import P = PaletteEdits

  const Black := "#000000"

  datatype Tray = Tray(colors: seq<string>, active: int, hexInput: string)

  /** `colors[i]`, undefined out of range */
  function ColorAt(colors: seq<string>, i: int): Option<string> {
    if 0 <= i < |colors| then Some(colors[i]) else None
  }

  /** `colors[i] || '#000000'`: the entry, unless it is missing or empty */
  function Shown(colors: seq<string>, i: int): (c: string)
    ensures c == Black || (0 <= i < |colors| && c == colors[i] && c != "")
  {
    match ColorAt(colors, i)
    case Some(c) => if c == "" then Black else c
    case None => Black
  }

  /** Mounting: the field starts as the active entry, or empty */
  function Mount(colors: seq<string>, active: int): (t: Tray)
    ensures t.colors == colors && t.active == active
    ensures ColorAt(colors, active).Some? ==> t.hexInput == colors[active]
    ensures ColorAt(colors, active).None? ==> t.hexInput == ""
  {
    Tray(colors, active, ColorAt(colors, active).GetOr(""))
  }

  /** The effect on `colors` and `active`: a non-empty active entry is copied into the field */
  function Sync(t: Tray): (r: Tray)
    ensures r.colors == t.colors && r.active == t.active
    ensures ColorAt(t.colors, t.active).Some? && t.colors[t.active] != "" ==> r.hexInput == t.colors[t.active]
    ensures !(ColorAt(t.colors, t.active).Some? && t.colors[t.active] != "") ==> r.hexInput == t.hexInput
  {
    match ColorAt(t.colors, t.active)
    case Some(c) => if c != "" then t.(hexInput := c) else t
    case None => t
  }

  /** `handlePicker`: the picked colour goes into the field and the active entry */
  function Picker(t: Tray, value: string): (r: Tray)
    requires 0 <= t.active <= |t.colors|
    ensures r.hexInput == value && r.active == t.active
    ensures r.colors == P.SetAt(t.colors, t.active, value)
  {
    Tray(P.SetAt(t.colors, t.active, value), t.active, value)
  }

  /** `handleHexBlur`: a valid hex colour is committed to the active entry; anything else is replaced by the shown colour */
  function HexBlur(t: Tray): (r: Tray)
    requires 0 <= t.active <= |t.colors|
    ensures r.active == t.active
    ensures P.IsHexColor(t.hexInput) ==> ColorAt(r.colors, t.active) == Some(t.hexInput) && r.hexInput == t.hexInput
    ensures P.IsHexColor(t.hexInput) ==> forall k :: 0 <= k < |t.colors| && k != t.active ==> ColorAt(r.colors, k) == Some(t.colors[k])
    ensures !P.IsHexColor(t.hexInput) ==> r.colors == t.colors && r.hexInput == Shown(t.colors, t.active)
  {
    if P.IsHexColor(t.hexInput) then t.(colors := P.SetAt(t.colors, t.active, t.hexInput))
    else t.(hexInput := Shown(t.colors, t.active))
  }

  /** `addColor`: white is appended and selected */
  function Add(t: Tray): (r: Tray)
    ensures r.colors == P.Added(t.colors) && r.hexInput == t.hexInput
    ensures 0 <= r.active < |r.colors| && r.colors[r.active] == P.White
  {
    Tray(P.Added(t.colors), |t.colors|, t.hexInput)
  }

  /** `removeColor(i)` and the Delete/Backspace keys; the active index is left as it was */
  function Remove(t: Tray, i: int): (r: Tray)
    ensures r.colors == P.Removed(t.colors, i) && r.active == t.active && r.hexInput == t.hexInput
  {
    t.(colors := P.Removed(t.colors, i))
  }

  function Shuffle(t: Tray, exchanges: seq<P.Exchange>): (r: Tray)
    requires P.InRange(exchanges, |t.colors|)
    ensures r.colors == P.Shuffled(t.colors, exchanges) && r.active == t.active && r.hexInput == t.hexInput
  {
    t.(colors := P.Shuffled(t.colors, exchanges))
  }

  /** ArrowRight on swatch `i`: the next swatch, stopping at the last */
  function ArrowRight(t: Tray, i: int): (r: Tray)
    ensures r.active == if i + 1 < |t.colors| - 1 then i + 1 else |t.colors| - 1
    ensures r.colors == t.colors && r.hexInput == t.hexInput
  {
    t.(active := if |t.colors| - 1 <= i + 1 then |t.colors| - 1 else i + 1)
  }

  /** ArrowLeft on swatch `i`: the previous swatch, stopping at the first */
  function ArrowLeft(t: Tray, i: int): (r: Tray)
    ensures r.active == if i - 1 > 0 then i - 1 else 0
    ensures r.colors == t.colors && r.hexInput == t.hexInput
  {
    t.(active := if 0 >= i - 1 then 0 else i - 1)
  }

  // ---------------------------------------------------------------------

  /** Arrow keys on a swatch of a non-empty palette select a swatch of it, one step away or staying at an end */
  lemma ArrowsStayInPalette(t: Tray, i: int)
    requires 0 <= i < |t.colors|
    ensures 0 <= ArrowRight(t, i).active < |t.colors| && 0 <= ArrowLeft(t, i).active < |t.colors|
    ensures i < |t.colors| - 1 ==> ArrowRight(t, i).active == i + 1
    ensures i == |t.colors| - 1 ==> ArrowRight(t, i).active == i
    ensures ArrowLeft(t, i).active == if i == 0 then 0 else i - 1
  {
  }

  /** A committed colour is what the field keeps showing after the effect runs */
  lemma CommitThenSync(t: Tray)
    requires 0 <= t.active <= |t.colors| && P.IsHexColor(t.hexInput)
    ensures Sync(HexBlur(t)) == HexBlur(t)
    ensures ColorAt(HexBlur(t).colors, t.active) == Some(t.hexInput)
  {
  }

  /** Blurring a field that shows a valid active entry changes nothing */
  lemma BlurUnchangedIsNoOp(t: Tray)
    requires 0 <= t.active < |t.colors| && t.hexInput == t.colors[t.active] && P.IsHexColor(t.hexInput)
    ensures HexBlur(t) == t
  {
    P.SetAtIdempotent(t.colors, t.active);
  }

  /** An invalid entry is reverted to the shown colour, which is valid whenever the palette's entries are */
  lemma RevertIsValid(t: Tray)
    requires 0 <= t.active <= |t.colors| && !P.IsHexColor(t.hexInput)
    requires forall k :: 0 <= k < |t.colors| ==> P.IsHexColor(t.colors[k])
    ensures P.IsHexColor(HexBlur(t).hexInput)
  {
    assert Black[1..] == "000000";
  }

  /** Adding selects the new white entry, and removing it again restores the palette */
  lemma AddThenRemove(t: Tray)
    requires |t.colors| >= 1
    ensures Remove(Add(t), |t.colors|).colors == t.colors
    ensures Add(t).active == |t.colors|
  {
    P.AddThenRemove(t.colors);
  }
}
