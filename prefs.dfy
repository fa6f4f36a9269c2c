/**
 * User interface preferences kept in browser storage: the top panel, the
 * performance mode and the reduced-motion choice. Storage is a map from key
 * to string, or None where every access to it throws; the `ui` URL parameter
 * and the reduced-motion media query are parameters.
 */
module Prefs {
  import opened Wrappers

  type Storage = Option<map<string, string>>

  const TopPanelKey := "ui:topPanel"
  const PerfKey := "ui:perf"
  const ReducedMotionKey := "ui:reducedMotion"

  /** `localStorage.getItem(k)`: None when absent or when storage throws */
  function Read(s: Storage, k: string): Option<string> {
    if s.Some? && k in s.value then Some(s.value[k]) else None
  }

  /** `localStorage.setItem(k, v)`; a throwing storage stays as it is */
  function Write(s: Storage, k: string, v: string): (r: Storage)
    ensures s.Some? ==> r.Some? && Read(r, k) == Some(v)
    ensures forall j :: j != k ==> Read(r, j) == Read(s, j)
    ensures s.None? ==> r == s
  {
    if s.Some? then Some(s.value[k := v]) else s
  }

  function Flag(b: bool): string {
    if b then "1" else "0"
  }

  /**
   * `getTopPanelEnabled()`: `ui=top` or `ui=classic` in the URL decide;
   * then a stored `'1'` or `'0'`; anything else, or a throwing storage, is true.
   */
  function TopPanelEnabled(uiParam: Option<string>, s: Storage): (on: bool)
    ensures uiParam == Some("top") ==> on
    ensures uiParam == Some("classic") ==> !on
    ensures uiParam != Some("top") && uiParam != Some("classic") ==> (on <==> Read(s, TopPanelKey) != Some("0"))
  {
    if uiParam == Some("top") then true
    else if uiParam == Some("classic") then false
    else match Read(s, TopPanelKey)
      case Some("1") => true
      case Some("0") => false
      case _ => true
  }

  /** `getPerfMode()` */
  function PerfMode(s: Storage): bool {
    Read(s, PerfKey) == Some("1")
  }

  /** `getReducedMotionPref()`: the stored string, unchecked, or `'auto'` when it is missing or empty */
  function ReducedMotionPref(s: Storage): (pref: string)
    ensures pref != ""
    ensures Read(s, ReducedMotionKey).Some? && Read(s, ReducedMotionKey).value != "" ==> pref == Read(s, ReducedMotionKey).value
  {
    match Read(s, ReducedMotionKey)
    case Some(v) => if v == "" then "auto" else v
    case None => "auto"
  }

  /** `prefersReducedMotion()`: `'on'` and `'off'` decide, otherwise the media query if there is one, else false */
  function PrefersReducedMotion(s: Storage, mediaQuery: Option<bool>): (reduce: bool)
    ensures ReducedMotionPref(s) == "on" ==> reduce
    ensures ReducedMotionPref(s) == "off" ==> !reduce
    ensures ReducedMotionPref(s) != "on" && ReducedMotionPref(s) != "off" ==> reduce == (mediaQuery == Some(true))
  {
    var pref := ReducedMotionPref(s);
    if pref == "on" then true
    else if pref == "off" then false
    else mediaQuery.GetOr(false)
  }

  /** The storage the preference functions read, written by the setters */
  class Preferences {
    var storage: Storage

    constructor(storage: Storage)
      ensures this.storage == storage
    {
      this.storage := storage;
    }

    method SetTopPanelEnabled(enabled: bool)
      modifies this
      ensures storage == Write(old(storage), TopPanelKey, Flag(enabled))
    {
      storage := Write(storage, TopPanelKey, Flag(enabled));
    }

    method SetPerfMode(enabled: bool)
      modifies this
      ensures storage == Write(old(storage), PerfKey, Flag(enabled))
    {
      storage := Write(storage, PerfKey, Flag(enabled));
    }

    method SetReducedMotionPref(v: string)
      modifies this
      ensures storage == Write(old(storage), ReducedMotionKey, v)
    {
      storage := Write(storage, ReducedMotionKey, v);
    }
  }

  // ---------------------------------------------------------------------

  /** Setting the top panel and reading it back with no URL parameter gives the value set */
  lemma TopPanelRoundTrip(s: Storage, enabled: bool)
    requires s.Some?
    ensures TopPanelEnabled(None, Write(s, TopPanelKey, Flag(enabled))) == enabled
  {
  }

  /** The URL parameter outranks what is stored */
  lemma UrlWins(s: Storage, enabled: bool)
    ensures TopPanelEnabled(Some("classic"), Write(s, TopPanelKey, Flag(enabled))) == false
    ensures TopPanelEnabled(Some("top"), Write(s, TopPanelKey, Flag(enabled))) == true
  {
  }

  /** Performance mode round-trips, and a throwing storage reads as off */
  lemma PerfModeRoundTrip(s: Storage, enabled: bool)
    ensures s.Some? ==> PerfMode(Write(s, PerfKey, Flag(enabled))) == enabled
    ensures s.None? ==> !PerfMode(s)
  {
  }

  /** The reduced-motion preference round-trips for the three values, and the setters leave each other's keys alone */
  lemma ReducedMotionRoundTrip(s: Storage, v: string)
    requires s.Some? && (v == "auto" || v == "on" || v == "off")
    ensures ReducedMotionPref(Write(s, ReducedMotionKey, v)) == v
    ensures PerfMode(Write(s, ReducedMotionKey, v)) == PerfMode(s)
    ensures TopPanelEnabled(None, Write(s, PerfKey, v)) == TopPanelEnabled(None, s)
  {
  }

  /** A throwing storage gives the defaults: the top panel on, performance mode off, motion by the media query */
  lemma Defaults(mediaQuery: Option<bool>)
    ensures TopPanelEnabled(None, None) && !PerfMode(None) && ReducedMotionPref(None) == "auto"
    ensures PrefersReducedMotion(None, mediaQuery) == (mediaQuery == Some(true))
  {
  }
}
