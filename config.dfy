/**
 * The liquid configuration object. A JavaScript object with optional fields
 * is a finite map from field name to value: a field that is missing (or holds
 * `undefined`) is a key outside the map, and the spread `{ ...a, ...b }` is
 * the map union `a + b`, the right-hand side winning.
 */
module Config {
  import opened Wrappers

  /** The field names of the configuration object */
  datatype Key =
    | Density | Velocity | Viscosity | Pressure | Diffusion | Bloom | Sunrays
    | Colors | SplatRadius | BlendMode | ChromaticAberration | Grain
    | SurfaceTension | OilDensity | WaterDensity | GravityAngleDeg | GravityStrength
    | SimScale | PressureIterations
    | RefractiveIndexOil | Gloss | LightAngleDeg | LightIntensity | RefractionStrength | ThinFilm
    | OilPalette | WaterPalette | ActivePhase | DropperEnabled
    | BrushPattern | BrushText | BrushStampImage | BrushSpacing
    | SceneBrightness | FlashOnResize | FlashIntensity | FlashDurationMs
    | FlickerEnabled | FlickerIntensity
    | EdgeRunoffEnabled | EdgeRunoffThicknessPx | EdgeRunoffLengthScale
    | SceneParallaxEnabled | SceneParallaxAmount
    | DropMinRadius | DropMaxRadius | DropTimeToMaxMs | DropEasing | DropPreview
    | DropperCursorEnabled | DropperCursorSizePx | DropperCursorRotationDeg
    | DropperCursorTipOffsetX | DropperCursorTipOffsetY | CrosshairSizePx | DropPreviewLagMs
    | DripEnabled | DripIntervalMs | LineEnabled
    | SymmetryEnabled | SymmetryCount | SymmetryMirror | SymmetryRotationDeg | SymmetryOrigin
    | BackgroundPattern | BackgroundOpacity | BackgroundScale | HueShift | EraserMode

  /** A field value: a number, a boolean, a string, a list of colours or a point */
  datatype Value =
    | Num(n: real)
    | Bool(b: bool)
    | Str(s: string)
    | Strs(items: seq<string>)
    | Pt(x: real, y: real)

  type Config = map<Key, Value>

  /**
   * `{ ...base, ...partial }`: every field of either object, the partial's
   * value where both have one.
   */
  function Merge<K, V>(base: map<K, V>, partial: map<K, V>): (r: map<K, V>)
    ensures r.Keys == base.Keys + partial.Keys
    ensures forall k :: k in partial ==> r[k] == partial[k]
    ensures forall k :: k in base && k !in partial ==> r[k] == base[k]
  {
    base + partial
  }

  /** Merging an empty partial changes nothing */
  lemma MergeEmpty<K, V>(c: map<K, V>)
    ensures Merge(c, map[]) == c
  {
  }

  /** Merging the same partial twice is the same as merging it once */
  lemma MergeIdempotent<K, V>(c: map<K, V>, p: map<K, V>)
    ensures Merge(Merge(c, p), p) == Merge(c, p)
  {
  }

  /** Two successive merges are one merge of the second partial over the first */
  lemma MergeTwice<K, V>(c: map<K, V>, p: map<K, V>, q: map<K, V>)
    ensures Merge(Merge(c, p), q) == Merge(c, Merge(p, q))
  {
  }

  /** The number stored under `k`, if any */
  function NumAt(c: Config, k: Key): Option<real> {
    if k in c && c[k].Num? then Some(c[k].n) else None
  }

  /** `c[k] ?? d` for a numeric field */
  function NumOr(c: Config, k: Key, d: real): (r: real)
    ensures NumAt(c, k).Some? ==> r == NumAt(c, k).value
    ensures NumAt(c, k).None? ==> r == d
  {
    NumAt(c, k).GetOr(d)
  }

  /** `c[k] || d` for a numeric field: a missing field or zero gives `d` */
  function TruthyNumOr(c: Config, k: Key, d: real): (r: real)
    ensures NumAt(c, k).Some? && NumAt(c, k).value != 0.0 ==> r == NumAt(c, k).value
    ensures NumAt(c, k).None? || NumAt(c, k).value == 0.0 ==> r == d
  {
    match NumAt(c, k)
    case Some(v) => if v != 0.0 then v else d
    case None => d
  }

  /** `c[k] ?? d` for a boolean field */
  function BoolOr(c: Config, k: Key, d: bool): bool {
    if k in c && c[k].Bool? then c[k].b else d
  }

  /** `c[k] === true` */
  predicate IsTrue(c: Config, k: Key) {
    k in c && c[k] == Bool(true)
  }

  /** The string stored under `k`, if any */
  function StrAt(c: Config, k: Key): Option<string> {
    if k in c && c[k].Str? then Some(c[k].s) else None
  }

  /** The list stored under `k`, if any */
  function StrsAt(c: Config, k: Key): Option<seq<string>> {
    if k in c && c[k].Strs? then Some(c[k].items) else None
  }

  /** `c.colors`, the palette every configuration carries */
  function ColorsOf(c: Config): seq<string> {
    StrsAt(c, Colors).GetOr([])
  }
}
