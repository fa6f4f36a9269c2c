/**
 * The preset catalogue: themed builders that lay a family's look over the
 * shared dropper defaults, and the 62 presets in their fixed order.
 */
module Presets {
  import opened Wrappers
  import opened Config

  datatype Category = Core | Acid | Goofy | Nitrous | Healing | Blends

  /** A named partial configuration */
  datatype Preset = Preset(name: string, description: Option<string>, category: Category, config: Config)

  /** The dropper defaults every built preset starts from */
  function BaseDefaults(): Config {
    map[DropperEnabled := Bool(true), DropMinRadius := Num(0.01), DropMaxRadius := Num(0.12),
        DropTimeToMaxMs := Num(1000.0), DropEasing := Str("ease-out"), SymmetryEnabled := Bool(false)]
  }

  /** `base(cfg)`: the defaults, with every field of `cfg` taking precedence */
  function Base(cfg: Config): (r: Config)
    ensures r.Keys == BaseDefaults().Keys + cfg.Keys
    ensures forall k :: k in cfg ==> r[k] == cfg[k]
    ensures forall k :: k in BaseDefaults() && k !in cfg ==> r[k] == BaseDefaults()[k]
  {
    Merge(BaseDefaults(), cfg)
  }

  /** The look of the acid-drip family, with symmetry turned on */
  function AcidLook(colors: seq<string>): Config {
    map[SurfaceTension := Num(0.66), GravityStrength := Num(0.55), Viscosity := Num(0.22), Gloss := Num(0.9),
        LightIntensity := Num(1.3), RefractionStrength := Num(0.8), ChromaticAberration := Num(0.02),
        Bloom := Num(0.6), Colors := Strs(colors), SymmetryEnabled := Bool(true), SymmetryCount := Num(6.0),
        SymmetryMirror := Bool(true), SceneBrightness := Num(1.2), FlashOnResize := Bool(true),
        FlashIntensity := Num(0.2), FlickerEnabled := Bool(true), FlickerIntensity := Num(0.18),
        EdgeRunoffEnabled := Bool(true), EdgeRunoffThicknessPx := Num(6.0), EdgeRunoffLengthScale := Num(0.8),
        SceneParallaxEnabled := Bool(true), SceneParallaxAmount := Num(0.6)]
  }

  /** `acidDrippy` */
  function AcidDrippy(name: string, colors: seq<string>, description: Option<string>): Preset {
    Preset(name, description, Acid, Base(AcidLook(colors)))
  }

  /** The look of the sixties family, over a dotted background */
  function GoofyLook(colors: seq<string>): Config {
    map[SurfaceTension := Num(0.58), GravityStrength := Num(0.4), Viscosity := Num(0.28), Bloom := Num(0.7),
        Sunrays := Num(0.5), Colors := Strs(colors), BackgroundPattern := Str("dots"),
        BackgroundOpacity := Num(0.12), BackgroundScale := Num(1.2), SceneBrightness := Num(1.1),
        FlashOnResize := Bool(false), FlickerEnabled := Bool(false), EdgeRunoffEnabled := Bool(true),
        EdgeRunoffThicknessPx := Num(3.0), EdgeRunoffLengthScale := Num(0.5),
        SceneParallaxEnabled := Bool(true), SceneParallaxAmount := Num(0.3)]
  }

  /** `goofy60s` */
  function Goofy60s(name: string, colors: seq<string>, description: Option<string>): Preset {
    Preset(name, description, Goofy, Base(GoofyLook(colors)))
  }

  /** The look of the nitrous family */
  function NitrousLook(colors: seq<string>): Config {
    map[SurfaceTension := Num(0.6), GravityStrength := Num(0.35), Viscosity := Num(0.18), Gloss := Num(0.95),
        LightIntensity := Num(1.4), RefractionStrength := Num(0.9), ChromaticAberration := Num(0.035),
        Grain := Num(0.12), FlickerEnabled := Bool(true), FlickerIntensity := Num(0.25),
        SceneBrightness := Num(1.15), FlashOnResize := Bool(true), FlashIntensity := Num(0.1),
        EdgeRunoffEnabled := Bool(true), EdgeRunoffThicknessPx := Num(2.0), EdgeRunoffLengthScale := Num(0.4),
        SceneParallaxEnabled := Bool(false), SceneParallaxAmount := Num(0.2), Colors := Strs(colors)]
  }

  /** `nitrous` */
  function NitrousPreset(name: string, colors: seq<string>, description: Option<string>): Preset {
    Preset(name, description, Nitrous, Base(NitrousLook(colors)))
  }

  /** The look of healing level `level`: each field moves linearly with the level */
  function HealingLook(level: real, colors: seq<string>): Config {
    map[SurfaceTension := Num(0.56 + level * 0.01), GravityStrength := Num(0.35 + level * 0.02),
        Viscosity := Num(0.24 - level * 0.01), Bloom := Num(0.5 + level * 0.05),
        Sunrays := Num(0.4 + level * 0.04), SceneBrightness := Num(1.05 + level * 0.03),
        FlashOnResize := Bool(false), FlickerEnabled := Bool(false), EdgeRunoffEnabled := Bool(true),
        EdgeRunoffThicknessPx := Num(2.0), EdgeRunoffLengthScale := Num(0.6),
        SceneParallaxEnabled := Bool(false), SceneParallaxAmount := Num(0.2), Colors := Strs(colors)]
  }

  /** `healing` */
  function HealingPreset(name: string, level: real, colors: seq<string>, description: Option<string>): Preset {
    Preset(name, description, Healing, Base(HealingLook(level, colors)))
  }

  /** The look of the blend family before its extra fields */
  function BlendLook(colors: seq<string>): Config {
    map[SurfaceTension := Num(0.62), GravityStrength := Num(0.48), Viscosity := Num(0.2), Bloom := Num(0.65),
        SymmetryEnabled := Bool(true), SymmetryCount := Num(8.0), SymmetryMirror := Bool(true),
        Colors := Strs(colors)]
  }

  /** `blendy`: the blend look with `extra` spread last */
  function Blendy(name: string, colors: seq<string>, extra: Config, description: Option<string>): Preset {
    Preset(name, description, Blends, Base(Merge(BlendLook(colors), extra)))
  }

  /** The nine hand-tuned core presets */
  function CorePresets(): (ps: seq<Preset>)
    ensures |ps| == 9 && forall i :: 0 <= i < |ps| ==> ps[i].category == Core
  {
    [
      Preset("Cosmic Soup", Some("Balanced classic fluid feel"), Core,
        map[Density := Num(0.9), Velocity := Num(0.3), Viscosity := Num(0.2), Pressure := Num(0.8), Diffusion := Num(0.6), Bloom := Num(0.5), Sunrays := Num(0.5), Colors := Strs(["#ff0000", "#00ff00", "#0000ff"]), SplatRadius := Num(0.25)]),
      Preset("Lava Lamp", Some("Heavy blobs with warm palette"), Core,
        map[Density := Num(0.8), Velocity := Num(0.2), Viscosity := Num(0.7), Pressure := Num(0.1), Diffusion := Num(0.8), Bloom := Num(0.7), Sunrays := Num(0.2), Colors := Strs(["#ff4800", "#ff8400", "#ff0000"]), SplatRadius := Num(0.5)]),
      Preset("Aurora Borealis", Some("Fast wisps in cool lights"), Core,
        map[Density := Num(0.5), Velocity := Num(0.7), Viscosity := Num(0.1), Pressure := Num(0.5), Diffusion := Num(0.4), Bloom := Num(0.4), Sunrays := Num(0.6), Colors := Strs(["#00ff99", "#00aaff", "#9933ff"]), SplatRadius := Num(0.4)]),
      Preset("Neon Noir", Some("High-contrast neon film look"), Core,
        map[Density := Num(0.6), Velocity := Num(0.8), Viscosity := Num(0.1), Pressure := Num(0.7), Diffusion := Num(0.5), Bloom := Num(0.8), Sunrays := Num(0.3), Colors := Strs(["#ff00ff", "#00ffff", "#ff00aa", "#00ffaa"]), SplatRadius := Num(0.3)]),
      Preset("Oceanic Depth", Some("Slow deep sea motion"), Core,
        map[Density := Num(0.9), Velocity := Num(0.1), Viscosity := Num(0.8), Pressure := Num(0.2), Diffusion := Num(0.9), Bloom := Num(0.2), Sunrays := Num(0.1), Colors := Strs(["#000033", "#002266", "#004499", "#0066cc"]), SplatRadius := Num(0.6)]),
      Preset("Fairy Garden", Some("Bright airy pastels and glow"), Core,
        map[Density := Num(0.4), Velocity := Num(0.5), Viscosity := Num(0.3), Pressure := Num(0.4), Diffusion := Num(0.7), Bloom := Num(0.6), Sunrays := Num(0.7), Colors := Strs(["#ffb3de", "#ffd6ab", "#ffffd1", "#abffd6", "#a3e6ff"]), SplatRadius := Num(0.2)]),
      Preset("Ink Drop", Some("Monochrome minimal diffusion"), Core,
        map[Density := Num(1.0), Velocity := Num(0.5), Viscosity := Num(0.01), Pressure := Num(0.2), Diffusion := Num(0.0), Bloom := Num(0.1), Sunrays := Num(0.1), Colors := Strs(["#ffffff", "#cccccc", "#999999"]), SplatRadius := Num(0.1)]),
      Preset("Pastel Dreams", Some("Soft candy gradients"), Core,
        map[Density := Num(0.7), Velocity := Num(0.4), Viscosity := Num(0.3), Pressure := Num(0.6), Diffusion := Num(0.7), Bloom := Num(0.6), Sunrays := Num(0.3), Colors := Strs(["#ffadad", "#ffd6a5", "#fdffb6", "#caffbf", "#9bf6ff", "#a0c4ff", "#bdb2ff"]), SplatRadius := Num(0.3)]),
      Preset("Errl Day", Some("Golden oil, vibrant water, shimmer"), Core,
        map[SurfaceTension := Num(0.62), Viscosity := Num(0.45), OilDensity := Num(0.85), WaterDensity := Num(1.0), GravityAngleDeg := Num(100.0), GravityStrength := Num(0.55), SimScale := Num(0.5), PressureIterations := Num(12.0), RefractiveIndexOil := Num(1.47), Gloss := Num(0.80), LightAngleDeg := Num(35.0), LightIntensity := Num(1.20), RefractionStrength := Num(0.80), ThinFilm := Bool(true), OilPalette := Strs(["#FFB200", "#D88C00", "#A85E00", "#FFD67B", "#FF8C3A"]), WaterPalette := Strs(["#00C2FF", "#0077FF", "#2B2DFF", "#7A00FF", "#00FFA6"]), Colors := Strs(["#FFB200", "#00C2FF", "#D88C00", "#0077FF", "#FF8C3A"]), Density := Num(0.85), Velocity := Num(0.4), Diffusion := Num(0.7), Bloom := Num(0.6), Sunrays := Num(0.5), SplatRadius := Num(0.3), BlendMode := Str("lighter"), ChromaticAberration := Num(0.02), Grain := Num(0.15)])
    ]
  }

  /** The twelve acid-drip presets: the arguments of each builder call */
  function AcidEntries(): seq<(string, seq<string>)> {
    [
      ("Meltshift", ["#ff3b3b", "#ff9f1a", "#ffe600", "#33ff99", "#32aaff"]),
      ("Dripadelic", ["#ff00aa", "#ff0066", "#ff5500", "#ffaa00", "#ffee00"]),
      ("Acid Carousel", ["#ff5af7", "#ffe45e", "#5eff7e", "#5ed8ff"]),
      ("Neon Ooze", ["#00ffd5", "#00ff73", "#7bff00", "#ffe100"]),
      ("Kaleido-Drip", ["#ff4d4d", "#ff66ff", "#66ffff", "#66ff66"]),
      ("Wax Melt Mirage", ["#ffbf00", "#ff7b00", "#ffd64d", "#ff9f40"]),
      ("Lava Lullaby", ["#ff6b6b", "#ffa36b", "#ffd36b", "#fff36b"]),
      ("Chromagloop", ["#f72585", "#7209b7", "#3a0ca3", "#4361ee", "#4cc9f0"]),
      ("Psygoo Pool", ["#ff00ff", "#00ffff", "#00ff88", "#ffff00"]),
      ("Tie-Dye Taffy", ["#ff7eb3", "#ff65a3", "#7afcff", "#feff9c"]),
      ("Melt Circus", ["#ff4d00", "#ffb300", "#ffe100", "#00ffa8"]),
      ("Vortex Viscosity", ["#a1ff0a", "#0aff99", "#0aefff", "#7a0aff"])
    ]
  }

  function AcidPresets(): (ps: seq<Preset>)
    ensures |ps| == |AcidEntries()| && forall i :: 0 <= i < |ps| ==> ps[i].category == Acid
  {
    var es := AcidEntries();
    seq(|es|, i requires 0 <= i < |es| => var e := es[i]; AcidDrippy(e.0, e.1, None))
  }

  /** The twelve sixties presets: the arguments of each builder call */
  function GoofyEntries(): seq<(string, seq<string>)> {
    [
      ("Groovy Grin", ["#ffd6e8", "#ffe29a", "#c3fbd8", "#a0e7e5"]),
      ("Wobble Pop", ["#ffcad4", "#f7d6e0", "#cdeac0", "#c3bef0"]),
      ("Jello Jive", ["#ff9aa2", "#ffdac1", "#b5ead7", "#c7ceea"]),
      ("Bubblegum Lava", ["#ff7eb9", "#ff65a3", "#7afcff", "#feff9c"]),
      ("Happenin\U{E2}\U{20AC}\U{2122} Haze", ["#ffd1ff", "#d1ffd6", "#d1e8ff", "#fff1d1"]),
      ("Boogie Swirl", ["#ffd6a5", "#fdffb6", "#caffbf", "#9bf6ff"]),
      ("Doodle Drool", ["#fcd5ce", "#faedcd", "#d4a373", "#cddafd"]),
      ("Funky Fondue", ["#ffe3e3", "#fad2e1", "#e2f0cb", "#c9e4de"]),
      ("Polka Puddle", ["#bde0fe", "#a2d2ff", "#ffc8dd", "#ffafcc"]),
      ("Popcorn Paisley", ["#fff1a8", "#ffd6a5", "#ffc6ff", "#a0c4ff"]),
      ("Laugh Track Lagoon", ["#e4c1f9", "#a9def9", "#d0f4de", "#fcf6bd"]),
      ("Go-Go Goo", ["#f4a261", "#e9c46a", "#2a9d8f", "#e76f51"])
    ]
  }

  function GoofyPresets(): (ps: seq<Preset>)
    ensures |ps| == |GoofyEntries()| && forall i :: 0 <= i < |ps| ==> ps[i].category == Goofy
  {
    var es := GoofyEntries();
    seq(|es|, i requires 0 <= i < |es| => var e := es[i]; Goofy60s(e.0, e.1, None))
  }

  /** The twelve nitrous presets: the arguments of each builder call */
  function NitrousEntries(): seq<(string, seq<string>)> {
    [
      ("Balloon Room", ["#8ec5ff", "#b3e5ff", "#e0f7ff", "#ffffff"]),
      ("Laughing Drift", ["#88ccff", "#bbddff", "#e6f5ff", "#f8ffff"]),
      ("Blue Balloon Bloom", ["#6fb3ff", "#a6d0ff", "#d9edff", "#ffffff"]),
      ("N2O Nightlight", ["#4da3ff", "#85c5ff", "#cfeaff", "#f5fbff"]),
      ("Velvet Vapor", ["#5d6d7e", "#8395a7", "#b8c6d9", "#ecf2f9"]),
      ("Silver Hiss", ["#c0d6df", "#e3eff6", "#f7fbff", "#ffffff"]),
      ("Dental Dreamwave", ["#8fd3fe", "#84fab0", "#b6e0fe", "#e4f5ff"]),
      ("Giggle Glide", ["#9ad0f5", "#c0e4ff", "#e6f5ff", "#ffffff"]),
      ("Aerogel Aura", ["#bde0fe", "#d7efff", "#eef9ff", "#ffffff"]),
      ("Cloud Tank", ["#a3bded", "#cfcfe8", "#f5f7fa", "#ffffff"]),
      ("Nitrous Nectar", ["#64c8ff", "#9fe0ff", "#d8f4ff", "#ffffff"]),
      ("Foggy Halo", ["#8bbcd7", "#b7d7ee", "#e2f0fb", "#ffffff"])
    ]
  }

  function NitrousPresets(): (ps: seq<Preset>)
    ensures |ps| == |NitrousEntries()| && forall i :: 0 <= i < |ps| ==> ps[i].category == Nitrous
  {
    var es := NitrousEntries();
    seq(|es|, i requires 0 <= i < |es| => var e := es[i]; NitrousPreset(e.0, e.1, None))
  }

  /** The seven healing levels: the arguments of each builder call */
  function HealingEntries(): seq<(string, real, seq<string>)> {
    [
      ("Level 1: Soothing Ripple", 1.0, ["#a8e6cf", "#dcedc1", "#ffd3b6", "#ffaaa5"]),
      ("Level 2: Aloe Glow", 2.0, ["#b7e4c7", "#95d5b2", "#74c69d", "#52b788"]),
      ("Level 3: Rose Quartz Wash", 3.0, ["#f4acb7", "#f7cad0", "#e8aeb7", "#fde2e4"]),
      ("Level 4: Reiki Rain", 4.0, ["#bde0fe", "#c0fdff", "#dee2ff", "#ffd6ff"]),
      ("Level 5: Sacred Serum", 5.0, ["#caffbf", "#b7f0ad", "#9df7a1", "#97f9a9"]),
      ("Level 6: Temple Tonic", 6.0, ["#bee3f8", "#c6f6d5", "#feebc8", "#fed7e2"]),
      ("Level 7: Seraphic Soak", 7.0, ["#e9d8fd", "#c4b5fd", "#a78bfa", "#ddd6fe"])
    ]
  }

  function HealingPresets(): (ps: seq<Preset>)
    ensures |ps| == |HealingEntries()| && forall i :: 0 <= i < |ps| ==> ps[i].category == Healing
  {
    var es := HealingEntries();
    seq(|es|, i requires 0 <= i < |es| => var e := es[i]; HealingPreset(e.0, e.1, e.2, None))
  }

  /** The ten blend presets: the arguments of each builder call */
  function BlendEntries(): seq<(string, seq<string>, Config)> {
    [
      ("Mandalooze", ["#ffadad", "#ffd6a5", "#fdffb6", "#caffbf"], map[SymmetryCount := Num(12.0), SymmetryRotationDeg := Num(15.0)]),
      ("Dripnosis", ["#ff7eb9", "#ff65a3", "#7afcff", "#feff9c"], map[DropTimeToMaxMs := Num(1400.0)]),
      ("Cosmic Pudding", ["#9b5de5", "#f15bb5", "#fee440", "#00bbf9"], map[Viscosity := Num(0.26)]),
      ("Paisley Plasma", ["#30cfd0", "#330867", "#5b247a", "#1bcedf"], map[BackgroundPattern := Str("radial"), BackgroundOpacity := Num(0.08)]),
      ("Velvet Vortex", ["#352f44", "#5c5470", "#b9b4c7", "#faf0e6"], map[Gloss := Num(0.85)]),
      ("Tranquil Taffy", ["#ffd6e0", "#e2f0cb", "#c9e4de", "#bee3db"], map[GravityStrength := Num(0.38)]),
      ("Saffron Swell", ["#ffb703", "#fb8500", "#8ecae6", "#219ebc"], map[LightIntensity := Num(1.3)]),
      ("Honey Haze", ["#ffe5a5", "#ffd166", "#ffd07f", "#ffad60"], map[Bloom := Num(0.7)]),
      ("Ether Taffeta", ["#8ec5fc", "#e0c3fc", "#f9f9ff", "#ffffff"], map[ChromaticAberration := Num(0.03)]),
      ("Prism Puddle", ["#f72585", "#b5179e", "#7209b7", "#560bad", "#4361ee"], map[SymmetryCount := Num(8.0), SymmetryRotationDeg := Num(22.0)])
    ]
  }

  function BlendPresets(): (ps: seq<Preset>)
    ensures |ps| == |BlendEntries()| && forall i :: 0 <= i < |ps| ==> ps[i].category == Blends
  {
    var es := BlendEntries();
    seq(|es|, i requires 0 <= i < |es| => var e := es[i]; Blendy(e.0, e.1, e.2, None))
  }

  /** `PRESETS`: core, acid, sixties, nitrous, healing, then blends */
  function AllPresets(): seq<Preset> {
    CorePresets() + AcidPresets() + GoofyPresets() + NitrousPresets() + HealingPresets() + BlendPresets()
  }

  /** The category a catalogue position belongs to */
  function CategoryAt(i: nat): Category {
    if i < 9 then Core
    else if i < 21 then Acid
    else if i < 33 then Goofy
    else if i < 45 then Nitrous
    else if i < 52 then Healing
    else Blends
  }

  /** Each group holds its own category only */
  lemma CoreCategories()
    ensures |CorePresets()| == 9 && forall i :: 0 <= i < 9 ==> CorePresets()[i].category == Core
  {
  }

  lemma AcidCategories()
    ensures |AcidPresets()| == 12 && forall i :: 0 <= i < 12 ==> AcidPresets()[i].category == Acid
  {
  }

  lemma GoofyCategories()
    ensures |GoofyPresets()| == 12 && forall i :: 0 <= i < 12 ==> GoofyPresets()[i].category == Goofy
  {
  }

  lemma NitrousCategories()
    ensures |NitrousPresets()| == 12 && forall i :: 0 <= i < 12 ==> NitrousPresets()[i].category == Nitrous
  {
  }

  lemma HealingCategories()
    ensures |HealingPresets()| == 7 && forall i :: 0 <= i < 7 ==> HealingPresets()[i].category == Healing
  {
  }

  lemma BlendCategories()
    ensures |BlendPresets()| == 10 && forall i :: 0 <= i < 10 ==> BlendPresets()[i].category == Blends
  {
  }

  /** 62 presets: 9 core, 12 acid, 12 sixties, 12 nitrous, 7 healing, 10 blends, grouped in that order */
  lemma CatalogueLayout()
    ensures |AllPresets()| == 62
    ensures forall i :: 0 <= i < 62 ==> AllPresets()[i].category == CategoryAt(i)
  {
    CoreCategories();
    AcidCategories();
    GoofyCategories();
    NitrousCategories();
    HealingCategories();
    BlendCategories();
    var c, a, g, n, h, b := CorePresets(), AcidPresets(), GoofyPresets(), NitrousPresets(), HealingPresets(), BlendPresets();
    var all := AllPresets();
    assert all == c + a + g + n + h + b;
    forall i | 0 <= i < 62
      ensures all[i].category == CategoryAt(i)
    {
      if i < 9 { assert all[i] == c[i]; }
      else if i < 21 { assert all[i] == a[i - 9]; }
      else if i < 33 { assert all[i] == g[i - 21]; }
      else if i < 45 { assert all[i] == n[i - 33]; }
      else if i < 52 { assert all[i] == h[i - 45]; }
      else { assert all[i] == b[i - 52]; }
    }
  }

  /** A look without dropper fields keeps all five dropper defaults under `base` */
  predicate KeepsDropperDefaults(c: Config) {
    && DropperEnabled in c && DropMinRadius in c && DropMaxRadius in c && DropTimeToMaxMs in c && DropEasing in c
    && c[DropperEnabled] == Bool(true) && c[DropMinRadius] == Num(0.01) && c[DropMaxRadius] == Num(0.12)
    && c[DropTimeToMaxMs] == Num(1000.0) && c[DropEasing] == Str("ease-out")
  }

  lemma BaseKeepsDropperDefaults(look: Config)
    requires DropperEnabled !in look && DropMinRadius !in look && DropMaxRadius !in look
    requires DropTimeToMaxMs !in look && DropEasing !in look
    ensures KeepsDropperDefaults(Base(look))
  {
  }

  /** Every family leaves the dropper defaults in place; a blend does unless its extra fields set them */
  lemma AcidKeepsDropperDefaults(name: string, colors: seq<string>, d: Option<string>)
    ensures KeepsDropperDefaults(AcidDrippy(name, colors, d).config)
  {
    BaseKeepsDropperDefaults(AcidLook(colors));
  }

  lemma GoofyKeepsDropperDefaults(name: string, colors: seq<string>, d: Option<string>)
    ensures KeepsDropperDefaults(Goofy60s(name, colors, d).config)
  {
    BaseKeepsDropperDefaults(GoofyLook(colors));
  }

  lemma NitrousKeepsDropperDefaults(name: string, colors: seq<string>, d: Option<string>)
    ensures KeepsDropperDefaults(NitrousPreset(name, colors, d).config)
  {
    BaseKeepsDropperDefaults(NitrousLook(colors));
  }

  lemma HealingKeepsDropperDefaults(name: string, level: real, colors: seq<string>, d: Option<string>)
    ensures KeepsDropperDefaults(HealingPreset(name, level, colors, d).config)
  {
    BaseKeepsDropperDefaults(HealingLook(level, colors));
  }

  lemma BlendKeepsDropperDefaults(name: string, colors: seq<string>, extra: Config, d: Option<string>)
    requires DropperEnabled !in extra && DropMinRadius !in extra && DropMaxRadius !in extra
    requires DropTimeToMaxMs !in extra && DropEasing !in extra
    ensures KeepsDropperDefaults(Blendy(name, colors, extra, d).config)
  {
    BaseKeepsDropperDefaults(Merge(BlendLook(colors), extra));
  }

  /** The acid family turns symmetry on at six-fold, overriding the base default */
  lemma AcidShape(name: string, colors: seq<string>, d: Option<string>)
    ensures
      var p := AcidDrippy(name, colors, d);
      && p.category == Acid && p.name == name
      && p.config[SymmetryEnabled] == Bool(true) && p.config[SymmetryCount] == Num(6.0)
      && ColorsOf(p.config) == colors
  {
    var look := AcidLook(colors);
    assert look[SymmetryEnabled] == Bool(true) && look[SymmetryCount] == Num(6.0);
    assert look[Colors] == Strs(colors);
  }

  /** Sixties and nitrous presets keep symmetry off, as the base sets it */
  lemma SymmetryOffByDefault(name: string, colors: seq<string>, level: real, d: Option<string>)
    ensures Goofy60s(name, colors, d).config[SymmetryEnabled] == Bool(false)
    ensures NitrousPreset(name, colors, d).config[SymmetryEnabled] == Bool(false)
    ensures HealingPreset(name, level, colors, d).config[SymmetryEnabled] == Bool(false)
  {
    assert SymmetryEnabled in BaseDefaults() && BaseDefaults()[SymmetryEnabled] == Bool(false);
    assert SymmetryEnabled !in GoofyLook(colors);
    assert SymmetryEnabled !in NitrousLook(colors);
    assert SymmetryEnabled !in HealingLook(level, colors);
  }

  /** A blend's extra fields win over its own look and the base; absent ones fall back to eight-fold symmetry */
  lemma BlendExtraWins(name: string, colors: seq<string>, extra: Config, d: Option<string>)
    ensures forall k :: k in extra ==> Blendy(name, colors, extra, d).config[k] == extra[k]
    ensures SymmetryCount !in extra ==> Blendy(name, colors, extra, d).config[SymmetryCount] == Num(8.0)
    ensures SymmetryEnabled !in extra ==> Blendy(name, colors, extra, d).config[SymmetryEnabled] == Bool(true)
  {
  }

  /** Mandalooze overrides the blend's symmetry with twelve-fold at 15 degrees */
  lemma MandaloozeSymmetry()
    ensures AllPresets()[52].name == "Mandalooze"
    ensures AllPresets()[52].config[SymmetryCount] == Num(12.0)
    ensures AllPresets()[52].config[SymmetryRotationDeg] == Num(15.0)
  {
    CatalogueLayout();
    var all := AllPresets();
    assert all[52] == BlendPresets()[0];
    var extra := map[SymmetryCount := Num(12.0), SymmetryRotationDeg := Num(15.0)];
    BlendExtraWins("Mandalooze", ["#ffadad", "#ffd6a5", "#fdffb6", "#caffbf"], extra, None);
  }

  /** Each healing field is linear in the level: one level up moves it by a fixed step */
  lemma HealingLinear(level: real, colors: seq<string>)
    ensures
      var p, q := HealingLook(level, colors), HealingLook(level + 1.0, colors);
      && q[SurfaceTension].n - p[SurfaceTension].n == 0.01
      && q[GravityStrength].n - p[GravityStrength].n == 0.02
      && q[Viscosity].n - p[Viscosity].n == -0.01
      && q[Bloom].n - p[Bloom].n == 0.05
      && q[Sunrays].n - p[Sunrays].n == 0.04
      && q[SceneBrightness].n - p[SceneBrightness].n == 0.03
  {
  }

  /** A healing preset carries its level's look over the base */
  lemma HealingCarriesLook(name: string, level: real, colors: seq<string>, d: Option<string>)
    ensures forall k :: k in HealingLook(level, colors) ==>
      HealingPreset(name, level, colors, d).config[k] == HealingLook(level, colors)[k]
  {
  }
}
