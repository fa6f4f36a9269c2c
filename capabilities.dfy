/**
 * The WebGL capability probe: which texture extensions exist, the render
 * target format chosen from them, and the process-wide cache of the result.
 */
module Capabilities {
  import opened Wrappers

  /** The six extensions the probe asks for, in the order it asks */
  datatype Extension =
    | TextureHalfFloat        // OES_texture_half_float
    | TextureHalfFloatLinear  // OES_texture_half_float_linear
    | TextureFloat            // OES_texture_float
    | TextureFloatLinear      // OES_texture_float_linear
    | ColorBufferFloat        // WEBGL_color_buffer_float
    | ColorBufferHalfFloat    // EXT_color_buffer_half_float

  /**
   * What `canvas.getContext('webgl')` gives: no context, or a context whose
   * `getExtension` answers non-null for exactly `extensions`.
   */
  datatype Context = NoContext | WebGL(extensions: set<Extension>, maxTextureSize: int)

  datatype RtFormat = HalfFloat | Float | Rgba8

  datatype Caps = Caps(
    supported: bool,
    halfFloat: bool,
    halfFloatLinear: bool,
    float: bool,
    floatLinear: bool,
    colorBufferFloat: bool,
    colorBufferHalfFloat: bool,
    maxTextureSize: int,
    rtFormat: RtFormat)

  /** The best simulation format the extensions allow */
  function ChooseFormat(exts: set<Extension>): (f: RtFormat)
    ensures f == HalfFloat <==> TextureHalfFloat in exts && ColorBufferHalfFloat in exts
    ensures f == Float <==>
      !(TextureHalfFloat in exts && ColorBufferHalfFloat in exts) &&
      TextureFloat in exts && ColorBufferFloat in exts
    ensures f == Rgba8 <==>
      !(TextureHalfFloat in exts && ColorBufferHalfFloat in exts) &&
      !(TextureFloat in exts && ColorBufferFloat in exts)
  {
    if TextureHalfFloat in exts && ColorBufferHalfFloat in exts then HalfFloat
    else if TextureFloat in exts && ColorBufferFloat in exts then Float
    else Rgba8
  }

  /** One uncached probe of the context */
  function Probe(ctx: Context): (c: Caps)
    ensures ctx.NoContext? ==>
      c == Caps(false, false, false, false, false, false, false, 0, Rgba8)
    ensures ctx.WebGL? ==>
      && c.supported
      && (c.halfFloat <==> TextureHalfFloat in ctx.extensions)
      && (c.halfFloatLinear <==> TextureHalfFloatLinear in ctx.extensions)
      && (c.float <==> TextureFloat in ctx.extensions)
      && (c.floatLinear <==> TextureFloatLinear in ctx.extensions)
      && (c.colorBufferFloat <==> ColorBufferFloat in ctx.extensions)
      && (c.colorBufferHalfFloat <==> ColorBufferHalfFloat in ctx.extensions)
      && c.maxTextureSize == ctx.maxTextureSize
      && c.rtFormat == ChooseFormat(ctx.extensions)
  {
    match ctx
    case NoContext => Caps(false, false, false, false, false, false, false, 0, Rgba8)
    case WebGL(exts, size) =>
      Caps(true,
        TextureHalfFloat in exts, TextureHalfFloatLinear in exts,
        TextureFloat in exts, TextureFloatLinear in exts,
        ColorBufferFloat in exts, ColorBufferHalfFloat in exts,
        size, ChooseFormat(exts))
  }

  /** A format other than RGBA8 is only chosen when the texture extension for it exists */
  lemma FormatNeedsExtensions(ctx: Context)
    ensures Probe(ctx).rtFormat == HalfFloat ==> Probe(ctx).halfFloat && Probe(ctx).colorBufferHalfFloat
    ensures Probe(ctx).rtFormat == Float ==> Probe(ctx).float && Probe(ctx).colorBufferFloat
    ensures !Probe(ctx).supported ==> Probe(ctx).rtFormat == Rgba8
  {
  }

  /**
   * The module-level `cachedCaps`: empty until the first detection, then the
   * first result for the rest of the process.
   */
  class CapabilityCache {
    var cached: Option<Caps>
    /** How many times a context was actually probed */
    var probes: nat

    constructor ()
      ensures cached == None && probes == 0
    {
      cached := None;
      probes := 0;
    }

    /** `detectWebGLCapabilities()`, with `ctx` what a fresh canvas would give */
    method Detect(ctx: Context) returns (c: Caps)
      modifies this
      ensures old(cached).Some? ==> c == old(cached).value && cached == old(cached) && probes == old(probes)
      ensures old(cached).None? ==> c == Probe(ctx) && cached == Some(c) && probes == old(probes) + 1
    {
      if cached.Some? {
        return cached.value;
      }
      c := Probe(ctx);
      cached := Some(c);
      probes := probes + 1;
    }

    /** `supportsWebGL()` */
    method SupportsWebGL(ctx: Context) returns (b: bool)
      modifies this
      ensures old(cached).Some? ==> b == old(cached).value.supported && cached == old(cached)
      ensures old(cached).None? ==> b == Probe(ctx).supported && cached == Some(Probe(ctx))
      ensures cached.Some? && b == cached.value.supported
    {
      var c := Detect(ctx);
      b := c.supported;
    }
  }

  /** Two detections probe once and answer the same, whatever the second context */
  method DetectTwice(cache: CapabilityCache, first: Context, second: Context) returns (a: Caps, b: Caps)
    requires cache.cached == None
    modifies cache
    ensures a == b == Probe(first)
    ensures cache.probes == old(cache.probes) + 1
  {
    a := cache.Detect(first);
    b := cache.Detect(second);
  }
}
