/**
 * The light overlay drawn over the canvas: a window resize raises a flash and
 * a splat raises a flicker; every animation frame lowers both, never below
 * zero; the overlay shows their sum capped at 1. The random draw that sets
 * each frame's flicker decay is a parameter in [0, 1).
 */
module AfterEffects {
  import Js
  import C = Config

  const DefaultFlashIntensity: real := 0.15
  const DefaultFlickerIntensity: real := 0.2
  const DefaultFlashDurationMs: real := 300.0

  function FlashIntensity(config: C.Config): real {
    C.NumOr(config, C.FlashIntensity, DefaultFlashIntensity)
  }

  function FlashDurationMs(config: C.Config): real {
    C.NumOr(config, C.FlashDurationMs, DefaultFlashDurationMs)
  }

  /** How much the flash loses per frame: its intensity spread over the duration counted in 60 ms frames */
  function FlashRate(config: C.Config): real
    requires FlashDurationMs(config) != 0.0
  {
    FlashIntensity(config) / (FlashDurationMs(config) / 60.0)
  }

  /** How much the flicker loses on a frame with random draw `r` */
  function FlickerRate(r: real): (rate: real)
    requires 0.0 <= r < 1.0
    ensures 0.06 <= rate < 0.14
  {
    0.06 + r * 0.08
  }

  /** `decay(value, rate)` */
  function Decay(value: real, rate: real): real {
    Js.Max(0.0, value - rate)
  }

  /** `n` successive frames of decay at a fixed rate */
  function Decayed(value: real, rate: real, n: nat): real {
    if n == 0 then value else Decay(Decayed(value, rate, n - 1), rate)
  }

  /** The overlay's opacity: the two alphas together, kept in [0, 1] */
  function OverlayAlpha(flash: real, flicker: real): (alpha: real)
    ensures 0.0 <= alpha <= 1.0
    ensures 0.0 <= flash + flicker <= 1.0 ==> alpha == flash + flicker
  {
    Js.Clamp(flash + flicker, 0.0, 1.0)
  }

  /** The component's two alphas under the configuration it was rendered with */
  class Overlay {
    var config: C.Config
    var flashAlpha: real
    var flickerAlpha: real

    /** Both alphas are non-negative */
    predicate Valid()
      reads this
    {
      flashAlpha >= 0.0 && flickerAlpha >= 0.0
    }

    constructor(config: C.Config)
      ensures Valid()
      ensures this.config == config && flashAlpha == 0.0 && flickerAlpha == 0.0
    {
      this.config := config;
      flashAlpha := 0.0;
      flickerAlpha := 0.0;
    }

    /** A `resize` event: with `flashOnResize` the flash rises to at least its intensity */
    method OnResize()
      requires Valid()
      modifies this
      ensures Valid()
      ensures C.IsTrue(config, C.FlashOnResize) ==> flashAlpha == Js.Max(old(flashAlpha), FlashIntensity(config))
      ensures !C.IsTrue(config, C.FlashOnResize) ==> flashAlpha == old(flashAlpha)
      ensures flickerAlpha == old(flickerAlpha) && config == old(config)
    {
      if !C.IsTrue(config, C.FlashOnResize) {
        return;
      }
      flashAlpha := Js.Max(flashAlpha, FlashIntensity(config));
    }

    /** The splat hook: with `flickerEnabled` the flicker rises to at least its intensity */
    method OnSplat()
      requires Valid()
      modifies this
      ensures Valid()
      ensures C.IsTrue(config, C.FlickerEnabled) ==>
        flickerAlpha == Js.Max(old(flickerAlpha), C.NumOr(config, C.FlickerIntensity, DefaultFlickerIntensity))
      ensures !C.IsTrue(config, C.FlickerEnabled) ==> flickerAlpha == old(flickerAlpha)
      ensures flashAlpha == old(flashAlpha) && config == old(config)
    {
      if !C.IsTrue(config, C.FlickerEnabled) {
        return;
      }
      flickerAlpha := Js.Max(flickerAlpha, C.NumOr(config, C.FlickerIntensity, DefaultFlickerIntensity));
    }

    /** One animation frame: both alphas decay, the flicker at a random rate */
    method Frame(r: real)
      requires Valid() && FlashDurationMs(config) != 0.0 && 0.0 <= r < 1.0
      modifies this
      ensures Valid() && config == old(config)
      ensures flashAlpha == Decay(old(flashAlpha), FlashRate(config))
      ensures flickerAlpha == Decay(old(flickerAlpha), FlickerRate(r))
      ensures flickerAlpha < old(flickerAlpha) || flickerAlpha == 0.0
    {
      flashAlpha := Decay(flashAlpha, FlashRate(config));
      flickerAlpha := Decay(flickerAlpha, FlickerRate(r));
    }

    /** A new configuration from the parent */
    method SetConfig(next: C.Config)
      modifies this
      ensures config == next && flashAlpha == old(flashAlpha) && flickerAlpha == old(flickerAlpha)
    {
      config := next;
    }

    function GetOverlayAlpha(): real
      reads this
    {
      OverlayAlpha(flashAlpha, flickerAlpha)
    }

    /** The overlay element is rendered only while its opacity is positive */
    predicate ShowsOverlay()
      reads this
    {
      GetOverlayAlpha() > 0.0
    }
  }

  // ---------------------------------------------------------------------

  /** Decay never goes below zero and never raises a value for a non-negative rate */
  lemma DecayBounds(value: real, rate: real)
    ensures Decay(value, rate) >= 0.0
    ensures rate >= 0.0 && value >= 0.0 ==> Decay(value, rate) <= value
  {
  }

  /** `n` frames at a non-negative rate remove `n` times the rate, stopping at zero */
  lemma {:induction false} DecayedClosedForm(value: real, rate: real, n: nat)
    requires rate >= 0.0
    ensures n > 0 ==> Decayed(value, rate, n) == Js.Max(0.0, value - n as real * rate)
  {
    if n > 1 {
      DecayedClosedForm(value, rate, n - 1);
      assert (n - 1) as real * rate + rate == n as real * rate;
    }
  }

  /**
   * A flash of at most its intensity with a positive duration is gone once
   * the duration has passed in 60 ms frames: `n * 60 >= duration` frames.
   */
  lemma FlashFadesOut(config: C.Config, value: real, n: nat)
    requires FlashIntensity(config) > 0.0 && FlashDurationMs(config) > 0.0
    requires 0.0 <= value <= FlashIntensity(config)
    requires n > 0 && n as real * 60.0 >= FlashDurationMs(config)
    ensures Decayed(value, FlashRate(config), n) == 0.0
  {
    var i := FlashIntensity(config);
    var frames := FlashDurationMs(config) / 60.0;
    var rate := FlashRate(config);
    assert rate == i / frames;
    assert rate > 0.0;
    assert n as real >= frames;
    assert n as real * rate >= frames * rate by {
      assert (n as real - frames) * rate >= 0.0;
    }
    assert frames * rate == i;
    DecayedClosedForm(value, rate, n);
  }

  /** The overlay shows exactly when some alpha is positive, given both are non-negative */
  lemma OverlayShownIff(flash: real, flicker: real)
    requires flash >= 0.0 && flicker >= 0.0
    ensures OverlayAlpha(flash, flicker) > 0.0 <==> flash > 0.0 || flicker > 0.0
  {
  }
}
