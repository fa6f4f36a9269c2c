/**
 * Audio reactivity: an analyser's byte spectrum is averaged over the bass,
 * mid, treble and full bands, each band is exponentially smoothed, and the
 * parameters choose which band drives the visuals. The Web Audio graph is
 * reduced to flags (which nodes exist) and the sample rate; each animation
 * frame's analyser readings are a parameter, and so are the frame ids
 * `requestAnimationFrame` hands out.
 */
module AudioService {
  import opened Wrappers
  import Easing
  import Js

  datatype FrequencyRange = Bass | Mid | Treble | Full

  datatype Params = Params(
    enabled: bool,
    sensitivity: real,
    smoothing: real,
    frequencyRange: FrequencyRange,
    modulateColors: bool,
    modulateVelocity: bool,
    modulateSize: bool,
    modulateParticleCount: bool,
    modulateGravity: bool,
    colorAmount: real,
    velocityAmount: real,
    sizeAmount: real,
    particleAmount: real,
    gravityAmount: real)

  const DefaultParams := Params(false, 0.7, 0.8, Full, true, true, true, false, false, 0.5, 0.6, 0.4, 0.3, 0.2)

  /** `Partial<AudioReactiveParams>`: a field given or not */
  datatype ParamsPatch = ParamsPatch(
    enabled: Option<bool>,
    sensitivity: Option<real>,
    smoothing: Option<real>,
    frequencyRange: Option<FrequencyRange>,
    modulateColors: Option<bool>,
    modulateVelocity: Option<bool>,
    modulateSize: Option<bool>,
    modulateParticleCount: Option<bool>,
    modulateGravity: Option<bool>,
    colorAmount: Option<real>,
    velocityAmount: Option<real>,
    sizeAmount: Option<real>,
    particleAmount: Option<real>,
    gravityAmount: Option<real>)

  const NoPatch := ParamsPatch(None, None, None, None, None, None, None, None, None, None, None, None, None, None)

  /** `{ ...params, ...patch }` */
  function Patched(p: Params, q: ParamsPatch): Params {
    Params(
      q.enabled.GetOr(p.enabled),
      q.sensitivity.GetOr(p.sensitivity),
      q.smoothing.GetOr(p.smoothing),
      q.frequencyRange.GetOr(p.frequencyRange),
      q.modulateColors.GetOr(p.modulateColors),
      q.modulateVelocity.GetOr(p.modulateVelocity),
      q.modulateSize.GetOr(p.modulateSize),
      q.modulateParticleCount.GetOr(p.modulateParticleCount),
      q.modulateGravity.GetOr(p.modulateGravity),
      q.colorAmount.GetOr(p.colorAmount),
      q.velocityAmount.GetOr(p.velocityAmount),
      q.sizeAmount.GetOr(p.sizeAmount),
      q.particleAmount.GetOr(p.particleAmount),
      q.gravityAmount.GetOr(p.gravityAmount))
  }

  /** The smoothed band levels and the normalised arrays of the last frame */
  datatype AnalysisData = AnalysisData(bass: real, mid: real, treble: real, overall: real, waveform: seq<real>, spectrum: seq<real>)

  /** `frequencyBinCount` of an analyser with `fftSize` 2048 */
  const BinCount: nat := 1024

  predicate Bytes(s: seq<nat>) {
    forall i :: 0 <= i < |s| ==> s[i] < 256
  }

  /** One animation frame: what the analyser reports and the id of the next frame requested */
  datatype Frame = Frame(freq: seq<nat>, wave: seq<nat>, id: nat)

  predicate ValidFrame(f: Frame) {
    |f.freq| == BinCount && |f.wave| == BinCount && Bytes(f.freq) && Bytes(f.wave)
  }

  function Sum(s: seq<nat>): nat {
    if s == [] then 0 else Sum(s[..|s| - 1]) + s[|s| - 1]
  }

  /** The bin a frequency falls in: `Math.floor(freq / nyquist * length)` */
  function Bin(freq: real, nyquist: real, length: nat): (b: int)
    requires nyquist > 0.0
    ensures freq >= 0.0 ==> b >= 0
  {
    assert freq >= 0.0 ==> freq / nyquist >= 0.0;
    (freq / nyquist * length as real).Floor
  }

  /** `getFrequencyAverage` over `data`: the mean of the bins in [startBin, endBin) cut to the array, over 255, times the sensitivity */
  function Average(data: seq<nat>, nyquist: real, sensitivity: real, startFreq: real, endFreq: real): real
    requires nyquist > 0.0 && startFreq >= 0.0
  {
    var hi := Bin(endFreq, nyquist, |data|);
    BandMean(data, Bin(startFreq, nyquist, |data|), if hi < |data| then hi else |data|) * sensitivity
  }

  /** The mean of `data[lo..hi]` over 255, or 0 for an empty band */
  function BandMean(data: seq<nat>, lo: nat, hi: int): real
    requires hi <= |data|
  {
    if lo < hi then Sum(data[lo..hi]) as real / (hi - lo) as real / 255.0 else 0.0
  }

  /** The tail of `getFrequencyAverage`: the band's running sum over its count, over 255, times the sensitivity */
  method ScaledMean(data: seq<nat>, lo: nat, endBin: int, sum: nat, count: nat, sensitivity: real) returns (avg: real)
    requires var hi := if endBin < |data| then endBin else |data|;
      count == (if lo < hi then hi - lo else 0) && (count > 0 ==> sum == Sum(data[lo..hi]))
    ensures avg == BandMean(data, lo, if endBin < |data| then endBin else |data|) * sensitivity
  {
    if count > 0 {
      avg := sum as real / count as real / 255.0 * sensitivity;
    } else {
      avg := 0.0;
    }
  }

  /** `smooth(current, target, smoothing)` */
  function Smooth(current: real, target: real, smoothing: real): real {
    current * smoothing + target * (1.0 - smoothing)
  }

  /** `v / 255` per bin */
  function Spectrum(data: seq<nat>): (r: seq<real>)
    requires Bytes(data)
    ensures |r| == |data| && forall i :: 0 <= i < |r| ==> 0.0 <= r[i] <= 1.0
  {
    seq(|data|, i requires 0 <= i < |data| => data[i] as real / 255.0)
  }

  /** `(v - 128) / 128` per sample */
  function Waveform(data: seq<nat>): (r: seq<real>)
    requires Bytes(data)
    ensures |r| == |data| && forall i :: 0 <= i < |r| ==> -1.0 <= r[i] < 1.0
  {
    seq(|data|, i requires 0 <= i < |data| => (data[i] as real - 128.0) / 128.0)
  }

  function Zeros(n: nat): (r: seq<nat>)
    ensures |r| == n && Bytes(r)
  {
    seq(n, _ => 0)
  }

  /** The levels after one analysed frame: each band's old level smoothed toward its average, and the frame's arrays normalised */
  function Analysis(prev: AnalysisData, p: Params, rate: real, f: Frame): AnalysisData
    requires rate > 0.0 && ValidFrame(f)
  {
    var nyquist := rate / 2.0;
    var s := p.sensitivity;
    var k := p.smoothing;
    AnalysisData(
      Smooth(prev.bass, Average(f.freq, nyquist, s, 0.0, 100.0), k),
      Smooth(prev.mid, Average(f.freq, nyquist, s, 100.0, 500.0), k),
      Smooth(prev.treble, Average(f.freq, nyquist, s, 500.0, 1000.0), k),
      Smooth(prev.overall, Average(f.freq, nyquist, s, 0.0, 1000.0), k),
      Waveform(f.wave),
      Spectrum(f.freq))
  }

  /** `Analysis` field by field: four smoothed band levels and the normalised arrays */
  lemma AnalysisOfBands(prev: AnalysisData, p: Params, rate: real, f: Frame, bass: real, mid: real, treble: real, overall: real)
    requires rate > 0.0 && ValidFrame(f)
    requires bass == Smooth(prev.bass, Average(f.freq, rate / 2.0, p.sensitivity, 0.0, 100.0), p.smoothing)
    requires mid == Smooth(prev.mid, Average(f.freq, rate / 2.0, p.sensitivity, 100.0, 500.0), p.smoothing)
    requires treble == Smooth(prev.treble, Average(f.freq, rate / 2.0, p.sensitivity, 500.0, 1000.0), p.smoothing)
    requires overall == Smooth(prev.overall, Average(f.freq, rate / 2.0, p.sensitivity, 0.0, 1000.0), p.smoothing)
    ensures Analysis(prev, p, rate, f) == AnalysisData(bass, mid, treble, overall, Waveform(f.wave), Spectrum(f.freq))
  {
  }

  /** The loop of `getFrequencyAverage`: the sum and number of the bins from `lo` below both `endBin` and the length */
  method SumBand(data: seq<nat>, lo: nat, endBin: int) returns (sum: nat, count: nat)
    ensures var hi := if endBin < |data| then endBin else |data|;
      count == (if lo < hi then hi - lo else 0) && (count > 0 ==> sum == Sum(data[lo..hi]))
  {
    var hi := if endBin < |data| then endBin else |data|;
    sum, count := 0, 0;
    var i := lo;
    while i < endBin && i < |data|
      invariant lo <= i && count == i - lo
      invariant i > lo ==> i <= hi && sum == Sum(data[lo..i])
      invariant i == lo ==> sum == 0
      decreases |data| - i
    {
      assert data[lo..i + 1][..i - lo] == data[lo..i];
      sum := sum + data[i];
      count := count + 1;
      i := i + 1;
    }
  }

  class AudioReactivityService {
    var hasContext: bool
    var sampleRate: real
    var hasAnalyser: bool
    /** `analyser.smoothingTimeConstant` */
    var analyserSmoothing: real
    var hasMicrophone: bool
    var hasAudioSource: bool
    var dataArray: Option<seq<nat>>
    var waveformArray: Option<seq<nat>>
    var params: Params
    var smoothed: AnalysisData
    var animationFrameId: Option<nat>
    var isInitialized: bool

    /** An analyser lives in a context with a positive sample rate, over byte arrays of its bin count */
    predicate Valid()
      reads this
    {
      (hasAnalyser ==> hasContext && sampleRate > 0.0 && dataArray.Some? && waveformArray.Some?)
      && (dataArray.Some? ==> |dataArray.value| == BinCount && Bytes(dataArray.value))
      && (waveformArray.Some? ==> |waveformArray.value| == BinCount && Bytes(waveformArray.value))
    }

    constructor()
      ensures Valid()
      ensures !hasContext && !hasAnalyser && !hasMicrophone && !hasAudioSource && !isInitialized
      ensures params == DefaultParams && animationFrameId.None?
      ensures smoothed == AnalysisData(0.0, 0.0, 0.0, 0.0, [], [])
    {
      hasContext := false;
      sampleRate := 0.0;
      hasAnalyser := false;
      analyserSmoothing := 0.0;
      hasMicrophone := false;
      hasAudioSource := false;
      dataArray := None;
      waveformArray := None;
      params := DefaultParams;
      smoothed := AnalysisData(0.0, 0.0, 0.0, 0.0, [], []);
      animationFrameId := None;
      isInitialized := false;
    }

    /** The state `analyze` leaves after reading `frame`: its arrays, the levels `Analysis` gives from `prev`, and the next frame requested */
    predicate AnalyzedFrom(prev: AnalysisData, frame: Frame)
      reads this
    {
      sampleRate > 0.0 && ValidFrame(frame)
      && dataArray == Some(frame.freq) && waveformArray == Some(frame.wave) && animationFrameId == Some(frame.id)
      && smoothed == Analysis(prev, params, sampleRate, frame)
    }

    /** `setupAnalyser`: a new analyser with smoothing 0.8 and zeroed arrays */
    method SetupAnalyser()
      requires Valid() && hasContext && sampleRate > 0.0
      modifies this`hasAnalyser, this`analyserSmoothing, this`dataArray, this`waveformArray
      ensures Valid() && hasAnalyser && analyserSmoothing == 0.8
      ensures dataArray == Some(Zeros(BinCount)) && waveformArray == Some(Zeros(BinCount))
    {
      hasAnalyser := true;
      analyserSmoothing := 0.8;
      dataArray := Some(Zeros(BinCount));
      waveformArray := Some(Zeros(BinCount));
    }

    /** `initializeAudioElement`: a no-op once a source exists; otherwise a new context and analyser, then analysis starts */
    method InitializeAudioElement(rate: real, frame: Frame)
      requires Valid() && rate > 0.0 && ValidFrame(frame)
      modifies this`hasContext, this`sampleRate, this`hasAnalyser, this`analyserSmoothing, this`hasAudioSource
      modifies this`isInitialized, this`dataArray, this`waveformArray, this`smoothed, this`animationFrameId
      ensures Valid()
      ensures old(hasAudioSource) ==> unchanged(this)
      ensures !old(hasAudioSource) ==>
        hasContext && sampleRate == rate && hasAnalyser && analyserSmoothing == 0.8 && hasAudioSource && isInitialized
      ensures !old(hasAudioSource) && old(animationFrameId).None? ==> AnalyzedFrom(old(smoothed), frame)
      ensures !old(hasAudioSource) && old(animationFrameId).Some? ==>
        animationFrameId == old(animationFrameId) && smoothed == old(smoothed)
        && dataArray == Some(Zeros(BinCount)) && waveformArray == Some(Zeros(BinCount))
    {
      if hasAudioSource {
        return;
      }
      hasContext := true;
      sampleRate := rate;
      SetupAnalyser();
      hasAudioSource := true;
      isInitialized := true;
      StartAnalysis(frame);
    }

    /**
     * `initializeMicrophone`: a no-op when already live on a microphone; a
     * refused permission leaves the new context behind and throws.
     */
    method InitializeMicrophone(rate: real, granted: bool, frame: Frame) returns (outcome: Outcome)
      requires Valid() && rate > 0.0 && ValidFrame(frame)
      modifies this`hasContext, this`sampleRate, this`hasAnalyser, this`analyserSmoothing, this`hasMicrophone
      modifies this`isInitialized, this`dataArray, this`waveformArray, this`smoothed, this`animationFrameId
      ensures Valid()
      ensures old(isInitialized && hasMicrophone) ==> unchanged(this) && outcome == Done
      ensures !old(isInitialized && hasMicrophone) && !granted ==>
        outcome == Thrown && hasContext && sampleRate == rate
        && hasAnalyser == old(hasAnalyser) && hasMicrophone == old(hasMicrophone) && isInitialized == old(isInitialized)
        && dataArray == old(dataArray) && waveformArray == old(waveformArray) && analyserSmoothing == old(analyserSmoothing)
        && smoothed == old(smoothed) && animationFrameId == old(animationFrameId)
      ensures !old(isInitialized && hasMicrophone) && granted ==>
        outcome == Done && hasContext && sampleRate == rate && hasAnalyser && analyserSmoothing == 0.8 && hasMicrophone && isInitialized
      ensures !old(isInitialized && hasMicrophone) && granted && old(animationFrameId).None? ==> AnalyzedFrom(old(smoothed), frame)
      ensures !old(isInitialized && hasMicrophone) && granted && old(animationFrameId).Some? ==>
        animationFrameId == old(animationFrameId) && smoothed == old(smoothed)
        && dataArray == Some(Zeros(BinCount)) && waveformArray == Some(Zeros(BinCount))
    {
      if isInitialized && hasMicrophone {
        return Done;
      }
      hasContext := true;
      sampleRate := rate;
      if !granted {
        return Thrown;
      }
      SetupAnalyser();
      hasMicrophone := true;
      isInitialized := true;
      StartAnalysis(frame);
      outcome := Done;
    }

    /** `startAnalysis`: runs the first frame unless one is already scheduled */
    method StartAnalysis(frame: Frame)
      requires Valid() && ValidFrame(frame)
      modifies this`dataArray, this`waveformArray, this`smoothed, this`animationFrameId
      ensures Valid()
      ensures old(animationFrameId).Some? || !hasAnalyser ==> unchanged(this)
      ensures old(animationFrameId).None? && hasAnalyser ==> AnalyzedFrom(old(smoothed), frame)
    {
      if animationFrameId.Some? {
        return;
      }
      Analyze(frame);
    }

    /** A scheduled frame firing; a cancelled one never does */
    method Tick(frame: Frame)
      requires Valid() && ValidFrame(frame)
      modifies this`dataArray, this`waveformArray, this`smoothed, this`animationFrameId
      ensures Valid()
      ensures old(animationFrameId).None? || !hasAnalyser ==> unchanged(this)
      ensures old(animationFrameId).Some? && hasAnalyser ==> AnalyzedFrom(old(smoothed), frame)
    {
      if animationFrameId.None? {
        return;
      }
      Analyze(frame);
    }

    /** `analyze`: reads the analyser, smooths the four bands, normalises the arrays and requests the next frame */
    method Analyze(frame: Frame)
      requires Valid() && ValidFrame(frame)
      modifies this`dataArray, this`waveformArray, this`smoothed, this`animationFrameId
      ensures Valid()
      ensures !hasAnalyser ==> unchanged(this)
      ensures hasAnalyser ==> AnalyzedFrom(old(smoothed), frame)
    {
      if !hasAnalyser || dataArray.None? || waveformArray.None? {
        return;
      }
      var prev := smoothed;
      dataArray := Some(frame.freq);
      waveformArray := Some(frame.wave);
      var bass := SmoothedBand(prev.bass, 0.0, 100.0);
      var mid := SmoothedBand(prev.mid, 100.0, 500.0);
      var treble := SmoothedBand(prev.treble, 500.0, 1000.0);
      var overall := SmoothedBand(prev.overall, 0.0, 1000.0);
      smoothed := AnalysisData(bass, mid, treble, overall, Waveform(frame.wave), Spectrum(frame.freq));
      AnalysisOfBands(prev, params, sampleRate, frame, bass, mid, treble, overall);
      animationFrameId := Some(frame.id);
    }

    /** One band of `analyze`: its average from `getFrequencyAverage`, smoothed from the band's previous level */
    method SmoothedBand(prev: real, startFreq: real, endFreq: real) returns (level: real)
      requires Valid() && hasAnalyser && startFreq >= 0.0
      ensures level == Smooth(prev, Average(dataArray.value, sampleRate / 2.0, params.sensitivity, startFreq, endFreq), params.smoothing)
    {
      var avg := GetFrequencyAverage(startFreq, endFreq);
      level := Smooth(prev, avg, params.smoothing);
    }

    /** `getFrequencyAverage`: 0 without an analyser, otherwise the loop summing the band's bins */
    method GetFrequencyAverage(startFreq: real, endFreq: real) returns (avg: real)
      requires Valid() && startFreq >= 0.0
      ensures !(hasAnalyser && dataArray.Some?) ==> avg == 0.0
      ensures hasAnalyser && dataArray.Some? ==> avg == Average(dataArray.value, sampleRate / 2.0, params.sensitivity, startFreq, endFreq)
    {
      if !hasAnalyser || dataArray.None? {
        return 0.0;
      }
      var data := dataArray.value;
      var nyquist := sampleRate / 2.0;
      var startBin := Bin(startFreq, nyquist, |data|);
      var endBin := Bin(endFreq, nyquist, |data|);
      var sum, count := SumBand(data, startBin, endBin);
      avg := ScaledMean(data, startBin, endBin, sum, count, params.sensitivity);
    }

    function GetAudioData(): AnalysisData
      reads this
    {
      smoothed
    }

    function GetParams(): Params
      reads this
    {
      params
    }

    /** `getPrimaryValue`: the band the parameters select, the overall level for `full` */
    function GetPrimaryValue(): (v: real)
      reads this
      ensures v == match params.frequencyRange
        case Bass => smoothed.bass
        case Mid => smoothed.mid
        case Treble => smoothed.treble
        case Full => smoothed.overall
    {
      match params.frequencyRange
      case Bass => smoothed.bass
      case Mid => smoothed.mid
      case Treble => smoothed.treble
      case Full => smoothed.overall
    }

    /** `updateParams`: merge the patch and hand the smoothing to a live analyser */
    method UpdateParams(patch: ParamsPatch)
      requires Valid()
      modifies this`params, this`analyserSmoothing
      ensures Valid()
      ensures params == Patched(old(params), patch)
      ensures analyserSmoothing == if hasAnalyser then params.smoothing else old(analyserSmoothing)
      ensures hasAnalyser == old(hasAnalyser) && smoothed == old(smoothed) && animationFrameId == old(animationFrameId)
      ensures isInitialized == old(isInitialized) && dataArray == old(dataArray)
    {
      params := Patched(params, patch);
      if hasAnalyser {
        analyserSmoothing := params.smoothing;
      }
    }

    /** `pause`: cancel the scheduled frame */
    method Pause()
      modifies this`animationFrameId
      ensures animationFrameId.None?
      ensures hasContext == old(hasContext) && hasAnalyser == old(hasAnalyser) && isInitialized == old(isInitialized)
      ensures hasMicrophone == old(hasMicrophone) && hasAudioSource == old(hasAudioSource) && params == old(params)
      ensures smoothed == old(smoothed) && dataArray == old(dataArray) && waveformArray == old(waveformArray)
      ensures sampleRate == old(sampleRate)
    {
      if animationFrameId.Some? {
        animationFrameId := None;
      }
    }

    /** `play`: restart analysis only when initialised and idle */
    method Play(frame: Frame)
      requires Valid() && ValidFrame(frame)
      modifies this`dataArray, this`waveformArray, this`smoothed, this`animationFrameId
      ensures Valid()
      ensures !(isInitialized && old(animationFrameId).None? && hasAnalyser) ==> unchanged(this)
      ensures isInitialized && old(animationFrameId).None? && hasAnalyser ==> AnalyzedFrom(old(smoothed), frame)
    {
      if isInitialized && animationFrameId.None? {
        StartAnalysis(frame);
      }
    }

    /** `destroy`: stop the frames, drop every node, and mark uninitialised */
    method Destroy()
      requires Valid()
      modifies this`animationFrameId, this`hasMicrophone, this`hasAudioSource, this`hasAnalyser, this`hasContext, this`isInitialized
      ensures Valid()
      ensures animationFrameId.None? && !isInitialized
      ensures !hasMicrophone && !hasAudioSource && !hasAnalyser && !hasContext
      ensures params == old(params) && smoothed == old(smoothed)
    {
      Pause();
      hasMicrophone := false;
      hasAudioSource := false;
      hasAnalyser := false;
      hasContext := false;
      isInitialized := false;
    }
  }

  /** The process-wide service: created on first use and then always the same object */
  class ServiceSlot {
    var instance: Option<AudioReactivityService>

    constructor ()
      ensures instance == None
    {
      instance := None;
    }

    /** `getAudioService` */
    method Get() returns (s: AudioReactivityService)
      modifies this
      ensures instance == Some(s)
      ensures old(instance).Some? ==> s == old(instance).value
      ensures old(instance).None? ==> fresh(s) && s.Valid() && s.params == DefaultParams
    {
      if instance.None? {
        s := new AudioReactivityService();
        instance := Some(s);
      } else {
        s := instance.value;
      }
    }
  }

  // ---------------------------------------------------------------------

  /** A run of bytes sums to at most 255 per entry */
  lemma {:induction false} SumBound(s: seq<nat>)
    requires Bytes(s)
    ensures Sum(s) <= 255 * |s|
  {
    if s != [] {
      SumBound(s[..|s| - 1]);
    }
  }

  /** For byte data and a non-negative sensitivity, a band average lies in [0, sensitivity] */
  lemma AverageBounds(data: seq<nat>, nyquist: real, sensitivity: real, startFreq: real, endFreq: real)
    requires Bytes(data) && nyquist > 0.0 && startFreq >= 0.0 && sensitivity >= 0.0
    ensures 0.0 <= Average(data, nyquist, sensitivity, startFreq, endFreq) <= sensitivity
  {
    var hi := Bin(endFreq, nyquist, |data|);
    var mean := BandMean(data, Bin(startFreq, nyquist, |data|), if hi < |data| then hi else |data|);
    BandMeanUnit(data, Bin(startFreq, nyquist, |data|), if hi < |data| then hi else |data|);
    Easing.ScaleDown(sensitivity, mean);
  }

  lemma BandMeanUnit(data: seq<nat>, lo: nat, hi: int)
    requires Bytes(data) && hi <= |data|
    ensures 0.0 <= BandMean(data, lo, hi) <= 1.0
  {
    if lo < hi {
      var part := data[lo..hi];
      assert Bytes(part);
      SumBound(part);
      MeanUnit(Sum(part) as real, (hi - lo) as real);
    }
  }

  lemma MeanUnit(total: real, n: real)
    requires n > 0.0 && 0.0 <= total <= 255.0 * n
    ensures 0.0 <= total / n / 255.0 <= 1.0
  {
    var m := total / n;
    assert m * n == total;
    Js.MulSign(255.0 - m, n);
    Js.MulSign(m, n);
  }

  /** Smoothing is interpolation from the target toward the current level: 1 keeps the current level, 0 jumps to the target */
  lemma SmoothEnds(current: real, target: real, smoothing: real)
    ensures Smooth(current, target, smoothing) == Easing.Lerp(target, current, smoothing)
    ensures Smooth(current, target, 1.0) == current && Smooth(current, target, 0.0) == target
  {
  }

  /** With smoothing in [0, 1] the result lies between the current level and the target, so levels in [0, s] stay there */
  lemma SmoothBetween(current: real, target: real, smoothing: real, s: real)
    requires 0.0 <= smoothing <= 1.0
    requires 0.0 <= current <= s && 0.0 <= target <= s
    ensures 0.0 <= Smooth(current, target, smoothing) <= s
  {
    SmoothEnds(current, target, smoothing);
    Easing.LerpBetween(target, current, smoothing);
  }

  /** Every smoothed level lies in [0, s] */
  predicate LevelsWithin(d: AnalysisData, s: real) {
    0.0 <= d.bass <= s && 0.0 <= d.mid <= s && 0.0 <= d.treble <= s && 0.0 <= d.overall <= s
  }

  /**
   * An analysed frame keeps the levels in [0, sensitivity] when smoothing is
   * in [0, 1], and normalises one entry per bin
   */
  lemma AnalysisBounds(prev: AnalysisData, p: Params, rate: real, f: Frame)
    requires rate > 0.0 && ValidFrame(f) && 0.0 <= p.smoothing <= 1.0 && p.sensitivity >= 0.0
    requires LevelsWithin(prev, p.sensitivity)
    ensures LevelsWithin(Analysis(prev, p, rate, f), p.sensitivity)
    ensures |Analysis(prev, p, rate, f).spectrum| == BinCount && |Analysis(prev, p, rate, f).waveform| == BinCount
  {
    var nyquist, s, k := rate / 2.0, p.sensitivity, p.smoothing;
    AverageBounds(f.freq, nyquist, s, 0.0, 100.0);
    AverageBounds(f.freq, nyquist, s, 100.0, 500.0);
    AverageBounds(f.freq, nyquist, s, 500.0, 1000.0);
    AverageBounds(f.freq, nyquist, s, 0.0, 1000.0);
    SmoothBetween(prev.bass, Average(f.freq, nyquist, s, 0.0, 100.0), k, s);
    SmoothBetween(prev.mid, Average(f.freq, nyquist, s, 100.0, 500.0), k, s);
    SmoothBetween(prev.treble, Average(f.freq, nyquist, s, 500.0, 1000.0), k, s);
    SmoothBetween(prev.overall, Average(f.freq, nyquist, s, 0.0, 1000.0), k, s);
  }

  /** An empty patch changes nothing and a patch applied twice is applied once */
  lemma PatchLaws(p: Params, q: ParamsPatch)
    ensures Patched(p, NoPatch) == p
    ensures Patched(Patched(p, q), q) == Patched(p, q)
    ensures q.smoothing.Some? ==> Patched(p, q).smoothing == q.smoothing.value
    ensures q.sensitivity.None? ==> Patched(p, q).sensitivity == p.sensitivity
  {
  }
}
