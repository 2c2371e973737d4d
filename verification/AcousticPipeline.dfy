/**
 From frames to published data: the aggregate over a number of frames, the classifier,
 and the range check that every published analysis must pass.
 */
module AcousticPipeline {
  import opened Bits
  import opened AcousticFeatures

  // ---------- accumulation ----------

  /** What the accumulator keeps of the valid frames it has seen. */
  datatype Sums = Sums(
    valid: nat, responsive: nat, sampleRateHz: nat, durationMs: nat, linearPower: real, maximumPeakDbfs: real,
    clipping: real, crest: real, zeroCrossing: real, centroid: real, flatness: real, rolloff: real, bands: Bands)

  const NO_SUMS := Sums(0, 0, 0, 0, 0.0, DB_FLOOR, 0.0, 0.0, 0.0, 0.0, 0.0, 0.0, NO_BANDS)

  function AddBands(a: Bands, b: Bands): Bands {
    Bands(a.hz80To250 + b.hz80To250, a.hz250To800 + b.hz250To800, a.hz800To2000 + b.hz800To2000,
          a.hz2000To4000 + b.hz2000To4000, a.hz4000To8000 + b.hz4000To8000)
  }

  /** The sums after one more frame; an invalid frame leaves them alone. */
  function AddFrame(s: Sums, f: Features, m: Math): Sums {
    if !f.valid then s
    else
      Sums(s.valid + 1, if f.signalResponsive then s.responsive + 1 else s.responsive,
           f.sampleRateHz, s.durationMs + f.windowDurationMs,
           s.linearPower + m.pow10(f.relativeLevelDbfs / 10.0), Max(s.maximumPeakDbfs, f.peakDbfs),
           s.clipping + f.clippingRatio, s.crest + f.crestFactor, s.zeroCrossing + f.zeroCrossingRate,
           s.centroid + f.spectralCentroidHz, s.flatness + f.spectralFlatness, s.rolloff + f.spectralRolloffHz,
           AddBands(s.bands, f.bands))
  }

  function Fold(frames: seq<Features>, m: Math): Sums {
    if frames == [] then NO_SUMS else AddFrame(Fold(frames[..|frames| - 1], m), frames[|frames| - 1], m)
  }

  function Scale(sum: real, inverse: real): real {
    sum * inverse
  }

  /** The aggregate of a full window of frames. */
  function Aggregate(s: Sums, targetFrames: nat, m: Math): Features {
    var empty := Features(s.valid >= targetFrames * 3 / 4 && s.valid > 0,
                          s.responsive >= (targetFrames + 1) / 2, s.sampleRateHz, s.durationMs,
                          0.0, 0.0, 0.0, 0.0, 0.0, 0.0, 0.0, 0.0, NO_BANDS);
    if s.valid == 0 then empty
    else
      var inverse := 1.0 / s.valid as real;
      empty.(relativeLevelDbfs := 10.0 * m.log10(Max(0.0000000000000001, s.linearPower / s.valid as real)),
             peakDbfs := s.maximumPeakDbfs, clippingRatio := Scale(s.clipping, inverse),
             crestFactor := Scale(s.crest, inverse), zeroCrossingRate := Scale(s.zeroCrossing, inverse),
             spectralCentroidHz := Scale(s.centroid, inverse), spectralFlatness := Scale(s.flatness, inverse),
             spectralRolloffHz := Scale(s.rolloff, inverse),
             bands := ScaleBands(s.bands, inverse))
  }

  class FeatureAccumulator {
    const targetFrames: nat
    var frames: nat
    var sums: Sums
    /** The frames added since the last reset. */
    ghost var window: seq<Features>

    ghost predicate Valid(m: Math)
      reads this
    {
      targetFrames >= 1 && frames == |window| < targetFrames && sums == Fold(window, m)
    }

    constructor (target: nat, ghost m: Math)
      ensures Valid(m) && window == [] && targetFrames == if target == 0 then 1 else target
    {
      targetFrames := if target == 0 then 1 else target;
      frames, sums, window := 0, NO_SUMS, [];
    }

    /**
     Adds a frame. The aggregate comes out exactly when the window is full, describes exactly the
     frames of that window, and the next window starts empty.
     */
    method Add(f: Features, m: Math) returns (full: bool, aggregate: Features)
      requires Valid(m)
      modifies this
      ensures Valid(m)
      ensures full <==> |old(window)| + 1 == targetFrames
      ensures full ==> window == [] && aggregate == Aggregate(Fold(old(window) + [f], m), targetFrames, m)
      ensures !full ==> window == old(window) + [f]
    {
      frames := frames + 1;
      sums := AddFrame(sums, f, m);
      window := window + [f];
      assert window[..|window| - 1] == old(window);
      aggregate := f;
      if frames < targetFrames {
        return false, aggregate;
      }
      aggregate := Aggregate(sums, targetFrames, m);
      Reset(m);
      return true, aggregate;
    }

    method Reset(ghost m: Math)
      requires targetFrames >= 1
      modifies this
      ensures Valid(m) && window == []
    {
      frames, sums, window := 0, NO_SUMS, [];
    }
  }

  // ---------- classification ----------

  datatype Classification = Classification(category: string, confidence: real, version: string)

  const VERSION := "heuristic-4"

  function ClampConfidence(v: real): real {
    Max(0.0, Min(0.85, v))
  }

  function Result(category: string, confidence: real): Classification {
    Classification(category, ClampConfidence(confidence), VERSION)
  }

  function Low(b: Bands): real { b.hz80To250 + b.hz250To800 }

  function Middle(b: Bands): real { b.hz250To800 + b.hz800To2000 }

  function Presence(b: Bands): real { b.hz800To2000 + b.hz2000To4000 }

  function High(b: Bands): real { b.hz2000To4000 + b.hz4000To8000 }

  predicate Unclassifiable(f: Features) {
    !f.valid || !f.signalResponsive || f.clippingRatio >= 0.01
  }

  predicate LowRumble(f: Features) {
    Low(f.bands) > 0.78 && f.spectralCentroidHz < 650.0
  }

  predicate TonalHorn(f: Features) {
    && f.relativeLevelDbfs > -84.0 && Presence(f.bands) > 0.72
    && f.spectralFlatness < 0.12 && f.crestFactor < 4.0
  }

  predicate ExternalHorn(f: Features) {
    && f.relativeLevelDbfs > -88.0 && Presence(f.bands) > 0.50 && f.bands.hz2000To4000 > 0.40
    && 0.15 <= f.spectralFlatness <= 0.32 && 0.30 <= f.zeroCrossingRate <= 0.45
    && 2500.0 <= f.spectralCentroidHz <= 3800.0
  }

  predicate OwnHorn(f: Features) {
    && f.relativeLevelDbfs > -78.0 && Low(f.bands) > 0.55 && f.bands.hz250To800 > 0.35
    && 0.15 <= f.spectralFlatness <= 0.32 && 0.15 <= f.zeroCrossingRate <= 0.30
    && 1000.0 <= f.spectralCentroidHz <= 2500.0
  }

  predicate Siren(f: Features) {
    && f.relativeLevelDbfs > -36.0 && Middle(f.bands) > 0.70
    && 0.12 <= f.spectralFlatness < 0.30 && f.zeroCrossingRate > 0.08
  }

  predicate Speech(f: Features) {
    && Middle(f.bands) >= 0.34 && Presence(f.bands) >= 0.40
    && 0.08 <= f.spectralFlatness < 0.36 && 0.025 <= f.zeroCrossingRate < 0.32
    && 300.0 <= f.spectralCentroidHz <= 3200.0
  }

  predicate Traffic(f: Features) {
    && f.relativeLevelDbfs > -45.0 && 550.0 <= f.spectralCentroidHz <= 7000.0 && High(f.bands) >= 0.12
    && (f.spectralFlatness >= 0.28 || f.zeroCrossingRate >= 0.30 || High(f.bands) >= 0.32)
  }

  predicate Music(f: Features) {
    && 0.08 <= f.spectralFlatness <= 0.38 && Presence(f.bands) > 0.30
    && High(f.bands) > 0.08 && f.crestFactor < 6.0
  }

  function Classify(f: Features): Classification {
    if Unclassifiable(f) then Result("unknown", 0.0)
    else if f.relativeLevelDbfs <= -88.0 then Result("quiet", 0.80)
    else if LowRumble(f) && (f.spectralFlatness > 0.35 || f.zeroCrossingRate > 0.12) then
      Result("wind", 0.50 + (Low(f.bands) - 0.78))
    else if LowRumble(f) && f.crestFactor < 4.5 && f.zeroCrossingRate < 0.12 then
      Result("engine", 0.55 + (Low(f.bands) - 0.78))
    else if TonalHorn(f) then Result("horn", 0.66 + (Presence(f.bands) - 0.72) * 0.4)
    else if ExternalHorn(f) then Result("horn", 0.62)
    else if OwnHorn(f) then Result("horn", 0.64)
    else if Siren(f) then Result("siren", 0.55)
    else if Speech(f) then Result("speech", 0.48 + Min(0.10, (Middle(f.bands) - 0.34) * 0.30))
    else if Traffic(f) then
      Result("traffic", 0.46 + Min(0.08, Max(0.0, f.spectralFlatness - 0.28) * 0.35) + Min(0.06, High(f.bands) * 0.12))
    else if Music(f) then Result("music", 0.45 + Min(0.12, Presence(f.bands) * 0.15))
    else if Middle(f.bands) >= 0.28 && f.spectralCentroidHz <= 3600.0 then Result("speech", 0.36)
    else Result("noise", 0.40)
  }

  const ALERT_MIN_CONFIDENCE := 0.68

  /** A category that can raise an alert reaches the alert confidence in one branch only. */
  lemma AlertConfidenceOnlyForTonalHorn(f: Features)
    ensures var c := Classify(f);
            c.category in ["traffic", "horn", "siren"] && c.confidence >= ALERT_MIN_CONFIDENCE
            <==>
            && !Unclassifiable(f) && f.relativeLevelDbfs > -88.0 && TonalHorn(f) && Presence(f.bands) >= 0.77
            && !(LowRumble(f) && (f.spectralFlatness > 0.35 || f.zeroCrossingRate > 0.12))
            && !(LowRumble(f) && f.crestFactor < 4.5 && f.zeroCrossingRate < 0.12)
    ensures var c := Classify(f);
            c.category in ["traffic", "siren"] ==> c.confidence <= 0.60
  {
    Distinct();
  }

  lemma Distinct()
    ensures |"traffic"| == 7 && |"horn"| == 4 && |"siren"| == 5 && |"unknown"| == 7 && |"quiet"| == 5 && |"wind"| == 4
    ensures |"engine"| == 6 && |"speech"| == 6 && |"music"| == 5 && |"noise"| == 5
    ensures "traffic"[0] == 't' && "unknown"[0] == 'u' && "horn"[0] == 'h' && "wind"[0] == 'w'
    ensures "siren"[0] == 's' && "quiet"[0] == 'q' && "music"[0] == 'm' && "noise"[0] == 'n'
  {
  }

  // ---------- publication ----------

  datatype AcousticData = AcousticData(
    relativeLevelDbfs: real, peakDbfs: real, confidence: real, microphoneValid: bool, analysisValid: bool,
    clipping: bool, category: string, classifierVersion: string, updatedAtMs: nat, sampleRateHz: nat,
    windowDurationMs: nat, clippingRatio: real, crestFactor: real, zeroCrossingRate: real,
    spectralCentroidHz: real, spectralFlatness: real, spectralRolloffHz: real, bands: Bands)

  /** The snapshot the microphone task publishes for an aggregate. */
  function Publish(f: Features, nowMs: nat): AcousticData {
    var c := Classify(f);
    var usable := f.valid && f.signalResponsive;
    AcousticData(
      f.relativeLevelDbfs, f.peakDbfs, c.confidence, usable, usable,
      f.clippingRatio >= 0.001, c.category, c.version, nowMs, f.sampleRateHz,
      f.windowDurationMs, f.clippingRatio, f.crestFactor, f.zeroCrossingRate,
      f.spectralCentroidHz, f.spectralFlatness, f.spectralRolloffHz, f.bands)
  }

  const CATEGORIES := ["traffic", "music", "speech", "engine", "horn", "siren", "wind", "quiet", "noise", "unknown"]

  predicate UnitBands(b: Bands) {
    && 0.0 <= b.hz80To250 <= 1.0 && 0.0 <= b.hz250To800 <= 1.0 && 0.0 <= b.hz800To2000 <= 1.0
    && 0.0 <= b.hz2000To4000 <= 1.0 && 0.0 <= b.hz4000To8000 <= 1.0
  }

  /** The check of the message builder on an analysis about to be serialized. */
  predicate ValidAnalysis(d: AcousticData) {
    && d.microphoneValid && d.analysisValid
    && 8000 <= d.sampleRateHz <= 48000 && 100 <= d.windowDurationMs <= 10000
    && -160.0 <= d.relativeLevelDbfs <= 0.0 && -160.0 <= d.peakDbfs <= 0.0
    && 0.0 <= d.clippingRatio <= 1.0 && 0.0 <= d.crestFactor <= 100.0 && 0.0 <= d.zeroCrossingRate <= 1.0
    && 0.0 <= d.spectralCentroidHz <= 24000.0 && 0.0 <= d.spectralFlatness <= 1.0
    && 0.0 <= d.spectralRolloffHz <= 24000.0
    && UnitBands(d.bands) && 0.0 <= d.confidence <= 1.0
    && d.category in CATEGORIES && 0 < |d.classifierVersion| <= 40
  }

  // The configured front end.
  const FRAME_SAMPLES: nat := 1024
  const SAMPLE_RATE_HZ: nat := 16000
  const AGGREGATE_FRAMES: nat := 16

  /** A frame the configured extractor can hand to the accumulator. */
  ghost predicate ConfiguredFrame(f: Features, m: Math) {
    exists samples: seq<real> ::
      |samples| == FRAME_SAMPLES && SupportedFormat(|samples|, SAMPLE_RATE_HZ)
      && f == Describe(samples, SAMPLE_RATE_HZ, m)
  }

  ghost predicate FrameBounds(f: Features) {
    && f.valid && f.sampleRateHz == SAMPLE_RATE_HZ && f.windowDurationMs == 64
    && f.relativeLevelDbfs <= 0.0 && DB_FLOOR <= f.peakDbfs <= 0.0
    && 0.0 <= f.clippingRatio <= 1.0 && 0.0 <= f.zeroCrossingRate <= 1.0
    && 0.0 <= f.crestFactor <= 32.0
    && 0.0 <= f.spectralCentroidHz <= 8000.0 && 0.0 <= f.spectralRolloffHz <= 8000.0
    && 0.0 <= f.spectralFlatness <= 1.0 && UnitBands(f.bands)
  }

  lemma ConfiguredFrameBounds(f: Features, m: Math)
    requires Faithful(m) && ConfiguredFrame(f, m)
    ensures FrameBounds(f)
  {
    hide Describe, Faithful, IsPow2, NonNegative, BandSum, UnitBands;
    var samples: seq<real> :|
      |samples| == FRAME_SAMPLES && SupportedFormat(|samples|, SAMPLE_RATE_HZ)
      && f == Describe(samples, SAMPLE_RATE_HZ, m);
    FramesAreInRange(samples, SAMPLE_RATE_HZ, m);
    DescribeFormat(samples, SAMPLE_RATE_HZ, m);
    RatiosAreUnit(f.bands);
    if f.crestFactor > 0.0 {
      SquareOrder(f.crestFactor, 32.0);
    }
  }

  lemma RatiosAreUnit(b: Bands)
    requires NonNegative(b) && (BandSum(b) == 1.0 || b == NO_BANDS)
    ensures UnitBands(b)
  {
  }

  lemma DescribeFormat(samples: seq<real>, rate: nat, m: Math)
    requires SupportedFormat(|samples|, rate)
    ensures Describe(samples, rate, m).sampleRateHz == rate
    ensures Describe(samples, rate, m).windowDurationMs == |samples| * 1000 / rate
  {
  }

  ghost predicate BandsUpTo(b: Bands, k: real) {
    && 0.0 <= b.hz80To250 <= k && 0.0 <= b.hz250To800 <= k && 0.0 <= b.hz800To2000 <= k
    && 0.0 <= b.hz2000To4000 <= k && 0.0 <= b.hz4000To8000 <= k
  }

  ghost predicate SumBounds(s: Sums, count: nat) {
    var k := count as real;
    && s.valid == count && s.durationMs == 64 * count && (count > 0 ==> s.sampleRateHz == SAMPLE_RATE_HZ)
    && 0.0 <= s.linearPower <= k && DB_FLOOR <= s.maximumPeakDbfs <= 0.0
    && 0.0 <= s.clipping <= k && 0.0 <= s.crest <= 32.0 * k && 0.0 <= s.zeroCrossing <= k
    && 0.0 <= s.centroid <= 8000.0 * k && 0.0 <= s.flatness <= k && 0.0 <= s.rolloff <= 8000.0 * k
    && BandsUpTo(s.bands, k)
  }

  lemma {:induction false} FoldBounds(frames: seq<Features>, m: Math)
    requires Faithful(m)
    requires forall f :: f in frames ==> FrameBounds(f)
    ensures SumBounds(Fold(frames, m), |frames|)
  {
    if frames != [] {
      var n := |frames| - 1;
      FoldBounds(frames[..n], m);
      assert frames[n] in frames;
      AddFrameBounds(Fold(frames[..n], m), frames[n], n, m);
    }
  }

  lemma AddFrameBounds(s: Sums, f: Features, count: nat, m: Math)
    requires Faithful(m) && FrameBounds(f) && SumBounds(s, count)
    ensures SumBounds(AddFrame(s, f, m), count + 1)
  {
    assert 0.0 <= m.pow10(f.relativeLevelDbfs / 10.0) <= 1.0;
  }

  lemma MeanBound(sum: real, k: real, bound: real)
    requires k >= 1.0 && 0.0 <= sum <= bound * k
    ensures 0.0 <= Scale(sum, 1.0 / k) <= bound
  {
    var inverse := 1.0 / k;
    Quotient(1.0, k);
    var mean := sum * inverse;
    assert mean * k == sum * (inverse * k);
    ProductBelow(0.0, mean, k);
    ProductBelow(mean, bound, k);
  }

  lemma BandsMean(b: Bands, k: real)
    requires k >= 1.0 && BandsUpTo(b, k)
    ensures UnitBands(ScaleBands(b, 1.0 / k))
  {
    MeanBound(b.hz80To250, k, 1.0);
    MeanBound(b.hz250To800, k, 1.0);
    MeanBound(b.hz800To2000, k, 1.0);
    MeanBound(b.hz2000To4000, k, 1.0);
    MeanBound(b.hz4000To8000, k, 1.0);
  }

  lemma MeanLevel(power: real, k: real, m: Math)
    requires Faithful(m) && k >= 1.0 && 0.0 <= power <= k
    ensures -160.0 <= 10.0 * m.log10(Max(0.0000000000000001, power / k)) <= 0.0
  {
    var mean := power / k;
    Quotient(power, k);
    ProductBelow(mean, 1.0, k);
    var v := Max(0.0000000000000001, mean);
    assert m.log10(0.0000000000000001) <= m.log10(v) <= m.log10(1.0);
  }

  lemma AggregateBounds(s: Sums, m: Math)
    requires Faithful(m) && SumBounds(s, AGGREGATE_FRAMES)
    ensures var a := Aggregate(s, AGGREGATE_FRAMES, m);
            && a.sampleRateHz == SAMPLE_RATE_HZ && a.windowDurationMs == 1024
            && -160.0 <= a.relativeLevelDbfs <= 0.0 && -160.0 <= a.peakDbfs <= 0.0
            && 0.0 <= a.clippingRatio <= 1.0 && 0.0 <= a.crestFactor <= 32.0 && 0.0 <= a.zeroCrossingRate <= 1.0
            && 0.0 <= a.spectralCentroidHz <= 8000.0 && 0.0 <= a.spectralFlatness <= 1.0
            && 0.0 <= a.spectralRolloffHz <= 8000.0 && UnitBands(a.bands)
  {
    MeanLevel(s.linearPower, 16.0, m);
    hide Faithful, ScaleBands, UnitBands, Scale;
    MeanBound(s.clipping, 16.0, 1.0);
    MeanBound(s.crest, 16.0, 32.0);
    MeanBound(s.zeroCrossing, 16.0, 1.0);
    MeanBound(s.centroid, 16.0, 8000.0);
    MeanBound(s.flatness, 16.0, 1.0);
    MeanBound(s.rolloff, 16.0, 8000.0);
    BandsMean(s.bands, 16.0);
  }

  lemma CategoryIsKnown(f: Features)
    ensures Classify(f).category in CATEGORIES
    ensures 0.0 <= Classify(f).confidence <= 0.85
    ensures |Classify(f).version| == 11
  {
    assert CATEGORIES[0] == "traffic" && CATEGORIES[1] == "music" && CATEGORIES[2] == "speech";
    assert CATEGORIES[3] == "engine" && CATEGORIES[4] == "horn" && CATEGORIES[5] == "siren";
    assert CATEGORIES[6] == "wind" && CATEGORIES[7] == "quiet" && CATEGORIES[8] == "noise";
    assert CATEGORIES[9] == "unknown";
  }

  /**
   The whole acoustic path: sixteen frames of any samples whatever, if their aggregate is responsive,
   are published as data that the message builder accepts.
   */
  lemma PublishedAnalysisIsValid(frames: seq<Features>, m: Math, nowMs: nat)
    requires Faithful(m) && |frames| == AGGREGATE_FRAMES
    requires forall f :: f in frames ==> ConfiguredFrame(f, m)
    ensures var a := Aggregate(Fold(frames, m), AGGREGATE_FRAMES, m);
            a.valid && (a.signalResponsive <==> ValidAnalysis(Publish(a, nowMs)))
  {
    forall f | f in frames
      ensures FrameBounds(f)
    {
      ConfiguredFrameBounds(f, m);
    }
    hide ConfiguredFrame, Classify, UnitBands;
    FoldBounds(frames, m);
    AggregateBounds(Fold(frames, m), m);
    CategoryIsKnown(Aggregate(Fold(frames, m), AGGREGATE_FRAMES, m));
  }
}
