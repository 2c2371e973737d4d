/**
 What the audio front end measures, as functions of the samples: the level of the
 high-passed signal and the shape of its spectrum.
 */
module AcousticFeatures {
  import opened Bits
  import opened ComplexNumbers
  import opened Fft

  datatype Bands = Bands(hz80To250: real, hz250To800: real, hz800To2000: real, hz2000To4000: real, hz4000To8000: real)

  datatype Features = Features(
    valid: bool, signalResponsive: bool, sampleRateHz: nat, windowDurationMs: nat,
    relativeLevelDbfs: real, peakDbfs: real, clippingRatio: real, crestFactor: real, zeroCrossingRate: real,
    spectralCentroidHz: real, spectralFlatness: real, spectralRolloffHz: real, bands: Bands)

  const NO_BANDS := Bands(0.0, 0.0, 0.0, 0.0, 0.0)

  /** The library functions the firmware calls. Only the facts of `Faithful` are used of them. */
  datatype Math = Math(
    sqrt: real -> real, log10: real -> real, pow10: real -> real, ln: real -> real, exp: real -> real,
    hann: (nat, nat) -> real, root: nat -> Complex)

  ghost predicate Faithful(m: Math) {
    && (forall v: real :: v >= 0.0 ==> m.sqrt(v) >= 0.0 && m.sqrt(v) * m.sqrt(v) == v)
    && (forall v: real, u: real :: 0.0 < v <= u ==> m.log10(v) <= m.log10(u))
    && m.log10(1.0) == 0.0 && m.log10(0.0000000000000001) == -16.0
    && (forall v: real :: v <= 0.0 ==> 0.0 <= m.pow10(v) <= 1.0)
    && (forall v: real :: m.exp(v) >= 0.0)
    && Roots(m.root)
  }

  function Max(a: real, b: real): real {
    if a < b then b else a
  }

  function Min(a: real, b: real): real {
    if b < a then b else a
  }

  function Abs(a: real): real {
    if a < 0.0 then -a else a
  }

  // ---------- level ----------

  const DB_FLOOR := -160.0
  const PI := 3.14159265358979323846
  const HIGH_PASS_CUTOFF_HZ := 90.0
  const CLIPPING_THRESHOLD := 0.98
  const SIGNAL_VARIATION_MINIMUM := 0.0000001

  function ToDb(amplitude: real, m: Math): real {
    if amplitude > 0.00000001 then Max(DB_FLOOR, Min(0.0, 20.0 * m.log10(amplitude))) else DB_FLOOR
  }

  function ClampSample(v: real): real {
    Max(-1.0, Min(1.0, v))
  }

  /** Whatever the library logarithm returns, a level is between the floor and full scale. */
  lemma LevelInRange(amplitude: real, m: Math)
    ensures DB_FLOOR <= ToDb(amplitude, m) <= 0.0
  {
  }

  /** What the first loop gathers over the first `i` samples. */
  datatype Range = Range(sum: real, minimum: real, maximum: real, nonZero: nat, clipping: nat)

  function Survey(samples: seq<real>, i: nat): (r: Range)
    requires 0 < |samples| && i <= |samples|
    ensures r.nonZero <= i && r.clipping <= i
  {
    if i == 0 then Range(0.0, ClampSample(samples[0]), ClampSample(samples[0]), 0, 0)
    else
      var r := Survey(samples, i - 1);
      var v := ClampSample(samples[i - 1]);
      Range(r.sum + v, Min(r.minimum, v), Max(r.maximum, v),
            if Abs(v) > 0.000000001 then r.nonZero + 1 else r.nonZero,
            if Abs(v) >= CLIPPING_THRESHOLD then r.clipping + 1 else r.clipping)
  }

  /** The smoothing factor of the one-pole high-pass filter. */
  function Alpha(rate: nat): real
    requires rate > 0
  {
    var dt := 1.0 / rate as real;
    var rc := 1.0 / (2.0 * PI * HIGH_PASS_CUTOFF_HZ);
    rc / (rc + dt)
  }

  function Centred(samples: seq<real>, mean: real, i: nat): real
    requires i < |samples|
  {
    ClampSample(samples[i]) - mean
  }

  /** Output `i` of the filter, which starts settled on the first sample. */
  function Filtered(samples: seq<real>, mean: real, alpha: real, i: nat): real
    requires i < |samples|
  {
    if i == 0 then HighPass(alpha, 0.0, Centred(samples, mean, 0), Centred(samples, mean, 0))
    else HighPass(alpha, Filtered(samples, mean, alpha, i - 1), Centred(samples, mean, i),
                  Centred(samples, mean, i - 1))
  }

  /** One step of the filter. */
  function HighPass(alpha: real, previousOutput: real, input: real, previousInput: real): real {
    alpha * (previousOutput + input - previousInput)
  }

  function Taper(v: real, weight: real): real {
    v * weight
  }

  /** What the second loop gathers over the first `i` filtered values. */
  datatype Level = Level(sumSquares: real, peak: real, crossings: nat)

  function Measure(y: seq<real>, i: nat): (r: Level)
    requires i <= |y|
    ensures r.crossings <= (if i == 0 then 0 else i - 1)
  {
    if i == 0 then Level(0.0, 0.0, 0)
    else AddSample(Measure(y, i - 1), y[i - 1], i - 1 > 0 && ((y[i - 1] >= 0.0) != (y[i - 2] >= 0.0)))
  }

  function AddSample(r: Level, v: real, crossing: bool): (l: Level)
    ensures l.crossings == if crossing then r.crossings + 1 else r.crossings
  {
    Level(r.sumSquares + v * v, Max(r.peak, Abs(v)), if crossing then r.crossings + 1 else r.crossings)
  }

  ghost predicate PeakBounds(l: Level, n: real) {
    0.0 <= l.peak && l.peak * l.peak <= l.sumSquares <= n * (l.peak * l.peak)
  }

  /** The peak is one of the values, so it is between the quadratic mean and the root of the energy. */
  lemma {:induction false} PeakAndEnergy(y: seq<real>, i: nat)
    requires i <= |y|
    ensures PeakBounds(Measure(y, i), i as real)
  {
    if i > 0 {
      hide PeakBounds, AddSample;
      PeakAndEnergy(y, i - 1);
      PeakStep(Measure(y, i - 1), y[i - 1], i - 1 > 0 && ((y[i - 1] >= 0.0) != (y[i - 2] >= 0.0)), i - 1);
    }
  }

  lemma PeakStep(l: Level, v: real, crossing: bool, n: nat)
    requires PeakBounds(l, n as real)
    ensures PeakBounds(AddSample(l, v, crossing), (n + 1) as real)
  {
    PeakStepReal(l.peak, l.sumSquares, v, n as real);
  }

  lemma PeakStepReal(peak: real, energy: real, v: real, n: real)
    requires 0.0 <= peak && 0.0 <= n && peak * peak <= energy <= n * (peak * peak)
    ensures var q := Max(peak, Abs(v));
            0.0 <= q && q * q <= energy + v * v <= (n + 1.0) * (q * q)
  {
    var q := Max(peak, Abs(v));
    assert Abs(v) * Abs(v) == v * v;
    SquareMonotone(peak, q);
    SquareMonotone(Abs(v), q);
    ScaleMonotone(n, peak * peak, q * q);
    assert (n + 1.0) * (q * q) == n * (q * q) + q * q;
  }

  lemma SquareMonotone(a: real, b: real)
    requires 0.0 <= a <= b
    ensures 0.0 <= a * a <= b * b
  {
  }

  lemma ScaleMonotone(n: real, a: real, b: real)
    requires 0.0 <= n && a <= b
    ensures n * a <= n * b
  {
  }

  // ---------- spectrum ----------

  function Frequency(bin: nat, rate: nat, n: nat): real
    requires n > 0
  {
    bin as real * rate as real / n as real
  }

  predicate Scanned(bin: nat, rate: nat, n: nat)
    requires n > 0
  {
    80.0 <= Frequency(bin, rate, n) <= 8000.0
  }

  /** The branch cascade that files the power of one bin. */
  function AddBandPower(frequency: real, power: real, b: Bands): Bands {
    if frequency >= 80.0 && frequency < 250.0 then b.(hz80To250 := b.hz80To250 + power)
    else if frequency < 800.0 then b.(hz250To800 := b.hz250To800 + power)
    else if frequency < 2000.0 then b.(hz800To2000 := b.hz800To2000 + power)
    else if frequency < 4000.0 then b.(hz2000To4000 := b.hz2000To4000 + power)
    else if frequency <= 8000.0 then b.(hz4000To8000 := b.hz4000To8000 + power)
    else b
  }

  /** What the spectral loop gathers over bins 1 to `bin`. */
  datatype Totals = Totals(power: real, weighted: real, logarithmic: real, bins: nat, bands: Bands)

  function Gather(s: seq<Complex>, rate: nat, m: Math, bin: nat): Totals
    requires bin < |s|
  {
    if bin == 0 then Totals(0.0, 0.0, 0.0, 0, NO_BANDS)
    else
      var t := Gather(s, rate, m, bin - 1);
      if !Scanned(bin, rate, |s|) then t
      else
        var p := NormSquared(s[bin]);
        AddBin(t, Frequency(bin, rate, |s|), p, m.ln(p + 0.00000000000000000001))
  }

  function AddBin(t: Totals, f: real, p: real, logarithm: real): Totals {
    Totals(t.power + p, t.weighted + Moment(f, p), t.logarithmic + logarithm, t.bins + 1, AddBandPower(f, p, t.bands))
  }

  function Moment(f: real, p: real): real {
    f * p
  }

  /** The power of the scanned bins up to `bin` whose frequency is from `low` up to but not including `high`. */
  function PowerBetween(s: seq<Complex>, rate: nat, low: real, high: real, bin: nat): real
    requires bin < |s|
  {
    if bin == 0 then 0.0
    else
      PowerBetween(s, rate, low, high, bin - 1)
      + (if Scanned(bin, rate, |s|) && low <= Frequency(bin, rate, |s|) < high then NormSquared(s[bin]) else 0.0)
  }

  /** Each band holds the power of its own frequency interval; the last one includes 8000 Hz. */
  lemma {:induction false} BandsAreIntervals(s: seq<Complex>, rate: nat, m: Math, bin: nat)
    requires bin < |s|
    ensures Gather(s, rate, m, bin).bands ==
            Bands(PowerBetween(s, rate, 80.0, 250.0, bin), PowerBetween(s, rate, 250.0, 800.0, bin),
                  PowerBetween(s, rate, 800.0, 2000.0, bin), PowerBetween(s, rate, 2000.0, 4000.0, bin),
                  PowerBetween(s, rate, 4000.0, 8001.0, bin))
  {
    if bin > 0 {
      BandsAreIntervals(s, rate, m, bin - 1);
    }
  }

  function BandSum(b: Bands): real {
    b.hz80To250 + b.hz250To800 + b.hz800To2000 + b.hz2000To4000 + b.hz4000To8000
  }

  predicate NonNegative(b: Bands) {
    && b.hz80To250 >= 0.0 && b.hz250To800 >= 0.0 && b.hz800To2000 >= 0.0
    && b.hz2000To4000 >= 0.0 && b.hz4000To8000 >= 0.0
  }

  ghost predicate Conserved(t: Totals) {
    && t.power >= 0.0 && NonNegative(t.bands) && BandSum(t.bands) == t.power
    && 80.0 * t.power <= t.weighted <= 8000.0 * t.power
    && (t.power > 0.0 ==> t.bins > 0)
  }

  /** No power is filed twice or lost, and the first moment stays between the scan limits. */
  lemma {:induction false} PowerIsConserved(s: seq<Complex>, rate: nat, m: Math, bin: nat)
    requires bin < |s|
    ensures Conserved(Gather(s, rate, m, bin))
  {
    if bin > 0 {
      PowerIsConserved(s, rate, m, bin - 1);
      hide Conserved, NormSquared, AddBin, Frequency;
      if Scanned(bin, rate, |s|) {
        NormNonNegative(s[bin]);
        var p := NormSquared(s[bin]);
        ConservedStep(Gather(s, rate, m, bin - 1), Frequency(bin, rate, |s|), p, m.ln(p + 0.00000000000000000001));
      }
    }
  }

  lemma ConservedStep(t: Totals, f: real, p: real, logarithm: real)
    requires Conserved(t) && 80.0 <= f <= 8000.0 && p >= 0.0
    ensures Conserved(AddBin(t, f, p, logarithm))
  {
    assert NonNegative(t.bands);
    hide AddBandPower, Conserved, NonNegative, BandSum, Moment;
    FilePower(f, p, t.bands);
    MomentBounds(f, p);
    ConservedSum(t, p, Moment(f, p), logarithm, AddBandPower(f, p, t.bands));
  }

  lemma ConservedSum(t: Totals, p: real, moment: real, logarithm: real, bands: Bands)
    requires Conserved(t) && p >= 0.0 && 80.0 * p <= moment <= 8000.0 * p
    requires NonNegative(bands) && BandSum(bands) == BandSum(t.bands) + p
    ensures Conserved(Totals(t.power + p, t.weighted + moment, t.logarithmic + logarithm, t.bins + 1, bands))
  {
  }

  lemma FilePower(f: real, p: real, b: Bands)
    requires 80.0 <= f <= 8000.0 && p >= 0.0 && NonNegative(b)
    ensures NonNegative(AddBandPower(f, p, b)) && BandSum(AddBandPower(f, p, b)) == BandSum(b) + p
  {
  }

  lemma NormNonNegative(z: Complex)
    ensures NormSquared(z) >= 0.0
  {
  }

  lemma MomentBounds(f: real, p: real)
    requires 80.0 <= f <= 8000.0 && p >= 0.0
    ensures 80.0 * p <= Moment(f, p) <= 8000.0 * p
  {
    ScaleMonotone(p, 80.0, f);
    ScaleMonotone(p, f, 8000.0);
  }

  /** The second spectral loop: the first scanned bin from `bin` on whose cumulative power reaches the target. */
  function RolloffFrom(s: seq<Complex>, rate: nat, m: Math, target: real, bin: nat): real
    requires |s| >= 2
    decreases |s| - bin
  {
    if bin > |s| / 2 then 0.0
    else if Scanned(bin, rate, |s|) && Gather(s, rate, m, bin).power >= target then Frequency(bin, rate, |s|)
    else RolloffFrom(s, rate, m, target, bin + 1)
  }

  /** `bin` is the least scanned bin at which 85 % of the power is reached. */
  ghost predicate IsRolloffBin(s: seq<Complex>, rate: nat, m: Math, bin: nat)
    requires |s| >= 2
  {
    var target := Gather(s, rate, m, |s| / 2).power * 0.85;
    && 1 <= bin <= |s| / 2 && Scanned(bin, rate, |s|) && Gather(s, rate, m, bin).power >= target
    && forall b: nat :: 1 <= b < bin && Scanned(b, rate, |s|) ==> Gather(s, rate, m, b).power < target
  }

  /** The loop always finds that bin when there is any power at all. */
  lemma RolloffIsLeast(s: seq<Complex>, rate: nat, m: Math) returns (bin: nat)
    requires |s| >= 2
    requires Gather(s, rate, m, |s| / 2).power > 0.0
    ensures IsRolloffBin(s, rate, m, bin)
    ensures RolloffFrom(s, rate, m, Gather(s, rate, m, |s| / 2).power * 0.85, 1) == Frequency(bin, rate, |s|)
  {
    var total := Gather(s, rate, m, |s| / 2).power;
    var last := LastScanned(s, rate, m, |s| / 2);
    assert total >= total * 0.85;
    bin := RolloffSearch(s, rate, m, total * 0.85, 1, last);
  }

  lemma {:induction false} LastScanned(s: seq<Complex>, rate: nat, m: Math, bin: nat) returns (last: nat)
    requires bin < |s| && Gather(s, rate, m, bin).power > 0.0
    ensures 1 <= last <= bin && Scanned(last, rate, |s|)
    ensures Gather(s, rate, m, last).power == Gather(s, rate, m, bin).power
  {
    if Scanned(bin, rate, |s|) {
      last := bin;
    } else {
      last := LastScanned(s, rate, m, bin - 1);
    }
  }

  lemma {:induction false} RolloffSearch(s: seq<Complex>, rate: nat, m: Math, target: real, from: nat, last: nat)
    returns (bin: nat)
    requires |s| >= 2 && 1 <= from <= last <= |s| / 2
    requires Scanned(last, rate, |s|) && Gather(s, rate, m, last).power >= target
    ensures from <= bin <= last && Scanned(bin, rate, |s|) && Gather(s, rate, m, bin).power >= target
    ensures forall b: nat :: from <= b < bin && Scanned(b, rate, |s|) ==> Gather(s, rate, m, b).power < target
    ensures RolloffFrom(s, rate, m, target, from) == Frequency(bin, rate, |s|)
    decreases last - from
  {
    if Scanned(from, rate, |s|) && Gather(s, rate, m, from).power >= target {
      bin := from;
    } else {
      bin := RolloffSearch(s, rate, m, target, from + 1, last);
    }
  }

  // ---------- the whole description ----------

  /** The frame sizes and rates the front end accepts. */
  predicate SupportedFormat(count: nat, rate: nat) {
    8000 <= rate <= 48000 && 128 <= count <= 1024 && IsPow2(count)
  }

  /** The high-passed samples. */
  function HighPassed(samples: seq<real>, rate: nat): (y: seq<real>)
    requires |samples| > 0 && rate > 0
    ensures |y| == |samples|
  {
    var mean := Survey(samples, |samples|).sum / |samples| as real;
    seq(|samples|, i requires 0 <= i < |samples| => Filtered(samples, mean, Alpha(rate), i))
  }

  /** Each filtered value follows from the one before it. */
  lemma HighPassedNext(samples: seq<real>, rate: nat, mean: real, i: nat)
    requires i < |samples| && rate > 0
    requires mean == Survey(samples, |samples|).sum / |samples| as real
    ensures HighPassed(samples, rate)[i] ==
            HighPass(Alpha(rate), if i == 0 then 0.0 else HighPassed(samples, rate)[i - 1],
                     Centred(samples, mean, i), Centred(samples, mean, if i == 0 then 0 else i - 1))
  {
    hide Survey, Alpha, Centred, HighPass;
  }

  /** The windowed signal handed to the transform. */
  function Windowed(y: seq<real>, m: Math): (x: seq<Complex>)
    ensures |x| == |y|
    ensures forall i :: 0 <= i < |x| ==> x[i].im == 0.0
  {
    seq(|y|, i requires 0 <= i < |y| => Complex(Taper(y[i], m.hann(i, |y|)), 0.0))
  }

  /** The discrete Fourier transform of a frame. */
  function Spectrum(x: seq<Complex>, m: Math): (s: seq<Complex>)
    ensures |s| == |x|
  {
    seq(|x|, k requires 0 <= k < |x| => Bin(x, m.root(|x|), k))
  }

  function Crest(level: Level, n: nat, m: Math): real
    requires n > 0
  {
    var rms := m.sqrt(level.sumSquares / n as real);
    if rms > 0.00000001 then level.peak / rms else 0.0
  }

  function Describe(samples: seq<real>, rate: nat, m: Math): Features
    requires SupportedFormat(|samples|, rate)
  {
    var n := |samples|;
    var range := Survey(samples, n);
    var y := HighPassed(samples, rate);
    var level := Measure(y, n);
    var s := Spectrum(Windowed(y, m), m);
    Shape(LevelFeatures(range, level, n, rate, m), s, rate, m)
  }

  /** The features that do not depend on the spectrum. */
  function LevelFeatures(range: Range, level: Level, n: nat, rate: nat, m: Math): Features
    requires n >= 2 && rate > 0
  {
    Features(true, range.nonZero >= n / 20 && range.maximum - range.minimum > SIGNAL_VARIATION_MINIMUM,
             rate, n * 1000 / rate,
             ToDb(m.sqrt(level.sumSquares / n as real), m), ToDb(level.peak, m),
             range.clipping as real / n as real, Crest(level, n, m), level.crossings as real / (n - 1) as real,
             0.0, 0.0, 0.0, NO_BANDS)
  }

  function ScaleBands(a: Bands, k: real): Bands {
    Bands(a.hz80To250 * k, a.hz250To800 * k, a.hz800To2000 * k, a.hz2000To4000 * k, a.hz4000To8000 * k)
  }

  /** Fills in the spectral features of a transformed frame. */
  function Shape(f: Features, s: seq<Complex>, rate: nat, m: Math): Features
    requires |s| >= 2
  {
    var t := Gather(s, rate, m, |s| / 2);
    if t.power <= 0.00000000000000000001 || t.bins == 0 then
      f.(spectralCentroidHz := 0.0, spectralFlatness := 0.0, spectralRolloffHz := 0.0, bands := NO_BANDS)
    else
      var inverse := 1.0 / t.power;
      f.(spectralCentroidHz := t.weighted / t.power,
         spectralFlatness :=
           Min(1.0, m.exp(t.logarithmic / t.bins as real) / (t.power / t.bins as real + 0.00000000000000000001)),
         spectralRolloffHz := RolloffFrom(s, rate, m, t.power * 0.85, 1),
         bands := ScaleBands(t.bands, inverse))
  }

  // ---------- ranges ----------

  /** What every accepted frame satisfies; crest, centroid and rolloff are zero for silence. */
  ghost predicate FrameInRange(f: Features, n: nat) {
    && f.valid
    && DB_FLOOR <= f.relativeLevelDbfs <= 0.0 && DB_FLOOR <= f.peakDbfs <= 0.0
    && 0.0 <= f.clippingRatio <= 1.0 && 0.0 <= f.zeroCrossingRate <= 1.0
    && (f.crestFactor == 0.0 || 1.0 <= f.crestFactor) && f.crestFactor * f.crestFactor <= n as real
    && (f.spectralCentroidHz == 0.0 || 80.0 <= f.spectralCentroidHz <= 8000.0)
    && (f.spectralRolloffHz == 0.0 || 80.0 <= f.spectralRolloffHz <= 8000.0)
    && 0.0 <= f.spectralFlatness <= 1.0
    && NonNegative(f.bands) && (BandSum(f.bands) == 1.0 || f.bands == NO_BANDS)
  }

  lemma RatioInUnit(k: nat, n: nat)
    requires k <= n && n > 0
    ensures 0.0 <= k as real / n as real <= 1.0
  {
  }

  lemma Quotient(a: real, b: real)
    requires b > 0.0
    ensures (a / b) * b == a
  {
  }

  lemma ProductBelow(a: real, b: real, scale: real)
    requires scale > 0.0 && a * scale <= b * scale
    ensures a <= b
  {
    assert (a - b) * scale == a * scale - b * scale;
    if a > b {
      ProductStrict(a - b, scale);
    }
  }

  lemma ProductStrict(a: real, scale: real)
    requires a > 0.0 && scale > 0.0
    ensures a * scale > 0.0
  {
  }

  lemma ProductPositive(a: real, b: real, product: real)
    requires a > 0.0 && b > 0.0 && product == a * b
    ensures product > 0.0
  {
  }

  lemma SquareOrder(a: real, b: real)
    requires 0.0 <= a && 0.0 <= b && a * a <= b * b
    ensures a <= b
  {
    assert (a - b) * (a + b) == a * a - b * b;
    if a > b {
      ProductStrict(a - b, a + b);
    }
  }

  lemma SquareOfProduct(c: real, r: real)
    ensures (c * r) * (c * r) == (c * c) * (r * r)
  {
    var d := c * r;
    assert d * d == c * (r * d);
    assert r * d == (c * r) * r;
    assert (c * r) * r == c * (r * r);
    assert c * (c * (r * r)) == (c * c) * (r * r);
  }

  /** A crest factor is zero or between one and the root of the frame length. */
  lemma CrestInRange(y: seq<real>, n: nat, m: Math)
    requires Faithful(m) && |y| == n && n > 0
    ensures var c := Crest(Measure(y, n), n, m);
            (c == 0.0 || 1.0 <= c) && c * c <= n as real
  {
    PeakAndEnergy(y, n);
    hide Measure;
    CrestOfLevel(Measure(y, n), n, m);
  }

  lemma CrestOfLevel(l: Level, n: nat, m: Math)
    requires Faithful(m) && n > 0 && PeakBounds(l, n as real)
    ensures var c := Crest(l, n, m);
            (c == 0.0 || 1.0 <= c) && c * c <= n as real
  {
    MeanSquare(l.sumSquares, l.peak, n as real);
    hide PeakBounds;
    var mean := l.sumSquares / n as real;
    var rms := m.sqrt(mean);
    assert rms >= 0.0 && rms * rms == mean;
    hide Faithful;
    if rms > 0.00000001 {
      CrestAlgebra(l.peak, mean, n as real, rms);
    }
  }

  lemma MeanSquare(energy: real, peak: real, n: real)
    requires n > 0.0 && peak * peak <= energy <= n * (peak * peak) && 0.0 <= peak
    ensures var mean := energy / n;
            0.0 <= mean <= peak * peak <= n * mean
  {
    var mean := energy / n;
    var square := peak * peak;
    SquareMonotone(0.0, peak);
    Quotient(energy, n);
    assert mean * n == energy;
    ProductBelow(0.0, mean, n);
    ProductBelow(mean, square, n);
  }

  lemma CrestAlgebra(peak: real, mean: real, n: real, rms: real)
    requires n > 0.0 && rms > 0.0 && peak >= 0.0
    requires rms * rms == mean <= peak * peak <= n * mean
    ensures 1.0 <= peak / rms && (peak / rms) * (peak / rms) <= n
  {
    var c := peak / rms;
    Quotient(peak, rms);
    CrestBelow(c, peak, mean, n, rms);
    SquareOrder(rms, peak);
    ProductBelow(1.0, c, rms);
  }

  lemma CrestBelow(c: real, peak: real, mean: real, n: real, rms: real)
    requires rms > 0.0 && c * rms == peak && rms * rms == mean && peak * peak <= n * mean
    ensures c * c <= n
  {
    ProductPositive(rms, rms, mean);
    assert (c * c) * mean <= n * mean by {
      SquareOfProduct(c, rms);
    }
    ProductBelow(c * c, n, mean);
  }

  lemma ShapeInRange(f: Features, s: seq<Complex>, rate: nat, m: Math)
    requires |s| >= 2 && Faithful(m)
    ensures var g := Shape(f, s, rate, m);
            && (g.spectralCentroidHz == 0.0 || 80.0 <= g.spectralCentroidHz <= 8000.0)
            && (g.spectralRolloffHz == 0.0 || 80.0 <= g.spectralRolloffHz <= 8000.0)
            && 0.0 <= g.spectralFlatness <= 1.0
            && NonNegative(g.bands) && (BandSum(g.bands) == 1.0 || g.bands == NO_BANDS)
  {
    ShapedSpectrum(f, s, rate, m);
    ShapedBands(f, s, rate, m);
    hide *;
  }

  lemma ShapedSpectrum(f: Features, s: seq<Complex>, rate: nat, m: Math)
    requires |s| >= 2 && Faithful(m)
    ensures var g := Shape(f, s, rate, m);
            && (g.spectralCentroidHz == 0.0 || 80.0 <= g.spectralCentroidHz <= 8000.0)
            && (g.spectralRolloffHz == 0.0 || 80.0 <= g.spectralRolloffHz <= 8000.0)
            && 0.0 <= g.spectralFlatness <= 1.0
  {
    var t := Gather(s, rate, m, |s| / 2);
    PowerIsConserved(s, rate, m, |s| / 2);
    hide Gather, RolloffFrom, NonNegative, BandSum, IsRolloffBin, Frequency;
    if !(t.power <= 0.00000000000000000001 || t.bins == 0) {
      RolloffInRange(s, rate, m);
      CentroidBounds(t.weighted, t.power);
      FlatnessBounds(m.exp(t.logarithmic / t.bins as real), t.power, t.bins as real);
    }
  }

  lemma ShapedBands(f: Features, s: seq<Complex>, rate: nat, m: Math)
    requires |s| >= 2
    ensures var g := Shape(f, s, rate, m); NonNegative(g.bands) && (BandSum(g.bands) == 1.0 || g.bands == NO_BANDS)
  {
    var t := Gather(s, rate, m, |s| / 2);
    PowerIsConserved(s, rate, m, |s| / 2);
    hide Gather, RolloffFrom, NonNegative, BandSum, IsRolloffBin, Frequency;
    if !(t.power <= 0.00000000000000000001 || t.bins == 0) {
      RatiosSum(t.bands, t.power);
    } else {
      NoBands();
    }
  }

  lemma NoBands()
    ensures NonNegative(NO_BANDS)
  {
  }

  lemma RolloffInRange(s: seq<Complex>, rate: nat, m: Math)
    requires |s| >= 2
    requires Gather(s, rate, m, |s| / 2).power > 0.0
    ensures 80.0 <= RolloffFrom(s, rate, m, Gather(s, rate, m, |s| / 2).power * 0.85, 1) <= 8000.0
  {
    var bin := RolloffIsLeast(s, rate, m);
  }

  lemma CentroidBounds(weighted: real, power: real)
    requires power > 0.0 && 80.0 * power <= weighted <= 8000.0 * power
    ensures 80.0 <= weighted / power <= 8000.0
  {
    var c := weighted / power;
    Quotient(weighted, power);
    CentroidBelow(c, weighted, power);
    ProductBelow(80.0, c, power);
  }

  lemma CentroidBelow(c: real, weighted: real, power: real)
    requires power > 0.0 && c * power == weighted <= 8000.0 * power
    ensures c <= 8000.0
  {
    ProductBelow(c, 8000.0, power);
  }

  lemma FlatnessBounds(geometric: real, power: real, bins: real)
    requires geometric >= 0.0 && power > 0.0 && bins > 0.0
    ensures 0.0 <= Min(1.0, geometric / (power / bins + 0.00000000000000000001)) <= 1.0
  {
    Quotient(power, bins);
    ProductBelow(0.0, power / bins, bins);
    var d := power / bins + 0.00000000000000000001;
    Quotient(geometric, d);
    ProductBelow(0.0, geometric / d, d);
  }

  lemma RatiosSum(b: Bands, power: real)
    requires power > 0.0 && NonNegative(b) && BandSum(b) == power
    ensures var inverse := 1.0 / power;
            var r := ScaleBands(b, inverse);
            NonNegative(r) && BandSum(r) == 1.0
  {
    var inverse := 1.0 / power;
    Quotient(1.0, power);
    ProductBelow(0.0, inverse, power);
    ScaleMonotone(inverse, 0.0, b.hz80To250);
    ScaleMonotone(inverse, 0.0, b.hz250To800);
    ScaleMonotone(inverse, 0.0, b.hz800To2000);
    ScaleMonotone(inverse, 0.0, b.hz2000To4000);
    ScaleMonotone(inverse, 0.0, b.hz4000To8000);
    Distribute5(b, inverse);
  }

  lemma Distribute5(b: Bands, k: real)
    ensures b.hz80To250 * k + b.hz250To800 * k + b.hz800To2000 * k + b.hz2000To4000 * k + b.hz4000To8000 * k
            == BandSum(b) * k
  {
  }

  /** Every accepted frame is described within range, whatever its samples. */
  lemma FramesAreInRange(samples: seq<real>, rate: nat, m: Math)
    requires Faithful(m) && SupportedFormat(|samples|, rate)
    ensures FrameInRange(Describe(samples, rate, m), |samples|)
  {
    hide Shape, Crest, ToDb, Survey, Measure, Spectrum, Windowed, HighPassed, Faithful, BandSum, NonNegative, IsPow2;
    var n := |samples|;
    var y := HighPassed(samples, rate);
    var level, range := Measure(y, n), Survey(samples, n);
    LevelInRange(m.sqrt(level.sumSquares / n as real), m);
    LevelInRange(level.peak, m);
    RatioInUnit(range.clipping, n);
    RatioInUnit(level.crossings, n - 1);
    CrestInRange(y, n, m);
    var s := Spectrum(Windowed(y, m), m);
    var f := LevelFeatures(range, level, n, rate, m);
    ShapeInRange(f, s, rate, m);
    ShapeKeepsLevel(f, s, rate, m);
  }

  lemma ShapeKeepsLevel(f: Features, s: seq<Complex>, rate: nat, m: Math)
    requires |s| >= 2
    ensures var g := Shape(f, s, rate, m);
            g.(spectralCentroidHz := f.spectralCentroidHz, spectralFlatness := f.spectralFlatness,
               spectralRolloffHz := f.spectralRolloffHz, bands := f.bands) == f
  {
  }
}
