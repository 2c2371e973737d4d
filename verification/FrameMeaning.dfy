/** What the description of a frame says about its samples: equations, sums and counts over the frame. */
module FrameMeaning {
  import opened Bits
  import opened ComplexNumbers
  import opened Fft
  import opened AcousticFeatures

  /** The facts about logarithms behind the decibel scale and the geometric mean. */
  ghost predicate Logarithms(m: Math) {
    && (forall v: real, u: real :: 0.0 < v && u == 10.0 * v ==> m.log10(u) == m.log10(v) + 1.0)
    && (forall v: real :: v > 0.0 ==> m.pow10(m.log10(v)) == v)
    && (forall v: real :: v > 0.0 ==> m.exp(m.ln(v)) == v)
  }

  function Sum(s: seq<real>): real {
    if s == [] then 0.0 else Sum(s[..|s| - 1]) + s[|s| - 1]
  }

  lemma SumNext(s: seq<real>, i: nat)
    requires i < |s|
    ensures Sum(s[..i + 1]) == Sum(s[..i]) + s[i]
  {
    assert s[..i + 1][..i] == s[..i];
  }

  /** Division said by multiplication. */
  ghost predicate IsQuotient(q: real, a: real, b: real) {
    q * b == a
  }

  lemma Divided(a: real, b: real)
    requires b > 0.0
    ensures IsQuotient(a / b, a, b) && IsQuotient(a * (1.0 / b), a, b)
  {
    Quotient(a, b);
    Quotient(1.0, b);
    var inverse := 1.0 / b;
    assert a * inverse * b == a * (inverse * b);
  }

  function Mean(sum: real, count: nat): real
    requires count > 0
  {
    sum / count as real
  }

  // ---------- decibels ----------

  lemma FullScaleAndFloor(m: Math)
    requires Faithful(m) && Logarithms(m)
    ensures m.log10(0.00000001) == -8.0
  {
    assert m.log10(1.0) == m.log10(0.1) + 1.0;
    assert m.log10(0.1) == m.log10(0.01) + 1.0;
    assert m.log10(0.01) == m.log10(0.001) + 1.0;
    assert m.log10(0.001) == m.log10(0.0001) + 1.0;
    assert m.log10(0.0001) == m.log10(0.00001) + 1.0;
    assert m.log10(0.00001) == m.log10(0.000001) + 1.0;
    assert m.log10(0.000001) == m.log10(0.0000001) + 1.0;
    assert m.log10(0.0000001) == m.log10(0.00000001) + 1.0;
  }

  /**
     The decibel scale: between its ends a level gives the amplitude back, and ten times the amplitude
     is 20 dB more.
   */
  lemma LevelIsDecibels(a: real, m: Math)
    requires Faithful(m) && Logarithms(m)
    ensures a <= 0.00000001 ==> ToDb(a, m) == -160.0
    ensures 0.00000001 < a <= 1.0 ==> m.pow10(ToDb(a, m) / 20.0) == a
    ensures a >= 1.0 ==> ToDb(a, m) == 0.0
    ensures 0.00000001 < a <= 0.1 ==> ToDb(10.0 * a, m) == ToDb(a, m) + 20.0
  {
    FullScaleAndFloor(m);
    if a > 0.00000001 {
      assert m.log10(10.0 * a) == m.log10(a) + 1.0;
      if a <= 1.0 {
        assert m.log10(0.00000001) <= m.log10(a) <= m.log10(1.0);
        assert ToDb(a, m) / 20.0 == m.log10(a);
      } else {
        assert m.log10(1.0) <= m.log10(a);
      }
      if a <= 0.1 {
        assert m.log10(10.0 * a) <= m.log10(1.0);
      }
    }
  }

  // ---------- formats ----------

  /** The accepted frames are those of 128, 256, 512 or 1024 samples at 8 to 48 kHz. */
  lemma SupportedFormats(count: nat, rate: nat)
    ensures SupportedFormat(count, rate) <==>
            8000 <= rate <= 48000 && (count == 128 || count == 256 || count == 512 || count == 1024)
  {
    assert IsPow2(128) && IsPow2(256) && IsPow2(512) && IsPow2(1024);
    if IsPow2(count) && 128 <= count <= 1024 {
      OnlyPow2(count, if count < 256 then 128 else if count < 512 then 256 else if count < 1024 then 512 else 1024);
    }
  }

  lemma {:induction false} OnlyPow2(n: nat, p: nat)
    requires IsPow2(n) && IsPow2(p) && p <= n < 2 * p
    ensures n == p
  {
    if p > 1 {
      OnlyPow2(n / 2, p / 2);
    }
  }

  // ---------- the filter ----------

  /** The samples limited to full scale. */
  ghost predicate IsClamped(samples: seq<real>, v: seq<real>) {
    |v| == |samples| && forall i :: 0 <= i < |v| ==>
      v[i] == if samples[i] < -1.0 then -1.0 else if samples[i] > 1.0 then 1.0 else samples[i]
  }

  /** The time constant of a first-order high-pass filter with cutoff 90 Hz. */
  function TimeConstant(): (rc: real)
    ensures rc > 0.0
  {
    1.0 / (2.0 * 3.14159265358979323846 * 90.0)
  }

  /** The time between two samples. */
  function Interval(rate: nat): (dt: real)
    requires rate > 0
    ensures dt > 0.0
  {
    1.0 / rate as real
  }

  ghost predicate FilterStep(y: real, before: real, change: real, rate: nat)
    requires rate > 0
  {
    y * (TimeConstant() + Interval(rate)) == TimeConstant() * (before + change)
  }

  /** The difference equation of that filter, started at rest. */
  ghost predicate IsFiltered(v: seq<real>, y: seq<real>, rate: nat)
    requires rate > 0
  {
    && |y| == |v| && (v != [] ==> y[0] == 0.0)
    && forall i :: 0 < i < |v| ==> FilterStep(y[i], y[i - 1], v[i] - v[i - 1], rate)
  }

  lemma AlphaStep(rate: nat, before: real, input: real, previous: real)
    requires rate > 0
    ensures FilterStep(HighPass(Alpha(rate), before, input, previous), before, input - previous, rate)
  {
    var rc, dt := TimeConstant(), Interval(rate);
    assert Alpha(rate) == rc / (rc + dt);
    hide Alpha, TimeConstant, Interval;
    Scaled(rc, rc + dt, before + (input - previous));
    assert HighPass(Alpha(rate), before, input, previous) == rc / (rc + dt) * (before + (input - previous));
  }

  lemma Scaled(a: real, b: real, x: real)
    requires b > 0.0
    ensures (a / b * x) * b == a * x
  {
    Quotient(a, b);
    var q := a / b;
    assert (q * x) * b == (q * b) * x;
  }

  /** The filter of the front end is that filter, whatever the mean it subtracts. */
  lemma FilterEquation(samples: seq<real>, v: seq<real>, rate: nat)
    requires IsClamped(samples, v) && rate > 0 && samples != []
    ensures IsFiltered(v, HighPassed(samples, rate), rate)
  {
    hide HighPassed, FilterStep, HighPass, Alpha, Survey;
    var y, mean := HighPassed(samples, rate), Survey(samples, |samples|).sum / |samples| as real;
    AtRest(samples, rate, mean);
    forall i | 0 < i < |v|
      ensures FilterStep(y[i], y[i - 1], v[i] - v[i - 1], rate)
    {
      HighPassedNext(samples, rate, mean, i);
      AlphaStep(rate, y[i - 1], v[i] - mean, v[i - 1] - mean);
      assert v[i] - mean - (v[i - 1] - mean) == v[i] - v[i - 1];
    }
  }

  lemma AtRest(samples: seq<real>, rate: nat, mean: real)
    requires samples != [] && rate > 0 && mean == Survey(samples, |samples|).sum / |samples| as real
    ensures HighPassed(samples, rate)[0] == 0.0
  {
    HighPassedNext(samples, rate, mean, 0);
    hide Survey, HighPassed, Alpha;
  }

  /** A constant input decays by the factor rc / (rc + dt). */
  lemma ConstantInputDecays(v: seq<real>, y: seq<real>, rate: nat, i: nat)
    requires rate > 0 && IsFiltered(v, y, rate) && 0 < i < |v| && v[i] == v[i - 1]
    ensures y[i] == y[i - 1] * (TimeConstant() / (TimeConstant() + Interval(rate)))
  {
    assert FilterStep(y[i], y[i - 1], v[i] - v[i - 1], rate);
    hide IsFiltered;
    var rc, dt, before := TimeConstant(), Interval(rate), y[i - 1];
    assert before + (v[i] - v[i - 1]) == before;
    hide TimeConstant, Interval;
    Scaled(rc, rc + dt, before);
    SameFactor(y[i], rc / (rc + dt) * before, rc + dt);
  }

  /** The equation has one solution. */
  lemma {:induction false} FilteredIsUnique(v: seq<real>, y: seq<real>, z: seq<real>, rate: nat, i: nat)
    requires rate > 0 && IsFiltered(v, y, rate) && IsFiltered(v, z, rate) && i < |v|
    ensures y[i] == z[i]
  {
    if i > 0 {
      FilteredIsUnique(v, y, z, rate, i - 1);
      assert FilterStep(y[i], y[i - 1], v[i] - v[i - 1], rate) && FilterStep(z[i], z[i - 1], v[i] - v[i - 1], rate);
      hide IsFiltered, TimeConstant, Interval;
      SameFactor(y[i], z[i], TimeConstant() + Interval(rate));
    }
  }

  lemma SameFactor(a: real, b: real, scale: real)
    requires scale > 0.0 && a * scale == b * scale
    ensures a == b
  {
    ProductBelow(a, b, scale);
    ProductBelow(b, a, scale);
  }

  // ---------- levels and counts ----------

  function Squares(y: seq<real>): (r: seq<real>)
    ensures |r| == |y|
  {
    seq(|y|, i requires 0 <= i < |y| => y[i] * y[i])
  }

  /** The largest absolute value. */
  ghost predicate IsPeak(y: seq<real>, peak: real) {
    && (forall i :: 0 <= i < |y| ==> -peak <= y[i] <= peak)
    && exists i :: 0 <= i < |y| && (y[i] == peak || y[i] == -peak)
  }

  predicate IsAudible(x: real) {
    x > 0.000000001 || x < -0.000000001
  }

  predicate IsClipped(x: real) {
    x >= 0.98 || x <= -0.98
  }

  function Audible(v: seq<real>, n: nat): set<nat>
    requires n <= |v|
  {
    set i: nat | i < n && IsAudible(v[i])
  }

  function Clipped(v: seq<real>, n: nat): set<nat>
    requires n <= |v|
  {
    set i: nat | i < n && IsClipped(v[i])
  }

  predicate ChangesSign(y: seq<real>, i: nat)
    requires i < |y|
  {
    i > 0 && ((y[i - 1] < 0.0 && y[i] >= 0.0) || (y[i - 1] >= 0.0 && y[i] < 0.0))
  }

  function SignChanges(y: seq<real>, n: nat): set<nat>
    requires n <= |y|
  {
    set i: nat | i < n && ChangesSign(y, i)
  }

  ghost predicate Extremes(v: seq<real>, n: nat, r: Range)
    requires n <= |v|
  {
    && (forall j :: 0 <= j < n ==> r.minimum <= v[j] <= r.maximum)
    && (exists a, b :: 0 <= a < |v| && 0 <= b < |v| && r.minimum == v[a] && r.maximum == v[b])
  }

  function SurveyNext(r: Range, x: real): Range {
    Range(r.sum + x, Min(r.minimum, x), Max(r.maximum, x), if Abs(x) > 0.000000001 then r.nonZero + 1 else r.nonZero,
          if Abs(x) >= CLIPPING_THRESHOLD then r.clipping + 1 else r.clipping)
  }

  lemma {:induction false} SurveyCounts(samples: seq<real>, v: seq<real>, n: nat)
    requires IsClamped(samples, v) && n <= |v| && samples != []
    ensures var r := Survey(samples, n);
            r.nonZero == |Audible(v, n)| && r.clipping == |Clipped(v, n)| && Extremes(v, n, r)
  {
    if n == 0 {
      assert v[0] == ClampSample(samples[0]);
      assert Audible(v, 0) == {} && Clipped(v, 0) == {};
    } else {
      SurveyCounts(samples, v, n - 1);
      assert v[n - 1] == ClampSample(samples[n - 1]);
      assert Survey(samples, n) == SurveyNext(Survey(samples, n - 1), v[n - 1]);
      hide Survey, IsClamped;
      AudibleNext(v, n);
      ClippedNext(v, n);
      Thresholds(v[n - 1]);
      hide IsAudible, IsClipped, Audible, Clipped, Extremes;
      ExtremesNext(v, n, Survey(samples, n - 1));
    }
  }

  lemma AudibleNext(v: seq<real>, n: nat)
    requires 0 < n <= |v|
    ensures |Audible(v, n)| == |Audible(v, n - 1)| + if IsAudible(v[n - 1]) then 1 else 0
  {
    hide IsAudible;
    if IsAudible(v[n - 1]) {
      assert Audible(v, n) == Audible(v, n - 1) + {n - 1};
    } else {
      assert Audible(v, n) == Audible(v, n - 1);
    }
  }

  lemma ClippedNext(v: seq<real>, n: nat)
    requires 0 < n <= |v|
    ensures |Clipped(v, n)| == |Clipped(v, n - 1)| + if IsClipped(v[n - 1]) then 1 else 0
  {
    hide IsClipped;
    if IsClipped(v[n - 1]) {
      assert Clipped(v, n) == Clipped(v, n - 1) + {n - 1};
    } else {
      assert Clipped(v, n) == Clipped(v, n - 1);
    }
  }

  lemma Thresholds(x: real)
    ensures IsAudible(x) <==> Abs(x) > 0.000000001
    ensures IsClipped(x) <==> Abs(x) >= CLIPPING_THRESHOLD
  {
  }

  lemma ExtremesNext(v: seq<real>, n: nat, r: Range)
    requires 0 < n <= |v| && Extremes(v, n - 1, r)
    ensures Extremes(v, n, SurveyNext(r, v[n - 1]))
  {
    var a, b :| 0 <= a < |v| && 0 <= b < |v| && r.minimum == v[a] && r.maximum == v[b];
    var t := SurveyNext(r, v[n - 1]);
    assert t.minimum == v[if v[n - 1] < v[a] then n - 1 else a] && t.maximum == v[if v[n - 1] > v[b] then n - 1 else b];
  }

  lemma {:induction false} MeasureCounts(y: seq<real>, n: nat)
    requires n <= |y|
    ensures var l := Measure(y, n);
            && l.sumSquares == Sum(Squares(y)[..n]) && l.crossings == |SignChanges(y, n)|
            && if n > 0 then IsPeak(y[..n], l.peak) else l.peak == 0.0
  {
    hide IsPeak, Sum;
    if n == 0 {
      assert SignChanges(y, 0) == {} && Squares(y)[..0] == [];
      NoSum();
    } else {
      MeasureCounts(y, n - 1);
      SumNext(Squares(y), n - 1);
      PeakNext(y, n, Measure(y, n - 1).peak);
      CrossingsNext(y, n);
    }
  }

  lemma NoSum()
    ensures Sum([]) == 0.0
  {
  }

  lemma CrossingsNext(y: seq<real>, n: nat)
    requires 0 < n <= |y|
    ensures |SignChanges(y, n)| ==
            |SignChanges(y, n - 1)| + if n > 1 && ((y[n - 1] >= 0.0) != (y[n - 2] >= 0.0)) then 1 else 0
  {
    assert SignChanges(y, n) == SignChanges(y, n - 1) + if ChangesSign(y, n - 1) then {n - 1} else {};
  }

  lemma PeakNext(y: seq<real>, n: nat, before: real)
    requires 0 < n <= |y| && (if n == 1 then before == 0.0 else IsPeak(y[..n - 1], before))
    ensures IsPeak(y[..n], Max(before, Abs(y[n - 1])))
  {
    var z, peak := y[..n], Max(before, Abs(y[n - 1]));
    if peak == Abs(y[n - 1]) {
      assert z[n - 1] == peak || z[n - 1] == -peak;
    } else {
      assert n > 1;
      var i :| 0 <= i < n - 1 && (y[..n - 1][i] == before || y[..n - 1][i] == -before);
      assert z[i] == peak || z[i] == -peak;
    }
    forall i | 0 <= i < |z|
      ensures -peak <= z[i] <= peak
    {
      if i < n - 1 {
        assert z[i] == y[..n - 1][i];
      }
    }
  }

  /** The level of an amplitude, said without a logarithm. */
  ghost predicate IsLevel(db: real, amplitude: real, m: Math) {
    if amplitude <= 0.00000001 then db == -160.0
    else if amplitude >= 1.0 then db == 0.0
    else m.pow10(db / 20.0) == amplitude
  }

  function DurationMs(count: nat, rate: nat): nat
    requires rate > 0
  {
    count * 1000 / rate
  }

  /** What a frame is said to be, apart from its spectrum. */
  ghost predicate LevelsMeasured(f: Features, v: seq<real>, y: seq<real>, rate: nat, rms: real, m: Math)
    requires |v| == |y| && |v| >= 2 && rate > 0
  {
    var n := |v|;
    && f.valid && f.sampleRateHz == rate && f.windowDurationMs == DurationMs(n, rate)
    && (f.signalResponsive <==> && |Audible(v, n)| >= n / 20
                                && exists a, b :: 0 <= a < n && 0 <= b < n && v[a] - v[b] > 0.0000001)
    && IsLevel(f.relativeLevelDbfs, rms, m)
    && (exists peak :: IsPeak(y, peak) && IsLevel(f.peakDbfs, peak, m)
                       && if rms > 0.00000001 then IsQuotient(f.crestFactor, peak, rms) else f.crestFactor == 0.0)
    && IsQuotient(f.clippingRatio, |Clipped(v, n)| as real, n as real)
    && IsQuotient(f.zeroCrossingRate, |SignChanges(y, n)| as real, (n - 1) as real)
  }

  ghost predicate IsRoot(rms: real, energy: real, n: real) {
    rms >= 0.0 && rms * rms * n == energy
  }

  lemma RootIsUnique(energy: real, n: nat, rms: real, m: Math)
    requires Faithful(m) && n > 0 && energy >= 0.0 && IsRoot(rms, energy, n as real)
    ensures m.sqrt(Mean(energy, n)) == rms
  {
    var mean := Mean(energy, n);
    Quotient(energy, n as real);
    ProductBelow(0.0, mean, n as real);
    SameFactor(mean, rms * rms, n as real);
    var root := m.sqrt(mean);
    assert root >= 0.0 && root * root == mean;
    SquareOrder(root, rms);
    SquareOrder(rms, root);
  }

  lemma LevelOf(a: real, m: Math)
    requires Faithful(m) && Logarithms(m)
    ensures IsLevel(ToDb(a, m), a, m)
  {
    LevelIsDecibels(a, m);
  }

  lemma Responsive(samples: seq<real>, v: seq<real>)
    requires IsClamped(samples, v) && samples != []
    ensures var r := Survey(samples, |samples|);
            r.maximum - r.minimum > 0.0000001 <==>
            exists a, b :: 0 <= a < |v| && 0 <= b < |v| && v[a] - v[b] > 0.0000001
  {
    SurveyCounts(samples, v, |v|);
    hide Survey;
  }

  /**
     The levels, ratios and factors of every accepted frame, for its samples `v` limited to full scale,
     the solution `y` of the filter's equation and the quadratic mean `rms` of that solution.
   */
  lemma LevelsAreMeasured(samples: seq<real>, rate: nat, m: Math, v: seq<real>, y: seq<real>, rms: real)
    requires Faithful(m) && Logarithms(m) && SupportedFormat(|samples|, rate)
    requires IsClamped(samples, v) && IsFiltered(v, y, rate)
    requires IsRoot(rms, Sum(Squares(y)), |y| as real)
    ensures LevelsMeasured(Describe(samples, rate, m), v, y, rate, rms, m)
  {
    SolutionIsFiltered(samples, rate, v, y);
    LevelsOf(samples, rate, m, v, y, rms);
  }

  /** Which of the measurements each field is. */
  lemma LevelFields(samples: seq<real>, rate: nat, m: Math)
    requires SupportedFormat(|samples|, rate)
    ensures var n := |samples|;
            var f, r, l := Describe(samples, rate, m), Survey(samples, n), Measure(HighPassed(samples, rate), n);
            var rms := m.sqrt(Mean(l.sumSquares, n));
            && f.valid && f.sampleRateHz == rate && f.windowDurationMs == DurationMs(n, rate)
            && (f.signalResponsive <==> r.nonZero >= n / 20 && r.maximum - r.minimum > 0.0000001)
            && f.relativeLevelDbfs == ToDb(rms, m) && f.peakDbfs == ToDb(l.peak, m)
            && (if rms > 0.00000001 then IsQuotient(f.crestFactor, l.peak, rms) else f.crestFactor == 0.0)
            && IsQuotient(f.clippingRatio, r.clipping as real, n as real)
            && IsQuotient(f.zeroCrossingRate, l.crossings as real, (n - 1) as real)
  {
    hide Survey, Measure, HighPassed, ToDb, Shape, IsPow2, Spectrum, Windowed, IsQuotient;
    var n := |samples|;
    var y := HighPassed(samples, rate);
    var range, level := Survey(samples, n), Measure(y, n);
    var f := LevelFeatures(range, level, n, rate, m);
    ShapeKeepsLevel(f, Spectrum(Windowed(y, m), m), rate, m);
    var rms := m.sqrt(Mean(level.sumSquares, n));
    Divided(range.clipping as real, n as real);
    Divided(level.crossings as real, (n - 1) as real);
    if rms > 0.00000001 {
      Divided(level.peak, rms);
    }
  }

  /** The three loops, in terms of counts and sums. */
  lemma LoopsOf(samples: seq<real>, v: seq<real>, y: seq<real>)
    requires IsClamped(samples, v) && |y| == |samples| > 0
    ensures var n, r, l := |samples|, Survey(samples, |samples|), Measure(y, |y|);
            && r.nonZero == |Audible(v, n)| && r.clipping == |Clipped(v, n)|
            && l.sumSquares == Sum(Squares(y)) >= 0.0 && l.crossings == |SignChanges(y, n)| && IsPeak(y, l.peak)
  {
    hide IsPeak, Sum, Squares, Audible, Clipped, SignChanges, Extremes, Survey, Measure;
    var n := |samples|;
    SurveyCounts(samples, v, n);
    MeasureCounts(y, n);
    assert Squares(y)[..n] == Squares(y) && y[..n] == y;
    SumOfSquares(y, n);
  }

  lemma LevelsOf(samples: seq<real>, rate: nat, m: Math, v: seq<real>, y: seq<real>, rms: real)
    requires Faithful(m) && Logarithms(m) && SupportedFormat(|samples|, rate)
    requires IsClamped(samples, v) && y == HighPassed(samples, rate)
    requires IsRoot(rms, Sum(Squares(y)), |y| as real)
    ensures LevelsMeasured(Describe(samples, rate, m), v, y, rate, rms, m)
  {
    assert |v| == |samples|;
    hide *;
    LoopsOf(samples, v, y);
    Responsive(samples, v);
    RootIsUnique(Sum(Squares(y)), |y|, rms, m);
    LevelFields(samples, rate, m);
    LevelOf(rms, m);
    LevelOf(Measure(y, |y|).peak, m);
    Assembled(Describe(samples, rate, m), v, y, rate, rms, m, Survey(samples, |samples|), Measure(y, |y|));
  }

  lemma Assembled(f: Features, v: seq<real>, y: seq<real>, rate: nat, rms: real, m: Math, r: Range, l: Level)
    requires |v| == |y| && |v| >= 2 && rate > 0
    requires f.valid && f.sampleRateHz == rate && f.windowDurationMs == DurationMs(|v|, rate)
    requires f.signalResponsive <==> r.nonZero >= |v| / 20 && r.maximum - r.minimum > 0.0000001
    requires r.maximum - r.minimum > 0.0000001 <==>
             exists a, b :: 0 <= a < |v| && 0 <= b < |v| && v[a] - v[b] > 0.0000001
    requires IsLevel(f.relativeLevelDbfs, rms, m) && IsLevel(f.peakDbfs, l.peak, m) && IsPeak(y, l.peak)
    requires if rms > 0.00000001 then IsQuotient(f.crestFactor, l.peak, rms) else f.crestFactor == 0.0
    requires IsQuotient(f.clippingRatio, r.clipping as real, |v| as real)
    requires IsQuotient(f.zeroCrossingRate, l.crossings as real, (|v| - 1) as real)
    requires r.nonZero == |Audible(v, |v|)| && r.clipping == |Clipped(v, |v|)| && l.crossings == |SignChanges(y, |v|)|
    ensures LevelsMeasured(f, v, y, rate, rms, m)
  {
    hide IsLevel, IsPeak, IsQuotient, Audible, Clipped, SignChanges, DurationMs;
  }

  lemma SumOfSquares(y: seq<real>, n: nat)
    requires n <= |y|
    ensures Measure(y, n).sumSquares >= 0.0
  {
    PeakAndEnergy(y, n);
    SquareMonotone(0.0, Measure(y, n).peak);
  }

  // ---------- the spectrum ----------

  function FrequencyOf(k: nat, rate: nat, n: nat): real
    requires n > 0
  {
    k as real * rate as real / n as real
  }

  predicate Heard(k: nat, rate: nat, n: nat)
    requires n > 0
  {
    80.0 <= FrequencyOf(k, rate, n) <= 8000.0
  }

  function HeardBins(rate: nat, n: nat, count: nat): set<nat>
    requires n > 0
  {
    set k: nat | k < count && Heard(k, rate, n)
  }

  /** The power of each bin up to half the length, zero outside the range that is heard. */
  function Powers(s: seq<Complex>, rate: nat): (q: seq<real>)
    requires |s| >= 2
    ensures |q| == |s| / 2 + 1
  {
    seq(|s| / 2 + 1, k requires 0 <= k < |s| / 2 + 1 =>
      if Heard(k, rate, |s|) then s[k].re * s[k].re + s[k].im * s[k].im else 0.0)
  }

  /** Those of the powers whose frequency is in the interval; `n` is the length of the transform. */
  function Within(q: seq<real>, rate: nat, n: nat, low: real, high: real): (r: seq<real>)
    requires n > 0
    ensures |r| == |q|
  {
    seq(|q|, k requires 0 <= k < |q| => if low <= FrequencyOf(k, rate, n) < high then q[k] else 0.0)
  }

  function Moments(q: seq<real>, rate: nat, n: nat): (r: seq<real>)
    requires n > 0
    ensures |r| == |q|
  {
    seq(|q|, k requires 0 <= k < |q| => FrequencyOf(k, rate, n) * q[k])
  }

  function Logs(q: seq<real>, rate: nat, n: nat, m: Math): (r: seq<real>)
    requires n > 0
    ensures |r| == |q|
  {
    seq(|q|, k requires 0 <= k < |q| => if Heard(k, rate, n) then m.ln(q[k] + 0.00000000000000000001) else 0.0)
  }

  lemma SameFrequency(k: nat, rate: nat, n: nat)
    requires n > 0
    ensures FrequencyOf(k, rate, n) == Frequency(k, rate, n)
    ensures Heard(k, rate, n) <==> Scanned(k, rate, n)
    ensures !Heard(0, rate, n)
  {
  }

  lemma GatherStep(s: seq<Complex>, rate: nat, m: Math, bin: nat)
    requires |s| >= 2 && 1 <= bin <= |s| / 2
    ensures var q, t, before := Powers(s, rate), Gather(s, rate, m, bin), Gather(s, rate, m, bin - 1);
            && t.power == before.power + q[bin]
            && t.weighted == before.weighted + Moments(q, rate, |s|)[bin]
            && t.logarithmic == before.logarithmic + Logs(q, rate, |s|, m)[bin]
            && t.bins == before.bins + if Heard(bin, rate, |s|) then 1 else 0
  {
    SameFrequency(bin, rate, |s|);
    hide FrequencyOf, Frequency, Heard, Scanned;
  }

  lemma HeardNext(rate: nat, n: nat, count: nat)
    requires n > 0
    ensures |HeardBins(rate, n, count + 1)| == |HeardBins(rate, n, count)| + if Heard(count, rate, n) then 1 else 0
  {
    hide Heard;
    assert HeardBins(rate, n, count + 1) ==
           HeardBins(rate, n, count) + if Heard(count, rate, n) then {count} else {};
  }

  ghost predicate Gathered(t: Totals, q: seq<real>, rate: nat, n: nat, m: Math, count: nat)
    requires n > 0 && count <= |q|
  {
    && t.power == Sum(q[..count]) && t.weighted == Sum(Moments(q, rate, n)[..count])
    && t.logarithmic == Sum(Logs(q, rate, n, m)[..count]) && t.bins == |HeardBins(rate, n, count)|
  }

  lemma NothingGathered(s: seq<Complex>, rate: nat, m: Math)
    requires |s| >= 2
    ensures Gathered(Gather(s, rate, m, 0), Powers(s, rate), rate, |s|, m, 1)
  {
    var q := Powers(s, rate);
    SameFrequency(0, rate, |s|);
    SumNext(q, 0);
    SumNext(Moments(q, rate, |s|), 0);
    SumNext(Logs(q, rate, |s|, m), 0);
    HeardNext(rate, |s|, 0);
    assert HeardBins(rate, |s|, 0) == {};
  }

  lemma {:induction false} GatherSums(s: seq<Complex>, rate: nat, m: Math, bin: nat)
    requires |s| >= 2 && bin <= |s| / 2
    ensures Gathered(Gather(s, rate, m, bin), Powers(s, rate), rate, |s|, m, bin + 1)
  {
    if bin == 0 {
      NothingGathered(s, rate, m);
    } else {
      var q := Powers(s, rate);
      GatherSums(s, rate, m, bin - 1);
      GatherStep(s, rate, m, bin);
      hide Gather, Powers, Moments, Logs, HeardBins, Heard, Sum;
      SumNext(q, bin);
      SumNext(Moments(q, rate, |s|), bin);
      SumNext(Logs(q, rate, |s|, m), bin);
      HeardNext(rate, |s|, bin);
    }
  }

  lemma {:induction false} BetweenSum(s: seq<Complex>, rate: nat, low: real, high: real, bin: nat)
    requires |s| >= 2 && bin <= |s| / 2
    ensures PowerBetween(s, rate, low, high, bin) == Sum(Within(Powers(s, rate), rate, |s|, low, high)[..bin + 1])
  {
    var w := Within(Powers(s, rate), rate, |s|, low, high);
    SumNext(w, bin);
    SameFrequency(bin, rate, |s|);
    hide FrequencyOf, Frequency, Heard, Scanned;
    if bin > 0 {
      BetweenSum(s, rate, low, high, bin - 1);
    }
  }

  /** The first bin in the range at which 85 percent of the power is reached. */
  ghost predicate IsRolloff(bin: nat, q: seq<real>, rate: nat, n: nat)
    requires n > 0
  {
    && bin < |q| && Heard(bin, rate, n) && Sum(q[..bin + 1]) >= Sum(q) * 0.85
    && forall b: nat :: b < bin && Heard(b, rate, n) ==> Sum(q[..b + 1]) < Sum(q) * 0.85
  }

  /** The spectral features of a transform `s`. */
  ghost predicate SpectrumMeasured(f: Features, s: seq<Complex>, rate: nat, m: Math)
    requires |s| >= 2
  {
    var q, n := Powers(s, rate), |s|;
    var power, bins := Sum(q), |HeardBins(rate, n, |q|)|;
    if power <= 0.00000000000000000001 then
      && f.spectralCentroidHz == f.spectralFlatness == f.spectralRolloffHz == 0.0
      && f.bands == Bands(0.0, 0.0, 0.0, 0.0, 0.0)
    else
      && bins > 0
      && IsQuotient(f.spectralCentroidHz, Sum(Moments(q, rate, n)), power)
      && IsQuotient(f.bands.hz80To250, Sum(Within(q, rate, n, 80.0, 250.0)), power)
      && IsQuotient(f.bands.hz250To800, Sum(Within(q, rate, n, 250.0, 800.0)), power)
      && IsQuotient(f.bands.hz800To2000, Sum(Within(q, rate, n, 800.0, 2000.0)), power)
      && IsQuotient(f.bands.hz2000To4000, Sum(Within(q, rate, n, 2000.0, 4000.0)), power)
      && IsQuotient(f.bands.hz4000To8000, Sum(Within(q, rate, n, 4000.0, 8001.0)), power)
      && IsFlatness(f.spectralFlatness, m.exp(Mean(Sum(Logs(q, rate, n, m)), bins)), Mean(power, bins))
      && exists bin: nat :: IsRolloff(bin, q, rate, n) && f.spectralRolloffHz == FrequencyOf(bin, rate, n)
  }

  /** The quotient of the geometric and the arithmetic mean, at most one. */
  predicate IsFlatness(flatness: real, geometric: real, arithmetic: real) {
    var floor := arithmetic + 0.00000000000000000001;
    if geometric >= floor then flatness == 1.0 else flatness * floor == geometric
  }

  lemma FlatnessOf(geometric: real, arithmetic: real)
    requires arithmetic >= 0.0
    ensures IsFlatness(Min(1.0, geometric / (arithmetic + 0.00000000000000000001)), geometric, arithmetic)
  {
    var floor := arithmetic + 0.00000000000000000001;
    Quotient(geometric, floor);
    if geometric >= floor {
      ProductBelow(1.0, geometric / floor, floor);
    } else {
      ProductBelow(geometric / floor, 1.0, floor);
    }
  }

  lemma RolloffOf(s: seq<Complex>, rate: nat, m: Math) returns (bin: nat)
    requires |s| >= 2 && Gather(s, rate, m, |s| / 2).power > 0.0
    ensures IsRolloff(bin, Powers(s, rate), rate, |s|)
    ensures RolloffFrom(s, rate, m, Gather(s, rate, m, |s| / 2).power * 0.85, 1) == FrequencyOf(bin, rate, |s|)
  {
    bin := RolloffIsLeast(s, rate, m);
    var q, n := Powers(s, rate), |s|;
    hide Gather, RolloffFrom, Powers, FrequencyOf, Frequency, Scanned, Heard;
    GatherSums(s, rate, m, n / 2);
    GatherSums(s, rate, m, bin);
    SameFrequency(bin, rate, n);
    assert q[..n / 2 + 1] == q;
    forall b: nat | b < bin && Heard(b, rate, n)
      ensures Sum(q[..b + 1]) < Sum(q) * 0.85
    {
      SameFrequency(b, rate, n);
      GatherSums(s, rate, m, b);
    }
  }

  lemma BandsOf(s: seq<Complex>, rate: nat, m: Math)
    requires |s| >= 2
    ensures var q, n := Powers(s, rate), |s|;
            Gather(s, rate, m, |s| / 2).bands ==
            Bands(Sum(Within(q, rate, n, 80.0, 250.0)), Sum(Within(q, rate, n, 250.0, 800.0)),
                  Sum(Within(q, rate, n, 800.0, 2000.0)), Sum(Within(q, rate, n, 2000.0, 4000.0)),
                  Sum(Within(q, rate, n, 4000.0, 8001.0)))
  {
    BandsAreIntervals(s, rate, m, |s| / 2);
    hide Gather, PowerBetween, Sum;
    WholeBand(s, rate, 80.0, 250.0);
    WholeBand(s, rate, 250.0, 800.0);
    WholeBand(s, rate, 800.0, 2000.0);
    WholeBand(s, rate, 2000.0, 4000.0);
    WholeBand(s, rate, 4000.0, 8001.0);
  }

  lemma WholeBand(s: seq<Complex>, rate: nat, low: real, high: real)
    requires |s| >= 2
    ensures PowerBetween(s, rate, low, high, |s| / 2) == Sum(Within(Powers(s, rate), rate, |s|, low, high))
  {
    BetweenSum(s, rate, low, high, |s| / 2);
    var w := Within(Powers(s, rate), rate, |s|, low, high);
    assert w[..|s| / 2 + 1] == w;
  }

  lemma TotalsOf(s: seq<Complex>, rate: nat, m: Math)
    requires |s| >= 2
    ensures var q, n, t := Powers(s, rate), |s|, Gather(s, rate, m, |s| / 2);
            && t.power == Sum(q) && t.weighted == Sum(Moments(q, rate, n)) && t.logarithmic == Sum(Logs(q, rate, n, m))
            && t.bins == |HeardBins(rate, n, |q|)|
            && t.power >= 0.0 && (t.power > 0.0 ==> t.bins > 0)
  {
    GatherSums(s, rate, m, |s| / 2);
    PowerIsConserved(s, rate, m, |s| / 2);
    hide Gather, Powers, Moments, Logs, HeardBins, Sum;
    var q, n := Powers(s, rate), |s|;
    assert q[..n / 2 + 1] == q && Moments(q, rate, n)[..n / 2 + 1] == Moments(q, rate, n);
    assert Logs(q, rate, n, m)[..n / 2 + 1] == Logs(q, rate, n, m);
  }

  /** Which of the totals each spectral feature is. */
  lemma ShapeFields(f: Features, s: seq<Complex>, rate: nat, m: Math)
    requires |s| >= 2 && Gather(s, rate, m, |s| / 2).power > 0.00000000000000000001
    requires Gather(s, rate, m, |s| / 2).bins > 0
    ensures var g, t := Shape(f, s, rate, m), Gather(s, rate, m, |s| / 2);
            && IsQuotient(g.spectralCentroidHz, t.weighted, t.power)
            && IsFlatness(g.spectralFlatness, m.exp(Mean(t.logarithmic, t.bins)), Mean(t.power, t.bins))
            && g.spectralRolloffHz == RolloffFrom(s, rate, m, t.power * 0.85, 1)
  {
    hide Gather, RolloffFrom, IsFlatness, IsQuotient;
    var t := Gather(s, rate, m, |s| / 2);
    Divided(t.weighted, t.power);
    RatioNonNegative(t.power, t.bins as real);
    FlatnessOf(m.exp(Mean(t.logarithmic, t.bins)), Mean(t.power, t.bins));
  }

  lemma ShapeBands(f: Features, s: seq<Complex>, rate: nat, m: Math)
    requires |s| >= 2 && Gather(s, rate, m, |s| / 2).power > 0.00000000000000000001
    requires Gather(s, rate, m, |s| / 2).bins > 0
    ensures var g, t := Shape(f, s, rate, m), Gather(s, rate, m, |s| / 2);
            && IsQuotient(g.bands.hz80To250, t.bands.hz80To250, t.power)
            && IsQuotient(g.bands.hz250To800, t.bands.hz250To800, t.power)
            && IsQuotient(g.bands.hz800To2000, t.bands.hz800To2000, t.power)
            && IsQuotient(g.bands.hz2000To4000, t.bands.hz2000To4000, t.power)
            && IsQuotient(g.bands.hz4000To8000, t.bands.hz4000To8000, t.power)
  {
    hide Gather, RolloffFrom, IsQuotient, ScaleBands;
    var t := Gather(s, rate, m, |s| / 2);
    BandsDivided(t.bands, t.power);
  }

  lemma BandsDivided(b: Bands, power: real)
    requires power > 0.0
    ensures var inverse := 1.0 / power;
            var r := ScaleBands(b, inverse);
            && IsQuotient(r.hz80To250, b.hz80To250, power) && IsQuotient(r.hz250To800, b.hz250To800, power)
            && IsQuotient(r.hz800To2000, b.hz800To2000, power) && IsQuotient(r.hz2000To4000, b.hz2000To4000, power)
            && IsQuotient(r.hz4000To8000, b.hz4000To8000, power)
  {
    Divided(b.hz80To250, power);
    Divided(b.hz250To800, power);
    Divided(b.hz800To2000, power);
    Divided(b.hz2000To4000, power);
    Divided(b.hz4000To8000, power);
    hide IsQuotient;
  }

  lemma ShapeIsMeasured(f: Features, s: seq<Complex>, rate: nat, m: Math)
    requires |s| >= 2
    ensures SpectrumMeasured(Shape(f, s, rate, m), s, rate, m)
  {
    var t := Gather(s, rate, m, |s| / 2);
    TotalsOf(s, rate, m);
    BandsOf(s, rate, m);
    hide Gather, Powers, Moments, Logs, HeardBins, Within, Sum, RolloffFrom, IsRolloff, FrequencyOf, IsFlatness;
    hide IsQuotient, Mean;
    if t.power > 0.00000000000000000001 {
      var bin := RolloffOf(s, rate, m);
      ShapeFields(f, s, rate, m);
      ShapeBands(f, s, rate, m);
      hide Shape;
    }
  }

  lemma RatioNonNegative(a: real, b: real)
    requires a >= 0.0 && b > 0.0
    ensures a / b >= 0.0
  {
    Quotient(a, b);
    ProductBelow(0.0, a / b, b);
  }

  /** The frame as it enters the transform. */
  ghost predicate IsTapered(y: seq<real>, x: seq<Complex>, m: Math) {
    |x| == |y| && forall j :: 0 <= j < |y| ==> x[j] == Complex(y[j] * m.hann(j, |y|), 0.0)
  }

  /**
     The spectral features of every accepted frame: those of the discrete Fourier transform of the
     tapered solution of the filter's equation.
   */
  lemma SpectrumIsMeasured(samples: seq<real>, rate: nat, m: Math, v: seq<real>, y: seq<real>, x: seq<Complex>,
                           s: seq<Complex>)
    requires SupportedFormat(|samples|, rate) && IsClamped(samples, v) && IsFiltered(v, y, rate) && IsTapered(y, x, m)
    requires |s| == |x| && forall k :: 0 <= k < |s| ==> s[k] == Bin(x, m.root(|x|), k)
    ensures SpectrumMeasured(Describe(samples, rate, m), s, rate, m)
  {
    hide Bin, SpectrumMeasured, Shape, LevelFeatures, IsPow2;
    SolutionIsFiltered(samples, rate, v, y);
    hide HighPassed, IsFiltered, IsClamped;
    assert x == Windowed(y, m);
    assert s == Spectrum(x, m);
    var range, level := Survey(samples, |samples|), Measure(y, |y|);
    ShapeIsMeasured(LevelFeatures(range, level, |y|, rate, m), s, rate, m);
  }

  lemma SolutionIsFiltered(samples: seq<real>, rate: nat, v: seq<real>, y: seq<real>)
    requires samples != [] && rate > 0 && IsClamped(samples, v) && IsFiltered(v, y, rate)
    ensures y == HighPassed(samples, rate)
  {
    FilterEquation(samples, v, rate);
    hide HighPassed, IsClamped;
    forall i | 0 <= i < |samples|
      ensures y[i] == HighPassed(samples, rate)[i]
    {
      FilteredIsUnique(v, y, HighPassed(samples, rate), rate, i);
    }
  }

  // ---------- a flat spectrum ----------

  function Times(k: nat, x: real): real {
    k as real * x
  }

  lemma TimesNext(k: nat, x: real)
    ensures Times(k + 1, x) == Times(k, x) + x
    ensures Times(0, x) == 0.0
  {
  }

  lemma {:induction false} FlatSums(q: seq<real>, rate: nat, n: nat, m: Math, p: real, count: nat)
    requires n > 0 && count <= |q| && forall k: nat :: k < |q| ==> q[k] == if Heard(k, rate, n) then p else 0.0
    ensures var bins := |HeardBins(rate, n, count)|;
            && Sum(q[..count]) == Times(bins, p)
            && Sum(Logs(q, rate, n, m)[..count]) == Times(bins, m.ln(p + 0.00000000000000000001))
  {
    var log := m.ln(p + 0.00000000000000000001);
    if count == 0 {
      assert HeardBins(rate, n, 0) == {} && q[..0] == [] && Logs(q, rate, n, m)[..0] == [];
      TimesNext(0, p);
      TimesNext(0, log);
    } else {
      FlatSums(q, rate, n, m, p, count - 1);
      hide Heard, HeardBins, Sum, Times;
      SumNext(q, count - 1);
      SumNext(Logs(q, rate, n, m), count - 1);
      HeardNext(rate, n, count - 1);
      TimesNext(|HeardBins(rate, n, count - 1)|, p);
      TimesNext(|HeardBins(rate, n, count - 1)|, log);
    }
  }

  /** White noise, with the same power in every bin that is heard, has flatness one. */
  lemma FlatSpectrumIsFlat(f: Features, s: seq<Complex>, rate: nat, m: Math, p: real)
    requires |s| >= 2 && SpectrumMeasured(f, s, rate, m) && Logarithms(m) && p >= 0.0
    requires Sum(Powers(s, rate)) > 0.00000000000000000001
    requires forall k: nat :: k <= |s| / 2 && Heard(k, rate, |s|) ==> NormSquared(s[k]) == p
    ensures f.spectralFlatness == 1.0
  {
    hide Logs, HeardBins, Sum, Times, Within, Moments, IsRolloff, FrequencyOf, Heard, IsQuotient, Mean;
    var q, n := Powers(s, rate), |s|;
    var bins, log := |HeardBins(rate, n, |q|)|, m.ln(p + 0.00000000000000000001);
    FlatSums(q, rate, n, m, p, |q|);
    hide Powers;
    assert q[..|q|] == q && Logs(q, rate, n, m)[..|q|] == Logs(q, rate, n, m);
    FlatMeans(bins, p);
    FlatMeans(bins, log);
    assert m.exp(log) == p + 0.00000000000000000001;
  }

  lemma FlatMeans(bins: nat, x: real)
    requires bins > 0
    ensures Mean(Times(bins, x), bins) == x
  {
    Quotient(Times(bins, x), bins as real);
    SameFactor(Mean(Times(bins, x), bins), x, bins as real);
  }
}
