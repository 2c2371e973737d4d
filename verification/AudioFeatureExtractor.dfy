/**
 The audio front end: two work buffers changed in place by the transform, and the
 features computed from the finished spectrum.
 */
module AudioFeatureExtractor {
  import opened Bits
  import opened ComplexNumbers
  import opened Fft
  import opened AcousticFeatures

  const MAX_SAMPLES: nat := 1024

  class Extractor {
    const realPart: array<real>
    const imaginary: array<real>

    ghost predicate Valid() {
      realPart != imaginary && realPart.Length == MAX_SAMPLES && imaginary.Length == MAX_SAMPLES
    }

    /** The first `n` entries of the two buffers, read as complex numbers. */
    function Signal(n: nat): (s: seq<Complex>)
      requires Valid() && n <= MAX_SAMPLES
      reads realPart, imaginary
      ensures |s| == n
      ensures forall i :: 0 <= i < n ==> s[i] == Complex(realPart[i], imaginary[i])
    {
      seq(n, i requires Valid() && 0 <= i < MAX_SAMPLES reads realPart, imaginary =>
        Complex(realPart[i], imaginary[i]))
    }

    /** The rest of the two buffers, which a transform of `n` samples leaves alone. */
    ghost function Tail(n: nat): (seq<real>, seq<real>)
      requires Valid() && n <= MAX_SAMPLES
      reads realPart, imaginary
    {
      (realPart[n..], imaginary[n..])
    }

    constructor ()
      ensures Valid() && fresh(realPart) && fresh(imaginary)
    {
      realPart := new real[MAX_SAMPLES](_ => 0.0);
      imaginary := new real[MAX_SAMPLES](_ => 0.0);
    }

    /** Exchanges two positions of both buffers. */
    method Swap(n: nat, a: nat, b: nat)
      requires Valid() && a < n && b < n <= MAX_SAMPLES
      modifies realPart, imaginary
      ensures forall j: nat :: j < n ==> Signal(n)[j] == old(Signal(n))[Exchanged(a, b, j)]
      ensures Tail(n) == old(Tail(n))
    {
      realPart[a], realPart[b] := realPart[b], realPart[a];
      imaginary[a], imaginary[b] := imaginary[b], imaginary[a];
    }

    /**
     The reordering loop: a counter kept in reversed bit order, and a swap guarded by
     index < reversed, leave every position with the sample of the reversed index.
     */
    method Permute(n: nat)
      requires Valid() && 2 <= n <= MAX_SAMPLES && IsPow2(n)
      modifies realPart, imaginary
      ensures forall i: nat :: i < n ==> Signal(n)[i] == old(Signal(n))[Rev(i, n)]
      ensures Tail(n) == old(Tail(n))
    {
      hide Rev, IsPow2, ReversedIncrement;
      ghost var s := Signal(n);
      var index: nat, reversed: nat := 1, 0;
      RevZero(n);
      while index < n
        invariant 1 <= index <= n
        invariant reversed == Rev(index - 1, n)
        invariant forall j: nat :: j < n ==> Signal(n)[j] == s[Settled(j, n, index)]
        invariant Tail(n) == old(Tail(n))
      {
        reversed := NextReversed(n, reversed, index);
        ghost var t := Signal(n);
        if index < reversed {
          Swap(n, index, reversed);
        }
        forall j: nat | j < n
          ensures Signal(n)[j] == s[Settled(j, n, index + 1)]
        {
          SettledNext(n, index, j);
        }
        index := index + 1;
      }
    }

    /** The counter kept in reversed bit order: clear set bits from the top, then set the next one. */
    method NextReversed(n: nat, previous: nat, index: nat) returns (reversed: nat)
      requires 2 <= n && IsPow2(n) && 1 <= index < n
      requires previous == Rev(index - 1, n)
      ensures reversed == Rev(index, n)
    {
      ReversedIncrementIsRev(index - 1, n);
      hide Rev;
      reversed := previous;
      var bit: nat := n / 2;
      while BitAnd(reversed, bit) != 0
        invariant IsPow2(bit) && reversed < 2 * bit - 1
        invariant ReversedIncrement(reversed, bit) == Rev(index, n)
        decreases bit
      {
        SingleBit(reversed, bit);
        reversed := BitXor(reversed, bit);
        bit := bit / 2;
      }
      SingleBit(reversed, bit);
      reversed := BitXor(reversed, bit);
    }

    /** One butterfly: the odd sample is turned by the twiddle factor and joined with the even one. */
    method Join(n: nat, even: nat, odd: nat, twiddleReal: real, twiddleImaginary: real)
      requires Valid() && even < odd < n <= MAX_SAMPLES
      modifies realPart, imaginary
      ensures Signal(n) == JoinAt(old(Signal(n)), even, odd, Complex(twiddleReal, twiddleImaginary))
      ensures Tail(n) == old(Tail(n))
    {
      ghost var s := Signal(n);
      var oddReal := realPart[odd] * twiddleReal - imaginary[odd] * twiddleImaginary;
      var oddImaginary := realPart[odd] * twiddleImaginary + imaginary[odd] * twiddleReal;
      assert Complex(oddReal, oddImaginary) == Mul(s[odd], Complex(twiddleReal, twiddleImaginary));
      realPart[odd] := realPart[even] - oddReal;
      imaginary[odd] := imaginary[even] - oddImaginary;
      realPart[even] := realPart[even] + oddReal;
      imaginary[even] := imaginary[even] + oddImaginary;
      assert Signal(n)[odd] == Sub(s[even], Complex(oddReal, oddImaginary));
      assert Signal(n)[even] == Add(s[even], Complex(oddReal, oddImaginary));
      assert Signal(n) == JoinAt(s, even, odd, Complex(twiddleReal, twiddleImaginary));
    }

    /**
     The innermost loop: one block of butterflies, its twiddle factor updated by one
     multiplication a turn.
     */
    method Block(n: nat, offset: nat, half: nat, base: Complex)
      requires Valid() && n <= MAX_SAMPLES && half > 0 && offset + 2 * half <= n
      modifies realPart, imaginary
      ensures forall j: nat :: j < n ==> Signal(n)[j] == AfterBlock(old(Signal(n)), offset, half, base, half, j)
      ensures Tail(n) == old(Tail(n))
    {
      hide Add, Sub, Mul, Pow;
      ghost var s := Signal(n);
      var twiddleReal, twiddleImaginary := 1.0, 0.0;
      FirstTwiddle(base);
      var index := 0;
      while index < half
        invariant 0 <= index <= half
        invariant Complex(twiddleReal, twiddleImaginary) == Pow(base, index)
        invariant forall j: nat :: j < n ==> Signal(n)[j] == AfterBlock(s, offset, half, base, index, j)
        invariant Tail(n) == old(Tail(n))
      {
        var even := offset + index;
        var odd := even + half;
        ghost var t := Signal(n);
        Join(n, even, odd, twiddleReal, twiddleImaginary);
        BlockStep(s, t, Signal(n), offset, half, base, index);
        NextTwiddle(twiddleReal, twiddleImaginary, base, index);
        var nextReal := twiddleReal * base.re - twiddleImaginary * base.im;
        twiddleImaginary := twiddleReal * base.im + twiddleImaginary * base.re;
        twiddleReal := nextReal;
        index := index + 1;
      }
    }

    /** The middle loop: every block of one pass. */
    method Pass(n: nat, half: nat, base: Complex, ghost m: nat)
      requires Valid() && n <= MAX_SAMPLES && half > 0 && n == Offset(m, 2 * half)
      modifies realPart, imaginary
      ensures PassDone(old(Signal(n)), Signal(n), half, m, base)
      ensures Tail(n) == old(Tail(n))
    {
      ghost var s := Signal(n);
      var offset: nat := 0;
      ghost var done: nat := 0;
      while offset < n
        invariant done <= m && offset == Offset(done, 2 * half) <= n
        invariant PassDone(s, Signal(n), half, done, base)
        invariant forall j: nat :: offset <= j < n ==> Signal(n)[j] == s[j]
        invariant Tail(n) == old(Tail(n))
        decreases n - offset
      {
        OffsetInside(done, m, 2 * half);
        ghost var before := Signal(n);
        Block(n, offset, half, base);
        PassGrows(s, before, Signal(n), half, done, base);
        offset := offset + 2 * half;
        done := done + 1;
      }
      if done < m {
        OffsetInside(done, m, 2 * half);
      }
    }

    /**
     The transform: for every power of two from 2 to the buffer size, bin `k` of the result is
     the discrete Fourier transform of the input, and the rest of the buffer keeps its value.
     Any other size is refused and nothing changes.
     */
    method Transform(n: nat, base: nat -> Complex) returns (ok: bool)
      requires Valid() && n <= MAX_SAMPLES && Roots(base)
      modifies realPart, imaginary
      ensures ok <==> n >= 2 && IsPow2(n)
      ensures ok ==> forall k: nat :: k < n ==> Signal(n)[k] == Bin(old(Signal(n)), base(n), k)
      ensures !ok ==> Signal(n) == old(Signal(n))
      ensures Tail(n) == old(Tail(n))
    {
      if n >= 2 {
        PowerOfTwoTest(n);
      }
      if !(n >= 2 && BitAnd(n, n - 1) == 0) {
        return false;
      }
      TransformPowerOfTwo(n, base);
      return true;
    }

    /** The reordering and the passes of the transform. */
    method TransformPowerOfTwo(n: nat, base: nat -> Complex)
      requires Valid() && 2 <= n <= MAX_SAMPLES && IsPow2(n) && Roots(base)
      modifies realPart, imaginary
      ensures forall k: nat :: k < n ==> Signal(n)[k] == Bin(old(Signal(n)), base(n), k)
      ensures Tail(n) == old(Tail(n))
    {
      hide Roots, Add, Sub, Mul, Pow, Bin, Rev, BitAnd, PassDone, BlocksDone, Offset, IsPow2;
      ghost var x := Signal(n);
      Permute(n);
      AllFirstBlocks(x, Signal(n), n, base(1));
      var length: nat := 2;
      ghost var m: nat := n;
      OnePow2();
      while length <= n
        invariant length % 2 == 0 && IsPow2(length / 2) && IsPow2(m) && n == Offset(m, length / 2)
        invariant BlocksDone(x, Signal(n), length / 2, m, base(length / 2))
        invariant Tail(n) == old(Tail(n))
        decreases n - length
      {
        m := DoubleBlocks(n, length, base, x, m);
        length := length * 2;
      }
      Finished(n, length / 2, m);
      AllBins(x, Signal(n), n, base(n));
    }

    /** One turn of the outer loop: blocks of half the length become blocks of the length. */
    method DoubleBlocks(n: nat, length: nat, base: nat -> Complex, ghost x: seq<Complex>, ghost m: nat)
      returns (ghost next: nat)
      requires Valid() && n <= MAX_SAMPLES && Roots(base) && |x| == n
      requires length <= n && length % 2 == 0
      requires IsPow2(length / 2) && IsPow2(m) && n == Offset(m, length / 2)
      requires BlocksDone(x, Signal(n), length / 2, m, base(length / 2))
      modifies realPart, imaginary
      ensures IsPow2(length) && IsPow2(next) && n == Offset(next, length) && Tail(n) == old(Tail(n))
      ensures BlocksDone(x, Signal(n), length, next, base(length))
    {
      hide Roots, Add, Sub, Mul, Pow, Bin, Rev, BitAnd, PassDone, BlocksDone, Offset, IsPow2;
      next := m / 2;
      Shrink(n, length / 2, m);
      ghost var s := Signal(n);
      Pass(n, length / 2, base(length), next);
      AllPassLifts(x, s, Signal(n), base, length / 2, next);
    }

    // ---------- analysis of a frame ----------

    /** The first loop: mean, extremes and counts of the clamped samples. */
    method SurveySamples(samples: seq<real>) returns (r: Range)
      requires |samples| > 0
      ensures r == Survey(samples, |samples|)
    {
      var sum := 0.0;
      var minimum := ClampSample(samples[0]);
      var maximum := minimum;
      var nonZero: nat, clipping: nat := 0, 0;
      for index := 0 to |samples|
        invariant Range(sum, minimum, maximum, nonZero, clipping) == Survey(samples, index)
      {
        var sample := ClampSample(samples[index]);
        sum := sum + sample;
        minimum := Min(minimum, sample);
        maximum := Max(maximum, sample);
        if Abs(sample) > 0.000000001 {
          nonZero := nonZero + 1;
        }
        if Abs(sample) >= CLIPPING_THRESHOLD {
          clipping := clipping + 1;
        }
      }
      r := Range(sum, minimum, maximum, nonZero, clipping);
    }

    /** The second loop: filter, measure, and write the windowed signal into the buffers. */
    method FilterAndWindow(samples: seq<real>, rate: nat, mean: real, m: Math) returns (level: Level)
      requires Valid() && 0 < |samples| <= MAX_SAMPLES && rate > 0
      requires mean == Survey(samples, |samples|).sum / |samples| as real
      modifies realPart, imaginary
      ensures level == Measure(HighPassed(samples, rate), |samples|)
      ensures Signal(|samples|) == Windowed(HighPassed(samples, rate), m)
    {
      hide Survey, Alpha, Centred, AddSample, HighPass, Taper, HighPassed;
      ghost var y := HighPassed(samples, rate);
      var n := |samples|;
      var alpha := Alpha(rate);
      var previousInput, previousOutput := Centred(samples, mean, 0), 0.0;
      var previousFiltered := 0.0;
      level := Measure([], 0);
      for index := 0 to n
        invariant previousInput == Centred(samples, mean, if index == 0 then 0 else index - 1)
        invariant previousOutput == if index == 0 then 0.0 else y[index - 1]
        invariant previousFiltered == previousOutput
        invariant level == Measure(y, index)
        invariant forall j :: 0 <= j < index ==> realPart[j] == Taper(y[j], m.hann(j, n)) && imaginary[j] == 0.0
      {
        var currentInput := Centred(samples, mean, index);
        var filtered := HighPass(alpha, previousOutput, currentInput, previousInput);
        HighPassedNext(samples, rate, mean, index);
        previousInput := currentInput;
        previousOutput := filtered;
        level := AddSample(level, filtered, index > 0 && ((filtered >= 0.0) != (previousFiltered >= 0.0)));
        previousFiltered := filtered;
        realPart[index] := Taper(filtered, m.hann(index, n));
        imaginary[index] := 0.0;
      }
      assert Signal(n) == Windowed(y, m);
    }

    /** The third loop: power, first moment, logarithms and bands of the scanned bins. */
    method GatherSpectrum(n: nat, rate: nat, m: Math) returns (t: Totals)
      requires Valid() && 2 <= n <= MAX_SAMPLES
      ensures t == Gather(Signal(n), rate, m, n / 2)
    {
      hide Frequency, AddBin;
      ghost var s := Signal(n);
      t := Totals(0.0, 0.0, 0.0, 0, NO_BANDS);
      for bin := 1 to n / 2 + 1
        invariant t == Gather(s, rate, m, bin - 1)
      {
        var frequency := Frequency(bin, rate, n);
        if !(frequency < 80.0 || frequency > 8000.0) {
          var power := realPart[bin] * realPart[bin] + imaginary[bin] * imaginary[bin];
          assert power == NormSquared(s[bin]);
          t := AddBin(t, frequency, power, m.ln(power + 0.00000000000000000001));
        }
      }
    }

    /** The last loop: stop at the first scanned bin whose cumulative power reaches the target. */
    method FindRolloff(n: nat, rate: nat, m: Math, target: real) returns (rolloff: real)
      requires Valid() && 2 <= n <= MAX_SAMPLES
      ensures rolloff == RolloffFrom(Signal(n), rate, m, target, 1)
    {
      hide Frequency, AddBin;
      ghost var s := Signal(n);
      var cumulative := 0.0;
      var bin: nat := 1;
      while bin <= n / 2
        invariant 1 <= bin <= n / 2 + 1
        invariant cumulative == Gather(s, rate, m, bin - 1).power
        invariant RolloffFrom(s, rate, m, target, 1) == RolloffFrom(s, rate, m, target, bin)
      {
        var frequency := Frequency(bin, rate, n);
        if !(frequency < 80.0 || frequency > 8000.0) {
          cumulative := cumulative + (realPart[bin] * realPart[bin] + imaginary[bin] * imaginary[bin]);
          CumulativeStep(s, rate, m, bin);
          if cumulative >= target {
            return frequency;
          }
        }
        bin := bin + 1;
      }
      return 0.0;
    }

    /**
     The analysis of one frame. Supported formats are exactly the ones accepted, and an accepted
     frame gets the description its samples determine.
     */
    method Analyze(samples: seq<real>, rate: nat, m: Math) returns (ok: bool, f: Features)
      requires Valid() && Faithful(m)
      modifies realPart, imaginary
      ensures ok <==> SupportedFormat(|samples|, rate)
      ensures ok ==> f == Describe(samples, rate, m)
      ensures !ok ==> !f.valid && f.sampleRateHz == 0 && f.bands == NO_BANDS
    {
      var n := |samples|;
      f := Features(false, false, 0, 0, 0.0, 0.0, 0.0, 0.0, 0.0, 0.0, 0.0, 0.0, NO_BANDS);
      if n >= 2 {
        PowerOfTwoTest(n);
      }
      if rate < 8000 || rate > 48000 || n < 128 || n > MAX_SAMPLES || !(n >= 2 && BitAnd(n, n - 1) == 0) {
        return false, f;
      }
      f := AnalyzeSupported(samples, rate, m);
      return true, f;
    }

    method AnalyzeSupported(samples: seq<real>, rate: nat, m: Math) returns (f: Features)
      requires Valid() && Faithful(m) && SupportedFormat(|samples|, rate)
      modifies realPart, imaginary
      ensures f == Describe(samples, rate, m)
    {
      hide IsPow2, Faithful, Survey, Measure, HighPassed, Windowed, Spectrum, LevelFeatures, Shape;
      var n := |samples|;
      var range := SurveySamples(samples);
      var mean := range.sum / n as real;
      var level := FilterAndWindow(samples, rate, mean, m);
      TransformFrame(n, m, Windowed(HighPassed(samples, rate), m));
      f := ShapeOf(LevelFeatures(range, level, n, rate, m), n, rate, m);
    }

    /** The transform of a windowed frame is its spectrum. */
    method TransformFrame(n: nat, m: Math, ghost x: seq<Complex>)
      requires Valid() && 2 <= n <= MAX_SAMPLES && IsPow2(n) && Faithful(m) && Signal(n) == x
      modifies realPart, imaginary
      ensures Signal(n) == Spectrum(x, m)
    {
      var done := Transform(n, m.root);
      hide Bin;
      assert Signal(n) == Spectrum(x, m);
    }

    /** The spectral features, from the transformed buffers. */
    method ShapeOf(f: Features, n: nat, rate: nat, m: Math) returns (g: Features)
      requires Valid() && 2 <= n <= MAX_SAMPLES
      ensures g == Shape(f, Signal(n), rate, m)
    {
      hide Gather, RolloffFrom;
      var t := GatherSpectrum(n, rate, m);
      if t.power <= 0.00000000000000000001 || t.bins == 0 {
        return f.(spectralCentroidHz := 0.0, spectralFlatness := 0.0, spectralRolloffHz := 0.0, bands := NO_BANDS);
      }
      var rolloff := FindRolloff(n, rate, m, t.power * 0.85);
      var inverse := 1.0 / t.power;
      var geometric := m.exp(t.logarithmic / t.bins as real);
      var arithmetic := t.power / t.bins as real;
      return f.(spectralCentroidHz := t.weighted / t.power,
                spectralFlatness := Min(1.0, geometric / (arithmetic + 0.00000000000000000001)),
                spectralRolloffHz := rolloff,
                bands := Bands(t.bands.hz80To250 * inverse, t.bands.hz250To800 * inverse,
                               t.bands.hz800To2000 * inverse, t.bands.hz2000To4000 * inverse,
                               t.bands.hz4000To8000 * inverse));
    }
  }

  lemma CumulativeStep(s: seq<Complex>, rate: nat, m: Math, bin: nat)
    requires 1 <= bin < |s| && Scanned(bin, rate, |s|)
    ensures Gather(s, rate, m, bin).power == Gather(s, rate, m, bin - 1).power + NormSquared(s[bin])
  {
  }

  /** Where the sample now at position `j` came from, once every index below `index` was handled. */
  function Settled(j: nat, n: nat, index: nat): (r: nat)
    requires IsPow2(n) && j < n
    ensures r < n
  {
    if j < index || Rev(j, n) < index then Rev(j, n) else j
  }

  lemma {:induction false} RevZero(n: nat)
    requires IsPow2(n)
    ensures Rev(0, n) == 0
    ensures forall j: nat :: j < n && Rev(j, n) < 1 ==> j == 0
    decreases n
  {
    if n > 1 {
      RevZero(n / 2);
    }
    forall j: nat | j < n && Rev(j, n) < 1
      ensures j == 0
    {
      RevInvolution(j, n);
    }
  }

  function Exchanged(a: nat, b: nat, j: nat): nat {
    if j == a then b else if j == b then a else j
  }

  /** Handling one more index settles that index and its reversal, by the guarded swap. */
  lemma SettledNext(n: nat, index: nat, j: nat)
    requires IsPow2(n) && index < n && j < n
    ensures var r := Rev(index, n);
            Settled(j, n, index + 1) == Settled(if index < r then Exchanged(index, r, j) else j, n, index)
  {
    hide Rev, IsPow2;
    var r := Rev(index, n);
    RevInvolution(index, n);
    RevInvolution(j, n);
    assert Rev(j, n) == index ==> j == r;
    if j == index {
    } else if j == r {
    } else {
      assert j < index + 1 <==> j < index;
      assert Rev(j, n) < index + 1 <==> Rev(j, n) < index;
    }
  }

  lemma FirstTwiddle(base: Complex)
    ensures Complex(1.0, 0.0) == Pow(base, 0)
  {
  }

  lemma NextTwiddle(re: real, im: real, base: Complex, index: nat)
    requires Complex(re, im) == Pow(base, index)
    ensures Complex(re * base.re - im * base.im, re * base.im + im * base.re) == Pow(base, index + 1)
  {
  }

  /** The buffer after one butterfly. */
  function JoinAt(s: seq<Complex>, even: nat, odd: nat, twiddle: Complex): (t: seq<Complex>)
    requires even < odd < |s|
    ensures |t| == |s|
  {
    var turned := Mul(s[odd], twiddle);
    s[odd := Sub(s[even], turned)][even := Add(s[even], turned)]
  }

  /** Position `j` of a buffer `s` after the first `index` butterflies of the block at `offset`. */
  function AfterBlock(s: seq<Complex>, offset: nat, half: nat, base: Complex, index: nat, j: nat): Complex
    requires offset + 2 * half <= |s| && index <= half && j < |s|
  {
    if offset <= j < offset + index then
      Add(s[j], Mul(s[j + half], Pow(base, j - offset)))
    else if offset + half <= j < offset + half + index then
      Sub(s[j - half], Mul(s[j], Pow(base, j - half - offset)))
    else s[j]
  }

  lemma BlockStep(s: seq<Complex>, t: seq<Complex>, u: seq<Complex>, offset: nat, half: nat,
                  base: Complex, index: nat)
    requires |s| == |t| == |u| && offset + 2 * half <= |s| && index < half
    requires forall j: nat :: j < |s| ==> t[j] == AfterBlock(s, offset, half, base, index, j)
    requires u == JoinAt(t, offset + index, offset + index + half, Pow(base, index))
    ensures forall j: nat :: j < |s| ==> u[j] == AfterBlock(s, offset, half, base, index + 1, j)
  {
    hide Add, Sub, Mul, Pow;
    var even, odd := offset + index, offset + index + half;
    assert t[even] == s[even] && t[odd] == s[odd];
  }

  /** A block of butterflies extends the finished part of a pass by one block. */
  lemma PassGrows(s: seq<Complex>, before: seq<Complex>, after: seq<Complex>,
                  half: nat, done: nat, base: Complex)
    requires |s| == |before| == |after| && Offset(done, 2 * half) + 2 * half <= |s|
    requires PassDone(s, before, half, done, base)
    requires forall j: nat :: Offset(done, 2 * half) <= j < |s| ==> before[j] == s[j]
    requires forall j: nat :: j < |s| ==> after[j] == AfterBlock(before, Offset(done, 2 * half), half, base, half, j)
    ensures PassDone(s, after, half, done + 1, base)
  {
    hide Add, Sub, Mul, Pow;
    forall b: nat, i: nat | b < done + 1 && i < half
      ensures Joined(s, after, half, b, i, base)
    {
      var even := Offset(b, 2 * half) + i;
      if b < done {
        OffsetInside(b, done, 2 * half);
        assert Joined(s, before, half, b, i, base);
        assert after[even] == before[even] && after[even + half] == before[even + half];
      } else {
        assert after[even] == AfterBlock(before, Offset(done, 2 * half), half, base, half, even);
        assert after[even + half] == AfterBlock(before, Offset(done, 2 * half), half, base, half, even + half);
      }
    }
  }

  lemma OnePow2()
    ensures IsPow2(1)
  {
  }

  lemma Shrink(n: nat, half: nat, m: nat)
    requires IsPow2(half) && IsPow2(m) && n == Offset(m, half) && 2 * half <= n
    ensures m > 1 && m == 2 * (m / 2) && IsPow2(m / 2) && IsPow2(2 * half)
    ensures half > 0 && n == Offset(m / 2, 2 * half)
  {
    OffsetFew(m, half);
    OffsetHalves(m / 2, half);
    DoublePow2(half);
  }

  lemma OffsetFew(m: nat, length: nat)
    ensures m == 1 ==> Offset(m, length) == length
    ensures m >= 2 ==> Offset(m, length) >= 2 * length
  {
    if m > 0 {
      assert Offset(m, length) == Offset(m - 1, length) + length;
    }
    if m > 1 {
      assert Offset(m - 1, length) == Offset(m - 2, length) + length;
    }
  }

  lemma DoublePow2(half: nat)
    requires IsPow2(half)
    ensures IsPow2(2 * half)
  {
    assert (2 * half) / 2 == half;
  }

  lemma Finished(n: nat, half: nat, m: nat)
    requires IsPow2(half) && IsPow2(m) && n == Offset(m, half) && 2 * half > n
    ensures m == 1 && half == n == Offset(1, n)
  {
    OffsetFew(m, half);
  }
}
