/** What an aggregate says about the frames of its window. */
module AggregateMeaning {
  import opened AcousticFeatures
  import opened AcousticPipeline
  import opened FrameMeaning

  /** What is averaged over the valid frames; the level is averaged as power. */
  datatype Quantity =
    | Power | ClippingRatio | CrestFactor | ZeroCrossingRate | Centroid | Flatness | Rolloff
    | Band80 | Band250 | Band800 | Band2000 | Band4000

  function Value(f: Features, of: Quantity, m: Math): real {
    match of
    case Power => m.pow10(f.relativeLevelDbfs / 10.0)
    case ClippingRatio => f.clippingRatio
    case CrestFactor => f.crestFactor
    case ZeroCrossingRate => f.zeroCrossingRate
    case Centroid => f.spectralCentroidHz
    case Flatness => f.spectralFlatness
    case Rolloff => f.spectralRolloffHz
    case Band80 => f.bands.hz80To250
    case Band250 => f.bands.hz250To800
    case Band800 => f.bands.hz800To2000
    case Band2000 => f.bands.hz2000To4000
    case Band4000 => f.bands.hz4000To8000
  }

  function Values(frames: seq<Features>, of: Quantity, m: Math): (r: seq<real>)
    ensures |r| == |frames|
  {
    seq(|frames|, i requires 0 <= i < |frames| => Value(frames[i], of, m))
  }

  /** The valid frames, in their order. */
  function Good(frames: seq<Features>): seq<Features> {
    if frames == [] then []
    else if frames[|frames| - 1].valid then Good(frames[..|frames| - 1]) + [frames[|frames| - 1]]
    else Good(frames[..|frames| - 1])
  }

  function Responsive(frames: seq<Features>): nat {
    if frames == [] then 0
    else Responsive(frames[..|frames| - 1]) + if frames[|frames| - 1].signalResponsive then 1 else 0
  }

  function Duration(frames: seq<Features>): nat {
    if frames == [] then 0 else Duration(frames[..|frames| - 1]) + frames[|frames| - 1].windowDurationMs
  }

  /** The highest peak, or the floor of the scale. */
  ghost predicate IsHighest(frames: seq<Features>, peak: real) {
    && (forall i :: 0 <= i < |frames| ==> frames[i].peakDbfs <= peak) && peak >= -160.0
    && (peak == -160.0 || exists i :: 0 <= i < |frames| && frames[i].peakDbfs == peak)
  }

  /** The running sum of a quantity. */
  function Total(s: Sums, of: Quantity): real {
    match of
    case Power => s.linearPower
    case ClippingRatio => s.clipping
    case CrestFactor => s.crest
    case ZeroCrossingRate => s.zeroCrossing
    case Centroid => s.centroid
    case Flatness => s.flatness
    case Rolloff => s.rolloff
    case Band80 => s.bands.hz80To250
    case Band250 => s.bands.hz250To800
    case Band800 => s.bands.hz800To2000
    case Band2000 => s.bands.hz2000To4000
    case Band4000 => s.bands.hz4000To8000
  }

  lemma SumPlus(s: seq<real>, x: real)
    ensures Sum(s + [x]) == Sum(s) + x
  {
    assert (s + [x])[..|s|] == s;
  }

  lemma AddTotals(s: Sums, f: Features, m: Math, of: Quantity)
    requires f.valid
    ensures Total(AddFrame(s, f, m), of) == Total(s, of) + Value(f, of, m)
  {
  }

  lemma {:induction false} FoldTotals(frames: seq<Features>, m: Math, of: Quantity)
    ensures Total(Fold(frames, m), of) == Sum(Values(Good(frames), of, m))
  {
    if frames == [] {
      assert Values([], of, m) == [];
    } else {
      var before, f := frames[..|frames| - 1], frames[|frames| - 1];
      FoldTotals(before, m, of);
      if f.valid {
        assert Values(Good(before) + [f], of, m) == Values(Good(before), of, m) + [Value(f, of, m)];
        SumPlus(Values(Good(before), of, m), Value(f, of, m));
        AddTotals(Fold(before, m), f, m, of);
      }
    }
  }

  lemma {:induction false} FoldCounts(frames: seq<Features>, m: Math)
    ensures var s, good := Fold(frames, m), Good(frames);
            && s.valid == |good| && s.responsive == Responsive(good) && s.durationMs == Duration(good)
            && s.sampleRateHz == (if good == [] then 0 else good[|good| - 1].sampleRateHz)
            && IsHighest(good, s.maximumPeakDbfs)
  {
    if frames == [] {
      assert IsHighest([], -160.0);
    } else {
      var before, f := frames[..|frames| - 1], frames[|frames| - 1];
      FoldCounts(before, m);
      hide IsHighest;
      if f.valid {
        var good := Good(before);
        assert (good + [f])[..|good|] == good;
        HigherPeak(good, f, Fold(before, m).maximumPeakDbfs);
      }
    }
  }

  lemma HigherPeak(good: seq<Features>, f: Features, peak: real)
    requires IsHighest(good, peak)
    ensures IsHighest(good + [f], Max(peak, f.peakDbfs))
  {
    var more, higher := good + [f], Max(peak, f.peakDbfs);
    if higher != peak {
      assert more[|good|].peakDbfs == higher;
    } else if peak != -160.0 {
      var i :| 0 <= i < |good| && good[i].peakDbfs == peak;
      assert more[i].peakDbfs == higher;
    }
  }

  /** Whether an aggregate is the mean of frames of which some are valid. */
  ghost predicate IsMean(a: Features, good: seq<Features>, m: Math)
    requires good != []
  {
    var n, power := |good| as real, Sum(Values(good, Power, m));
    && (forall of :: of != Power ==> IsQuotient(Value(a, of, m), Sum(Values(good, of, m)), n))
    && (if power >= 0.0000000000000001 * n then IsQuotient(Value(a, Power, m), power, n)
        else a.relativeLevelDbfs == -160.0)
    && IsHighest(good, a.peakDbfs) && a.sampleRateHz == good[|good| - 1].sampleRateHz
  }

  /** The aggregate of a window without a valid frame. */
  predicate IsSilent(a: Features) {
    a == Features(false, a.signalResponsive, 0, 0, 0.0, 0.0, 0.0, 0.0, 0.0, 0.0, 0.0, 0.0,
                  Bands(0.0, 0.0, 0.0, 0.0, 0.0))
  }

  /**
     An aggregate is the mean of the valid frames: for every quantity its value times their number is the
     sum of theirs. The level is that of the mean power, down to -160 dB. It is valid when three quarters
     of the window were, and responsive when half of the window was.
   */
  lemma AggregateIsMean(frames: seq<Features>, target: nat, m: Math)
    requires Faithful(m) && Logarithms(m)
    ensures var a, good := Aggregate(Fold(frames, m), target, m), Good(frames);
            && (a.valid <==> |good| > 0 && |good| >= target * 3 / 4)
            && (a.signalResponsive <==> 2 * Responsive(good) >= target)
            && a.windowDurationMs == Duration(good)
            && if good == [] then IsSilent(a) else IsMean(a, good, m)
  {
    var s, good := Fold(frames, m), Good(frames);
    FoldCounts(frames, m);
    forall of: Quantity
      ensures Total(s, of) == Sum(Values(good, of, m))
    {
      FoldTotals(frames, m, of);
    }
    hide Fold, Good, Sum, Values, IsHighest, Responsive, Duration, IsQuotient, Faithful, Logarithms, Value, Total;
    AggregateFields(s, target, m);
    if good != [] {
      forall of: Quantity | of != Power
        ensures IsQuotient(Value(Aggregate(s, target, m), of, m), Sum(Values(good, of, m)), |good| as real)
      {
        MeanOf(s, target, m, of);
      }
      MeanPower(s, target, m);
      assert s.linearPower == Total(s, Power) by {
        PowerTotal(s);
      }
      hide Aggregate;
    } else {
      EmptyDuration();
    }
  }

  lemma EmptyDuration()
    ensures Duration([]) == 0
  {
  }

  lemma PowerTotal(s: Sums)
    ensures Total(s, Power) == s.linearPower
  {
  }

  lemma AggregateFields(s: Sums, target: nat, m: Math)
    ensures var a := Aggregate(s, target, m);
            && (a.valid <==> s.valid > 0 && s.valid >= target * 3 / 4)
            && (a.signalResponsive <==> 2 * s.responsive >= target)
            && a.windowDurationMs == s.durationMs && a.sampleRateHz == s.sampleRateHz
            && (s.valid > 0 ==> a.peakDbfs == s.maximumPeakDbfs)
  {
    hide ScaleBands;
  }

  lemma ScaleDivides(a: real, b: real)
    requires b > 0.0
    ensures IsQuotient(Scale(a, 1.0 / b), a, b)
  {
    Divided(a, b);
  }

  lemma MeanOf(s: Sums, target: nat, m: Math, of: Quantity)
    requires s.valid > 0 && of != Power
    ensures IsQuotient(Value(Aggregate(s, target, m), of, m), Total(s, of), s.valid as real)
  {
    var n := s.valid as real;
    BandsDivided(s.bands, n);
    ScaleDivides(Total(s, of), n);
    hide IsQuotient, ScaleBands, Scale;
  }

  lemma MeanPower(s: Sums, target: nat, m: Math)
    requires s.valid > 0 && Faithful(m) && Logarithms(m)
    ensures var a := Aggregate(s, target, m);
            if s.linearPower >= 0.0000000000000001 * s.valid as real then
              IsQuotient(Value(a, Power, m), s.linearPower, s.valid as real)
            else a.relativeLevelDbfs == -160.0
  {
    LevelOfMean(s.linearPower, s.valid as real, m);
    hide IsQuotient, Faithful, Logarithms, ScaleBands;
  }

  lemma LevelOfMean(power: real, n: real, m: Math)
    requires n > 0.0 && Faithful(m) && Logarithms(m)
    ensures var level := 10.0 * m.log10(Max(0.0000000000000001, power / n));
            if power >= 0.0000000000000001 * n then IsQuotient(m.pow10(level / 10.0), power, n) else level == -160.0
  {
    var mean := power / n;
    Quotient(power, n);
    MeanAgainst(power, n, mean, 0.0000000000000001);
    var log := m.log10(Max(0.0000000000000001, mean));
    assert 10.0 * log / 10.0 == log;
    if power >= 0.0000000000000001 * n {
      assert m.pow10(m.log10(mean)) == mean;
    }
  }

  lemma MeanAgainst(power: real, n: real, mean: real, floor: real)
    requires n > 0.0 && mean * n == power
    ensures power >= floor * n <==> mean >= floor
  {
    if power >= floor * n {
      ProductBelow(floor, mean, n);
    } else if mean >= floor {
      ScaleMonotone(n, floor, mean);
    }
  }
}
