/** Which sounds get which category, as regions of the features, and the sounds the firmware was tuned on. */
module ClassifierRegions {
  import opened AcousticFeatures
  import opened AcousticPipeline

  // The five bands, combined as the regions use them.

  function LowBands(f: Features): real { f.bands.hz80To250 + f.bands.hz250To800 }

  function MiddleBands(f: Features): real { f.bands.hz250To800 + f.bands.hz800To2000 }

  function PresenceBands(f: Features): real { f.bands.hz800To2000 + f.bands.hz2000To4000 }

  function HighBands(f: Features): real { f.bands.hz2000To4000 + f.bands.hz4000To8000 }

  /** A usable sound that is not quiet. */
  predicate Heard(f: Features) {
    f.valid && f.signalResponsive && f.clippingRatio < 0.01 && f.relativeLevelDbfs > -88.0
  }

  predicate IsWind(f: Features) {
    && Heard(f) && LowBands(f) > 0.78 && f.spectralCentroidHz < 650.0
    && (f.spectralFlatness > 0.35 || f.zeroCrossingRate > 0.12)
  }

  predicate IsEngine(f: Features) {
    && Heard(f) && LowBands(f) > 0.78 && f.spectralCentroidHz < 650.0
    && f.spectralFlatness <= 0.35 && f.zeroCrossingRate < 0.12 && f.crestFactor < 4.5
  }

  /** A loud tone; one of low rumble is wind or engine. */
  predicate IsTone(f: Features) {
    && Heard(f) && !IsWind(f) && !IsEngine(f)
    && f.relativeLevelDbfs > -84.0 && PresenceBands(f) > 0.72 && f.spectralFlatness < 0.12 && f.crestFactor < 4.0
  }

  /** The horn of another car, and failing that the own one. */
  predicate IsOtherHorn(f: Features) {
    && Heard(f) && !IsWind(f) && !IsEngine(f)
    && PresenceBands(f) > 0.5 && f.bands.hz2000To4000 > 0.4 && 0.15 <= f.spectralFlatness <= 0.32
    && 0.3 <= f.zeroCrossingRate <= 0.45 && 2500.0 <= f.spectralCentroidHz <= 3800.0
  }

  predicate IsOwnHorn(f: Features) {
    && Heard(f) && !IsWind(f) && !IsEngine(f) && !IsOtherHorn(f)
    && f.relativeLevelDbfs > -78.0 && LowBands(f) > 0.55 && f.bands.hz250To800 > 0.35
    && 0.15 <= f.spectralFlatness <= 0.32 && 0.15 <= f.zeroCrossingRate <= 0.3
    && 1000.0 <= f.spectralCentroidHz <= 2500.0
  }

  predicate IsHorn(f: Features) {
    IsTone(f) || IsOtherHorn(f) || IsOwnHorn(f)
  }

  predicate IsSiren(f: Features) {
    && Heard(f) && !IsWind(f) && !IsEngine(f) && !IsHorn(f)
    && f.relativeLevelDbfs > -36.0 && MiddleBands(f) > 0.7 && 0.12 <= f.spectralFlatness < 0.3
    && f.zeroCrossingRate > 0.08
  }

  predicate IsClearSpeech(f: Features) {
    && Heard(f) && !IsWind(f) && !IsEngine(f) && !IsHorn(f) && !IsSiren(f)
    && MiddleBands(f) >= 0.34 && PresenceBands(f) >= 0.4 && 0.08 <= f.spectralFlatness < 0.36
    && 0.025 <= f.zeroCrossingRate < 0.32 && 300.0 <= f.spectralCentroidHz <= 3200.0
  }

  predicate IsTraffic(f: Features) {
    && Heard(f) && !IsWind(f) && !IsEngine(f) && !IsHorn(f) && !IsSiren(f) && !IsClearSpeech(f)
    && f.relativeLevelDbfs > -45.0 && 550.0 <= f.spectralCentroidHz <= 7000.0 && HighBands(f) >= 0.12
    && (f.spectralFlatness >= 0.28 || f.zeroCrossingRate >= 0.3 || HighBands(f) >= 0.32)
  }

  predicate IsMusic(f: Features) {
    && Heard(f) && !IsWind(f) && !IsEngine(f) && !IsHorn(f) && !IsSiren(f) && !IsClearSpeech(f) && !IsTraffic(f)
    && 0.08 <= f.spectralFlatness <= 0.38 && PresenceBands(f) > 0.3 && HighBands(f) > 0.08 && f.crestFactor < 6.0
  }

  /** What matches nothing else and is rather in the middle counts as speech too. */
  predicate IsVagueSpeech(f: Features) {
    && Heard(f) && !IsWind(f) && !IsEngine(f) && !IsHorn(f) && !IsSiren(f) && !IsClearSpeech(f) && !IsTraffic(f)
    && !IsMusic(f) && MiddleBands(f) >= 0.28 && f.spectralCentroidHz <= 3600.0
  }

  function Limited(confidence: real): real {
    if confidence < 0.85 then confidence else 0.85
  }

  /** Each category is answered in exactly its region. */
  lemma CategoriesAreRegions(f: Features)
    ensures var c := Classify(f).category;
            && (c == "unknown" <==> !f.valid || !f.signalResponsive || f.clippingRatio >= 0.01)
            && (c == "quiet" <==>
                f.valid && f.signalResponsive && f.clippingRatio < 0.01 && f.relativeLevelDbfs <= -88.0)
            && (c == "wind" <==> IsWind(f)) && (c == "engine" <==> IsEngine(f)) && (c == "horn" <==> IsHorn(f))
            && (c == "siren" <==> IsSiren(f)) && (c == "speech" <==> IsClearSpeech(f) || IsVagueSpeech(f))
            && (c == "traffic" <==> IsTraffic(f)) && (c == "music" <==> IsMusic(f))
            && (c == "noise" <==> && Heard(f) && !IsWind(f) && !IsEngine(f) && !IsHorn(f) && !IsSiren(f)
                                  && !IsClearSpeech(f) && !IsTraffic(f) && !IsMusic(f) && !IsVagueSpeech(f))
  {
    Distinct();
  }

  /** How sure the classifier is of each category. */
  lemma ConfidenceInRegions(f: Features)
    ensures var c := Classify(f).confidence;
            && (!Heard(f) ==> c == if Classify(f).category == "quiet" then 0.8 else 0.0)
            && (IsWind(f) ==> c == Limited(LowBands(f) - 0.28)) && (IsEngine(f) ==> c == Limited(LowBands(f) - 0.23))
            && (IsTone(f) ==> c == Limited(0.372 + 0.4 * PresenceBands(f)))
            && (IsOtherHorn(f) && !IsTone(f) ==> c == 0.62) && (IsOwnHorn(f) && !IsTone(f) ==> c == 0.64)
            && (IsSiren(f) ==> c == 0.55) && (IsVagueSpeech(f) ==> c == 0.36)
            && (IsClearSpeech(f) ==>
                  c == 0.48 + if MiddleBands(f) < 0.34 + 1.0 / 3.0 then 0.3 * (MiddleBands(f) - 0.34) else 0.1)
            && (IsTraffic(f) ==> 0.4744 <= c <= 0.6)
            && (IsMusic(f) ==> c == 0.45 + if PresenceBands(f) < 0.8 then 0.15 * PresenceBands(f) else 0.12)
            && (Classify(f).category == "noise" ==> c == 0.4)
  {
    Distinct();
  }

  /** A sound with the given measurements; those the classifier does not read are the same for all. */
  function Sound(level: real, crest: real, crossings: real, centroid: real, flatness: real, bands: Bands): Features {
    Features(true, true, 16000, 1000, level, -10.0, 0.0, crest, crossings, centroid, flatness, 3200.0, bands)
  }

  /** The sounds measured in the cabin and in a room, and the four made-up ones of the test suite. */
  lemma KnownSounds()
    ensures Classify(Sound(-89.57, 3.6, 0.3996, 3713.0, 0.5105, Bands(0.0619, 0.091, 0.154, 0.2271, 0.466))).category
            == "quiet"
    ensures var horn := Sound(-85.65, 3.283, 0.3708, 3122.7, 0.2161, Bands(0.0235, 0.1841, 0.0478, 0.5545, 0.19));
            Classify(horn).category == "horn" && Classify(horn).confidence < 0.68
    ensures var horn := Sound(-69.64, 3.895, 0.2187, 1558.0, 0.2244, Bands(0.2077, 0.4276, 0.1, 0.1151, 0.1495));
            Classify(horn).category == "horn" && Classify(horn).confidence < 0.68
    ensures Classify(Sound(-84.2, 4.227, 0.397, 3591.9, 0.4874, Bands(0.0639, 0.101, 0.1627, 0.2312, 0.4411))).category
            == "noise"
    ensures var printer := Sound(-84.17, 3.297, 0.2886, 3445.6, 0.4839, Bands(0.1244, 0.1067, 0.1318, 0.2004, 0.4368));
            Classify(printer).category == "noise"
    ensures Classify(Sound(-65.79, 2.997, 0.1667, 2629.1, 0.3709, Bands(0.3202, 0.09, 0.1099, 0.1495, 0.3304))).category
            == "noise"
    ensures var passing := Sound(-30.0, 3.0, 0.1, 5000.0, 0.9, Bands(0.02, 0.03, 0.05, 0.35, 0.55));
            Classify(passing).category == "traffic" && Classify(passing).confidence < 0.68
    ensures var voice := Sound(-72.0, 3.0, 0.18, 1450.0, 0.24, Bands(0.08, 0.3, 0.34, 0.2, 0.08));
            Classify(voice).category == "speech" && Classify(voice).confidence < 0.68
    ensures var silent := Sound(-30.0, 3.0, 0.1, 1200.0, 0.4, Bands(0.2, 0.25, 0.25, 0.2, 0.1));
            Classify(silent.(signalResponsive := false)).category == "unknown"
  {
  }
}
