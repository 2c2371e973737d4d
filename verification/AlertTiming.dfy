/** When the sustained-sound alert triggers, in terms of the sounds it was given and the true times. */
module AlertTiming {
  import opened AcousticPipeline
  import opened AcousticAlerts
  import opened Clock

  /** A clear, loud and confident sound of one of the three kinds. */
  predicate Alarming(d: AcousticData) {
    && d.microphoneValid && d.analysisValid && !d.clipping && d.relativeLevelDbfs >= -40.0 && d.confidence >= 0.68
    && (d.category == "traffic" || d.category == "horn" || d.category == "siren")
  }

  lemma AlarmingIsEligible(d: AcousticData)
    ensures Alarming(d) <==> Eligible(d)
    ensures Alarming(d) ==> EventFor(d.category) == "acoustic_" + d.category
  {
    EventNames(d.category);
    assert "acoustic_" + "traffic" == "acoustic_traffic" && "acoustic_" + "horn" == "acoustic_horn";
    assert "acoustic_" + "siren" == "acoustic_siren";
  }

  lemma EventsDiffer(a: string, b: string)
    ensures "acoustic_" + a == "acoustic_" + b <==> a == b
  {
    assert ("acoustic_" + a)[9..] == a && ("acoustic_" + b)[9..] == b;
  }

  predicate SameSound(a: AcousticData, b: AcousticData) {
    Alarming(a) && Alarming(b) && a.category == b.category
  }

  /** The sound of update `k` has lasted since update `m` and not longer. */
  ghost predicate LastsSince(run: seq<Input>, m: nat, k: nat)
    requires k < |run|
  {
    && m <= k && (forall j :: m <= j <= k ==> SameSound(run[j].data, run[k].data))
    && (m == 0 || !SameSound(run[m - 1].data, run[k].data))
  }

  /** Every alarming sound has an onset. */
  lemma {:induction false} Onset(run: seq<Input>, k: nat) returns (m: nat)
    requires k < |run| && Alarming(run[k].data)
    ensures LastsSince(run, m, k)
  {
    if k > 0 && SameSound(run[k - 1].data, run[k].data) {
      m := Onset(run, k - 1);
    } else {
      m := k;
    }
  }

  ghost predicate IsCandidate(e: Evaluator, category: string, time: nat) {
    e.candidateActive && e.candidateType == "acoustic_" + category && e.candidateStartedMs == time % CLOCK
  }

  /** What the evaluator knows of a sound before an update with another sound or none. */
  lemma OtherCandidate(run: seq<Input>, k: nat, category: string)
    requires k <= |run| && (k == 0 || !Alarming(run[k - 1].data) || run[k - 1].data.category != category)
    ensures !After(run, k).candidateActive || After(run, k).candidateType != "acoustic_" + category
  {
    if k > 0 {
      AlarmingIsEligible(run[k - 1].data);
      EventsDiffer(run[k - 1].data.category, category);
      hide Eligible, Alarming, EventFor;
    }
  }

  lemma {:induction false} CandidateSinceOnset(run: seq<Input>, m: nat, k: nat)
    requires k < |run| && LastsSince(run, m, k)
    ensures IsCandidate(After(run, k + 1), run[k].data.category, run[m].time)
  {
    AlarmingIsEligible(run[k].data);
    if m < k {
      assert SameSound(run[k - 1].data, run[k].data);
      assert LastsSince(run, m, k - 1);
      CandidateSinceOnset(run, m, k - 1);
    } else {
      OtherCandidate(run, k, run[k].data.category);
    }
    hide Eligible, Alarming, EventFor;
  }

  lemma {:induction false} NoEventYet(run: seq<Input>, k: nat)
    requires k <= |run| && forall j: nat :: j < k ==> !Triggers(run, j)
    ensures After(run, k).lastEventMs == 0
  {
    if k > 0 {
      NoEventYet(run, k - 1);
      assert !Triggers(run, k - 1);
    }
  }

  /** The status after an update with an alarming sound, but for the trigger. */
  lemma StatusOfSound(run: seq<Input>, m: nat, k: nat)
    requires Chronological(run) && k < |run| && LastsSince(run, m, k)
    ensures var d, lasted := run[k].data, (run[k].time - run[m].time) % CLOCK;
            After(run, k + 1).status ==
            Status(true, Triggers(run, k), "acoustic_" + d.category, if d.category == "siren" then "high" else "medium",
                   d.confidence, lasted, run[k].time % CLOCK)
    ensures Triggers(run, k) <==>
            && (run[k].time - run[m].time) % CLOCK >= 8000
            && (After(run, k).lastEventMs == 0 ||
                Elapsed(run[k].time % CLOCK, After(run, k).lastEventMs) >= 30000)
  {
    var d := run[k].data;
    CandidateSinceOnset(run, m, k);
    AlarmingIsEligible(d);
    EventsDiffer(d.category, "siren");
    assert "acoustic_" + "siren" == "acoustic_siren";
    hide Eligible, Alarming, EventFor;
    WrappedDifference(run[k].time, run[m].time);
  }

  lemma FirstTrigger(run: seq<Input>, m: nat, k: nat)
    requires Chronological(run) && k < |run| && LastsSince(run, m, k) && forall j: nat :: j < k ==> !Triggers(run, j)
    ensures Triggers(run, k) <==> (run[k].time - run[m].time) % CLOCK >= 8000
  {
    hide Triggers;
    StatusOfSound(run, m, k);
    NoEventYet(run, k);
  }

  lemma NextTrigger(run: seq<Input>, m: nat, k: nat, t: nat)
    requires Chronological(run) && k < |run| && LastsSince(run, m, k) && LastTrigger(run, k, t)
    ensures Triggers(run, k) <==>
            && (run[k].time - run[m].time) % CLOCK >= 8000
            && (run[t].time % CLOCK == 0 || (run[k].time - run[t].time) % CLOCK >= 30000)
  {
    hide Triggers;
    StatusOfSound(run, m, k);
    LastEvent(run, k, t);
    WrappedDifference(run[k].time, run[t].time);
  }

  /**
     Exactly when an update triggers, for every run, however long the pauses: the sound must be alarming,
     must have lasted 8 seconds, and unless there was no trigger before, or the last one is stamped zero,
     30 seconds must have passed since that one. Times are compared modulo 2^32 milliseconds.
   */
  lemma TriggersExactly(run: seq<Input>, k: nat)
    requires Chronological(run) && k < |run|
    ensures !Alarming(run[k].data) ==> !Triggers(run, k) && !After(run, k + 1).status.active
    ensures forall m: nat :: LastsSince(run, m, k) && (forall j: nat :: j < k ==> !Triggers(run, j)) ==>
              (Triggers(run, k) <==> (run[k].time - run[m].time) % CLOCK >= 8000)
    ensures forall m: nat, t: nat :: LastsSince(run, m, k) && LastTrigger(run, k, t) ==>
              (Triggers(run, k) <==>
               && (run[k].time - run[m].time) % CLOCK >= 8000
               && (run[t].time % CLOCK == 0 || (run[k].time - run[t].time) % CLOCK >= 30000))
  {
    AlarmingIsEligible(run[k].data);
    hide Eligible, Alarming, EventFor;
    forall m: nat | LastsSince(run, m, k) && (forall j: nat :: j < k ==> !Triggers(run, j))
      ensures Triggers(run, k) <==> (run[k].time - run[m].time) % CLOCK >= 8000
    {
      FirstTrigger(run, m, k);
    }
    forall m: nat, t: nat | LastsSince(run, m, k) && LastTrigger(run, k, t)
      ensures Triggers(run, k) <==>
              && (run[k].time - run[m].time) % CLOCK >= 8000
              && (run[t].time % CLOCK == 0 || (run[k].time - run[t].time) % CLOCK >= 30000)
    {
      NextTrigger(run, m, k, t);
    }
  }

  /**
     A sound that has lasted 8 seconds of true time triggers whenever there was no trigger before or the
     last one is 30 seconds of true time ago, as long as neither gap fills the clock.
   */
  lemma SustainedSoundTriggers(run: seq<Input>, m: nat, k: nat)
    requires Chronological(run) && k < |run| && LastsSince(run, m, k)
    requires 8000 <= run[k].time - run[m].time < 4294967296
    requires forall j: nat :: j < k && Triggers(run, j) ==> 30000 <= run[k].time - run[j].time < 4294967296
    ensures Triggers(run, k)
    ensures After(run, k + 1).status.eventType == "acoustic_" + run[k].data.category
    ensures After(run, k + 1).status.severity == if run[k].data.category == "siren" then "high" else "medium"
  {
    SoundTriggers(run, m, k);
    hide Triggers;
    StatusOfSound(run, m, k);
  }

  lemma SoundTriggers(run: seq<Input>, m: nat, k: nat)
    requires Chronological(run) && m <= k < |run| && LastsSince(run, m, k)
    requires 8000 <= run[k].time - run[m].time < CLOCK
    requires forall j: nat :: j < k && Triggers(run, j) ==> 30000 <= run[k].time - run[j].time < CLOCK
    ensures Triggers(run, k)
  {
    hide Triggers, Chronological, LastsSince;
    ModBound(run[k].time - run[m].time);
    if j: nat :| j < k && Triggers(run, j) {
      var t := LatestTrigger(run, k, j);
      ModBound(run[k].time - run[t].time);
      NextTrigger(run, m, k, t);
    } else {
      FirstTrigger(run, m, k);
    }
  }

  lemma {:induction false} LatestTrigger(run: seq<Input>, k: nat, j: nat) returns (t: nat)
    requires k <= |run| && j < k && Triggers(run, j)
    ensures LastTrigger(run, k, t)
  {
    hide Triggers;
    if Triggers(run, k - 1) {
      t := k - 1;
    } else {
      t := LatestTrigger(run, k - 1, j);
    }
  }
}
