/**
 The sustained-sound alert: a candidate that must last, a cooldown between triggers, and a
 millisecond clock that wraps at 32 bits.
 */
module AcousticAlerts {
  import opened AcousticFeatures
  import opened AcousticPipeline
  import opened Clock

  const REQUIRED_DURATION_MS: nat := 8000
  const COOLDOWN_MS: nat := 30000
  const MIN_LEVEL_DBFS := -40.0

  function EventFor(category: string): string {
    if category == "traffic" then "acoustic_traffic"
    else if category == "horn" then "acoustic_horn"
    else if category == "siren" then "acoustic_siren"
    else ""
  }

  predicate Eligible(d: AcousticData) {
    && d.microphoneValid && d.analysisValid && !d.clipping
    && d.relativeLevelDbfs >= MIN_LEVEL_DBFS && d.confidence >= ALERT_MIN_CONFIDENCE
    && EventFor(d.category) != ""
  }

  datatype Status = Status(
    active: bool, triggered: bool, eventType: string, severity: string, confidence: real,
    durationMs: nat, updatedAtMs: nat)

  datatype Evaluator = Evaluator(
    status: Status, candidateActive: bool, candidateType: string, candidateStartedMs: nat, lastEventMs: nat)

  const INITIAL := Evaluator(Status(false, false, "", "info", 0.0, 0, 0), false, "", 0, 0)

  /** One update, as a function of the state before it. */
  function Step(e: Evaluator, d: AcousticData, nowMs: nat): Evaluator {
    var event := EventFor(d.category);
    if !Eligible(d) then
      Evaluator(e.status.(triggered := false, updatedAtMs := nowMs, active := false, durationMs := 0),
                false, "", 0, e.lastEventMs)
    else
      var started := if !e.candidateActive || e.candidateType != event then nowMs else e.candidateStartedMs;
      var duration := Elapsed(nowMs, started);
      var cooled := e.lastEventMs == 0 || Elapsed(nowMs, e.lastEventMs) >= COOLDOWN_MS;
      var triggered := duration >= REQUIRED_DURATION_MS && cooled;
      Evaluator(Status(true, triggered, event, if event == "acoustic_siren" then "high" else "medium",
                       d.confidence, duration, nowMs),
                true, event, started, if triggered then nowMs else e.lastEventMs)
  }

  class AlertEvaluator {
    var status: Status
    var candidateActive: bool
    var candidateType: string
    var candidateStartedMs: nat
    var lastEventMs: nat

    function State(): Evaluator
      reads this
    {
      Evaluator(status, candidateActive, candidateType, candidateStartedMs, lastEventMs)
    }

    constructor ()
      ensures State() == INITIAL
    {
      status := INITIAL.status;
      candidateActive, candidateType, candidateStartedMs, lastEventMs := false, "", 0, 0;
    }

    method Update(d: AcousticData, nowMs: nat) returns (r: Status)
      modifies this
      ensures State() == Step(old(State()), d, nowMs) && r == status
    {
      status := status.(triggered := false, updatedAtMs := nowMs);
      var event := EventFor(d.category);
      var eligible := d.microphoneValid && d.analysisValid && !d.clipping &&
                      d.relativeLevelDbfs >= MIN_LEVEL_DBFS && d.confidence >= ALERT_MIN_CONFIDENCE && event != "";
      if !eligible {
        ClearCandidate();
        status := status.(active := false, durationMs := 0);
        return status;
      }
      if !candidateActive || candidateType != event {
        candidateActive, candidateType, candidateStartedMs := true, event, nowMs;
      }
      status := status.(active := true, eventType := event,
                        severity := if event == "acoustic_siren" then "high" else "medium",
                        confidence := d.confidence, durationMs := Elapsed(nowMs, candidateStartedMs));
      var cooldownElapsed := lastEventMs == 0 || Elapsed(nowMs, lastEventMs) >= COOLDOWN_MS;
      if status.durationMs >= REQUIRED_DURATION_MS && cooldownElapsed {
        status := status.(triggered := true);
        lastEventMs := nowMs;
      }
      return status;
    }

    method ClearCandidate()
      modifies this`candidateActive, this`candidateType, this`candidateStartedMs
      ensures !candidateActive && candidateType == "" && candidateStartedMs == 0
    {
      candidateActive, candidateType, candidateStartedMs := false, "", 0;
    }
  }

  // ---------- runs ----------

  /** An update with the true time at which it happens; the evaluator sees the time modulo 2^32. */
  datatype Input = Input(data: AcousticData, time: nat)

  ghost predicate Chronological(run: seq<Input>) {
    forall i, j :: 0 <= i <= j < |run| ==> run[i].time <= run[j].time
  }

  /** The state after the first `k` updates of a run. */
  function After(run: seq<Input>, k: nat): Evaluator
    requires k <= |run|
  {
    if k == 0 then INITIAL else Step(After(run, k - 1), run[k - 1].data, run[k - 1].time % CLOCK)
  }

  predicate Triggers(run: seq<Input>, k: nat)
    requires k < |run|
  {
    After(run, k + 1).status.triggered
  }

  /** Every update from `m` to `k` is eligible for the same event. */
  ghost predicate Sustained(run: seq<Input>, m: nat, k: nat)
    requires m <= k < |run|
  {
    forall j: nat :: m <= j <= k ==>
      Eligible(run[j].data) && EventFor(run[j].data.category) == EventFor(run[k].data.category)
  }

  /** Where the current candidate began. */
  lemma {:induction false} CandidateStart(run: seq<Input>, k: nat) returns (m: nat)
    requires Chronological(run) && k <= |run| && After(run, k).candidateActive
    ensures k > 0 && m < k && Sustained(run, m, k - 1)
    ensures After(run, k).candidateType == EventFor(run[k - 1].data.category)
    ensures After(run, k).candidateStartedMs == run[m].time % CLOCK
  {
    assert k > 0;
    var before := After(run, k - 1);
    if before.candidateActive && before.candidateType == EventFor(run[k - 1].data.category) {
      m := CandidateStart(run, k - 1);
    } else {
      m := k - 1;
    }
  }

  /** A trigger means eight seconds of true time in which every update was eligible for that event. */
  lemma TriggerMeansSustained(run: seq<Input>, k: nat) returns (m: nat)
    requires Chronological(run) && k < |run| && Triggers(run, k)
    ensures m <= k && Sustained(run, m, k)
    ensures run[k].time - run[m].time >= REQUIRED_DURATION_MS
    ensures After(run, k + 1).status.eventType == EventFor(run[k].data.category)
  {
    m := CandidateStart(run, k + 1);
    WrappedDifference(run[k].time, run[m].time);
  }

  /** The last trigger before update `k`, if there is one. */
  ghost predicate LastTrigger(run: seq<Input>, k: nat, t: nat)
    requires k <= |run|
  {
    t < k && Triggers(run, t) && forall j: nat :: t < j < k ==> !Triggers(run, j)
  }

  lemma {:induction false} LastEvent(run: seq<Input>, k: nat, t: nat)
    requires k <= |run| && LastTrigger(run, k, t)
    ensures After(run, k).lastEventMs == run[t].time % CLOCK
  {
    if t < k - 1 {
      LastEvent(run, k - 1, t);
      assert !Triggers(run, k - 1);
    }
  }

  /**
   Exactly when a sustained sound triggers again less than the cooldown after the last trigger:
   when that trigger was stamped with wrapped time zero, the value that stands for "never".
   */
  lemma RetriggerInsideCooldown(run: seq<Input>, k: nat, t: nat)
    requires Chronological(run) && k < |run| && LastTrigger(run, k, t)
    requires run[k].time - run[t].time < COOLDOWN_MS
    requires Eligible(run[k].data) && After(run, k + 1).status.durationMs >= REQUIRED_DURATION_MS
    ensures Triggers(run, k) <==> run[t].time % CLOCK == 0
  {
    LastEvent(run, k, t);
    WrappedDifference(run[k].time, run[t].time);
  }

  /** Two successive triggers are a cooldown apart, unless the first is stamped zero. */
  lemma SuccessiveTriggers(run: seq<Input>, k: nat, t: nat)
    requires Chronological(run) && k < |run| && LastTrigger(run, k, t) && Triggers(run, k)
    ensures run[k].time - run[t].time >= COOLDOWN_MS || run[t].time % CLOCK == 0
  {
    LastEvent(run, k, t);
    WrappedDifference(run[k].time, run[t].time);
  }

  /** The sentinel at work: a sustained horn triggers twice within one millisecond. */
  lemma SentinelRetriggers(d: AcousticData)
    requires Eligible(d)
    ensures var run := [Input(d, CLOCK - 8000), Input(d, CLOCK), Input(d, CLOCK + 1)];
            Triggers(run, 1) && Triggers(run, 2)
  {
    var run := [Input(d, CLOCK - 8000), Input(d, CLOCK), Input(d, CLOCK + 1)];
    assert (CLOCK - 8000) % CLOCK == CLOCK - 8000 && CLOCK % CLOCK == 0 && (CLOCK + 1) % CLOCK == 1;
    var one := After(run, 1);
    assert After(run, 0) == INITIAL;
    assert one == Step(INITIAL, d, CLOCK - 8000);
    assert one.candidateStartedMs == CLOCK - 8000 && one.lastEventMs == 0;
    assert After(run, 2) == Step(one, d, 0);
    assert After(run, 3) == Step(After(run, 2), d, 1);
  }

  /** The number of triggers among updates `from` to `to` - 1. */
  function Count(run: seq<Input>, from: nat, to: nat): nat
    requires from <= to <= |run|
  {
    if from == to then 0 else Count(run, from, to - 1) + (if Triggers(run, to - 1) then 1 else 0)
  }

  /** The number of triggers among them that are stamped with wrapped time zero. */
  function ZeroStamps(run: seq<Input>, from: nat, to: nat): nat
    requires from <= to <= |run|
  {
    if from == to then 0
    else ZeroStamps(run, from, to - 1) + (if Triggers(run, to - 1) && run[to - 1].time % CLOCK == 0 then 1 else 0)
  }

  lemma {:induction false} NoStampWithoutTrigger(run: seq<Input>, from: nat, quiet: nat, to: nat)
    requires from <= quiet <= to <= |run| && forall j: nat :: quiet <= j < to ==> !Triggers(run, j)
    ensures ZeroStamps(run, from, to) == ZeroStamps(run, from, quiet)
  {
    hide Triggers;
    if quiet < to {
      NoStampWithoutTrigger(run, from, quiet, to - 1);
    }
  }

  lemma {:induction false} CountSpan(run: seq<Input>, from: nat, to: nat) returns (first: nat, last: nat)
    requires Chronological(run) && from <= to <= |run| && Count(run, from, to) > 0
    ensures from <= first <= last < to && LastTrigger(run, to, last)
    ensures run[last].time - run[first].time >= (Count(run, from, to) - 1 - ZeroStamps(run, from, last)) * COOLDOWN_MS
    ensures ZeroStamps(run, from, last) <= ZeroStamps(run, from, to)
  {
    if !Triggers(run, to - 1) {
      first, last := CountSpan(run, from, to - 1);
    } else {
      last := to - 1;
      if Count(run, from, to - 1) == 0 {
        first := to - 1;
      } else {
        var previous: nat;
        first, previous := CountSpan(run, from, to - 1);
        SuccessiveTriggers(run, to - 1, previous);
        NoStampWithoutTrigger(run, from, previous + 1, to - 1);
      }
    }
  }

  /**
     In a window of true length `span` there are at most span / 30000 + 1 triggers, and one more for
     each stamped zero.
   */
  lemma TriggerRate(run: seq<Input>, from: nat, to: nat, span: nat)
    requires Chronological(run) && from <= to <= |run|
    requires forall i, j :: from <= i <= j < to ==> run[j].time - run[i].time <= span
    ensures Count(run, from, to) <= span / COOLDOWN_MS + 1 + ZeroStamps(run, from, to)
  {
    if Count(run, from, to) > 0 {
      var first, last := CountSpan(run, from, to);
    }
  }

  /** What the microphone task leaves for the alert: the snapshot of an aggregate, or data marked invalid. */
  ghost predicate FromMicrophone(d: AcousticData, f: Features) {
    !d.microphoneValid || exists t: nat :: d == Publish(f, t)
  }

  /** With the shipped classifier as the only source of data, the only event that ever triggers is a horn. */
  lemma OnlyHornsTrigger(run: seq<Input>, aggregates: seq<Features>, k: nat)
    requires Chronological(run) && |aggregates| == |run| && k < |run| && Triggers(run, k)
    requires forall i :: 0 <= i < |run| ==> FromMicrophone(run[i].data, aggregates[i])
    ensures After(run, k + 1).status.eventType == "acoustic_horn"
    ensures TonalHorn(aggregates[k]) && Presence(aggregates[k].bands) >= 0.77
  {
    var m := TriggerMeansSustained(run, k);
    assert Eligible(run[k].data);
    assert FromMicrophone(run[k].data, aggregates[k]);
    var t: nat :| run[k].data == Publish(aggregates[k], t);
    AlertConfidenceOnlyForTonalHorn(aggregates[k]);
    EventNames(run[k].data.category);
    assert Classify(aggregates[k]).category == "horn";
  }

  lemma EventNames(category: string)
    ensures EventFor(category) != "" <==> category in ["traffic", "horn", "siren"]
    ensures EventFor(category) == "acoustic_horn" <==> category == "horn"
  {
    assert "acoustic_traffic"[9] == 't' && "acoustic_horn"[9] == 'h' && "acoustic_siren"[9] == 's';
  }
}
