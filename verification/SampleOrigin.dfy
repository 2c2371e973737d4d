/**
 Where a spooled sample comes from: what the main loop read of the client when it stored the sample,
 and what that means for the marking of every copy sent later.
 */
module SampleOrigin {
  import opened OfflineQueuePolicy
  import D = Delivery

  /** What the main loop read of the client, and after how many steps of the run. */
  datatype View = View(connected: bool, connectedAt: nat, pending: bool, pendingAt: nat)

  ghost predicate ViewHolds(r: View, first: nat, run: seq<D.Step>) {
    && first <= r.connectedAt <= r.pendingAt <= |run|
    && D.IsRun(D.START, run[..r.connectedAt]) && D.Run(D.START, run[..r.connectedAt]).connected == r.connected
    && D.IsRun(D.START, run[..r.pendingAt]) && D.Run(D.START, run[..r.pendingAt]).pending.Some? == r.pending
  }

  lemma ViewTaken(r: View, first: seq<D.Step>, second: seq<D.Step>, run: seq<D.Step>)
    requires r.connectedAt == |first| && r.pendingAt == |second| && first <= second <= run
    requires D.IsRun(D.START, first) && D.Run(D.START, first).connected == r.connected
    requires D.IsRun(D.START, second) && D.Run(D.START, second).pending.Some? == r.pending
    ensures ViewHolds(r, |first|, run)
  {
    hide D.IsRun, D.Run;
    assert run[..|first|] == first && run[..|second|] == second;
  }

  lemma ViewEarlier(r: View, first: nat, middle: nat, run: seq<D.Step>)
    requires ViewHolds(r, middle, run) && first <= middle
    ensures ViewHolds(r, first, run)
  {
  }

  /**
     Step `k` stores a sample as the firmware does: as deferred exactly when the client was not
     connected, or a publish was pending, or a record was waiting, at the times they were read; and
     between those readings and the storing the main loop only evicted.
   */
  ghost predicate Honest(run: seq<D.Step>, k: nat, view: View)
    requires k < |run| && run[k].Append?
  {
    && ViewHolds(view, 0, run[..k]) && D.IsRun(D.START, run[..view.pendingAt])
    && (run[k].deferred <==>
          !view.connected || view.pending || D.Run(D.START, run[..view.pendingAt]).fifo != [])
    && forall j :: view.connectedAt <= j < k && !D.IsEvent(run[j]) ==> run[j] == D.Drop
  }

  /** Every sample of the run was stored like that. */
  ghost predicate HonestRun(run: seq<D.Step>) {
    forall k :: 0 <= k < |run| && run[k].Append? ==> exists view :: Honest(run, k, view)
  }

  lemma HonestLonger(run: seq<D.Step>, longer: seq<D.Step>, k: nat, view: View)
    requires run <= longer && k < |run| && run[k].Append? && Honest(run, k, view)
    ensures Honest(longer, k, view)
  {
    hide D.IsRun, D.Run;
    assert longer[..k] == run[..k] && longer[..view.pendingAt] == run[..view.pendingAt];
  }

  /** A stretch in which the main loop stores nothing keeps a run honest. */
  lemma HonestStays(before: seq<D.Step>, after: seq<D.Step>, main: seq<D.Step>)
    requires D.Did(before, after, main) && HonestRun(before)
    requires forall i :: 0 <= i < |main| ==> !main[i].Append?
    ensures HonestRun(after)
  {
    hide Honest;
    forall k | 0 <= k < |after| && after[k].Append?
      ensures exists view :: Honest(after, k, view)
    {
      if k < |before| {
        var view :| Honest(before, k, view);
        HonestLonger(before, after, k, view);
      } else {
        MainHas(after[|before|..], k - |before|);
      }
    }
  }

  lemma {:induction false} MainHas(steps: seq<D.Step>, k: nat)
    requires k < |steps| && !D.IsEvent(steps[k])
    ensures steps[k] in D.MainSteps(steps)
    decreases |steps|
  {
    if k < |steps| - 1 {
      MainHas(steps[..|steps| - 1], k);
    }
  }

  /** The step that stores a sample after `n` evictions. */
  lemma HonestStore(before: seq<D.Step>, first: seq<D.Step>, second: seq<D.Step>, n: nat, step: D.Step, view: View)
    requires D.Did(before, first, []) && D.Did(first, second, []) && HonestRun(before) && step.Append?
    requires view.connectedAt == |first| && view.pendingAt == |second|
    requires D.IsRun(D.START, first) && D.Run(D.START, first).connected == view.connected
    requires D.IsRun(D.START, second) && D.Run(D.START, second).pending.Some? == view.pending
    requires step.deferred <==> !view.connected || view.pending || D.Run(D.START, second).fifo != []
    ensures HonestRun(second + D.Drops(n) + [step])
  {
    hide D.IsRun, D.Run;
    var all, k := second + D.Drops(n) + [step], |second| + n;
    HonestStays(before, first, []);
    HonestStays(first, second, []);
    ViewTaken(view, first, second, all[..k]);
    ViewEarlier(view, 0, |first|, all[..k]);
    assert all[..view.pendingAt] == second;
    forall j | view.connectedAt <= j < k && !D.IsEvent(all[j])
      ensures all[j] == D.Drop
    {
      if j < |second| {
        assert all[j] == second[|first|..][j - |first|];
        MainHas(second[|first|..], j - |first|);
      }
    }
    assert Honest(all, k, view);
    forall i | 0 <= i < |all| && all[i].Append?
      ensures exists v :: Honest(all, i, v)
    {
      if i < |second| {
        assert second[i] == all[i];
        hide Honest;
        var v :| Honest(second, i, v);
        HonestLonger(second, all, i, v);
      }
    }
  }

  // ---------- the record's way back ----------

  /** The step that stored the record at place `i` of the queue. */
  lemma {:induction false} EntryOrigin(steps: seq<D.Step>, i: nat) returns (k: nat)
    requires D.IsRun(D.START, steps) && i < |D.Run(D.START, steps).fifo|
    ensures k < |steps| && steps[k].Append? && D.IsRun(D.START, steps[..k])
    ensures var e, origin := D.Run(D.START, steps).fifo[i], D.Run(D.START, steps[..k]);
            && e.deferred == steps[k].deferred && e.payload == steps[k].payload
            && e.serial == |origin.accepted| && e.boot == origin.boot
    decreases |steps|
  {
    var before, last := steps[..|steps| - 1], steps[|steps| - 1];
    var s, t := D.Run(D.START, before), D.Run(D.START, steps);
    var j := StepOrigin(s, last, i);
    hide D.Next, D.Enabled;
    if j < |s.fifo| {
      k := EntryOrigin(before, j);
      assert before[..k] == steps[..k];
    } else {
      k := |steps| - 1;
    }
  }

  /** Where a record was one step earlier, or that the step stored it. */
  lemma StepOrigin(s: D.State, step: D.Step, i: nat) returns (j: nat)
    requires D.Enabled(s, step) && i < |D.Next(s, step).fifo|
    ensures var e := D.Next(s, step).fifo[i];
            if j < |s.fifo|
            then e.deferred == s.fifo[j].deferred && e.payload == s.fifo[j].payload && e.serial == s.fifo[j].serial
                 && e.boot == s.fifo[j].boot
            else step.Append? && e.deferred == step.deferred && e.payload == step.payload
                 && e.serial == |s.accepted| && e.boot == s.boot
  {
    var t := D.Next(s, step);
    if step.Mark? {
      assert |t.fifo| == |s.fifo|;
    } else if step.Drop? || step.HandleAck? {
      assert t.fifo == s.fifo || t.fifo == s.fifo[1..];
    } else if !step.Append? {
      assert t.fifo == s.fifo;
    }
    j := if |t.fifo| < |s.fifo| then i + 1 else i;
  }

  /**
     A copy goes out unmarked exactly when its sample was stored while the client was connected, with
     nothing pending and nothing waiting, and it is sent in the same boot, as the first attempt; attempts
     are counted modulo 2^32.
   */
  lemma UnmarkedExactly(steps: seq<D.Step>) returns (k: nat, view: View)
    requires D.IsRun(D.START, steps) && HonestRun(steps) && D.Run(D.START, steps).pc.Offering?
    ensures k < |steps| && steps[k].Append? && D.IsRun(D.START, steps[..k]) && Honest(steps, k, view)
    ensures var s, origin := D.Run(D.START, steps), D.Run(D.START, steps[..k]);
            && s.pc.entry.serial == |origin.accepted| && s.pc.entry.payload == steps[k].payload
            && (!s.pc.replayed <==>
                  view.connected && !view.pending && D.Run(D.START, steps[..view.pendingAt]).fifo == []
                  && origin.boot == s.boot && s.pc.entry.tries % TWO_32 == 0)
  {
    D.MarkingRule(steps);
    HeadIsOffered(steps);
    hide D.IsRun, D.Run;
    k := EntryOrigin(steps, 0);
    view :| Honest(steps, k, view);
  }

  lemma HeadIsOffered(steps: seq<D.Step>)
    requires D.IsRun(D.START, steps) && D.Run(D.START, steps).pc.Offering?
    ensures var s := D.Run(D.START, steps); s.fifo != [] && s.fifo[0] == s.pc.entry
  {
    D.InvRun(steps);
    assert D.NotesOk(D.Run(D.START, steps));
  }
}
