/**
 Power cuts inside an operation: every state of the card that an operation passes through is the
 card of a prefix of the protocol run that was made, so what holds of all runs holds of a cut at any
 disk step, and a cut takes no record that the operation does not take itself.
 */
module PowerCuts {
  import opened OfflineQueuePolicy
  import opened Spool
  import opened OfflineTelemetryQueue
  import opened SpooledDelivery
  import D = Delivery

  /** Clean cards with the same FIFO are the same. */
  lemma {:induction false} FifoDetermines(a: Files, b: Files)
    requires Clean(a) && Clean(b) && Fifo(a) == Fifo(b)
    ensures a == b
    decreases |a|
  {
    hide Fifo, MinOf, WellFormed;
    assert |a| == |Fifo(a)| == |Fifo(b)| == |b|;
    if a == map[] || b == map[] {
      assert a == map[] && b == map[];
    } else {
      var m := SameKey(a, b);
      FifoDetermines(a - {m}, b - {m});
      assert a == (a - {m})[m := a[m]] && b == (b - {m})[m := b[m]];
    }
  }

  lemma SameKey(a: Files, b: Files) returns (m: nat)
    requires Clean(a) && Clean(b) && Fifo(a) == Fifo(b) && a != map[] && b != map[]
    ensures m in a && m in b && a[m] == b[m] && Fifo(a - {m}) == Fifo(b - {m}) && |a - {m}| < |a|
  {
    FifoHead(a);
    FifoHead(b);
    hide Fifo, MinOf;
    m := MinOf(a.Keys);
    SmallerMap(a, m);
    assert MinOf(b.Keys) == m;
  }

  // ---------- what an operation may leave ----------

  /** The run goes on by `n` drops, and then its state holds the spool after `n` drops. */
  ghost predicate DropsReach(q: Spool, n: nat, run: seq<D.Step>)
    requires Coherent(q) && n <= |q.files|
  {
    && D.IsRun(D.START, run + D.Drops(n)) && Holds(DropFront(q, n), D.Run(D.START, run + D.Drops(n)))
    && D.Run(D.START, run + D.Drops(n)).pc == D.Idle && DropFront(q, n).ready
  }

  /** Drops of the protocol follow drops of the spool. */
  lemma {:induction false} DropsRefine(q: Spool, run: seq<D.Step>, n: nat)
    requires Coherent(q) && q.ready && n <= |q.files|
    requires D.IsRun(D.START, run) && Holds(q, D.Run(D.START, run)) && D.Run(D.START, run).pc == D.Idle
    ensures DropsReach(q, n, run)
    decreases n
  {
    if n == 0 {
      NothingDropped(q, 0);
      assert run + D.Drops(0) == run;
      hide *;
    } else {
      hide *;
      DropsRefine(q, run, n - 1);
      DropRefines(q, run, n - 1);
    }
  }

  lemma DropRefines(q: Spool, run: seq<D.Step>, n: nat)
    requires Coherent(q) && n < |q.files| && DropsReach(q, n, run)
    ensures DropsReach(q, n + 1, run)
  {
    assert run + D.Drops(n) + [D.Drop] == run + D.Drops(n + 1);
    var s := D.Run(D.START, run + D.Drops(n));
    hide D.IsRun, D.Run, Coherent, Holds, DropFront, D.Drops, D.Next, D.Enabled, RemoveOldest, D.WithoutHead;
    DropFrontNext(q, n);
    HoldsIsValid(DropFront(q, n), s);
    RemovalRefines(DropFront(q, n), s, true);
    DropIs(s);
    var longer, t := D.Extend(run + D.Drops(n), s, D.Drop);
    HoldsByQueue(DropFront(q, n + 1), D.WithoutHead(s), t);
    StaysReady(DropFront(q, n));
  }

  lemma DropIs(s: D.State)
    requires s.pc == D.Idle && s.ready && s.fifo != []
    ensures D.Enabled(s, D.Drop)
    ensures var t, u := D.Next(s, D.Drop), D.WithoutHead(s);
            t.fifo == u.fifo && t.ready == u.ready && t.boot == u.boot && t.pc == D.Idle
  {
  }

  lemma StaysReady(q: Spool)
    requires Coherent(q) && q.files != map[]
    ensures RemoveOldest(q, true).ready == q.ready
  {
  }

  lemma SameCard(r: Spool, t: D.State, files: Files)
    requires Holds(r, t) && Clean(files) && Fifo(files) == Fifo(r.files)
    ensures r.files == files
  {
    hide Holds, Fifo;
    HoldsIsValid(r, t);
    CoherentIsClean(r);
    FifoDetermines(files, r.files);
  }

  lemma KeptNextAny(q: Spool, k: nat)
    requires Coherent(q) && k <= |q.files|
    ensures Fifo(DropFront(q, k).files) == Fifo(q.files)[k..]
  {
  }

  /**
     What an operation that drops at most `most` records may leave on the card is the card after so
     many of those drops.
   */
  lemma DropCutIsARun(q: Spool, run: seq<D.Step>, files: Files, most: nat) returns (k: nat)
    requires Coherent(q) && q.ready && most <= |q.files|
    requires D.IsRun(D.START, run) && Holds(q, D.Run(D.START, run)) && D.Run(D.START, run).pc == D.Idle
    requires SafeState(files, Fifo(q.files), None, most)
    ensures k <= most && DropsReach(q, k, run) && DropFront(q, k).files == files
  {
    k :| k <= most && SurvivorFrom(Fifo(q.files), Fifo(files), None, k);
    hide D.IsRun, D.Run, Holds, Coherent, DropFront, Fifo, Clean, D.Drops;
    DropsRefine(q, run, k);
    KeptNextAny(q, k);
    SameCard(DropFront(q, k), D.Run(D.START, run + D.Drops(k)), files);
  }

  // ---------- covered cuts ----------

  /** The card is the one that the run's first `k` steps led to. */
  ghost predicate ShownBy(run: seq<D.Step>, k: nat, q: Spool, files: Files) {
    && k <= |run| && D.IsRun(D.START, run[..k])
    && Holds(q, D.Run(D.START, run[..k])) && q.files == files
  }

  /** The card is one that the run led to after its first `first` steps or later. */
  ghost predicate Shown(run: seq<D.Step>, first: nat, files: Files) {
    exists k, q :: first <= k && ShownBy(run, k, q, files)
  }

  /** Every state of the card from `from` on is one that the run led to after its first `first` steps or later. */
  ghost predicate CutsHeld(history: seq<Disk>, from: nat, run: seq<D.Step>, first: nat) {
    from <= |history| && forall i :: from <= i < |history| ==> Shown(run, first, history[i].files)
  }

  /**
     So a power cut at any disk step finds the card of a prefix of the run that was made. In it every
     sample is accounted for. Nothing is dropped or lost in it that the whole run does not drop or lose,
     and a sample that was on disk before and is on disk in the end is on disk at the cut.
   */
  lemma NothingVanishesInAnyCut(history: seq<Disk>, from: nat, run: seq<D.Step>, first: nat, cut: nat)
    returns (k: nat, q: Spool)
    requires D.IsRun(D.START, run) && first <= |run| && D.IsRun(D.START, run[..first])
    requires CutsHeld(history, from, run, first) && from <= cut < |history|
    ensures first <= k && ShownBy(run, k, q, history[cut].files)
    ensures var before, s, after := D.Run(D.START, run[..first]), D.Run(D.START, run[..k]), D.Run(D.START, run);
            && (forall n: nat :: n < |s.accepted| ==> AccountedFor(s, n))
            && before.accepted <= s.accepted <= after.accepted && s.dropped <= after.dropped && s.lost <= after.lost
            && (forall n: nat :: n < |before.accepted| && D.OnDisk(after, n) ==> D.OnDisk(s, n))
            && (D.Careful(run) ==> s.lost == {})
  {
    hide D.IsRun, D.Run, Holds, D.Careful, AccountedFor, D.OnDisk;
    assert Shown(run, first, history[cut].files);
    k, q :| first <= k && ShownBy(run, k, q, history[cut].files);
    var s := D.Run(D.START, run[..k]);
    AllAccountedFor(run[..k], s);
    AllAccountedFor(run, D.Run(D.START, run));
    assert run[..first] <= run[..k];
    Grows(run[..first], run[..k]);
    Grows(run[..k], run);
    forall n: nat | n < |D.Run(D.START, run[..first]).accepted| && D.OnDisk(D.Run(D.START, run), n)
      ensures D.OnDisk(s, n)
    {
      D.GoneStays(run[..k], run, n);
    }
  }

  lemma Grows(before: seq<D.Step>, after: seq<D.Step>)
    requires D.IsRun(D.START, before) && D.IsRun(D.START, after) && before <= after
    ensures var s, t := D.Run(D.START, before), D.Run(D.START, after);
            s.accepted <= t.accepted && s.dropped <= t.dropped && s.lost <= t.lost
  {
    D.RunGrows(before, after, D.MainSteps(after[|before|..]));
    hide D.IsRun, D.Run;
  }

  lemma NoCutYet(history: seq<Disk>, run: seq<D.Step>, first: nat)
    ensures CutsHeld(history, |history|, run, first)
  {
  }

  /** A longer run still shows what a shorter one did. */
  lemma ShownLater(run: seq<D.Step>, longer: seq<D.Step>, first: nat, files: Files)
    requires run <= longer && Shown(run, first, files)
    ensures Shown(longer, first, files)
  {
    hide D.IsRun, D.Run, Holds;
    var k, q :| first <= k && ShownBy(run, k, q, files);
    assert longer[..k] == run[..k];
    assert ShownBy(longer, k, q, files);
  }

  lemma CutsLater(history: seq<Disk>, from: nat, run: seq<D.Step>, longer: seq<D.Step>, first: nat)
    requires run <= longer && CutsHeld(history, from, run, first)
    ensures CutsHeld(history, from, longer, first)
  {
    hide Shown;
    forall i | from <= i < |history|
      ensures Shown(longer, first, history[i].files)
    {
      ShownLater(run, longer, first, history[i].files);
    }
  }

  /** The card of the run now. */
  lemma ShownNow(run: seq<D.Step>, first: nat, q: Spool)
    requires D.IsRun(D.START, run) && first <= |run| && Holds(q, D.Run(D.START, run))
    ensures Shown(run, first, q.files)
  {
    hide D.IsRun, D.Run, Holds;
    assert run[..|run|] == run;
    assert ShownBy(run, |run|, q, q.files);
  }

  /** One more state, or none, that is the card of the run now. */
  lemma OneCut(before: seq<Disk>, history: seq<Disk>, from: nat, run: seq<D.Step>, longer: seq<D.Step>, first: nat,
               q: Spool, last: Disk)
    requires CutsHeld(before, from, run, first) && run <= longer && first <= |run|
    requires D.IsRun(D.START, longer) && Holds(q, D.Run(D.START, longer))
    requires (history == before || history == before + [last]) && last.files == q.files
    ensures CutsHeld(history, from, longer, first)
  {
    hide Shown, Holds, D.IsRun, D.Run;
    CutsLater(before, from, run, longer, first);
    ShownNow(longer, first, q);
  }

  /** States on the way of an operation that drops at most the head. */
  lemma HeadCuts(before: seq<Disk>, history: seq<Disk>, from: nat, run: seq<D.Step>, longer: seq<D.Step>, first: nat,
                 q: Spool, r: Spool)
    requires CutsHeld(before, from, run, first) && before <= history && run <= longer && first <= |run|
    requires D.IsRun(D.START, run) && Holds(q, D.Run(D.START, run))
    requires D.IsRun(D.START, longer) && Holds(r, D.Run(D.START, longer))
    requires r.files == q.files || (q.files != map[] && Fifo(r.files) == Fifo(q.files)[1..])
    requires CrashSafe(history, |before|, Fifo(q.files), None, if r.files == q.files then 0 else 1)
    ensures CutsHeld(history, from, longer, first)
  {
    hide D.IsRun, D.Run, Holds, Fifo, Clean, Shown, Survivor;
    CutsLater(before, from, run, longer, first);
    ShownNow(run, first, q);
    ShownLater(run, longer, first, q.files);
    ShownNow(longer, first, r);
    forall i | |before| <= i < |history|
      ensures Shown(longer, first, history[i].files)
    {
      HeadCut(q, D.Run(D.START, run), r, D.Run(D.START, longer), history[i].files);
    }
    assert forall i :: 0 <= i < |before| ==> history[i] == before[i];
  }

  lemma HeadCut(q: Spool, s: D.State, r: Spool, t: D.State, files: Files)
    requires Holds(q, s) && Holds(r, t)
    requires r.files == q.files || (q.files != map[] && Fifo(r.files) == Fifo(q.files)[1..])
    requires SafeState(files, Fifo(q.files), None, if r.files == q.files then 0 else 1)
    ensures files == q.files || files == r.files
  {
    hide Holds, Fifo, Clean;
    var k: nat :| k <= (if r.files == q.files then 0 else 1) && SurvivorFrom(Fifo(q.files), Fifo(files), None, k);
    if k == 0 {
      assert Fifo(q.files)[0..] == Fifo(q.files);
      SameCard(q, s, files);
    } else {
      SameCard(r, t, files);
    }
  }

  /**
     States on the way of an operation that drops `n` records and then, perhaps, adds one: each is the
     card after some of those drops, or after all of them and the new record.
   */
  lemma OperationCuts(before: seq<Disk>, history: seq<Disk>, from: nat, run: seq<D.Step>, longer: seq<D.Step>,
                      first: nat, q: Spool, n: nat, added: Option<Added>, r: Spool)
    requires CutsHeld(before, from, run, first) && before <= history && first <= |run| && run + D.Drops(n) <= longer
    requires D.IsRun(D.START, run) && Holds(q, D.Run(D.START, run)) && q.ready && D.Run(D.START, run).pc == D.Idle
    requires Coherent(q) && n <= |q.files| && CrashSafe(history, |before|, Fifo(q.files), added, n)
    requires added.Some? ==> D.IsRun(D.START, longer) && Holds(r, D.Run(D.START, longer)) && added.value.evicted == n
                             && Fifo(r.files) == Fifo(q.files)[n..] + [added.value.file]
    ensures CutsHeld(history, from, longer, first)
  {
    hide D.IsRun, D.Run, Holds, Coherent, Fifo, Clean, Shown, Survivor, D.Drops;
    assert run <= run + D.Drops(n);
    CutsLater(before, from, run, longer, first);
    forall i | |before| <= i < |history|
      ensures Shown(longer, first, history[i].files)
    {
      assert SafeState(history[i].files, Fifo(q.files), added, n);
      OperationCut(run, longer, first, q, n, added, r, history[i].files);
    }
    assert forall i :: 0 <= i < |before| ==> history[i] == before[i];
  }

  lemma OperationCut(run: seq<D.Step>, longer: seq<D.Step>, first: nat, q: Spool, n: nat, added: Option<Added>,
                     r: Spool, files: Files)
    requires first <= |run| && run + D.Drops(n) <= longer
    requires D.IsRun(D.START, run) && Holds(q, D.Run(D.START, run)) && q.ready && D.Run(D.START, run).pc == D.Idle
    requires Coherent(q) && n <= |q.files| && SafeState(files, Fifo(q.files), added, n)
    requires added.Some? ==> D.IsRun(D.START, longer) && Holds(r, D.Run(D.START, longer)) && added.value.evicted == n
                             && Fifo(r.files) == Fifo(q.files)[n..] + [added.value.file]
    ensures Shown(longer, first, files)
  {
    hide D.IsRun, D.Run, Holds, Coherent, Fifo, Clean, Shown, D.Drops;
    var k: nat :| k <= n && SurvivorFrom(Fifo(q.files), Fifo(files), added, k);
    if Fifo(files) == Fifo(q.files)[k..] {
      assert SurvivorFrom(Fifo(q.files), Fifo(files), None, k);
      var j := DropCutIsARun(q, run, files, n);
      ShownAfterDrops(run, longer, first, q, n, j);
    } else {
      SameCard(r, D.Run(D.START, longer), files);
      ShownNow(longer, first, r);
    }
  }

  lemma ShownAfterDrops(run: seq<D.Step>, longer: seq<D.Step>, first: nat, q: Spool, n: nat, j: nat)
    requires first <= |run| && run + D.Drops(n) <= longer && j <= n <= |q.files| && Coherent(q) && DropsReach(q, j, run)
    ensures Shown(longer, first, DropFront(q, j).files)
  {
    hide D.IsRun, D.Run, Holds, Coherent, DropFront, Shown;
    ShownNow(run + D.Drops(j), first, DropFront(q, j));
    assert (run + D.Drops(n))[..|run| + j] == run + D.Drops(j);
    ShownLater(run + D.Drops(j), longer, first, DropFront(q, j).files);
  }

  /** States on the way of mounting, which on a card of intact records changes nothing. */
  lemma MountCuts(before: seq<Disk>, history: seq<Disk>, from: nat, run: seq<D.Step>, first: nat, q: Spool)
    requires CutsHeld(before, from, run, first) && before <= history && first <= |run|
    requires D.IsRun(D.START, run) && Holds(q, D.Run(D.START, run)) && AllBetween(history, |before|, q.files)
    ensures CutsHeld(history, from, run, first)
  {
    hide D.IsRun, D.Run, Holds, Coherent, Shown, Clean, Between;
    HoldsIsValid(q, D.Run(D.START, run));
    ShownNow(run, first, q);
    CoherentIsClean(q);
    forall i | |before| <= i < |history|
      ensures Shown(run, first, history[i].files)
    {
      assert Between(Intact(q.files), history[i].files, q.files);
      CleanBetween(q.files, history[i].files);
    }
    assert forall i :: 0 <= i < |before| ==> history[i] == before[i];
  }

  lemma CleanBetween(all: Files, files: Files)
    requires Clean(all) && Between(Intact(all), files, all)
    ensures files == all
  {
    assert Intact(all) == all;
  }
}
