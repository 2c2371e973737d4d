/**
 The main loop's part of delivery: storing a sample, taking an acknowledgement, sending the head,
 and maintenance. The event thread runs between any two of its actions. Every method here extends
 the protocol run, so whatever holds of all runs holds of this code.
 */
module AppController {
  import opened Clock
  import opened OfflineQueuePolicy
  import opened Spool
  import Q = OfflineTelemetryQueue
  import SecureMqttClient
  import opened PowerCuts
  import opened SampleOrigin
  import opened SpooledDelivery
  import D = Delivery

  const OFFLINE_QUEUE_REPLAY_INTERVAL_MS: nat := 250

  class Controller {
    const queue: Q.Queue
    const client: SecureMqttClient.Client
    const replayPayload: array<char>
    var lastReplayAttemptMs: nat
    /** The spool as the protocol sees it; while the queue is ready, its own state. */
    ghost var shadow: Spool
    /** The protocol run when the method now running was called, and the main loop's steps since then. */
    ghost var since: seq<D.Step>
    ghost var main: seq<D.Step>
    /**
       How many states the card had passed through by then, and how far the run had come when the last
       of them was recorded.
     */
    ghost var base: nat
    ghost var seen: seq<D.Step>

    ghost predicate Linked()
      reads this, queue, queue.card, client
    {
      && client.Linked() && Holds(shadow, client.model)
      && shadow.files == queue.card.files && shadow.ready == queue.ready && (queue.ready ==> shadow == queue.State())
      && if queue.bootId == 0 then !queue.ready else shadow.bootId == queue.bootId
    }

    /** The steps are those that were made. */
    ghost predicate Tracked()
      reads this, client
    {
      D.Did(since, client.run, main) && |since| <= |seen| && seen <= client.run
    }

    /**
       Every state of the card since then is the card of a prefix of the run, so the power may be cut
       in any of them.
     */
    ghost predicate Covered()
      reads this`since, this`base, this`seen, queue.card
    {
      CutsHeld(queue.card.history, base, seen, |since|)
    }

    /** The card is that of the run now, one disk step after states that were covered. */
    ghost method CoverNow(before: seq<Q.Disk>)
      requires Linked() && Tracked() && CutsHeld(before, base, seen, |since|)
      requires queue.card.history == before
               || queue.card.history == before + [Q.Disk(queue.card.files, queue.card.temp)]
      modifies this`seen
      ensures Linked() && Tracked() && Covered()
    {
      hide Holds, D.IsRun, D.Run, D.Did, CutsHeld;
      OneCut(before, queue.card.history, base, seen, client.run, |since|, shadow,
             Q.Disk(queue.card.files, queue.card.temp));
      seen := client.run;
    }

    /** The card is that of the run now, after an operation that dropped at most the head. */
    ghost method CoverHead(before: seq<Q.Disk>, run: seq<D.Step>, q: Spool)
      requires Linked() && Tracked() && CutsHeld(before, base, seen, |since|) && before <= queue.card.history
      requires seen <= run <= client.run && D.IsRun(D.START, run) && Holds(q, D.Run(D.START, run))
      requires queue.card.files == q.files || (q.files != map[] && Fifo(queue.card.files) == Fifo(q.files)[1..])
      requires Q.CrashSafe(queue.card.history, |before|, Fifo(q.files), None,
                                               if queue.card.files == q.files then 0 else 1)
      modifies this`seen
      ensures Linked() && Tracked() && Covered()
    {
      hide Holds, D.IsRun, D.Run, D.Did, CutsHeld, Fifo, Q.CrashSafe;
      CutsLater(before, base, seen, run, |since|);
      HeadCuts(before, queue.card.history, base, run, client.run, |since|, q, shadow);
      seen := client.run;
    }

    /** The card is that of the run now, after an operation that dropped `n` records and perhaps added one. */
    ghost method CoverOperation(before: seq<Q.Disk>, run: seq<D.Step>, q: Spool, n: nat,
                                added: Option<Q.Added>)
      requires Linked() && Tracked() && CutsHeld(before, base, seen, |since|) && before <= queue.card.history
      requires seen <= run && run + D.Drops(n) <= client.run
      requires D.IsRun(D.START, run) && Holds(q, D.Run(D.START, run)) && q.ready && D.Run(D.START, run).pc == D.Idle
      requires n <= |q.files| && Q.CrashSafe(queue.card.history, |before|, Fifo(q.files), added, n)
      requires added.Some? ==>
                 added.value.evicted == n && Fifo(queue.card.files) == Fifo(q.files)[n..] + [added.value.file]
      modifies this`seen
      ensures Linked() && Tracked() && Covered()
    {
      hide Holds, D.IsRun, D.Run, D.Did, CutsHeld, Fifo, D.Drops, Coherent, Q.CrashSafe;
      HoldsIsValid(q, D.Run(D.START, run));
      CutsLater(before, base, seen, run, |since|);
      OperationCuts(before, queue.card.history, base, run, client.run, |since|, q, n, added, shadow);
      seen := client.run;
    }

    /** The card is that of the run now, after an operation that mounts. */
    ghost method CoverMount(before: seq<Q.Disk>, run: seq<D.Step>, q: Spool)
      requires Linked() && Tracked() && CutsHeld(before, base, seen, |since|) && before <= queue.card.history
      requires seen <= run <= client.run && D.IsRun(D.START, run) && Holds(q, D.Run(D.START, run))
      requires Q.AllBetween(queue.card.history, |before|, q.files)
      modifies this`seen
      ensures Linked() && Tracked() && Covered()
    {
      hide Holds, D.IsRun, D.Run, D.Did, CutsHeld, Q.AllBetween;
      CutsLater(before, base, seen, run, |since|);
      MountCuts(before, queue.card.history, base, run, |since|, q);
      seen := run;
    }

    /** So is every state of the card since the method began, whatever the event thread added to the run. */
    lemma AllCovered()
      requires Tracked() && Covered()
      ensures CutsHeld(queue.card.history, base, client.run, |since|)
    {
      hide CutsHeld;
      CutsLater(queue.card.history, base, seen, client.run, |since|);
    }

    /**
     The next boot after a power cut between two steps of the protocol: a new client, and a queue
     mounted from the card as it was exactly when it is begun (the identity is valid and the storage is
     ready by then) and the card can be mounted. Nothing on the card changes.
     */
    constructor AfterPowerCut(card: Q.Card, ghost q: Spool, ghost s: D.State, ghost steps: seq<D.Step>,
                              nowMs: nat, bootId: nat, begun: bool, cardPresent: bool, directoryReady: bool,
                              takes: nat -> bool)
      requires D.IsRun(D.START, steps) && D.Run(D.START, steps) == s
      requires Holds(q, s) && q.files == card.files && bootId > s.boot
      modifies card
      ensures Linked() && client.model.pc == D.Idle && queue.card == card && fresh(queue) && fresh(client)
      ensures fresh(replayPayload) && replayPayload.Length == PAYLOAD_BUFFER
      ensures NextBoot(s, client.model, bootId, queue.ready) && card.files == old(card.files)
      ensures client.run == steps + [D.PowerCut(bootId)] + if queue.ready then [D.Mount] else []
      ensures HonestRun(steps) ==> HonestRun(client.run)
      ensures CutsHeld(card.history, |old(card.history)|, steps, |steps|)
      ensures queue.bootId == (if begun then bootId else 0) && (begun ==> queue.lastBeginAttemptMs == nowMs)
      ensures queue.ready <==> begun && Q.Mountable(bootId, cardPresent, directoryReady, card.files)
    {
      hide Holds, D.IsRun, D.Run, Coherent, Q.Scanned, Q.Between, Intact,
           Q.Mountable, Q.AllBetween, CutsHeld, HonestRun;
      HoldsIsValid(q, s);
      IdsInRange(q);
      var spool := new Q.Queue(card);
      var ok := false;
      if begun {
        ok := spool.Begin(nowMs, bootId, cardPresent, directoryReady);
      }
      EverythingBetween(q.files);
      Q.AllStayed(old(card.history), old(card.history), q.files);
      NoCutYet(old(card.history), steps, |steps|);
      MountCuts(old(card.history), card.history, |old(card.history)|, steps, |steps|, q);
      var mqtt := new SecureMqttClient.Client.AfterPowerCut(bootId, takes, s, steps);
      CleanStays(q, card.files);
      ghost var known := q.(ready := false, bootId := bootId);
      HoldsInNextBoot(q, s, known, mqtt.model);
      queue, client, replayPayload := spool, mqtt, new char[PAYLOAD_BUFFER];
      lastReplayAttemptMs := 0;
      shadow, since, main, base, seen := known, [], [], 0, [];
      new;
      NextBootMounts(known);
      HonestAfterBoot(steps, bootId, client.run);
    }

    /** A queue that was mounted at boot is a step of the run. */
    ghost method NextBootMounts(known: Spool)
      requires client.Linked() && Holds(known, client.model) && client.model.pc == D.Idle && shadow == known
      requires !known.ready && queue.card.files == known.files
      requires if queue.bootId == 0 then !queue.ready else queue.bootId == known.bootId
      requires queue.ready ==> Q.Scanned(Intact(known.files), queue.queued, queue.bytes, queue.oldest, queue.next)
      modifies this`shadow, client`model, client`run
      ensures Linked() && client.model == old(client.model).(ready := queue.ready)
      ensures client.run == old(client.run) + if queue.ready then [D.Mount] else []
    {
      hide Holds, D.IsRun, D.Run, Coherent, Intact, Q.Scanned;
      HoldsIsValid(known, client.model);
      if queue.ready {
        shadow := queue.State();
        MountHolds(known, shadow, client.model);
        client.Take(D.Mount);
      }
    }

    // ---------- steps ----------

    /** A step of the main loop. */
    ghost method Step(step: D.Step)
      requires client.InRun() && Tracked() && D.Enabled(client.model, step) && !D.IsEvent(step)
      modifies this`main, client`model, client`run
      ensures client.InRun() && Tracked() && main == old(main) + [step]
      ensures D.Stepped(old(client.model), step, client.model) && client.run == old(client.run) + [step]
    {
      hide D.IsRun, D.Run, D.Did, D.Next, D.Enabled;
      ghost var before := client.run;
      client.Take(step);
      D.DidOne(before, client.run, step);
      D.DidBoth(since, before, client.run, main, [step]);
      main := main + [step];
    }

    /** A new method begins. */
    ghost method Track()
      modifies this`since, this`main, this`base, this`seen
      ensures Tracked() && Covered() && since == client.run && main == [] && base == |queue.card.history|
    {
      since, main, base, seen := client.run, [], |queue.card.history|, client.run;
      D.DidNothing(since);
      NoCutYet(queue.card.history, since, |since|);
    }

    /** The main loop moves without touching the queue. */
    ghost method Move(step: D.Step)
      requires Linked() && Tracked() && D.Enabled(client.model, step)
      requires step.Skip? || step.Check? || step.Offer? || step == D.Mark(false)
      modifies this`main, client`model, client`run
      ensures Linked() && Tracked() && D.Stepped(old(client.model), step, client.model) && main == old(main) + [step]
      ensures old(client.run) <= client.run
    {
      hide Holds, D.IsRun, D.Run, D.Did;
      Step(step);
      HoldsByQueue(shadow, old(client.model), client.model);
    }

    /** The event thread runs; the queue is not its business. */
    method Interrupted(nowMs: nat)
      requires Linked() && Tracked()
      modifies client
      ensures Linked() && Tracked() && SecureMqttClient.OnlyEvents(old(client.model), client.model)
      ensures old(client.run) <= client.run && client.offered == old(client.offered)
    {
      hide Holds, D.Did;
      client.EventThread(nowMs);
      D.DidBoth(since, old(client.run), client.run, main, []);
      assert main + [] == main;
      HoldsByQueue(shadow, old(client.model), client.model);
    }

    // ---------- one pass of the main loop ----------

    /** Takes the acknowledgement slot. */
    method TakeAck() returns (available: bool, token: nat)
      requires Linked() && Tracked() && client.model.pc == D.Idle
      modifies this`main, client`ackReady, client`model, client`run
      ensures Linked() && Tracked() && main == old(main) + [D.TakeAck] && old(client.run) <= client.run
      ensures D.Stepped(old(client.model), D.TakeAck, client.model)
      ensures available == client.model.pc.Taken? && (available ==> token == client.model.pc.ticket.token)
    {
      hide Holds, D.IsRun, D.Run, D.Did;
      var acknowledgedAtMs;
      available, token, acknowledgedAtMs := client.TakeTelemetryAck();
      D.DidOne(old(client.run), client.run, D.TakeAck);
      D.DidBoth(since, old(client.run), client.run, main, [D.TakeAck]);
      main := main + [D.TakeAck];
      HoldsByQueue(shadow, old(client.model), client.model);
    }

    /** Removes the record an acknowledgement names, if it is the head; without a match nothing changes. */
    method HandleAck(token: nat) returns (ghost removed: bool)
      requires Linked() && Tracked() && Covered() && client.model.pc.Taken? && token == client.model.pc.ticket.token
      modifies this`shadow, this`main, this`seen, queue, queue.card, client`model, client`run
      ensures Linked() && Tracked() && Covered() && main == old(main) + [D.HandleAck(removed)]
      ensures old(client.run) <= client.run
      ensures D.Stepped(old(client.model), D.HandleAck(removed), client.model)
      ensures removed ==> D.Matches(old(client.model), old(client.model).pc.ticket)
                          && queue.card.files == old(queue.card.files) - {old(queue.oldest)}
      ensures queue.State() == Left(old(queue.State()), removed)
      ensures old(queue.card.faults) <= queue.card.faults
      ensures queue.card.faults == old(queue.card.faults) ==>
                (removed <==> D.Matches(old(client.model), old(client.model).pc.ticket))
      ensures client.model.lost == old(client.model).lost || (removed && D.StaleMatch(old(client.model)))
    {
      hide Holds, CutsHeld, D.IsRun, D.Run, D.Did, Coherent, Q.Acknowledged, D.Next, D.Matches, D.StaleMatch;
      var ok := false;
      ghost var q, s := shadow, client.model;
      HoldsIsValid(q, s);
      HeadIdOf(q, s);
      LossNeedsStaleness(client.run, s);
      if IsReplayToken(token) {
        ok := queue.Acknowledge(RecordIdFromToken(token));
        AcknowledgeRefines(q, s);
      } else {
        LiveTokenMatchesNothing(s);
      }
      removed := ok;
      RecordAck(q, ok);
      CoverNow(old(queue.card.history));
    }

    /** Records in the run what an acknowledgement did. */
    ghost method RecordAck(q: Spool, ok: bool)
      requires client.Linked() && Tracked() && Holds(q, client.model) && client.model.pc.Taken?
      requires if queue.bootId == 0 then !queue.ready else q.bootId == queue.bootId
      requires ok ==> q.ready && q.files != map[] && queue.State() == Q.Acknowledged(q)
                      && Holds(queue.State(), D.Next(client.model, D.HandleAck(true)))
      requires !ok ==> q == shadow && queue.ready == q.ready && queue.card.files == q.files
                       && (queue.ready ==> queue.State() == q)
      modifies this`shadow, this`main, client`model, client`run
      ensures Linked() && Tracked() && main == old(main) + [D.HandleAck(ok)] && old(client.run) <= client.run
      ensures D.Stepped(old(client.model), D.HandleAck(ok), client.model)
      ensures ok ==> queue.card.files == q.files - {q.oldest}
    {
      hide Holds, CutsHeld, D.IsRun, D.Run, D.Did, Coherent, Q.Acknowledged, D.Next, D.Matches;
      ghost var s := client.model;
      HoldsIsValid(q, s);
      AckKeepsClient(s, ok);
      Step(D.HandleAck(ok));
      if ok {
        AcknowledgedFiles(q);
        shadow := queue.State();
        HoldsIsValid(shadow, client.model);
      } else {
        HoldsByQueue(q, s, client.model);
      }
    }

    /**
     Reads the head into the buffer as it will be sent. A head that cannot be read or sent is dropped,
     and counted, if the card lets it; nothing else leaves.
     */
    method OfferHead() returns (ok: bool, written: nat, recordId: nat, marked: bool, ghost dropped: bool)
      requires Linked() && Tracked() && Covered() && client.model.pc == D.Clear && queue.ready
      requires client.model.fifo != []
      modifies this`shadow, this`main, this`seen, queue, queue.card, replayPayload, client`model, client`run
      ensures Linked() && Tracked() && Covered() && queue.ready
      ensures old(client.run) <= client.run
      ensures main == old(main) + if ok then [D.Offer] else if dropped then [D.Skip, D.Drop] else [D.Skip]
      ensures ok ==> Offered(old(client.model), client.model, recordId, marked) && 0 < written <= replayPayload.Length
                     && Outgoing(client.model.pc.entry.payload, marked) == Some(replayPayload[..written])
      ensures !ok ==> NotOffered(old(client.model), client.model, dropped)
      ensures old(queue.card.faults) <= queue.card.faults
      ensures queue.card.faults == old(queue.card.faults) && replayPayload.Length == PAYLOAD_BUFFER ==>
                (ok || dropped) && (ok <==> Q.CanOffer(old(queue.State()), PAYLOAD_BUFFER))
      ensures queue.card.files
           == if !ok && dropped then old(queue.card.files) - {old(queue.oldest)} else old(queue.card.files)
    {
      hide Holds, CutsHeld, D.IsRun, D.Run, D.Did, Coherent, RemoveOldest, MarkReplayed, Q.CrashSafe, Fifo,
           Q.CanOffer;
      ghost var q, s := shadow, client.model;
      HoldsIsValid(q, s);
      HeadIdOf(q, s);
      OfferedCanOffer(q, replayPayload.Length);
      ghost var unread;
      ok, written, recordId, marked, unread := queue.Peek(replayPayload);
      dropped := queue.State() != q;
      if ok {
        OfferRefines(q, s, replayPayload.Length, recordId, marked);
        OutgoingIsText(q, recordId, replayPayload.Length);
        Move(D.Offer);
      } else {
        HeadlessDrop(q, s);
      }
      if dropped {
        RemoveOldestIsDequeue(q, true);
      }
      CoverHead(old(queue.card.history), old(client.run), q);
    }

    /** After a failed offer: either nothing happened or the head was dropped. */
    ghost method HeadlessDrop(q: Spool, s: D.State)
      requires client.Linked() && Tracked() && client.model == s && s.pc == D.Clear && s.fifo != []
      requires if queue.bootId == 0 then !queue.ready else q.bootId == queue.bootId
      requires Holds(q, s) && q.ready
      requires queue.State() == q || (q.files != map[] && queue.State() == RemoveOldest(q, true))
      modifies this`shadow, this`main, client`model, client`run
      ensures Linked() && Tracked() && main == old(main) + if queue.State() == q then [D.Skip] else [D.Skip, D.Drop]
      ensures old(client.run) <= client.run
      ensures NotOffered(s, client.model, queue.State() != q)
      ensures queue.State() != q ==> queue.card.files == q.files - {q.oldest}
    {
      hide D.IsRun, D.Run, D.Did, Coherent, RemoveOldest, Holds;
      HoldsIsValid(q, s);
      shadow := queue.State();
      Step(D.Skip);
      HoldsByQueue(q, s, client.model);
      if queue.State() != q {
        DropHeld(q);
        assert old(main) + [D.Skip] + [D.Drop] == old(main) + [D.Skip, D.Drop];
      }
    }

    ghost method DropHeld(q: Spool)
      requires client.InRun() && Tracked() && client.model.pc == D.Idle && client.model.fifo != []
      requires Holds(q, client.model) && q.ready && q.files != map[]
      modifies this`main, client`model, client`run
      ensures client.InRun() && Tracked() && main == old(main) + [D.Drop] && client.run == old(client.run) + [D.Drop]
      ensures D.Stepped(old(client.model), D.Drop, client.model)
      ensures Holds(RemoveOldest(q, true), client.model) && RemoveOldest(q, true).files == q.files - {q.oldest}
    {
      hide D.IsRun, D.Run, D.Did, Coherent, RemoveOldest, Holds;
      HoldsIsValid(q, client.model);
      RemovalRefines(q, client.model, true);
      RemovedFiles(q, true);
      Step(D.Drop);
      HoldsByQueue(RemoveOldest(q, true), D.WithoutHead(old(client.model)), client.model);
    }

    /** Stamps the head on the card before it is sent. */
    method MarkHead(recordId: nat, marked: bool) returns (ok: bool)
      requires Linked() && Tracked() && Covered() && queue.ready && client.model.pc.Offering?
      requires client.model.pc.entry.id == recordId && client.model.fifo != [] && client.model.fifo[0].id == recordId
      modifies this`shadow, this`main, this`seen, queue.card, client`model, client`run
      ensures Linked() && Tracked() && Covered() && queue.ready && main == old(main) + [D.Mark(ok)]
      ensures old(client.run) <= client.run
      ensures old(queue.card.faults) <= queue.card.faults && (queue.card.faults == old(queue.card.faults) ==> ok)
      ensures D.Stepped(old(client.model), D.Mark(ok), client.model)
      ensures CardKept(old(queue.card.files), queue.card.files) && queue.card.files.Keys == old(queue.card.files).Keys
    {
      hide Holds, CutsHeld, D.IsRun, D.Run, D.Did, Coherent, Stamp, CardKept;
      ghost var q, s := shadow, client.model;
      HoldsIsValid(q, s);
      HeadIdOf(q, s);
      ok := queue.MarkAttempted(recordId, marked);
      CardSame(q.files);
      if ok {
        HeadOf(q, s);
        MarkRefines(q, s, marked);
        CardStamped(q, recordId, marked);
        Step(D.Mark(true));
        shadow := queue.State();
      } else {
        Move(D.Mark(false));
      }
      CoverNow(old(queue.card.history));
    }

    /** Sends the stamped head. */
    method Publish(length: nat, recordId: nat, nowMs: nat)
      requires Linked() && Tracked() && client.model.pc.Marked? && client.model.pc.entry.id == recordId
      requires 0 < length <= replayPayload.Length
      requires Outgoing(client.model.pc.entry.payload, client.model.pc.replayed) == Some(replayPayload[..length])
      modifies this`main, client
      ensures Linked() && Tracked() && client.model.pc == D.Idle && old(client.run) <= client.run
      ensures SecureMqttClient.QueueKept(old(client.model), client.model)
      ensures old(main) <= main && IsPublish(main[|old(main)|..])
      ensures Answered(main, old(client.offered), client.offered, client.takes, |old(client.run)|, client.run)
    {
      hide Holds, CutsHeld, D.IsRun, D.Run, D.Did, Outgoing, Answered;
      var ok := client.PublishTelemetry(replayPayload[..length], ReplayToken(recordId), nowMs);
      ghost var made := if ok then [D.Publish(true, client.pendingMid), D.SetPending] else [D.Publish(false, 0)];
      D.DidBoth(since, old(client.run), client.run, main, made);
      main := main + made;
      assert main[|old(main)|..] == made;
      HoldsByQueue(shadow, old(client.model), client.model);
      AnswerIs(main, ok, old(client.offered), client.offered, client.takes, old(client.run), old(client.model),
               client.run);
    }

    /** Stamps the offered head and sends it, with the event thread running in between. */
    method MarkAndPublish(length: nat, recordId: nat, marked: bool, nowMs: nat)
      requires Linked() && Tracked() && Covered() && queue.ready && client.model.pc.Offering? && client.model.fifo != []
      requires client.model.pc.entry.id == recordId && client.model.fifo[0].id == recordId
      requires 0 < length <= replayPayload.Length && client.model.pc.replayed == marked
      requires Outgoing(client.model.pc.entry.payload, marked) == Some(replayPayload[..length])
      modifies this`shadow, this`main, this`seen, queue.card, client
      ensures Linked() && Tracked() && Covered() && client.model.pc == D.Idle && queue.ready
      ensures old(client.run) <= client.run
      ensures SameAccount(old(client.model), client.model)
      ensures old(main) <= main && IsMarking(main[|old(main)|..])
      ensures Answered(main, old(client.offered), client.offered, client.takes, |old(client.run)|, client.run)
      ensures old(queue.card.faults) <= queue.card.faults
      ensures queue.card.faults == old(queue.card.faults) ==> main[|old(main)|..][0] == D.Mark(true)
      ensures CardKept(old(queue.card.files), queue.card.files)
    {
      hide Holds, CutsHeld, D.IsRun, D.Run, D.Did, Coherent, Outgoing, CardKept, MarkReplayed, SameAccount, D.Next,
           D.Enabled, Answered;
      ghost var first := client.model;
      Interrupted(nowMs);
      EventsKeepAccount(first, client.model);
      ghost var second := client.model;
      var stamped := MarkHead(recordId, marked);
      MarkKeepsAccount(second, client.model, stamped);
      SameAccountJoin(first, second, client.model);
      if stamped {
        ghost var third := client.model;
        Interrupted(nowMs);
        EventsKeepAccount(third, client.model);
        SameAccountJoin(first, third, client.model);
        ghost var before, fourth := main, client.model;
        ghost var here := client.run;
        Publish(length, recordId, nowMs);
        AnswerEarlier(main, old(client.offered), client.offered, client.takes, |old(client.run)|, |here|,
                      client.run);
        QueueKeepsAccount(fourth, client.model);
        SameAccountJoin(first, fourth, client.model);
        assert main == old(main) + [D.Mark(true)] + main[|before|..];
        assert main[|old(main)|..] == [D.Mark(true)] + main[|before|..];
      } else {
        assert main[|old(main)|..] == [D.Mark(false)];
        NotAsked(main, client.offered, client.takes, |old(client.run)|, client.run);
      }
    }

    /** Sends the head: looked at, stamped, published. At most that head is dropped. */
    method ReplayHead(nowMs: nat)
      requires Linked() && Tracked() && Covered() && client.model.pc == D.Clear && queue.ready
      requires client.model.fifo != []
      modifies this`shadow, this`main, this`seen, queue, queue.card, replayPayload, client
      ensures Linked() && Tracked() && Covered() && client.model.pc == D.Idle && queue.ready
      ensures old(client.run) <= client.run
      ensures old(main) <= main && IsReplay(main[|old(main)|..])
      ensures Answered(main, old(client.offered), client.offered, client.takes, |old(client.run)|, client.run)
      ensures Replayed(old(client.model), client.model, main[|old(main)|..])
      ensures CardKept(old(queue.card.files), queue.card.files)
      ensures old(queue.card.faults) <= queue.card.faults
      ensures queue.card.faults == old(queue.card.faults) && replayPayload.Length == PAYLOAD_BUFFER ==>
                Handed(main[|old(main)|..], Q.CanOffer(old(queue.State()), PAYLOAD_BUFFER))
    {
      hide Holds, CutsHeld, D.IsRun, D.Run, D.Did, Coherent, Outgoing, CardKept, MarkReplayed, Replayed, D.Next,
           D.Enabled, SameAccount, Q.CanOffer, Answered;
      CardSame(queue.card.files);
      CardLess(queue.card.files, queue.oldest);
      var ok, length, recordId, marked;
      ghost var dropped;
      ok, length, recordId, marked, dropped := OfferHead();
      ghost var before := main;
      if ok {
        OfferedIs(old(client.model), client.model, recordId, marked);
        ghost var here := client.run;
        MarkAndPublish(length, recordId, marked, nowMs);
        AnswerEarlier(main, old(client.offered), client.offered, client.takes, |old(client.run)|, |here|,
                      client.run);
        assert main[|old(main)|..] == [D.Offer] + main[|before|..];
        ReplayedSending(old(client.model), client.model, main[|old(main)|..]);
      } else {
        assert main[|old(main)|..] == if dropped then [D.Skip, D.Drop] else [D.Skip];
        ReplayedNothing(old(client.model), client.model, dropped);
        NotAsked(main, client.offered, client.takes, |old(client.run)|, client.run);
      }
    }

    /**
     One pass of the main loop over the delivery of telemetry, with the event thread running in
     between. The run goes on by exactly one pass of the protocol: the slot is taken; an
     acknowledgement found in it removes the head exactly when it names it, unless the card refuses;
     and exactly when the client was connected with nothing pending, the interval is over and a record
     is left, the head is offered, stamped and published, or dropped if it cannot be sent. A record is
     lost only to an acknowledgement from before the queue last emptied. Every state that the card
     passes through is the card of a prefix of the run.
     */
    method ProcessSecureMqtt(nowMs: nat) returns (ghost view: View)
      requires Linked() && client.model.pc == D.Idle
      modifies this, queue, queue.card, replayPayload, client
      ensures Linked() && client.model.pc == D.Idle
      ensures Tracked() && since == old(client.run) && IsPass(main)
      ensures CutsHeld(queue.card.history, |old(queue.card.history)|, client.run, |old(client.run)|)
      ensures |main| >= 2 && (main[1].HandleAck? <==> old(client.model).ack.Some?)
      ensures queue.card.faults == old(queue.card.faults) && main[1].HandleAck? ==>
                (main[1].removed <==> D.Matches(old(client.model), old(client.model).ack.value))
      ensures ViewHolds(view, |old(client.run)|, client.run)
      ensures SendPart(main) != [D.Skip] <==>
                Due(view, nowMs, old(lastReplayAttemptMs), Left(old(queue.State()), main[1] == D.HandleAck(true)))
      ensures queue.card.faults == old(queue.card.faults) && replayPayload.Length == PAYLOAD_BUFFER
              && SendPart(main) != [D.Skip] ==>
                Sent(SendPart(main), Q.CanOffer(Left(old(queue.State()), main[1] == D.HandleAck(true)),
                                                                    PAYLOAD_BUFFER))
      ensures Answered(main, old(client.offered), client.offered, client.takes, |old(client.run)|, client.run)
      ensures lastReplayAttemptMs == if SendPart(main) == [D.Skip] then old(lastReplayAttemptMs) else nowMs
      ensures D.Grown(old(client.model), client.model, main) && client.model.accepted == old(client.model).accepted
      ensures client.model.lost != old(client.model).lost ==>
                old(client.model).ack.Some? && old(client.model).ack.value.epoch < old(client.model).epoch
      ensures CardKept(old(queue.card.files), queue.card.files)
      ensures forall n: nat :: n < |client.model.accepted| ==> AccountedFor(client.model, n)
      ensures D.Careful(client.run) ==> client.model.lost == {}
      ensures HonestRun(old(client.run)) ==> HonestRun(client.run)
    {
      hide Holds, CutsHeld, D.IsRun, D.Run, D.Did, Coherent, D.Grown, AccountedFor, CardKept, D.Careful, D.Next,
           D.Enabled, IsSend, Sent, Due, ViewHolds, D.Matches, Q.CanOffer, Q.Acknowledged, HonestRun, Answered;
      Track();
      var available := AcknowledgePart(nowMs);
      ghost var files, before := queue.card.files, main;
      ghost var middle := client.run;
      view := SendWhenClear(nowMs);
      CardJoin(old(queue.card.files), files, queue.card.files);
      AnswerEarlier(main, old(client.offered), client.offered, client.takes, |since|, |middle|, client.run);
      ViewEarlier(view, |since|, |middle|, client.run);
      PassIs(before, main, available);
      D.RunGrows(since, client.run, main);
      AllAccountedFor(client.run, client.model);
      AllCovered();
      PassStoresNothing(main);
      StaysHonest();
    }

    lemma StaysHonest()
      requires Tracked() && forall i :: 0 <= i < |main| ==> !main[i].Append?
      ensures HonestRun(since) ==> HonestRun(client.run)
    {
      hide HonestRun;
      if HonestRun(since) {
        HonestStays(since, client.run, main);
      }
    }

    /** The first half of a pass: the acknowledgement. */
    method AcknowledgePart(nowMs: nat) returns (available: bool)
      requires Linked() && Tracked() && Covered() && client.model.pc == D.Idle && main == []
      modifies this`shadow, this`main, this`seen, queue, queue.card, client
      ensures Linked() && Tracked() && Covered() && client.model.pc == D.Checking && old(client.run) <= client.run
      ensures available == old(client.model).ack.Some? && client.offered == old(client.offered)
      ensures if available then |main| == 2 && main[0] == D.TakeAck && main[1].HandleAck? else main == [D.TakeAck]
      ensures queue.State() == Left(old(queue.State()), available && main[1].removed)
      ensures old(queue.card.faults) <= queue.card.faults
      ensures available && queue.card.faults == old(queue.card.faults) ==>
                (main[1].removed <==> D.Matches(old(client.model), old(client.model).ack.value))
      ensures client.model.accepted == old(client.model).accepted
      ensures client.model.lost != old(client.model).lost ==>
                old(client.model).ack.Some? && old(client.model).ack.value.epoch < old(client.model).epoch
      ensures CardKept(old(queue.card.files), queue.card.files)
    {
      hide Holds, CutsHeld, D.IsRun, D.Run, D.Did, Coherent, CardKept, Outgoing, MarkReplayed, Q.Acknowledged;
      CardSame(queue.card.files);
      var token;
      available, token := TakeAck();
      Interrupted(nowMs);
      if available {
        CardLess(queue.card.files, queue.oldest);
        ghost var removed := HandleAck(token);
        Interrupted(nowMs);
      }
    }

    /** The second half of a pass: the head, if it may be sent. */
    method SendWhenClear(nowMs: nat) returns (ghost view: View)
      requires Linked() && Tracked() && Covered() && client.model.pc == D.Checking
      modifies this`shadow, this`main, this`seen, this`lastReplayAttemptMs, queue, queue.card, replayPayload, client
      ensures Linked() && Tracked() && Covered() && client.model.pc == D.Idle
      ensures old(main) <= main && IsSend(main[|old(main)|..])
      ensures Answered(main, old(client.offered), client.offered, client.takes, |old(client.run)|, client.run)
      ensures ViewHolds(view, |old(client.run)|, client.run)
      ensures main[|old(main)|..] != [D.Skip] <==> Due(view, nowMs, old(lastReplayAttemptMs), old(queue.State()))
      ensures old(queue.card.faults) <= queue.card.faults
      ensures queue.card.faults == old(queue.card.faults) && replayPayload.Length == PAYLOAD_BUFFER
              && main[|old(main)|..] != [D.Skip] ==>
                Sent(main[|old(main)|..], Q.CanOffer(old(queue.State()), PAYLOAD_BUFFER))
      ensures lastReplayAttemptMs == if main[|old(main)|..] == [D.Skip] then old(lastReplayAttemptMs) else nowMs
      ensures client.model.accepted == old(client.model).accepted && client.model.lost == old(client.model).lost
      ensures CardKept(old(queue.card.files), queue.card.files)
    {
      hide Holds, CutsHeld, D.IsRun, D.Run, D.Did, Coherent, CardKept, Outgoing, MarkReplayed, IsReplay, D.Stepped,
           Sent, ViewHolds, Q.CanOffer, Answered;
      CardSame(queue.card.files);
      var connected := client.connected;
      Interrupted(nowMs);
      var pending := client.HasPendingTelemetry();
      ghost var before := client.run;
      HoldsIsValid(shadow, client.model);
      QueuedIsThere(shadow);
      if connected && !pending && Elapsed(nowMs, lastReplayAttemptMs) >= OFFLINE_QUEUE_REPLAY_INTERVAL_MS
         && queue.ready && queue.queued > 0 {
        lastReplayAttemptMs := nowMs;
        SendHead(nowMs);
        AnswerEarlier(main, old(client.offered), client.offered, client.takes, |old(client.run)|, |before|,
                      client.run);
      } else {
        SkipSending();
        NotAsked(main, client.offered, client.takes, |old(client.run)|, client.run);
      }
      view := View(connected, |old(client.run)|, pending, |before|);
      ViewTaken(view, old(client.run), before, client.run);
    }

    ghost method SkipSending()
      requires Linked() && Tracked() && client.model.pc == D.Checking
      modifies this`main, client`model, client`run
      ensures Linked() && Tracked() && client.model == old(client.model).(pc := D.Idle) && old(client.run) <= client.run
      ensures old(main) <= main && main[|old(main)|..] == [D.Skip]
    {
      hide Holds, D.IsRun, D.Run, D.Did;
      Move(D.Skip);
      assert main[|old(main)|..] == [D.Skip];
    }

    method SendHead(nowMs: nat)
      requires Linked() && Tracked() && Covered() && client.model.pc == D.Checking && client.model.pending == None
      requires queue.ready && queue.queued > 0
      modifies this`shadow, this`main, this`seen, queue, queue.card, replayPayload, client
      ensures Linked() && Tracked() && Covered() && client.model.pc == D.Idle && old(client.run) <= client.run
      ensures old(main) <= main && IsSend(main[|old(main)|..]) && main[|old(main)|..] != [D.Skip]
      ensures Answered(main, old(client.offered), client.offered, client.takes, |old(client.run)|, client.run)
      ensures client.model.accepted == old(client.model).accepted && client.model.lost == old(client.model).lost
      ensures CardKept(old(queue.card.files), queue.card.files)
      ensures old(queue.card.faults) <= queue.card.faults
      ensures queue.card.faults == old(queue.card.faults) && replayPayload.Length == PAYLOAD_BUFFER ==>
                Sent(main[|old(main)|..], Q.CanOffer(old(queue.State()), PAYLOAD_BUFFER))
    {
      hide Holds, CutsHeld, D.IsRun, D.Run, D.Did, Coherent, CardKept, Outgoing, MarkReplayed, IsReplay, Handed,
           Q.CanOffer, Answered;
      HoldsIsValid(shadow, client.model);
      QueuedIsThere(shadow);
      Move(D.Check);
      ghost var before := main;
      Interrupted(nowMs);
      ghost var here := client.run;
      ReplayHead(nowMs);
      AnswerEarlier(main, old(client.offered), client.offered, client.takes, |old(client.run)|, |here|,
                    client.run);
      SendIs(old(main), before, main);
    }

    // ---------- the connection ----------

    /** Gives up on an overdue publish, so that its record is sent again, and reconnects when that is due. */
    method UpdateMqtt(nowMs: nat, networkReady: bool) returns (attempted: bool)
      requires Linked() && client.model.pc == D.Idle
      modifies client
      ensures Linked() && queue.State() == old(queue.State())
      ensures if SecureMqttClient.Overdue(old(client.pendingMid), old(client.pendingStartedMs), nowMs)
              then client.model == old(client.model).(pending := None) && client.run == old(client.run) + [D.Expire]
              else client.model == old(client.model) && client.run == old(client.run)
      ensures HonestRun(old(client.run)) ==> HonestRun(client.run)
    {
      hide Holds, D.IsRun, D.Run, HonestRun;
      attempted := client.Update(nowMs, networkReady);
      HoldsByQueue(shadow, old(client.model), client.model);
      if HonestRun(old(client.run)) {
        if client.run == old(client.run) {
          D.DidNothing(client.run);
          HonestStays(old(client.run), client.run, []);
        } else {
          D.DidOne(old(client.run), client.run, D.Expire);
          HonestStays(old(client.run), client.run, [D.Expire]);
        }
      }
    }

    // ---------- storing and maintenance ----------

    /** Records `n` drops from the front of the queue in the run. */
    ghost method TakeDrops(q: Spool, n: nat)
      requires client.Linked() && Tracked() && Holds(q, client.model) && q.ready && client.model.pc == D.Idle
      requires n <= |q.files|
      modifies this`main, client`model, client`run
      ensures client.Linked() && Tracked() && Holds(DropFront(q, n), client.model) && DropFront(q, n).ready
      ensures main == old(main) + D.Drops(n) && D.DroppedFirst(old(client.model), client.model, n)
      ensures client.run == old(client.run) + D.Drops(n)
    {
      hide Holds, CutsHeld, D.IsRun, D.Run, D.Did, Coherent, DropFront, D.DroppedFirst, D.Drops;
      HoldsIsValid(q, client.model);
      Q.NothingDropped(q, 0);
      D.DroppedNone(client.model);
      NoDrops();
      for j := 0 to n
        invariant client.Linked() && Tracked() && Holds(DropFront(q, j), client.model) && client.model.pc == D.Idle
        invariant main == old(main) + D.Drops(j) && D.DroppedFirst(old(client.model), client.model, j)
        invariant client.run == old(client.run) + D.Drops(j)
      {
        TakeDrop(q, j, old(client.model));
        OneMoreDrop(old(main), j);
        OneMoreDrop(old(client.run), j);
      }
    }

    ghost method TakeDrop(q: Spool, j: nat, first: D.State)
      requires client.Linked() && Tracked() && Coherent(q) && j < |q.files| && q.ready
      requires Holds(DropFront(q, j), client.model) && client.model.pc == D.Idle
      requires D.DroppedFirst(first, client.model, j)
      modifies this`main, client`model, client`run
      ensures client.Linked() && Tracked() && Holds(DropFront(q, j + 1), client.model) && client.model.pc == D.Idle
      ensures main == old(main) + [D.Drop] && client.run == old(client.run) + [D.Drop]
      ensures D.DroppedFirst(first, client.model, j + 1)
    {
      hide Holds, CutsHeld, D.IsRun, D.Run, D.Did, DropFront, Coherent, D.DroppedFirst, RemoveOldest, D.Next;
      ghost var s := client.model;
      Q.DropFrontNext(q, j);
      HoldsIsValid(DropFront(q, j), s);
      D.DroppedNext(first, s, j);
      DropKeepsClient(s);
      DropHeld(DropFront(q, j));
    }

    /**
     Keeps a sample until its PUBACK. A stored sample is the newest accepted one and the last of the
     queue; a refused sample was never accepted. It is stored as deferred exactly when the client was not
     connected, a publish was pending, or a record was waiting. The records evicted for it are the first
     ones, each counted as dropped, and nothing is lost.
     */
    method StoreSample(payload: string, nowMs: nat, nowEpochSeconds: nat)
      returns (ok: bool, ghost evicted: nat, ghost rest: seq<D.Step>, ghost view: View)
      requires Linked() && client.model.pc == D.Idle
      modifies this, queue, queue.card, client
      ensures Linked() && client.model.pc == D.Idle && (ok ==> old(queue.ready))
      ensures Tracked() && since == old(client.run) && main == D.Drops(evicted) + rest
      ensures CutsHeld(queue.card.history, |old(queue.card.history)|, client.run, |old(client.run)|)
      ensures ViewHolds(view, |old(client.run)|, client.run)
      ensures if ok
              then rest == [D.Append(payload, !view.connected || view.pending || old(client.model).fifo != [])]
              else rest == [] || rest == [D.Unmount]
      ensures Stored(old(client.model), client.model, payload, ok, evicted)
      ensures HonestRun(old(client.run)) ==> HonestRun(client.run)
      ensures !old(queue.ready) ==> evicted == 0 && queue.State() == old(queue.State())
      ensures queue.card.faults == old(queue.card.faults) ==>
                (ok <==> Q.Acceptable(old(queue.State()), payload))
    {
      hide Holds, CutsHeld, D.IsRun, D.Run, D.Did, Coherent, Stored, D.Drops, ViewHolds, HonestRun;
      Track();
      var connected := client.connected;
      Interrupted(nowMs);
      var pending := client.HasPendingTelemetry();
      HoldsIsValid(shadow, client.model);
      QueuedIsThere(shadow);
      var deferred := !connected || pending || (queue.ready && queue.queued > 0);
      ghost var s, before := client.model, client.run;
      view := View(connected, |old(client.run)|, pending, |before|);
      StaysHonest();
      if !queue.ready {
        NoDrops();
        StoredNothing(old(client.model), client.model, payload);
        AllCovered();
        ViewTaken(view, old(client.run), before, before);
        return false, 0, [], view;
      }
      ok, evicted, rest := StoreReady(payload, nowMs, nowEpochSeconds, deferred);
      AllCovered();
      StoredAfterEvents(old(client.model), s, client.model, payload, ok, evicted);
      ViewTaken(view, old(client.run), before, client.run);
      StoredHonestly(old(client.run), before, view, payload, deferred, ok, evicted, rest);
    }

    lemma StoredHonestly(first: seq<D.Step>, second: seq<D.Step>, view: View, payload: string, deferred: bool, ok: bool,
                         evicted: nat, rest: seq<D.Step>)
      requires D.Did(first, second, []) && client.run == second + (D.Drops(evicted) + rest)
      requires if ok then rest == [D.Append(payload, deferred)] else rest == [] || rest == [D.Unmount]
      requires view.connectedAt == |first| && view.pendingAt == |second|
      requires D.IsRun(D.START, first) && D.Run(D.START, first).connected == view.connected
      requires D.IsRun(D.START, second) && D.Run(D.START, second).pending.Some? == view.pending
      requires deferred <==> !view.connected || view.pending || D.Run(D.START, second).fifo != []
      ensures HonestRun(first) ==> HonestRun(client.run)
    {
      hide D.IsRun, D.Run, HonestRun;
      if HonestRun(first) {
        if ok {
          HonestStore(first, first, second, evicted, rest[0], view) by {
            D.DidNothing(first);
          }
          assert second + D.Drops(evicted) + [rest[0]] == client.run;
        } else {
          HonestStays(first, second, []);
          DidExactly(second, D.Drops(evicted) + rest);
          HonestStays(second, client.run, D.MainSteps(D.Drops(evicted) + rest));
        }
      }
    }

    method StoreReady(payload: string, nowMs: nat, nowEpochSeconds: nat, deferred: bool)
      returns (ok: bool, ghost evicted: nat, ghost rest: seq<D.Step>)
      requires Linked() && Tracked() && Covered() && client.model.pc == D.Idle && queue.ready && main == []
      modifies this`shadow, this`main, this`seen, queue, queue.card, client`model, client`run
      ensures Linked() && Tracked() && Covered() && client.model.pc == D.Idle
      ensures queue.card.faults == old(queue.card.faults) ==>
                (ok <==> Q.Acceptable(old(queue.State()), payload))
      ensures main == D.Drops(evicted) + rest && IsStoreEnd(rest, payload, deferred, ok)
      ensures client.run == old(client.run) + (D.Drops(evicted) + rest)
      ensures Stored(old(client.model), client.model, payload, ok, evicted)
    {
      hide Holds, CutsHeld, D.IsRun, D.Run, D.Did, Coherent, DropFront, Q.NewRecord, Stored, D.Drops,
           Q.CrashSafe, Q.Enqueued, IsStoreEnd, Fifo, Q.AddedBy;
      HoldsIsValid(shadow, client.model);
      ghost var q := shadow;
      ok, evicted := queue.Enqueue(payload, nowMs, nowEpochSeconds, deferred);
      if Q.Acceptable(q, payload) {
        rest := TakeStore(q, payload, nowMs, nowEpochSeconds, deferred, ok, evicted);
        ghost var added := Q.AddedBy(q, payload, nowMs, nowEpochSeconds, deferred, ok, evicted);
        AddedIsLast(q, queue.State(), payload, nowMs, nowEpochSeconds, deferred, ok, evicted);
        CoverOperation(old(queue.card.history), old(client.run), q, evicted, added);
        assert [] + (D.Drops(evicted) + rest) == D.Drops(evicted) + rest;
      } else {
        NoDrops();
        NothingStored(client.model, payload, deferred);
        evicted, rest := 0, [];
      }
    }

    /** Records in the run what storing a sample did. */
    ghost method TakeStore(q: Spool, payload: string, nowMs: nat, nowEpochSeconds: nat, deferred: bool, ok: bool,
                           evicted: nat)
      returns (rest: seq<D.Step>)
      requires client.Linked() && Tracked() && Holds(q, client.model) && client.model.pc == D.Idle && q.ready
      requires Coherent(q)
      requires Q.Acceptable(q, payload) && evicted <= |q.files|
      requires Q.Enqueued(q, queue.State(), payload, nowMs, nowEpochSeconds, deferred, ok, evicted)
      modifies this`shadow, this`main, client`model, client`run
      ensures Linked() && Tracked() && client.model.pc == D.Idle
      ensures main == old(main) + (D.Drops(evicted) + rest) && IsStoreEnd(rest, payload, deferred, ok)
      ensures client.run == old(client.run) + (D.Drops(evicted) + rest)
      ensures Stored(old(client.model), client.model, payload, ok, evicted)
    {
      hide Holds, CutsHeld, D.IsRun, D.Run, D.Did, Coherent, DropFront, Q.NewRecord, Q.AllCrowded,
           D.DroppedFirst, Stored, D.Drops, IsStoreEnd;
      TakeDrops(q, evicted);
      ghost var s := client.model;
      Q.KeptNext(q, evicted);
      DroppedKeeps(old(client.model), s, evicted);
      rest := TakeOutcome(DropFront(q, evicted), payload, nowMs, nowEpochSeconds, deferred, ok);
      StoredAfterDrops(old(client.model), s, client.model, payload, ok, evicted);
      assert old(main) + D.Drops(evicted) + rest == old(main) + (D.Drops(evicted) + rest);
      assert old(client.run) + D.Drops(evicted) + rest == old(client.run) + (D.Drops(evicted) + rest);
    }

    ghost method TakeOutcome(kept: Spool, payload: string, nowMs: nat, nowEpochSeconds: nat, deferred: bool, ok: bool)
      returns (rest: seq<D.Step>)
      requires client.Linked() && Tracked() && Holds(kept, client.model) && client.model.pc == D.Idle
      requires Q.Acceptable(kept, payload)
      requires ok ==> queue.State() == Append(kept, Q.NewRecord(kept, payload, nowMs, nowEpochSeconds, deferred))
      requires !ok ==> queue.State() == kept.(ready := false) || queue.State() == kept.(dropped := kept.dropped + 1)
      modifies this`shadow, this`main, client`model, client`run
      ensures Linked() && Tracked() && main == old(main) + rest && IsStoreEnd(rest, payload, deferred, ok)
      ensures client.run == old(client.run) + rest
      ensures EndedStore(old(client.model), client.model, payload, deferred, ok)
    {
      hide Holds, CutsHeld, D.IsRun, D.Run, D.Did, Q.NewRecord;
      ghost var s := client.model;
      HoldsIsValid(kept, s);
      shadow := queue.State();
      rest := [];
      if ok {
        TakeAppend(kept, payload, nowMs, nowEpochSeconds, deferred);
        rest := [D.Append(payload, deferred)];
      } else if queue.State() == kept.(ready := false) {
        Step(D.Unmount);
        HoldsUnmounted(kept, s, client.model);
        rest := [D.Unmount];
      } else {
        HoldsCounted(kept, s);
      }
      HoldsIsValid(shadow, client.model);
    }

    ghost method TakeAppend(kept: Spool, payload: string, nowMs: nat, nowEpochSeconds: nat, deferred: bool)
      requires client.Linked() && Tracked() && Holds(kept, client.model) && client.model.pc == D.Idle
      requires Q.Acceptable(kept, payload)
      modifies this`main, client`model, client`run
      ensures client.Linked() && Tracked() && main == old(main) + [D.Append(payload, deferred)]
      ensures client.run == old(client.run) + [D.Append(payload, deferred)]
      ensures D.Enabled(old(client.model), D.Append(payload, deferred))
      ensures D.Stepped(old(client.model), D.Append(payload, deferred), client.model)
      ensures Holds(Append(kept, Q.NewRecord(kept, payload, nowMs, nowEpochSeconds, deferred)), client.model)
    {
      hide D.IsRun, D.Run, D.Did, Coherent, Q.NewRecord, Append, TopOk, SameQueue;
      ghost var s := client.model;
      AppendRefines(kept, s, payload, nowMs, nowEpochSeconds, deferred);
      Step(D.Append(payload, deferred));
    }

    /**
     The queue's periodic work. What is dropped are the first records, each of them expired; a lost
     card unmounts; a due retry mounts a card that can be mounted exactly when the queue has a boot
     number, so a queue that was not begun at boot never mounts.
     */
    method Maintain(nowMs: nat, nowEpochSeconds: nat, storageReady: bool, cardPresent: bool, directoryReady: bool)
      returns (ghost n: nat, ghost rest: seq<D.Step>)
      requires Linked() && client.model.pc == D.Idle
      modifies this`shadow, this`since, this`main, this`base, this`seen, queue, queue.card, client`model, client`run
      ensures Linked() && client.model.pc == D.Idle && queue.bootId == old(queue.bootId)
      ensures Tracked() && since == old(client.run) && main == D.Drops(n) + rest
      ensures CutsHeld(queue.card.history, |old(queue.card.history)|, client.run, |old(client.run)|)
      ensures rest == [] || rest == [D.Unmount] || rest == [D.Mount]
      ensures D.DroppedFirst(old(client.model), client.model.(ready := old(client.model).ready), n)
      ensures n <= |Fifo(old(queue.card.files))|
              && forall j :: 0 <= j < n ==> Q.Expired(Fifo(old(queue.card.files))[j], nowEpochSeconds)
      ensures !storageReady ==> !queue.ready
      ensures storageReady && old(queue.ready) && queue.card.faults == old(queue.card.faults) ==> queue.ready
      ensures storageReady && !old(queue.ready) ==>
                (queue.ready <==> Elapsed(nowMs, old(queue.lastBeginAttemptMs)) >= Q.SD_RETRY_INTERVAL_MS
                                  && Q.Mountable(queue.bootId, cardPresent, directoryReady, old(queue.card.files)))
      ensures HonestRun(old(client.run)) ==> HonestRun(client.run)
    {
      hide Holds, CutsHeld, D.IsRun, D.Run, D.Did, Coherent, DropFront, Q.Maintained, Q.Remounted,
           Q.Mountable, Q.CrashSafe, Q.AllBetween, D.DroppedFirst, D.Drops, Fifo, Q.Expired,
           HonestRun, D.Next, D.Enabled, SecureMqttClient.Messages, SecureMqttClient.BackoffAfter;
      Track();
      ghost var q, s := shadow, client.model;
      HoldsIsValid(q, s);
      IdsInRange(q);
      D.DroppedNone(s);
      NoDrops();
      var lastBeginAttemptMs, lastMaintenanceMs := queue.lastBeginAttemptMs, queue.lastMaintenanceMs;
      ghost var read;
      n, read := queue.Update(nowMs, nowEpochSeconds, storageReady, cardPresent, directoryReady);
      rest := [];
      if !storageReady {
        n := 0;
        rest := TakeUnmount(q);
      } else if !q.ready {
        n := 0;
        if Elapsed(nowMs, lastBeginAttemptMs) >= Q.SD_RETRY_INTERVAL_MS {
          NoNumberNoMount(cardPresent, directoryReady, q.files);
          rest := TakeMount(q);
        }
      } else if Elapsed(nowMs, lastMaintenanceMs) < Q.MAINTENANCE_INTERVAL_MS {
        n := 0;
        shadow := queue.State();
        HoldsAtAnyAge(q, shadow, s);
      } else {
        rest := TakeMaintenance(q, n, read, nowEpochSeconds);
      }
      FinishMaintenance(old(queue.card.history), old(client.run), q, n, rest);
    }

    /** What maintenance did is covered, and it stored nothing. */
    ghost method FinishMaintenance(before: seq<Q.Disk>, run: seq<D.Step>, q: Spool, n: nat, rest: seq<D.Step>)
      requires Linked() && Tracked() && CutsHeld(before, base, seen, |since|) && before <= queue.card.history
      requires since == seen == run && D.IsRun(D.START, run) && Holds(q, D.Run(D.START, run)) && base == |before|
      requires D.Run(D.START, run).pc == D.Idle && main == D.Drops(n) + rest && run <= client.run
      requires rest == [] || rest == [D.Unmount] || rest == [D.Mount]
      requires q.ready ==> run + D.Drops(n) <= client.run && n <= |q.files|
                           && Q.CrashSafe(queue.card.history, |before|, Fifo(q.files), None, n)
      requires !q.ready ==> Q.AllBetween(queue.card.history, |before|, q.files)
      modifies this`seen
      ensures Linked() && Tracked() && CutsHeld(queue.card.history, base, client.run, |since|)
      ensures HonestRun(since) ==> HonestRun(client.run)
    {
      hide Holds, CutsHeld, D.IsRun, D.Run, D.Did, D.Drops, Q.CrashSafe, Q.AllBetween, Fifo, HonestRun;
      if q.ready {
        CoverOperation(before, run, q, n, None);
      } else {
        CoverMount(before, run, q);
      }
      AllCovered();
      MaintenanceStoresNothing(n, rest);
      StaysHonest();
    }

    ghost method TakeUnmount(q: Spool) returns (rest: seq<D.Step>)
      requires client.Linked() && Tracked() && Holds(q, client.model) && client.model.pc == D.Idle
      requires !queue.ready && queue.card.files == q.files && (queue.bootId == 0 || queue.bootId == q.bootId)
      modifies this`shadow, this`main, client`model, client`run
      ensures Linked() && Tracked() && main == old(main) + rest && rest == [D.Unmount] && old(client.run) <= client.run
      ensures client.model == old(client.model).(ready := false)
    {
      hide Holds, D.IsRun, D.Run, D.Did;
      ghost var s := client.model;
      shadow := q.(ready := false);
      Step(D.Unmount);
      rest := [D.Unmount];
      HoldsUnmounted(q, s, client.model);
      hide *;
    }

    ghost method TakeMount(q: Spool) returns (rest: seq<D.Step>)
      requires client.Linked() && Tracked() && Holds(q, client.model) && client.model.pc == D.Idle && !q.ready
      requires Q.Remounted(q.files, queue.State())
      requires if queue.bootId == 0 then !queue.ready else queue.bootId == q.bootId
      modifies this`shadow, this`main, client`model, client`run
      ensures Linked() && Tracked() && main == old(main) + rest && rest == (if queue.ready then [D.Mount] else [])
      ensures old(client.run) <= client.run
      ensures client.model == old(client.model).(ready := queue.ready)
    {
      hide Holds, CutsHeld, D.IsRun, D.Run, D.Did, Coherent, Intact, Q.Scanned;
      ghost var s := client.model;
      HoldsIsValid(q, s);
      CleanStays(q, queue.card.files);
      shadow := q;
      rest := [];
      if queue.ready {
        shadow := queue.State();
        MountHolds(q, shadow, s);
        Step(D.Mount);
        rest := [D.Mount];
      }
    }

    ghost method TakeMaintenance(q: Spool, n: nat, read: bool, nowEpochSeconds: nat) returns (rest: seq<D.Step>)
      requires client.Linked() && Tracked() && Holds(q, client.model) && client.model.pc == D.Idle && q.ready
      requires Q.Maintained(q, queue.State(), n, read, nowEpochSeconds)
      modifies this`shadow, this`main, client`model, client`run
      ensures Linked() && Tracked() && main == old(main) + (D.Drops(n) + rest)
      ensures old(client.run) + D.Drops(n) <= client.run
      ensures rest == (if queue.ready then [] else [D.Unmount])
      ensures D.DroppedFirst(old(client.model), client.model.(ready := old(client.model).ready), n)
      ensures client.model.pc == D.Idle && n <= |q.files|
              && forall j :: 0 <= j < n ==> Q.Expired(Fifo(q.files)[j], nowEpochSeconds)
    {
      hide Holds, CutsHeld, D.IsRun, D.Run, D.Did, Coherent, DropFront, Fifo, D.Drops, Q.Expired;
      HoldsIsValid(q, client.model);
      TakeDrops(q, n);
      DroppedKeeps(old(client.model), client.model, n);
      rest := EndMaintenance(DropFront(q, n));
      DroppedThenReady(old(client.model), client.model, n);
      assert old(main) + D.Drops(n) + rest == old(main) + (D.Drops(n) + rest);
    }

    ghost method EndMaintenance(kept: Spool) returns (rest: seq<D.Step>)
      requires client.Linked() && Tracked() && Holds(kept, client.model) && client.model.pc == D.Idle && kept.ready
      requires Q.Ageless(queue.State()) == Q.Ageless(kept).(ready := queue.ready)
      modifies this`shadow, this`main, client`model, client`run
      ensures Linked() && Tracked() && main == old(main) + rest && rest == (if queue.ready then [] else [D.Unmount])
      ensures old(client.run) <= client.run
      ensures client.model == old(client.model).(ready := queue.ready)
    {
      hide Holds, CutsHeld, D.IsRun, D.Run, D.Did, Coherent;
      ghost var s := client.model;
      HoldsIsValid(kept, s);
      shadow := queue.State();
      rest := [];
      if queue.ready {
        HoldsAtAnyAge(kept, shadow, s);
      } else {
        Step(D.Unmount);
        rest := [D.Unmount];
        HoldsUnmounted(kept, s, client.model);
        HoldsAtAnyAge(kept.(ready := false), shadow, client.model);
      }
      HoldsIsValid(shadow, client.model);
    }
  }

  lemma HonestAfterBoot(steps: seq<D.Step>, bootId: nat, run: seq<D.Step>)
    requires run == steps + [D.PowerCut(bootId)] || run == steps + [D.PowerCut(bootId)] + [D.Mount]
    ensures HonestRun(steps) ==> HonestRun(run)
  {
    hide HonestRun;
    if HonestRun(steps) {
      DidExactly(steps, run[|steps|..]);
      assert run == steps + run[|steps|..];
      HonestStays(steps, run, D.MainSteps(run[|steps|..]));
    }
  }

  /** Steps none of which stores anything, nor does their main part. */
  lemma DidExactly(before: seq<D.Step>, more: seq<D.Step>)
    requires forall i :: 0 <= i < |more| ==> !more[i].Append?
    ensures D.Did(before, before + more, D.MainSteps(more))
    ensures forall i :: 0 <= i < |D.MainSteps(more)| ==> !D.MainSteps(more)[i].Append?
  {
    assert (before + more)[|before|..] == more;
    MainIsPart(more);
  }

  lemma {:induction false} MainIsPart(steps: seq<D.Step>)
    requires forall i :: 0 <= i < |steps| ==> !steps[i].Append?
    ensures forall i :: 0 <= i < |D.MainSteps(steps)| ==> !D.MainSteps(steps)[i].Append?
    decreases |steps|
  {
    if steps != [] {
      MainIsPart(steps[..|steps| - 1]);
    }
  }

  lemma StoresNothingFrom(steps: seq<D.Step>, n: nat)
    requires n <= |steps| && forall i :: 0 <= i < n ==> !steps[i].Append?
    requires forall i :: 0 <= i < |steps[n..]| ==> !steps[n..][i].Append?
    ensures forall i :: 0 <= i < |steps| ==> !steps[i].Append?
  {
    forall i | n <= i < |steps|
      ensures !steps[i].Append?
    {
      assert steps[i] == steps[n..][i - n];
    }
  }

  lemma ReplayStoresNothing(steps: seq<D.Step>)
    requires IsReplay(steps)
    ensures forall i :: 0 <= i < |steps| ==> !steps[i].Append?
  {
    if steps != [D.Skip] && steps != [D.Skip, D.Drop] {
      if steps[1..] != [D.Mark(false)] {
        StoresNothingFrom(steps[1..], 1);
      }
      StoresNothingFrom(steps, 1);
    }
  }

  lemma PassStoresNothing(steps: seq<D.Step>)
    requires IsPass(steps)
    ensures forall i :: 0 <= i < |steps| ==> !steps[i].Append?
  {
    var send := SendPart(steps);
    if send != [D.Skip] {
      ReplayStoresNothing(send[1..]);
      StoresNothingFrom(send, 1);
    }
    StoresNothingFrom(steps, if steps[1].HandleAck? then 2 else 1);
  }

  lemma MaintenanceStoresNothing(n: nat, rest: seq<D.Step>)
    requires rest == [] || rest == [D.Unmount] || rest == [D.Mount]
    ensures forall i :: 0 <= i < |D.Drops(n) + rest| ==> !(D.Drops(n) + rest)[i].Append?
  {
  }

  lemma LiveTokenMatchesNothing(s: D.State)
    requires s.pc.Taken? && !IsReplayToken(s.pc.ticket.token)
    ensures !D.Matches(s, s.pc.ticket)
  {
  }

  /**
     A card that comes after the boot. If the queue was not begun at boot, because the storage was not
     ready then, the documented retry never mounts it, however often maintenance runs with the card
     present. If it was begun, the first retry mounts the card exactly when it can be mounted.
   */
  method CardArrivesLate(card: Q.Card, ghost q: Spool, ghost s: D.State, ghost steps: seq<D.Step>, nowMs: nat,
                         bootId: nat, begun: bool, times: seq<(nat, nat)>)
    returns (c: Controller)
    requires D.IsRun(D.START, steps) && D.Run(D.START, steps) == s && times != []
    requires Holds(q, s) && q.files == card.files && bootId > s.boot
    requires Elapsed(times[0].0, nowMs) >= Q.SD_RETRY_INTERVAL_MS
    modifies card
    ensures c.Linked() && (!begun ==> !c.queue.ready)
    ensures begun && |times| == 1 ==> (c.queue.ready <==> Q.Mountable(bootId, true, true, old(card.files)))
  {
    hide Holds, Fifo, D.DroppedFirst, D.IsRun, D.Run, Q.Mountable, NextBoot;
    c := new Controller.AfterPowerCut(card, q, s, steps, nowMs, bootId, begun, false, false, n => true);
    assert !c.queue.ready by {
      NoCardNoMount(bootId, card.files);
    }
    ghost var n, rest := c.Maintain(times[0].0, times[0].1, true, true, true);
    for i := 1 to |times|
      invariant c.Linked() && c.client.model.pc == D.Idle && c.queue.bootId == if begun then bootId else 0
      invariant fresh({c, c.queue, c.client}) && c.queue.card == card && (!begun ==> !c.queue.ready)
      invariant begun && i == 1 ==> (c.queue.ready <==> Q.Mountable(bootId, true, true, old(card.files)))
    {
      ghost var m, more := c.Maintain(times[i].0, times[i].1, true, true, true);
    }
  }

  lemma NoCardNoMount(bootId: nat, files: Files)
    ensures !Q.Mountable(bootId, false, false, files)
  {
  }

  // ---------- the library's answer ----------

  /**
     What the last step of the main loop says about the library: a publish was noted exactly when the
     library was offered the message and took it, and it came to nothing exactly when the library did not
     take it, or was not offered it because there was no connection or a publish was pending.
   */
  ghost predicate Answered(main: seq<D.Step>, before: nat, now: nat, takes: nat -> bool, first: nat,
                           run: seq<D.Step>) {
    main != []
    && var last := main[|main| - 1];
       if last == D.SetPending then now == before + 1 && takes(before)
       else if last.Publish? then
         (now == before + 1 && !takes(before)) || (now == before && Unavailable(first, run))
       else now == before
  }

  ghost predicate Unavailable(first: nat, run: seq<D.Step>) {
    exists k :: first <= k <= |run| && NoPublishAt(run, k)
  }

  /** After `k` steps of the run there was no connection, or a publish was pending. */
  ghost predicate NoPublishAt(run: seq<D.Step>, k: nat)
    requires k <= |run|
  {
    D.IsRun(D.START, run[..k])
    && (!D.Run(D.START, run[..k]).connected || D.Run(D.START, run[..k]).pending.Some?)
  }

  lemma AnswerIs(main: seq<D.Step>, ok: bool, before: nat, now: nat, takes: nat -> bool, first: seq<D.Step>,
                 s: D.State, run: seq<D.Step>)
    requires main != [] && main[|main| - 1] == if ok then D.SetPending else D.Publish(false, 0)
    requires first <= run && D.IsRun(D.START, first) && D.Run(D.START, first) == s
    requires now == before + if s.pending == None && s.connected then 1 else 0
    requires ok <==> now == before + 1 && takes(before)
    ensures Answered(main, before, now, takes, |first|, run)
  {
    hide D.IsRun, D.Run;
    assert run[..|first|] == first;
    if now == before {
      assert NoPublishAt(run, |first|);
    }
  }

  lemma AnswerEarlier(main: seq<D.Step>, before: nat, now: nat, takes: nat -> bool, first: nat, middle: nat,
                      run: seq<D.Step>)
    requires Answered(main, before, now, takes, middle, run) && first <= middle
    ensures Answered(main, before, now, takes, first, run)
  {
    hide NoPublishAt;
  }

  lemma NotAsked(main: seq<D.Step>, offered: nat, takes: nat -> bool, first: nat, run: seq<D.Step>)
    requires main != [] && !main[|main| - 1].Publish? && main[|main| - 1] != D.SetPending
    ensures Answered(main, offered, offered, takes, first, run)
  {
  }

  /** What is sent of a record is not empty. */
  lemma OutgoingIsText(q: Spool, id: nat, size: nat)
    requires Coherent(q) && Q.CanOffer(q, size) && id == q.oldest
    ensures Q.OutgoingOf(q.files[id], q.bootId).value != ""
  {
    hide Checksum, FindMark;
    assert WellFormed(id, q.files[id]);
  }

  // ---------- shapes of a pass ----------

  ghost predicate IsPublish(steps: seq<D.Step>) {
    steps == [D.Publish(false, 0)]
    || (|steps| == 2 && steps[0].Publish? && steps[0].queued && steps[1] == D.SetPending)
  }

  /** The offered head is stamped, and sent if that succeeded. */
  ghost predicate IsMarking(steps: seq<D.Step>) {
    steps == [D.Mark(false)] || (|steps| >= 2 && steps[0] == D.Mark(true) && IsPublish(steps[1..]))
  }

  /** The head is offered, or skipped, or dropped. */
  ghost predicate IsReplay(steps: seq<D.Step>) {
    steps == [D.Skip] || steps == [D.Skip, D.Drop] || (|steps| >= 2 && steps[0] == D.Offer && IsMarking(steps[1..]))
  }

  ghost predicate IsSend(steps: seq<D.Step>) {
    steps == [D.Skip] || (|steps| >= 2 && steps[0] == D.Check && IsReplay(steps[1..]))
  }

  /** The steps of one pass, in their order. */
  ghost predicate IsPass(steps: seq<D.Step>) {
    && |steps| >= 2 && steps[0] == D.TakeAck
    && if steps[1].HandleAck? then IsSend(steps[2..]) else IsSend(steps[1..])
  }

  /** The part of a pass that sends. */
  function SendPart(steps: seq<D.Step>): seq<D.Step>
    requires |steps| >= 2
  {
    if steps[1].HandleAck? then steps[2..] else steps[1..]
  }

  /** A head that can be sent is offered, stamped and published; any other is dropped. */
  ghost predicate Handed(steps: seq<D.Step>, sendable: bool) {
    if sendable then |steps| >= 2 && steps[0] == D.Offer && steps[1] == D.Mark(true) && IsPublish(steps[2..])
    else steps == [D.Skip, D.Drop]
  }

  ghost predicate Sent(steps: seq<D.Step>, sendable: bool) {
    |steps| >= 1 && steps[0] == D.Check && Handed(steps[1..], sendable)
  }

  /**
     Whether a pass sends: the client was connected, nothing was pending, the interval is over, and a
     record is left.
   */
  predicate Due(r: View, nowMs: nat, lastMs: nat, left: Spool) {
    && r.connected && !r.pending && Elapsed(nowMs, lastMs) >= OFFLINE_QUEUE_REPLAY_INTERVAL_MS
    && left.ready && left.files != map[]
  }

  /** In true times less than a turn of the clock apart, 250 milliseconds must have passed. */
  lemma DueIsExactly(r: View, now: nat, last: nat, left: Spool)
    requires Coherent(left) && last <= now < last + 4294967296
    ensures Due(r, now % CLOCK, last % CLOCK, left) <==>
            r.connected && !r.pending && now - last >= 250 && left.ready && Fifo(left.files) != []
  {
    WrappedDifference(now, last);
    if left.files != map[] {
      Q.OldestFirst(left.files);
    }
  }

  /** What an acknowledgement leaves of the queue. */
  ghost function Left(q: Spool, removed: bool): Spool {
    if removed && Coherent(q) && q.files != map[] then Q.Acknowledged(q) else q
  }

  lemma OfferedCanOffer(q: Spool, size: nat)
    ensures forall id, marked :: Q.Offered(q, size, id, marked) ==> Q.CanOffer(q, size)
  {
  }

  lemma SendIs(first: seq<D.Step>, checked: seq<D.Step>, all: seq<D.Step>)
    requires checked == first + [D.Check] && checked <= all && IsReplay(all[|checked|..])
    ensures first <= all && IsSend(all[|first|..]) && all[|first|..] != [D.Skip]
    ensures forall sendable :: Handed(all[|checked|..], sendable) ==> Sent(all[|first|..], sendable)
  {
    assert all[|first|..] == [D.Check] + all[|checked|..];
    assert all[|first|..][1..] == all[|checked|..];
  }

  lemma PassIs(first: seq<D.Step>, all: seq<D.Step>, available: bool)
    requires if available then |first| == 2 && first[0] == D.TakeAck && first[1].HandleAck? else first == [D.TakeAck]
    requires first <= all && IsSend(all[|first|..])
    ensures IsPass(all) && |all| >= 2 && (all[1].HandleAck? <==> available) && SendPart(all) == all[|first|..]
    ensures available ==> all[1] == first[1]
  {
  }

  /** The state after the next boot. */
  ghost predicate NextBoot(s: D.State, t: D.State, bootId: nat, mounted: bool) {
    bootId > s.boot && t == D.Next(s, D.PowerCut(bootId)).(ready := mounted)
  }

  /** Nothing is on offer, and the head may have been dropped. */
  ghost predicate NotOffered(s: D.State, t: D.State, dropped: bool) {
    exists u :: D.Stepped(s, D.Skip, u) && if dropped then D.Stepped(u, D.Drop, t) else t == u
  }

  /** The head of the queue is on offer. */
  ghost predicate Offered(s: D.State, t: D.State, recordId: nat, marked: bool) {
    && D.Enabled(s, D.Offer) && t == D.Next(s, D.Offer) && t.pc.replayed == marked && t.pc.entry.id == recordId
  }

  /** Sending the head accepts and loses nothing, and drops at most the head. */
  ghost predicate Replayed(s: D.State, t: D.State, steps: seq<D.Step>) {
    && s.fifo != [] && t.accepted == s.accepted && t.lost == s.lost
    && t.dropped == if D.Drop in steps then s.dropped + {s.fifo[0].serial} else s.dropped
  }

  lemma OfferedIs(s: D.State, t: D.State, recordId: nat, marked: bool)
    requires Offered(s, t, recordId, marked)
    ensures s.fifo != [] && t.pc.Offering? && t.fifo == s.fifo && t.fifo[0].id == recordId && SameAccount(s, t)
  {
  }

  lemma ReplayedSending(s: D.State, t: D.State, steps: seq<D.Step>)
    requires SameAccountThrough(s, t) && |steps| >= 2 && steps[0] == D.Offer && IsMarking(steps[1..])
    ensures Replayed(s, t, steps)
  {
    assert forall k :: 0 <= k < |steps| ==> steps[k] != D.Drop by {
      NoDropInMarking(steps[1..]);
      assert forall k :: 1 <= k < |steps| ==> steps[k] == steps[1..][k - 1];
    }
  }

  lemma NoDropInMarking(steps: seq<D.Step>)
    requires IsMarking(steps)
    ensures D.Drop !in steps
  {
    if |steps| >= 2 {
      assert steps == [steps[0]] + steps[1..];
    }
  }

  ghost predicate SameAccountThrough(s: D.State, t: D.State) {
    s.fifo != [] && exists u :: SameAccount(s, u) && SameAccount(u, t)
  }

  lemma ReplayedNothing(s: D.State, t: D.State, dropped: bool)
    requires NotOffered(s, t, dropped) && s.fifo != []
    ensures Replayed(s, t, if dropped then [D.Skip, D.Drop] else [D.Skip]) && t.pc == D.Idle
  {
  }

  /** The account of the samples did not change, and the queue holds the same ones. */
  ghost predicate SameAccount(s: D.State, t: D.State) {
    && t.accepted == s.accepted && t.dropped == s.dropped && t.lost == s.lost && t.epoch == s.epoch
    && |t.fifo| == |s.fifo| && forall i :: 0 <= i < |s.fifo| ==> t.fifo[i].serial == s.fifo[i].serial
  }

  lemma EventsKeepAccount(s: D.State, t: D.State)
    requires SecureMqttClient.OnlyEvents(s, t)
    ensures SameAccount(s, t)
  {
  }

  lemma QueueKeepsAccount(s: D.State, t: D.State)
    requires SecureMqttClient.QueueKept(s, t)
    ensures SameAccount(s, t)
  {
  }

  lemma SameAccountJoin(s: D.State, t: D.State, u: D.State)
    requires SameAccount(s, t) && SameAccount(t, u)
    ensures SameAccount(s, u)
  {
  }

  lemma MarkKeepsAccount(s: D.State, t: D.State, marked: bool)
    requires D.Stepped(s, D.Mark(marked), t)
    ensures SameAccount(s, t) && t.ready == s.ready
    ensures marked ==> t.pc.Marked? && t.pc.entry == s.pc.entry && t.pc.replayed == s.pc.replayed
    ensures !marked ==> t.pc == D.Idle
  {
  }

  // ---------- what storing does ----------

  ghost predicate IsStoreEnd(rest: seq<D.Step>, payload: string, deferred: bool, ok: bool) {
    if ok then rest == [D.Append(payload, deferred)] else rest == [] || rest == [D.Unmount]
  }

  /** Storing a sample: the first `evicted` records are dropped, and the sample is accepted if that succeeds. */
  ghost predicate Stored(s: D.State, t: D.State, payload: string, ok: bool, evicted: nat) {
    && evicted <= |s.fifo| && t.pc == s.pc && t.boot == s.boot && t.lost == s.lost && t.sent == s.sent
    && s.acked <= t.acked && s.received <= t.received
    && t.dropped == s.dropped + D.FirstSerials(s.fifo, evicted)
    && t.accepted == (if ok then s.accepted + [payload] else s.accepted)
    && (if ok then |t.fifo| > 0 && t.fifo[..|t.fifo| - 1] == s.fifo[evicted..]
                   && t.fifo[|t.fifo| - 1].serial == |s.accepted| && t.fifo[|t.fifo| - 1].payload == payload
        else t.fifo == s.fifo[evicted..])
  }

  ghost predicate EndedStore(s: D.State, t: D.State, payload: string, deferred: bool, ok: bool) {
    if ok then D.Enabled(s, D.Append(payload, deferred)) && t == D.Next(s, D.Append(payload, deferred))
    else t == s || t == s.(ready := false)
  }

  lemma AddedIsLast(q: Spool, now: Spool, payload: string, nowMs: nat, nowEpochSeconds: nat, deferred: bool, ok: bool,
                    evicted: nat)
    requires Coherent(q) && Q.Acceptable(q, payload) && evicted <= |q.files|
    requires Q.Enqueued(q, now, payload, nowMs, nowEpochSeconds, deferred, ok, evicted)
    ensures var added := Q.AddedBy(q, payload, nowMs, nowEpochSeconds, deferred, ok, evicted);
            added.Some? ==>
              added.value.evicted == evicted
              && Fifo(now.files) == Fifo(q.files)[evicted..] + [added.value.file]
  {
    hide Q.Enqueued, Coherent, Fifo, Q.NewRecord;
    Q.EnqueuedIsFifo(q, now, payload, nowMs, nowEpochSeconds, deferred, ok, evicted);
  }

  lemma StoredNothing(s: D.State, t: D.State, payload: string)
    requires SecureMqttClient.OnlyEvents(s, t)
    ensures Stored(s, t, payload, false, 0)
  {
  }

  lemma NothingStored(s: D.State, payload: string, deferred: bool)
    ensures Stored(s, s, payload, false, 0) && IsStoreEnd([], payload, deferred, false)
  {
  }

  lemma StoredAfterEvents(s: D.State, t: D.State, u: D.State, payload: string, ok: bool, evicted: nat)
    requires SecureMqttClient.OnlyEvents(s, t) && Stored(t, u, payload, ok, evicted)
    ensures Stored(s, u, payload, ok, evicted)
  {
  }

  lemma DroppedKeeps(s: D.State, t: D.State, n: nat)
    requires D.DroppedFirst(s, t, n)
    ensures t.pc == s.pc && n <= |s.fifo|
  {
  }

  lemma DroppedThenReady(s: D.State, t: D.State, n: nat)
    requires exists u :: D.DroppedFirst(s, u, n) && t == u.(ready := t.ready)
    ensures D.DroppedFirst(s, t.(ready := s.ready), n)
  {
  }

  lemma StoredAfterDrops(s: D.State, t: D.State, u: D.State, payload: string, ok: bool, evicted: nat)
    requires D.DroppedFirst(s, t, evicted) && exists deferred :: EndedStore(t, u, payload, deferred, ok)
    ensures Stored(s, u, payload, ok, evicted) && u.pc == s.pc
  {
    hide MarkReplayed;
  }

  lemma NoNumberNoMount(cardPresent: bool, directoryReady: bool, files: Files)
    ensures !Q.Mountable(0, cardPresent, directoryReady, files)
  {
  }

  lemma NoDrops()
    ensures D.Drops(0) == [] && D.Drops(0) + [] == []
  {
  }

  lemma OneMoreDrop(before: seq<D.Step>, j: nat)
    ensures before + D.Drops(j) + [D.Drop] == before + D.Drops(j + 1)
  {
    assert D.Drops(j) + [D.Drop] == D.Drops(j + 1);
  }

  // ---------- the card ----------

  /** The same sample: only the count of attempts and the kind of the last one may differ. */
  predicate SameSample(f: File, g: File) {
    f == g || (f.Record? && g.Record? && g.body == f.body
               && g.header == f.header.(attempts := g.header.attempts,
                                        lastPublishReplayed := g.header.lastPublishReplayed))
  }

  /** No new record appeared, and those that are left hold what they held. */
  ghost predicate CardKept(before: Files, now: Files) {
    now.Keys <= before.Keys && forall id :: id in now ==> SameSample(before[id], now[id])
  }

  lemma CardSame(files: Files)
    ensures CardKept(files, files)
  {
  }

  lemma CardLess(files: Files, id: nat)
    ensures CardKept(files, files - {id}) && CardKept(files, files)
  {
  }

  lemma CardStamped(q: Spool, id: nat, replayed: bool)
    requires id in q.files && q.files[id].Record?
    ensures CardKept(q.files, Stamp(q, id, replayed).files) && Stamp(q, id, replayed).files.Keys == q.files.Keys
  {
  }

  lemma CardJoin(a: Files, b: Files, c: Files)
    requires CardKept(a, b) && CardKept(b, c)
    ensures CardKept(a, c)
  {
  }

  lemma RemovedFiles(q: Spool, countAsDropped: bool)
    requires Coherent(q) && q.files != map[]
    ensures RemoveOldest(q, countAsDropped).files == q.files - {q.oldest}
  {
  }

  lemma AcknowledgedFiles(q: Spool)
    requires Coherent(q) && q.files != map[]
    ensures Q.Acknowledged(q).files == q.files - {q.oldest}
  {
    hide Coherent;
    Q.HeadIsRecord(q);
    Q.AcknowledgedIs(q);
    RemovedFiles(q, false);
  }

  lemma DropKeepsClient(s: D.State)
    requires D.Enabled(s, D.Drop)
    ensures var t := D.Next(s, D.Drop);
            t.connected == s.connected && t.pending == s.pending && t.ack == s.ack && t.outbox == s.outbox
            && t.pc == s.pc
  {
  }

  lemma AckKeepsClient(s: D.State, removed: bool)
    requires s.pc.Taken?
    ensures var t := D.Next(s, D.HandleAck(removed));
            t.connected == s.connected && t.pending == s.pending && t.ack == s.ack && t.outbox == s.outbox
    ensures D.Next(s, D.HandleAck(false)) == s.(pc := D.Checking)
  {
  }

  /** An acknowledgement loses a sample only when it is stale. */
  lemma LossNeedsStaleness(run: seq<D.Step>, s: D.State)
    requires D.IsRun(D.START, run) && D.Run(D.START, run) == s && s.pc.Taken?
    ensures D.Next(s, D.HandleAck(true)).lost != s.lost ==> D.StaleMatch(s)
    ensures D.Next(s, D.HandleAck(false)).lost == s.lost
  {
    hide D.IsRun, D.Run;
    D.OnlyStaleAcksLose(run, D.HandleAck(true));
  }

  lemma HoldsAtAnyAge(q: Spool, now: Spool, s: D.State)
    requires Holds(q, s) && Q.Ageless(q) == Q.Ageless(now)
    ensures Holds(now, s)
  {
    Q.AnyAgeIsCoherent(q);
    assert now == q.(oldestAge := now.oldestAge);
    hide Coherent, Fifo;
  }

  lemma IdsInRange(q: Spool)
    requires Coherent(q)
    ensures forall id :: id in q.files ==> 1 <= id <= RECORD_ID_MASK
  {
  }

  /** Mounting a card that holds only intact records removes none of them. */
  lemma CleanStays(q: Spool, files: Files)
    requires Coherent(q) && Q.Between(Intact(q.files), files, q.files)
    ensures files == q.files == Intact(q.files)
  {
    hide TotalBytes, MinOf;
    assert Intact(q.files) == q.files;
  }

  lemma MountHolds(before: Spool, q: Spool, s: D.State)
    requires Holds(before, s) && q.ready && q.bootId == before.bootId && q.files == before.files
    requires Q.Scanned(Intact(before.files), q.queued, q.bytes, q.oldest, q.next) && s.pc == D.Idle
    ensures Holds(q, D.Next(s, D.Mount))
  {
    hide Coherent, Fifo, Q.Scanned, Intact;
    HoldsIsValid(before, s);
    assert s.(ready := before.ready) == s;
    MountRefines(before, q, s);
  }

  lemma HoldsUnmounted(q: Spool, s: D.State, t: D.State)
    requires Holds(q, s) && t == s.(ready := false)
    ensures Holds(q.(ready := false), t)
  {
    Q.UnavailableIsCoherent(q.(ready := false), q.ready);
    hide Coherent, Fifo;
  }

  lemma HoldsCounted(q: Spool, s: D.State)
    requires Holds(q, s)
    ensures Holds(q.(dropped := q.dropped + 1), s)
  {
    Q.CountedDrop(q);
    hide Coherent, Fifo;
  }

  lemma QueuedIsThere(q: Spool)
    requires Coherent(q)
    ensures q.queued > 0 <==> q.files != map[]
  {
  }

  lemma EverythingBetween(files: Files)
    ensures Q.Between(Intact(files), files, files)
  {
  }

  lemma HoldsInNextBoot(q: Spool, s: D.State, known: Spool, t: D.State)
    requires Holds(q, s) && known.bootId > s.boot && known == q.(ready := false, bootId := known.bootId)
    requires t == D.Next(s, D.PowerCut(known.bootId))
    ensures Holds(known, t)
  {
    hide Fifo, TotalBytes, MinOf, WellFormed;
  }

}
