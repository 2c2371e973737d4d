/**
 The MQTT client: one pending telemetry publish and one acknowledgement slot, shared by the main
 loop and the event thread. The client carries the protocol run it takes part in, and every method
 extends that run by the steps it performs.
 */
module SecureMqttClient {
  import opened Clock
  import opened OfflineQueuePolicy
  import opened Delivery

  const MQTT_PUBACK_TIMEOUT_MS: nat := 30000
  const RECONNECT_BACKOFF_MIN_MS: nat := 5000
  const RECONNECT_BACKOFF_MAX_MS: nat := 30000

  /** The reconnect delay after one more failure. */
  function Increased(backoffMs: nat): nat {
    if backoffMs < RECONNECT_BACKOFF_MAX_MS then
      if backoffMs * 2 > RECONNECT_BACKOFF_MAX_MS then RECONNECT_BACKOFF_MAX_MS else backoffMs * 2
    else backoffMs
  }

  /** The delay that follows `failures` failures in a row. */
  function BackoffAfter(failures: nat): (ms: nat)
    ensures RECONNECT_BACKOFF_MIN_MS <= ms <= RECONNECT_BACKOFF_MAX_MS
  {
    if failures == 0 then RECONNECT_BACKOFF_MIN_MS else Increased(BackoffAfter(failures - 1))
  }

  function Doubled(n: nat): (p: nat)
    ensures p >= 1
  {
    if n == 0 then 1 else 2 * Doubled(n - 1)
  }

  /** The delay doubles from five seconds and stays at thirty. */
  lemma {:induction false} BackoffIsCappedDoubling(failures: nat)
    ensures var full := RECONNECT_BACKOFF_MIN_MS * Doubled(failures);
            BackoffAfter(failures) == if full < RECONNECT_BACKOFF_MAX_MS then full else RECONNECT_BACKOFF_MAX_MS
  {
    if failures > 0 {
      BackoffIsCappedDoubling(failures - 1);
    }
  }

  /** Two protocol states that differ only in what the event thread and the broker change. */
  ghost predicate OnlyEvents(s: State, t: State) {
    && t.ready == s.ready && t.fifo == s.fifo && t.boot == s.boot && t.accepted == s.accepted && t.epoch == s.epoch
    && t.sent == s.sent && t.dropped == s.dropped && t.lost == s.lost && t.pc == s.pc
    && (s.pending == None ==> t.pending == None)
    && s.received <= t.received && s.acked <= t.acked && t.outbox.Keys <= s.outbox.Keys
  }

  /** Two protocol states with the same queue and the same account of what left it. */
  ghost predicate QueueKept(s: State, t: State) {
    && t.ready == s.ready && t.fifo == s.fifo && t.boot == s.boot && t.accepted == s.accepted && t.epoch == s.epoch
    && t.dropped == s.dropped && t.lost == s.lost
  }

  /** What the client has noted of the publish whose PUBACK it waits for. */
  datatype Note = Note(mid: int, token: nat, startedMs: nat)

  /** The note is as it was, or the publish is no longer pending. */
  predicate NoteKept(before: Note, now: Note) {
    now == before || now.mid == -1
  }

  /** A message the MQTT library still holds, and whether the broker has taken it. */
  datatype Message = Message(payload: string, taken: bool)

  ghost function Messages(s: State): map<nat, Message> {
    map mid | mid in s.outbox :: Message(s.outbox[mid].payload, s.outbox[mid].delivered)
  }

  /** What a PUBACK does, field by field. */
  lemma PublishedIs(s: State, mid: nat)
    requires mid in s.outbox && s.outbox[mid].delivered
    ensures Enabled(s, Published(mid))
    ensures var t := Next(s, Published(mid));
            var pending := s.pending.Some? && s.pending.value.mid == mid;
            && t.connected == s.connected && Messages(t) == Messages(s) - {mid}
            && t.pending == (if pending then None else s.pending)
            && t.ack == (if pending then Some(s.pending.value.ticket) else s.ack)
            && OnlyEvents(s, t)
  {
  }

  class Client {
    /** Whether the library takes the n-th telemetry message of this boot that it is offered. */
    const takes: nat -> bool
    var offered: nat
    var configured: bool
    var started: bool
    var connected: bool
    var attemptInProgress: bool
    var nextAttemptMs: nat
    var backoffMs: nat
    var pendingMid: int
    var pendingToken: nat
    var pendingStartedMs: nat
    var ackReady: bool
    var ackToken: nat
    var ackAtMs: nat
    var outbox: map<nat, Message>
    ghost var failures: nat
    ghost var model: State
    ghost var run: seq<Step>

    /** The client's fields are those of the protocol state its run has reached. */
    ghost predicate Linked()
      reads this
    {
      && IsRun(START, run) && Run(START, run) == model
      && connected == model.connected
      && (if model.pending.Some? then
            pendingMid == model.pending.value.mid && pendingToken == model.pending.value.ticket.token
          else pendingMid == -1)
      && outbox == Messages(model)
      && ackReady == model.ack.Some? && (ackReady ==> ackToken == model.ack.value.token)
      && backoffMs == BackoffAfter(failures)
    }

    constructor (takes: nat -> bool)
      ensures Linked() && model == START && run == [] && !configured && !started && this.takes == takes
    {
      this.takes, offered := takes, 0;
      configured, started, connected, attemptInProgress := false, false, false, false;
      nextAttemptMs, backoffMs := 0, RECONNECT_BACKOFF_MIN_MS;
      pendingMid, pendingToken, pendingStartedMs := -1, 0, 0;
      ackReady, ackToken, ackAtMs, outbox := false, 0, 0, map[];
      failures, model, run := 0, START, [];
    }

    /** The client of the next boot: nothing of the last one is in memory. */
    constructor AfterPowerCut(bootId: nat, takes: nat -> bool, ghost s: State, ghost steps: seq<Step>)
      requires IsRun(START, steps) && Run(START, steps) == s && bootId > s.boot
      ensures Linked() && model == Next(s, PowerCut(bootId)) && run == steps + [PowerCut(bootId)]
      ensures this.takes == takes
    {
      hide IsRun, Run;
      this.takes, offered := takes, 0;
      configured, started, connected, attemptInProgress := false, false, false, false;
      nextAttemptMs, backoffMs := 0, RECONNECT_BACKOFF_MIN_MS;
      pendingMid, pendingToken, pendingStartedMs := -1, 0, 0;
      ackReady, ackToken, ackAtMs, outbox := false, 0, 0, map[];
      failures, model, run := 0, s, steps;
      new;
      Take(PowerCut(bootId));
    }

    function Noted(): Note
      reads this
    {
      Note(pendingMid, pendingToken, pendingStartedMs)
    }

    ghost predicate InRun()
      reads this
    {
      IsRun(START, run) && Run(START, run) == model
    }

    /** Extends the run by one step. */
    ghost method Take(step: Step)
      requires IsRun(START, run) && Run(START, run) == model && Enabled(model, step)
      modifies this`model, this`run
      ensures IsRun(START, run) && Run(START, run) == model == Next(old(model), step)
      ensures run == old(run) + [step]
    {
      hide IsRun, Run, Enabled, Next;
      var longer, t := Extend(run, model, step);
      model, run := t, longer;
    }

    // ---------- the event thread ----------

    method HandleConnected()
      requires Linked()
      modifies this
      ensures offered == old(offered)
      ensures Linked() && connected && model == old(model).(connected := true) && run == old(run) + [Connect]
      ensures backoffMs == RECONNECT_BACKOFF_MIN_MS && !attemptInProgress
      ensures Noted() == old(Noted())
    {
      hide IsRun, Run;
      connected, attemptInProgress, backoffMs := true, false, RECONNECT_BACKOFF_MIN_MS;
      failures := 0;
      Take(Connect);
    }

    method HandleDisconnected(nowMs: nat)
      requires Linked()
      modifies this
      ensures offered == old(offered)
      ensures Linked() && !connected && model == old(model).(connected := false) && run == old(run) + [Disconnect]
      ensures nextAttemptMs == (nowMs + old(backoffMs)) % CLOCK && !attemptInProgress
      ensures Noted() == old(Noted())
    {
      hide IsRun, Run;
      connected, attemptInProgress := false, false;
      ScheduleReconnect(nowMs);
      Take(Disconnect);
    }

    method ScheduleReconnect(nowMs: nat)
      requires backoffMs == BackoffAfter(failures)
      modifies this`nextAttemptMs, this`backoffMs, this`failures
      ensures nextAttemptMs == (nowMs + old(backoffMs)) % CLOCK
      ensures failures == old(failures) + 1 && backoffMs == BackoffAfter(failures)
    {
      nextAttemptMs := (nowMs + backoffMs) % CLOCK;
      if backoffMs < RECONNECT_BACKOFF_MAX_MS {
        backoffMs := backoffMs * 2;
        if backoffMs > RECONNECT_BACKOFF_MAX_MS {
          backoffMs := RECONNECT_BACKOFF_MAX_MS;
        }
      }
      failures := failures + 1;
    }

    /**
     The PUBACK of any message. That of the pending publish moves its token into the acknowledgement
     slot. Messages of other kinds have ids of their own, which change nothing. The broker acknowledges
     only what it has taken, and an id that is still noted is not given to another message.
     */
    method HandlePublished(messageId: nat, nowMs: nat)
      requires Linked() && if messageId in outbox then outbox[messageId].taken else messageId != pendingMid
      modifies this
      ensures offered == old(offered)
      ensures Linked() && OnlyEvents(old(model), model)
      ensures if messageId in old(outbox)
              then Stepped(old(model), Published(messageId), model) && run == old(run) + [Published(messageId)]
              else model == old(model) && run == old(run) && outbox == old(outbox)
      ensures messageId == old(pendingMid) ==>
                pendingMid == -1 && ackReady && ackToken == old(pendingToken) && ackAtMs == nowMs
      ensures messageId != old(pendingMid) ==>
                Noted() == old(Noted())
                && ackReady == old(ackReady) && ackToken == old(ackToken) && ackAtMs == old(ackAtMs)
      ensures connected == old(connected) && backoffMs == old(backoffMs) && nextAttemptMs == old(nextAttemptMs)
    {
      hide IsRun, Run, Next, Enabled, BackoffAfter, Messages;
      if messageId == pendingMid {
        SettlePending(messageId, nowMs);
      } else if messageId in outbox {
        SettleOther(messageId);
      }
    }

    method SettlePending(messageId: nat, nowMs: nat)
      requires Linked() && messageId in outbox && outbox[messageId].taken && messageId == pendingMid
      modifies this`ackToken, this`ackAtMs, this`ackReady, this`pendingMid, this`pendingToken, this`pendingStartedMs,
               this`outbox, this`model, this`run
      ensures Enabled(old(model), Published(messageId)) && OnlyEvents(old(model), model)
      ensures Linked() && model == Next(old(model), Published(messageId)) && run == old(run) + [Published(messageId)]
      ensures pendingMid == -1 && ackReady && ackToken == old(pendingToken) && ackAtMs == nowMs
    {
      PublishedIs(model, messageId);
      hide IsRun, Run, Next, Enabled, OnlyEvents, BackoffAfter, Messages;
      MoveToSlot(nowMs);
      outbox := outbox - {messageId};
      Take(Published(messageId));
    }

    method MoveToSlot(nowMs: nat)
      modifies this`ackToken, this`ackAtMs, this`ackReady, this`pendingMid, this`pendingToken, this`pendingStartedMs
      ensures ackToken == old(pendingToken) && ackAtMs == nowMs && ackReady
      ensures pendingMid == -1 && pendingToken == 0 && pendingStartedMs == 0
    {
      ackToken, ackAtMs, ackReady := pendingToken, nowMs, true;
      pendingMid, pendingToken, pendingStartedMs := -1, 0, 0;
    }

    method SettleOther(messageId: nat)
      requires Linked() && messageId in outbox && outbox[messageId].taken && messageId != pendingMid
      modifies this`outbox, this`model, this`run
      ensures Enabled(old(model), Published(messageId)) && OnlyEvents(old(model), model)
      ensures Linked() && model == Next(old(model), Published(messageId)) && run == old(run) + [Published(messageId)]
    {
      PublishedIs(model, messageId);
      hide IsRun, Run, Next, Enabled, OnlyEvents, BackoffAfter, Messages;
      outbox := outbox - {messageId};
      Take(Published(messageId));
    }

    /** Whatever the event thread and the broker do between two actions of the main loop. */
    method EventThread(nowMs: nat)
      requires Linked()
      modifies this
      ensures offered == old(offered)
      ensures Linked() && OnlyEvents(old(model), model) && Did(old(run), run, []) && NoteKept(old(Noted()), Noted())
    {
      hide IsRun, Run, Did, Next, Enabled;
      DidNothing(run);
      var events: nat :| true;
      for i := 0 to events
        invariant offered == old(offered)
        invariant Linked() && OnlyEvents(old(model), model) && Did(old(run), run, []) && NoteKept(old(Noted()), Noted())
      {
        ghost var before := run;
        OneEvent(nowMs);
        DidBoth(old(run), before, run, [], []);
      }
    }

    /** One event: a message the broker has taken may wait for its PUBACK for any time. */
    method OneEvent(nowMs: nat)
      requires Linked()
      modifies this
      ensures offered == old(offered)
      ensures Linked() && OnlyEvents(old(model), model) && Did(old(run), run, []) && NoteKept(old(Noted()), Noted())
    {
      hide IsRun, Run, Did;
      DidNothing(run);
      var mid: nat :| true;
      if * {
        HandleConnected();
        DidOne(old(run), run, Connect);
      } else if * {
        HandleDisconnected(nowMs);
        DidOne(old(run), run, Disconnect);
      } else if * {
        if mid in outbox && connected {
          BrokerReceives(mid);
          DidOne(old(run), run, Deliver(mid));
        }
      } else {
        if (mid in outbox && outbox[mid].taken) || (mid !in outbox && mid != pendingMid) {
          HandlePublished(mid, nowMs);
          if run != old(run) {
            DidOne(old(run), run, Published(mid));
          }
        }
      }
    }

    /** The broker takes a copy of a message in the outbox. */
    method BrokerReceives(mid: nat)
      requires Linked() && mid in outbox && connected
      modifies this`outbox, this`model, this`run
      ensures Linked() && OnlyEvents(old(model), model) && run == old(run) + [Deliver(mid)]
    {
      hide IsRun, Run;
      outbox := outbox[mid := outbox[mid].(taken := true)];
      Take(Deliver(mid));
    }

    // ---------- the main loop ----------

    /** Takes the acknowledgement slot. */
    method TakeTelemetryAck() returns (available: bool, token: nat, acknowledgedAtMs: nat)
      requires Linked() && model.pc == Idle
      modifies this`ackReady, this`model, this`run
      ensures Linked() && model == Next(old(model), TakeAck) && run == old(run) + [TakeAck]
      ensures available == old(ackReady) && available == model.pc.Taken?
      ensures available ==> token == ackToken == model.pc.ticket.token && acknowledgedAtMs == ackAtMs
    {
      hide IsRun, Run;
      available, token, acknowledgedAtMs := ackReady, 0, 0;
      if ackReady {
        token, acknowledgedAtMs, ackReady := ackToken, ackAtMs, false;
      }
      Take(TakeAck);
    }

    method HasPendingTelemetry() returns (pending: bool)
      requires Linked()
      ensures pending == model.pending.Some?
    {
      pending := pendingMid >= 0;
    }

    /** Hands a message to the library, which takes it or not; one that it takes has an id not in use. */
    method PublishTo(payload: string) returns (messageId: int)
      requires Linked() && model.pc.Marked? && model.pending == None
      requires Outgoing(model.pc.entry.payload, model.pc.replayed) == Some(payload)
      modifies this`outbox, this`model, this`run, this`offered
      ensures Linked() && messageId >= -1
      ensures messageId >= 0 <==> connected && payload != "" && takes(old(offered))
      ensures offered == old(offered) + if connected && payload != "" then 1 else 0
      ensures if messageId == -1
              then model == Next(old(model), Publish(false, 0)) && run == old(run) + [Publish(false, 0)]
              else Enabled(old(model), Publish(true, messageId)) && model == Next(old(model), Publish(true, messageId))
                   && run == old(run) + [Publish(true, messageId)]
    {
      hide IsRun, Run, Outgoing, BackoffAfter;
      if connected && payload != "" {
        offered := offered + 1;
        if takes(offered - 1) {
          FreeId(outbox);
          var mid: nat :| mid !in outbox;
          IntoOutbox(mid, payload);
          return mid;
        }
      }
      Take(Publish(false, 0));
      return -1;
    }

    method IntoOutbox(mid: nat, payload: string)
      requires Linked() && model.pc.Marked? && model.pending == None && mid !in outbox
      requires Outgoing(model.pc.entry.payload, model.pc.replayed) == Some(payload)
      modifies this`outbox, this`model, this`run
      ensures Linked() && Enabled(old(model), Publish(true, mid))
      ensures model == Next(old(model), Publish(true, mid)) && run == old(run) + [Publish(true, mid)]
    {
      hide IsRun, Run, Outgoing, BackoffAfter;
      outbox := outbox[mid := Message(payload, false)];
      Take(Publish(true, mid));
    }

    /**
     Publishes a stamped record with its payload. Between handing it over and noting it as pending, the
     event thread may already see its PUBACK, which is then not recognised. The clock is read when the
     publish is noted. The library is offered the message unless one is pending or there is no connection.
     */
    method PublishTelemetry(payload: string, token: nat, nowMs: nat) returns (ok: bool)
      requires Linked() && model.pc.Marked? && token == ReplayToken(model.pc.entry.id)
      requires Outgoing(model.pc.entry.payload, model.pc.replayed) == Some(payload)
      modifies this
      ensures Linked() && model.pc == Idle
      ensures QueueKept(old(model), model)
      ensures offered == old(offered) + if old(pendingMid) < 0 && old(connected) && payload != "" then 1 else 0
      ensures ok <==> offered == old(offered) + 1 && takes(old(offered))
      ensures ok ==> pendingMid >= 0 && pendingToken == token && pendingStartedMs == nowMs
                     && model.sent == old(model.sent) + {old(model).pc.entry.serial}
                     && Did(old(run), run, [Publish(true, pendingMid), SetPending])
      ensures !ok ==> model.sent == old(model.sent) && Did(old(run), run, [Publish(false, 0)])
      ensures !ok ==> Noted() == old(Noted())
    {
      hide IsRun, Run, Did, Outgoing, BackoffAfter;
      if pendingMid >= 0 {
        Take(Publish(false, 0));
        DidOne(old(run), run, Publish(false, 0));
        return false;
      }
      var messageId := PublishTo(payload);
      DidOne(old(run), run, if messageId == -1 then Publish(false, 0) else Publish(true, messageId));
      if messageId < 0 {
        return false;
      }
      AwaitAndNote(messageId, token, nowMs, old(run));
      return true;
    }

    /** The event thread runs, and then the message is noted as pending. */
    method AwaitAndNote(messageId: nat, token: nat, nowMs: nat, ghost before: seq<Step>)
      requires Linked() && model.pc.Handed? && model.pc.mid == messageId && model.pc.issued.token == token
      requires Did(before, run, [Publish(true, messageId)])
      modifies this
      ensures offered == old(offered)
      ensures Linked() && model.pc == Idle && QueueKept(old(model), model) && model.sent == old(model.sent)
      ensures Noted() == Note(messageId, token, nowMs)
      ensures Did(before, run, [Publish(true, messageId), SetPending])
    {
      hide IsRun, Run, Did, BackoffAfter;
      EventThread(nowMs);
      DidBoth(before, old(run), run, [Publish(true, messageId)], []);
      ghost var middle := run;
      pendingMid, pendingToken, pendingStartedMs := messageId, token, nowMs;
      Take(SetPending);
      DidOne(middle, run, SetPending);
      DidBoth(before, middle, run, [Publish(true, messageId)] + [], [SetPending]);
      assert [Publish(true, messageId)] + [] + [SetPending] == [Publish(true, messageId), SetPending];
    }

    /**
     Gives up on a publish whose PUBACK is overdue, so that its record can be sent again. A publish
     noted at clock reading zero never expires.
     */
    method ExpirePendingTelemetry(nowMs: nat)
      requires Linked() && model.pc == Idle
      modifies this
      ensures offered == old(offered)
      ensures Linked()
      ensures if Overdue(old(pendingMid), old(pendingStartedMs), nowMs)
              then model == old(model).(pending := None) && run == old(run) + [Expire]
              else model == old(model) && run == old(run) && Noted() == old(Noted())
      ensures configured == old(configured) && started == old(started) && connected == old(connected)
      ensures attemptInProgress == old(attemptInProgress) && nextAttemptMs == old(nextAttemptMs)
      ensures backoffMs == old(backoffMs) && failures == old(failures)
    {
      hide IsRun, Run;
      if pendingMid >= 0 && pendingStartedMs != 0 && Elapsed(nowMs, pendingStartedMs) >= MQTT_PUBACK_TIMEOUT_MS {
        pendingMid, pendingToken, pendingStartedMs := -1, 0, 0;
        Take(Expire);
      }
    }

    /**
     Gives up on an overdue publish, then starts or reconnects the library when that is due. A
     refused attempt is scheduled again after the current delay, and the delay grows.
     */
    method Update(nowMs: nat, networkReady: bool) returns (attempted: bool)
      requires Linked() && model.pc == Idle
      modifies this
      ensures offered == old(offered)
      ensures Linked()
      ensures if Overdue(old(pendingMid), old(pendingStartedMs), nowMs)
              then model == old(model).(pending := None) && run == old(run) + [Expire]
              else model == old(model) && run == old(run) && Noted() == old(Noted())
      ensures attempted <==> old(configured) && networkReady && Reached(nowMs, old(nextAttemptMs))
                             && (!old(started) || (!old(connected) && !old(attemptInProgress)))
      ensures !attempted || (started && attemptInProgress) ==>
                nextAttemptMs == old(nextAttemptMs) && failures == old(failures)
      ensures attempted && !(started && attemptInProgress) ==>
                nextAttemptMs == (nowMs + old(backoffMs)) % CLOCK && failures == old(failures) + 1
    {
      hide IsRun, Run, BackoffAfter;
      ExpirePendingTelemetry(nowMs);
      attempted := configured && networkReady && Reached(nowMs, nextAttemptMs)
                   && (!started || (!connected && !attemptInProgress));
      if attempted {
        if * {
          started, attemptInProgress := true, true;
        } else {
          ScheduleReconnect(nowMs);
        }
      }
    }
  }

  lemma FreeId(outbox: map<nat, Message>)
    ensures exists mid: nat :: mid !in outbox
  {
    var largest := Largest(outbox.Keys);
    assert largest + 1 !in outbox;
  }

  lemma {:induction false} Largest(ids: set<nat>) returns (bound: nat)
    ensures forall id :: id in ids ==> id <= bound
    decreases ids
  {
    bound := 0;
    if id :| id in ids {
      var rest := Largest(ids - {id});
      bound := if rest < id then id else rest;
      assert forall other :: other in ids ==> other == id || other in ids - {id};
    }
  }

  /**
     In true time: a publish noted at time `t`, whose reading is not zero, is overdue at a later time less
     than one turn of the clock away exactly when thirty seconds have passed.
   */
  lemma OverdueIsExact(mid: nat, t: nat, now: nat)
    requires t <= now < t + CLOCK && t % CLOCK != 0
    ensures Overdue(mid, t % CLOCK, now % CLOCK) <==> now - t >= 30000
  {
    WrappedDifference(now, t);
  }

  /**
     A publish and the wait for its PUBACK, over any updates at later times with any events in between.
     While the same publish is pending, no update came thirty seconds or more after it was noted; and it
     was given up only by such an update. After one, nothing is pending, so a record can be sent again.
   */
  method PublishAndWait(c: Client, payload: string, token: nat, t: nat, times: seq<nat>)
    returns (ok: bool, ghost gaveUp: seq<nat>)
    requires c.Linked() && c.model.pc.Marked? && token == ReplayToken(c.model.pc.entry.id)
    requires Outgoing(c.model.pc.entry.payload, c.model.pc.replayed) == Some(payload) && t % CLOCK != 0
    requires forall i :: 0 <= i < |times| ==> t <= times[i] < t + CLOCK
    modifies c
    ensures c.Linked() && c.model.pc == Idle
    ensures ok && c.model.pending.Some? ==> forall i :: 0 <= i < |times| ==> times[i] - t < 30000
    ensures ok ==> |gaveUp| <= 1 && forall i :: i in gaveUp ==> i < |times| && times[i] - t >= 30000
    ensures ok && gaveUp != [] ==> c.model.pending == None
  {
    hide IsRun, Run, Outgoing, BackoffAfter, Did;
    gaveUp := [];
    ok := c.PublishTelemetry(payload, token, t % CLOCK);
    if !ok {
      return;
    }
    ghost var mid := c.pendingMid;
    for i := 0 to |times|
      invariant c.Linked() && c.model.pc == Idle
      invariant c.model.pending.Some? ==> c.Noted() == Note(mid, token, t % CLOCK) && gaveUp == []
      invariant c.model.pending.Some? ==> forall j :: 0 <= j < i ==> times[j] - t < 30000
      invariant |gaveUp| <= 1 && forall j :: j in gaveUp ==> j < i && times[j] - t >= 30000
    {
      c.EventThread(times[i] % CLOCK);
      ghost var pending := c.model.pending.Some?;
      if pending {
        OverdueIsExact(mid, t, times[i]);
      }
      var attempted := c.Update(times[i] % CLOCK, true);
      if pending && c.model.pending.None? {
        gaveUp := [i];
      }
    }
  }

  predicate Overdue(pendingMid: int, startedMs: nat, nowMs: nat) {
    pendingMid >= 0 && startedMs != 0 && Elapsed(nowMs, startedMs) >= MQTT_PUBACK_TIMEOUT_MS
  }
}
