/**
 The delivery protocol: the main loop, the MQTT event thread and the broker as steps over one
 state. A run is any interleaving of these steps, with a power cut possible between any two.

 Each record carries a serial number, its position among all samples ever accepted, and each
 publish a ticket saying which sample it was for. The program has neither: they exist to state
 what must hold.
 */
module Delivery {
  import opened OfflineQueuePolicy

  datatype Entry = Entry(
    id: nat, deferred: bool, attempts: nat, boot: nat, payload: string, serial: nat, tries: nat)

  /** A publish: the token the program keeps, and the sample and queue epoch it was issued for. */
  datatype Ticket = Ticket(token: nat, serial: nat, epoch: nat)

  datatype Pending = Pending(mid: nat, ticket: Ticket)

  /** A message in the client's outbox. */
  datatype Copy = Copy(serial: nat, payload: string, replayed: bool, delivered: bool)

  /** A message the broker has received. */
  datatype Receipt = Receipt(serial: nat, payload: string)

  /** Where the main loop is between two steps. */
  datatype Main =
    | Idle
    | Taken(ticket: Ticket)
    | Checking
    | Clear
    | Offering(entry: Entry, replayed: bool)
    | Marked(entry: Entry, replayed: bool)
    | Handed(mid: nat, issued: Ticket)

  datatype State = State(
    ready: bool, fifo: seq<Entry>, boot: nat,
    connected: bool, pending: Option<Pending>, ack: Option<Ticket>, outbox: map<nat, Copy>, pc: Main,
    accepted: seq<string>, epoch: nat,
    sent: set<nat>, received: set<nat>, inbox: set<Receipt>, acked: set<nat>, dropped: set<nat>, lost: set<nat>)

  datatype Step =
    | Mount | Unmount | Append(payload: string, deferred: bool) | Drop
    | TakeAck | HandleAck(removed: bool) | Skip | Check | Offer | Mark(marked: bool)
    | Publish(queued: bool, mid: nat) | SetPending | Expire
    | Connect | Disconnect | Deliver(mid: nat) | Published(mid: nat)
    | PowerCut(bootId: nat)

  const START := State(false, [], 1, false, None, None, map[], Idle, [], 0, {}, {}, {}, {}, {}, {})

  /** The id of the next record: one more than the last, and one for an empty queue. */
  function NextId(fifo: seq<Entry>): nat {
    if fifo == [] then 1 else fifo[|fifo| - 1].id + 1
  }

  /** The head leaves; when it was the only record, the ids start again and a new epoch begins. */
  function WithoutHead(s: State): State
    requires s.fifo != []
  {
    s.(fifo := s.fifo[1..], epoch := if |s.fifo| == 1 then s.epoch + 1 else s.epoch)
  }

  predicate Matches(s: State, t: Ticket) {
    s.ready && IsReplayToken(t.token) && s.fifo != [] && s.fifo[0].id == RecordIdFromToken(t.token)
  }

  /** Whether the head goes out marked as replayed. */
  predicate HeadIsReplay(s: State)
    requires s.fifo != []
  {
    var e := s.fifo[0];
    ShouldMarkReplayed(e.deferred, e.attempts, e.boot, s.boot)
  }

  function Stamped(e: Entry): Entry {
    e.(attempts := (e.attempts + 1) % TWO_32, tries := e.tries + 1)
  }

  /**
     What may happen next. The connection flag can change between any two reads of it, so it limits
     only what the broker receives, and not what the main loop puts in the outbox.
   */
  predicate Enabled(s: State, step: Step) {
    match step
    case Mount => s.pc == Idle
    case Unmount => s.pc == Idle
    case Append(_, _) => s.pc == Idle && s.ready && NextId(s.fifo) <= RECORD_ID_MASK
    case Drop => s.pc == Idle && s.ready && s.fifo != []
    case TakeAck => s.pc == Idle
    case HandleAck(_) => s.pc.Taken?
    case Skip => s.pc == Checking || s.pc == Clear
    case Check => s.pc == Checking && s.pending == None && s.ready && s.fifo != []
    case Offer => s.pc == Clear && s.ready && s.fifo != [] && Outgoing(s.fifo[0].payload, HeadIsReplay(s)).Some?
    case Mark(_) => s.pc.Offering? && s.fifo != []
    case Publish(queued, mid) =>
      s.pc.Marked?
      && (queued ==> s.pending == None && mid !in s.outbox && Outgoing(s.pc.entry.payload, s.pc.replayed).Some?)
    case SetPending => s.pc.Handed?
    case Expire => s.pc == Idle
    case Connect => true
    case Disconnect => true
    case Deliver(mid) => s.connected && mid in s.outbox
    case Published(mid) => mid in s.outbox && s.outbox[mid].delivered
    case PowerCut(bootId) => bootId > s.boot
  }

  function Next(s: State, step: Step): State
    requires Enabled(s, step)
  {
    match step
    case Mount => s.(ready := true)
    case Unmount => s.(ready := false)
    case Append(payload, deferred) =>
      s.(fifo := s.fifo + [Entry(NextId(s.fifo), deferred, 0, s.boot, payload, |s.accepted|, 0)],
         accepted := s.accepted + [payload])
    case Drop => WithoutHead(s).(dropped := s.dropped + {s.fifo[0].serial})
    case TakeAck => if s.ack.Some? then s.(ack := None, pc := Taken(s.ack.value)) else s.(pc := Checking)
    case HandleAck(removed) =>
      if Matches(s, s.pc.ticket) && removed then
        WithoutHead(s).(pc := Checking,
                        lost := if s.fifo[0].serial in s.acked then s.lost else s.lost + {s.fifo[0].serial})
      else s.(pc := Checking)
    case Skip => s.(pc := Idle)
    case Check => s.(pc := Clear)
    case Offer => s.(pc := Offering(s.fifo[0], HeadIsReplay(s)))
    case Mark(marked) =>
      if marked then s.(fifo := [Stamped(s.fifo[0])] + s.fifo[1..], pc := Marked(s.pc.entry, s.pc.replayed))
      else s.(pc := Idle)
    case Publish(queued, mid) =>
      if queued then
        var e := s.pc.entry;
        var payload := Outgoing(e.payload, s.pc.replayed).value;
        s.(outbox := s.outbox[mid := Copy(e.serial, payload, s.pc.replayed, false)], sent := s.sent + {e.serial},
           pc := Handed(mid, Ticket(ReplayToken(e.id), e.serial, s.epoch)))
      else s.(pc := Idle)
    case SetPending => s.(pending := Some(Pending(s.pc.mid, s.pc.issued)), pc := Idle)
    case Expire => s.(pending := None)
    case Connect => s.(connected := true)
    case Disconnect => s.(connected := false)
    case Deliver(mid) =>
      var c := s.outbox[mid];
      s.(outbox := s.outbox[mid := c.(delivered := true)], received := s.received + {c.serial},
         inbox := s.inbox + {Receipt(c.serial, c.payload)})
    case Published(mid) =>
      var after := s.(outbox := s.outbox - {mid}, acked := s.acked + {s.outbox[mid].serial});
      if s.pending.Some? && s.pending.value.mid == mid then after.(ack := Some(s.pending.value.ticket), pending := None)
      else after
    case PowerCut(bootId) =>
      s.(ready := false, boot := bootId, connected := false, pending := None, ack := None, outbox := map[], pc := Idle)
  }

  /** The step may be taken and leads from one state to the other. */
  ghost predicate Stepped(s: State, step: Step, t: State) {
    Enabled(s, step) && t == Next(s, step)
  }

  predicate IsRun(s: State, steps: seq<Step>)
    decreases |steps|, 0
  {
    steps == [] || (IsRun(s, steps[..|steps| - 1]) && Enabled(Run(s, steps[..|steps| - 1]), steps[|steps| - 1]))
  }

  /** The state after a run. */
  function Run(s: State, steps: seq<Step>): State
    requires IsRun(s, steps)
    decreases |steps|, 1
  {
    if steps == [] then s else Next(Run(s, steps[..|steps| - 1]), steps[|steps| - 1])
  }

  // ---------- invariants ----------

  /** Ids and serials grow along the queue. */
  ghost predicate QueueOk(s: State) {
    && (forall i :: 0 <= i < |s.fifo| ==>
          1 <= s.fifo[i].id <= RECORD_ID_MASK && s.fifo[i].serial < |s.accepted|
          && s.fifo[i].payload == s.accepted[s.fifo[i].serial] && s.fifo[i].attempts == s.fifo[i].tries % TWO_32
             && s.fifo[i].boot <= s.boot)
    && (forall i, j :: 0 <= i < j < |s.fifo| ==> s.fifo[i].id < s.fifo[j].id && s.fifo[i].serial < s.fifo[j].serial)
  }

  ghost predicate OnDisk(s: State, serial: nat) {
    exists i :: 0 <= i < |s.fifo| && s.fifo[i].serial == serial
  }

  /** No accepted sample disappears without being accounted for. */
  ghost predicate Accounted(s: State) {
    forall n: nat :: n < |s.accepted| ==> OnDisk(s, n) || n in s.acked || n in s.dropped || n in s.lost
  }

  /** The main loop's notes about the head are up to date. */
  ghost predicate NotesOk(s: State) {
    && (s.pc.Offering? ==> s.fifo != [] && s.fifo[0] == s.pc.entry
                           && s.pc.replayed == ShouldMarkReplayed(s.pc.entry.deferred, s.pc.entry.attempts,
                                                                  s.pc.entry.boot, s.boot))
    && (s.pc.Marked? ==> s.fifo != [] && s.fifo[0] == Stamped(s.pc.entry)
                         && s.pc.replayed == ShouldMarkReplayed(s.pc.entry.deferred, s.pc.entry.attempts,
                                                                s.pc.entry.boot, s.boot))
  }

  /**
     What a ticket is worth: while its epoch lasts, its id names its sample and no other; after that
     its sample is gone from the queue.
   */
  ghost predicate TicketOk(s: State, t: Ticket) {
    && IsReplayToken(t.token) && t.serial < |s.accepted| && t.epoch <= s.epoch
    && (t.epoch == s.epoch ==>
          s.fifo != [] && RecordIdFromToken(t.token) < NextId(s.fifo)
          && forall i :: 0 <= i < |s.fifo| && s.fifo[i].id == RecordIdFromToken(t.token) ==>
               s.fifo[i].serial == t.serial)
    && (t.epoch < s.epoch ==> !OnDisk(s, t.serial))
  }

  /** The message with this id, while in the outbox, is the one the ticket was issued for. */
  predicate Carries(s: State, mid: nat, t: Ticket) {
    mid in s.outbox ==> s.outbox[mid].serial == t.serial
  }

  ghost predicate TicketsOk(s: State) {
    && (s.pending.Some? ==> TicketOk(s, s.pending.value.ticket)
                            && Carries(s, s.pending.value.mid, s.pending.value.ticket))
    && (s.pc.Handed? ==> TicketOk(s, s.pc.issued) && Carries(s, s.pc.mid, s.pc.issued))
    && (s.ack.Some? ==> TicketOk(s, s.ack.value) && s.ack.value.serial in s.acked)
    && (s.pc.Taken? ==> TicketOk(s, s.pc.ticket) && s.pc.ticket.serial in s.acked)
  }

  /** Nothing older than this sample still waits for its first delivery. */
  ghost predicate Settled(s: State, serial: nat) {
    forall m: nat :: m < serial ==> m in s.received || m in s.dropped || m in s.lost
  }

  ghost predicate OrderOk(s: State) {
    && s.acked <= s.received && s.received <= s.sent && (forall n :: n in s.sent ==> n < |s.accepted|)
    && forall mid :: mid in s.outbox ==> CopyOk(s, s.outbox[mid])
  }

  ghost predicate CopyOk(s: State, c: Copy) {
    && Settled(s, c.serial) && c.serial in s.sent && (c.delivered ==> c.serial in s.received)
    && c.serial < |s.accepted| && Outgoing(s.accepted[c.serial], c.replayed) == Some(c.payload)
  }

  /** What the broker received is a sample as it was accepted, or marked as replayed. */
  predicate Genuine(accepted: seq<string>, r: Receipt) {
    r.serial < |accepted| && (r.payload == accepted[r.serial] || MarkReplayed(accepted[r.serial]) == Some(r.payload))
  }

  ghost predicate InboxOk(s: State) {
    && (forall r :: r in s.inbox ==> r.serial in s.received && Genuine(s.accepted, r))
    && forall n :: n in s.received ==> exists r :: r in s.inbox && r.serial == n
  }

  /** What was ever sent has been stamped first. */
  ghost predicate StampsOk(s: State) {
    forall i :: 0 <= i < |s.fifo| && s.fifo[i].serial in s.sent ==> s.fifo[i].tries > 0
  }

  /** A stamped entry that is about to be sent was sent before only if it had been stamped before. */
  ghost predicate ResendsOk(s: State) {
    s.pc.Marked? || s.pc.Offering? ==>
      s.pc.entry.attempts == s.pc.entry.tries % TWO_32 && (s.pc.entry.serial in s.sent ==> s.pc.entry.tries > 0)
  }

  /** What was lost is no longer on disk. */
  ghost predicate LostOk(s: State) {
    forall n :: n in s.lost ==> n < |s.accepted| && !OnDisk(s, n)
  }

  ghost predicate Inv(s: State) {
    QueueOk(s) && Accounted(s) && LostOk(s) && NotesOk(s) && TicketsOk(s) && OrderOk(s) && InboxOk(s) && StampsOk(s)
    && ResendsOk(s)
  }

  lemma QueueStep(s: State, step: Step)
    requires QueueOk(s) && NotesOk(s) && Enabled(s, step)
    ensures QueueOk(Next(s, step))
  {
    var t := Next(s, step);
    if t.fifo == s.fifo {
      SameQueueOk(s, t);
    } else if step.Append? {
      QueueOverAppend(s, step);
    } else if step.Mark? {
      QueueOverMark(s, step);
    } else {
      QueueOverRemoval(s, t);
    }
  }

  lemma QueueOverAppend(s: State, step: Step)
    requires QueueOk(s) && Enabled(s, step) && step.Append?
    ensures QueueOk(Next(s, step))
  {
  }

  lemma QueueOverMark(s: State, step: Step)
    requires QueueOk(s) && Enabled(s, step) && step.Mark?
    ensures QueueOk(Next(s, step))
  {
    var t := Next(s, step);
    AttemptsCount(s.fifo[0].tries);
    assert |t.fifo| == |s.fifo|;
    assert forall i :: 0 <= i < |s.fifo| ==> t.fifo[i].serial == s.fifo[i].serial && t.fifo[i].id == s.fifo[i].id;
    hide Enabled, Next;
  }

  lemma AttemptsCount(tries: nat)
    ensures (tries % TWO_32 + 1) % TWO_32 == (tries + 1) % TWO_32
  {
  }

  lemma QueueOverRemoval(s: State, t: State)
    requires QueueOk(s) && s.fifo != [] && t.fifo == s.fifo[1..] && t.accepted == s.accepted && t.boot == s.boot
    ensures QueueOk(t)
  {
  }

  lemma SameQueueOk(s: State, t: State)
    requires QueueOk(s) && t.fifo == s.fifo && t.accepted == s.accepted && t.boot >= s.boot
    ensures QueueOk(t)
  {
  }

  lemma NotesStep(s: State, step: Step)
    requires NotesOk(s) && Enabled(s, step)
    ensures NotesOk(Next(s, step))
  {
  }

  lemma HeadGone(s: State, n: nat)
    requires s.fifo != [] && OnDisk(s, n)
    ensures n == s.fifo[0].serial || OnDisk(WithoutHead(s), n)
  {
    var i :| 0 <= i < |s.fifo| && s.fifo[i].serial == n;
    if i > 0 {
      assert WithoutHead(s).fifo[i - 1].serial == n;
    }
  }

  lemma AccountedStep(s: State, step: Step)
    requires QueueOk(s) && NotesOk(s) && Accounted(s) && Enabled(s, step)
    ensures Accounted(Next(s, step))
  {
    var t := Next(s, step);
    forall n: nat | n < |t.accepted|
      ensures OnDisk(t, n) || n in t.acked || n in t.dropped || n in t.lost
    {
      if n == |s.accepted| {
        assert t.fifo[|s.fifo|].serial == n;
      } else if OnDisk(s, n) {
        StaysOnDisk(s, step, n);
      }
    }
  }

  lemma LostStep(s: State, step: Step)
    requires QueueOk(s) && NotesOk(s) && LostOk(s) && Enabled(s, step)
    ensures LostOk(Next(s, step))
  {
    var t := Next(s, step);
    if t.fifo != s.fifo {
      forall n: nat | OnDisk(t, n) && n < |s.accepted|
        ensures OnDisk(s, n)
      {
        CameFromDisk(s, step, n);
      }
      assert t.lost == s.lost || (s.fifo != [] && t.fifo == s.fifo[1..] && t.lost == s.lost + {s.fifo[0].serial});
    } else {
      hide QueueOk;
    }
  }

  lemma CameFromDisk(s: State, step: Step, n: nat)
    requires Enabled(s, step) && OnDisk(Next(s, step), n) && n < |s.accepted|
    ensures OnDisk(s, n)
  {
    var t := Next(s, step);
    var i :| 0 <= i < |t.fifo| && t.fifo[i].serial == n;
    if step.Append? || step.Mark? || t.fifo == s.fifo {
      assert s.fifo[i].serial == n;
    } else {
      assert s.fifo[i + 1].serial == n;
    }
  }

  lemma StaysOnDisk(s: State, step: Step, n: nat)
    requires NotesOk(s) && Enabled(s, step) && OnDisk(s, n)
    ensures var t := Next(s, step); OnDisk(t, n) || n in t.acked || n in t.dropped || n in t.lost
  {
    var t := Next(s, step);
    if t.fifo != s.fifo {
      var i :| 0 <= i < |s.fifo| && s.fifo[i].serial == n;
      if step.Append? || step.Mark? {
        assert t.fifo[i].serial == n;
      } else {
        HeadGone(s, n);
        assert OnDisk(WithoutHead(s), n) ==> OnDisk(t, n);
      }
    }
  }

  /** A ticket keeps its worth over a step that does not change the queue, and when the queue moves on. */
  lemma TicketStep(s: State, step: Step, t: Ticket)
    requires QueueOk(s) && NotesOk(s) && Enabled(s, step) && TicketOk(s, t)
    ensures TicketOk(Next(s, step), t)
  {
    var after := Next(s, step);
    if after.fifo == s.fifo {
      SameQueue(s, after, t);
    } else if step.Append? {
      TicketOverAppend(s, step, t);
    } else if step.Mark? {
      TicketOverMark(s, step, t);
    } else {
      TicketOverRemoval(s, after, t);
    }
  }

  lemma SameQueue(s: State, after: State, t: Ticket)
    requires TicketOk(s, t) && after.fifo == s.fifo && after.epoch == s.epoch && after.accepted == s.accepted
    ensures TicketOk(after, t)
  {
  }

  lemma TicketOverAppend(s: State, step: Step, t: Ticket)
    requires QueueOk(s) && Enabled(s, step) && TicketOk(s, t) && step.Append?
    ensures TicketOk(Next(s, step), t)
  {
  }

  lemma TicketOverMark(s: State, step: Step, t: Ticket)
    requires QueueOk(s) && Enabled(s, step) && TicketOk(s, t) && step.Mark?
    ensures TicketOk(Next(s, step), t)
  {
    var after := Next(s, step);
    assert |after.fifo| == |s.fifo| && forall i :: 0 <= i < |s.fifo| ==> after.fifo[i].serial == s.fifo[i].serial;
  }

  lemma TicketOverRemoval(s: State, after: State, t: Ticket)
    requires QueueOk(s) && s.fifo != [] && TicketOk(s, t)
    requires after.fifo == s.fifo[1..] && after.accepted == s.accepted
    requires after.epoch == if |s.fifo| == 1 then s.epoch + 1 else s.epoch
    ensures TicketOk(after, t)
  {
    if |s.fifo| > 1 {
      assert NextId(after.fifo) == NextId(s.fifo);
    }
  }

  /** A ticket issued for the head is worth something. */
  lemma NewTicket(s: State, e: Entry)
    requires QueueOk(s) && s.fifo != [] && s.fifo[0].id == e.id && s.fifo[0].serial == e.serial
    ensures TicketOk(s, Ticket(ReplayToken(e.id), e.serial, s.epoch))
  {
    TokensAreUnambiguous(e.id, 0);
    assert e.id < NextId(s.fifo);
  }

  lemma TicketsStep(s: State, step: Step)
    requires QueueOk(s) && NotesOk(s) && TicketsOk(s) && Enabled(s, step)
    ensures TicketsOk(Next(s, step))
  {
    hide TicketOk, QueueOk, NotesOk;
    if s.pending.Some? {
      TicketStep(s, step, s.pending.value.ticket);
    }
    if s.pc.Handed? {
      TicketStep(s, step, s.pc.issued);
    }
    if s.ack.Some? {
      TicketStep(s, step, s.ack.value);
    }
    if s.pc.Taken? {
      TicketStep(s, step, s.pc.ticket);
    }
    if step.Publish? {
      PublishTicketsOk(s, step);
    } else {
      OtherTicketsOk(s, step);
    }
  }

  lemma PublishTicketsOk(s: State, step: Step)
    requires QueueOk(s) && NotesOk(s) && TicketsOk(s) && Enabled(s, step) && step.Publish?
    ensures TicketsOk(Next(s, step))
  {
    hide TicketOk, QueueOk;
    var t := Next(s, step);
    if step.queued {
      NewTicket(s, s.pc.entry);
      SameQueue(s, t, t.pc.issued);
    }
    if s.ack.Some? {
      SameQueue(s, t, s.ack.value);
    }
    if s.pending.Some? {
      SameQueue(s, t, s.pending.value.ticket);
    }
  }

  lemma OtherTicketsOk(s: State, step: Step)
    requires TicketsOk(s) && Enabled(s, step) && !step.Publish?
    requires s.pending.Some? ==> TicketOk(Next(s, step), s.pending.value.ticket)
    requires s.pc.Handed? ==> TicketOk(Next(s, step), s.pc.issued)
    requires s.ack.Some? ==> TicketOk(Next(s, step), s.ack.value)
    requires s.pc.Taken? ==> TicketOk(Next(s, step), s.pc.ticket)
    ensures TicketsOk(Next(s, step))
  {
    hide TicketOk;
  }

  /** When the head is sent, everything accepted before it has been received, dropped or lost. */
  lemma HeadIsSettled(s: State)
    requires QueueOk(s) && Accounted(s) && s.acked <= s.received && s.fifo != []
    ensures Settled(s, s.fifo[0].serial)
  {
    forall m: nat | m < s.fifo[0].serial
      ensures m in s.received || m in s.dropped || m in s.lost
    {
      assert !OnDisk(s, m);
    }
  }

  lemma CopyStays(s: State, step: Step, c: Copy)
    requires Enabled(s, step) && CopyOk(s, c)
    ensures CopyOk(Next(s, step), c)
  {
    var t := Next(s, step);
    assert s.received <= t.received && s.sent <= t.sent && s.dropped <= t.dropped && s.lost <= t.lost;
    assert t.accepted[..|s.accepted|] == s.accepted;
    hide Enabled, Next, MarkReplayed;
  }

  lemma OutboxStep(s: State, step: Step)
    requires QueueOk(s) && Accounted(s) && NotesOk(s) && OrderOk(s) && Enabled(s, step)
    ensures forall mid :: mid in Next(s, step).outbox ==> CopyOk(Next(s, step), Next(s, step).outbox[mid])
  {
    var t := Next(s, step);
    if step.Publish? && step.queued {
      HeadIsSettled(s);
      NewCopy(s, step);
    }
    hide Settled, QueueOk, Accounted, NotesOk;
    forall mid | mid in t.outbox
      ensures CopyOk(t, t.outbox[mid])
    {
      if mid in s.outbox {
        CopyStays(s, step, s.outbox[mid]);
      }
    }
  }

  lemma NewCopy(s: State, step: Step)
    requires QueueOk(s) && NotesOk(s) && Enabled(s, step) && step.Publish? && step.queued && s.fifo != []
    requires Settled(s, s.fifo[0].serial)
    ensures CopyOk(Next(s, step), Next(s, step).outbox[step.mid])
  {
    assert s.pc.entry.serial == s.fifo[0].serial;
  }

  lemma OrderStep(s: State, step: Step)
    requires QueueOk(s) && Accounted(s) && NotesOk(s) && OrderOk(s) && Enabled(s, step)
    ensures OrderOk(Next(s, step))
  {
    OutboxStep(s, step);
    hide Settled, Accounted;
  }

  lemma InboxStep(s: State, step: Step)
    requires OrderOk(s) && InboxOk(s) && Enabled(s, step)
    ensures InboxOk(Next(s, step))
  {
    hide Settled, MarkReplayed;
    var t := Next(s, step);
    assert t.accepted[..|s.accepted|] == s.accepted;
    if step.Deliver? {
      var c := s.outbox[step.mid];
      assert CopyOk(s, c);
      assert Receipt(c.serial, c.payload) in t.inbox;
    }
    forall n | n in t.received
      ensures exists r :: r in t.inbox && r.serial == n
    {
      if n in s.received {
        var r :| r in s.inbox && r.serial == n;
        assert r in t.inbox;
      }
    }
  }

  lemma StampStep(s: State, step: Step)
    requires QueueOk(s) && NotesOk(s) && OrderOk(s) && StampsOk(s) && Enabled(s, step)
    ensures StampsOk(Next(s, step))
  {
    hide CopyOk, MarkReplayed, ShouldMarkReplayed, Matches;
    if step.Publish? {
      StampOverPublish(s, step);
    } else if step.Drop? || step.HandleAck? {
      StampOverRemoval(s, step);
    } else {
      assert Next(s, step).sent == s.sent;
      if step.Append? {
        assert |s.accepted| !in s.sent;
      }
    }
  }

  lemma StampOverRemoval(s: State, step: Step)
    requires StampsOk(s) && Enabled(s, step) && (step.Drop? || step.HandleAck?)
    ensures StampsOk(Next(s, step))
  {
    var t := Next(s, step);
    hide Matches;
    forall i | 0 <= i < |t.fifo| && t.fifo[i].serial in t.sent
      ensures t.fifo[i].tries > 0
    {
      if t.fifo != s.fifo {
        assert t.fifo[i] == s.fifo[i + 1];
      }
    }
  }

  lemma StampOverPublish(s: State, step: Step)
    requires QueueOk(s) && NotesOk(s) && StampsOk(s) && Enabled(s, step) && step.Publish?
    ensures StampsOk(Next(s, step))
  {
    hide MarkReplayed, ShouldMarkReplayed;
    var t := Next(s, step);
    forall i | 0 <= i < |t.fifo| && t.fifo[i].serial in t.sent
      ensures t.fifo[i].tries > 0
    {
      if i > 0 {
        assert s.fifo[0].serial < s.fifo[i].serial;
      }
    }
  }

  lemma ResendStep(s: State, step: Step)
    requires QueueOk(s) && NotesOk(s) && StampsOk(s) && ResendsOk(s) && Enabled(s, step)
    ensures ResendsOk(Next(s, step))
  {
    hide MarkReplayed, ShouldMarkReplayed, Matches, ReplayToken;
  }

  lemma InvStep(s: State, step: Step)
    requires Inv(s) && Enabled(s, step)
    ensures Inv(Next(s, step))
  {
    hide QueueOk, NotesOk, Accounted, LostOk, TicketsOk, OrderOk, StampsOk, ResendsOk, InboxOk, Next, Enabled;
    QueueStep(s, step);
    NotesStep(s, step);
    AccountedStep(s, step);
    LostStep(s, step);
    TicketsStep(s, step);
    OrderStep(s, step);
    InboxStep(s, step);
    StampStep(s, step);
    ResendStep(s, step);
  }

  lemma {:induction false} InvRun(steps: seq<Step>)
    requires IsRun(START, steps)
    ensures Inv(Run(START, steps))
    decreases |steps|
  {
    if steps != [] {
      InvRun(steps[..|steps| - 1]);
      hide Inv, Next, Enabled;
      InvStep(Run(START, steps[..|steps| - 1]), steps[|steps| - 1]);
    }
  }

  // ---------- results over every run ----------

  /** Every sample ever accepted is on disk, or was delivered and acknowledged, or was dropped, or is lost. */
  lemma NothingVanishes(steps: seq<Step>, n: nat)
    requires IsRun(START, steps) && n < |Run(START, steps).accepted|
    ensures var s := Run(START, steps);
            OnDisk(s, n) || (n in s.acked && n in s.received) || n in s.dropped || n in s.lost
  {
    InvRun(steps);
  }

  /** An acknowledgement meets the record it was sent for exactly when the queue has not emptied since. */
  lemma AckMeetsItsRecord(steps: seq<Step>)
    requires IsRun(START, steps)
    requires Run(START, steps).pc.Taken? && Matches(Run(START, steps), Run(START, steps).pc.ticket)
    ensures var s := Run(START, steps);
            s.fifo[0].serial == s.pc.ticket.serial <==> s.pc.ticket.epoch == s.epoch
  {
    InvRun(steps);
    hide Accounted, OrderOk, StampsOk, ResendsOk, NotesOk, LostOk, IsRun, Run;
    assert TicketOk(Run(START, steps), Run(START, steps).pc.ticket);
  }

  predicate StaleMatch(s: State)
    requires s.pc.Taken?
  {
    Matches(s, s.pc.ticket) && s.pc.ticket.epoch < s.epoch && s.fifo[0].serial !in s.acked
  }

  /**
     Exactly one kind of step loses a sample: an acknowledgement from before the queue emptied meets an
     unacknowledged head.
   */
  lemma OnlyStaleAcksLose(steps: seq<Step>, step: Step)
    requires IsRun(START, steps) && Enabled(Run(START, steps), step)
    ensures var s := Run(START, steps); Next(s, step).lost != s.lost <==> step == HandleAck(true) && StaleMatch(s)
  {
    InvRun(steps);
    LossIsStale(Run(START, steps), step);
  }

  lemma LossIsStale(s: State, step: Step)
    requires LostOk(s) && TicketsOk(s) && QueueOk(s) && Enabled(s, step)
    ensures Next(s, step).lost != s.lost <==> step == HandleAck(true) && StaleMatch(s)
  {
    if step == HandleAck(true) && Matches(s, s.pc.ticket) {
      assert OnDisk(s, s.fifo[0].serial);
      assert s.pc.ticket.epoch == s.epoch ==> s.fifo[0].serial == s.pc.ticket.serial;
    }
    hide QueueOk, TicketOk;
  }

  ghost predicate NoTicket(s: State) {
    s.pending == None && s.ack == None && !s.pc.Taken? && !s.pc.Handed?
  }

  /** The queue never empties with a publish outstanding. */
  ghost predicate Careful(steps: seq<Step>)
    requires IsRun(START, steps)
    decreases |steps|
  {
    steps == []
    || (Careful(steps[..|steps| - 1])
        && (Run(START, steps).epoch != Run(START, steps[..|steps| - 1]).epoch ==> NoTicket(Run(START, steps))))
  }

  ghost predicate AllCurrent(s: State) {
    && (s.pending.Some? ==> s.pending.value.ticket.epoch == s.epoch)
    && (s.pc.Handed? ==> s.pc.issued.epoch == s.epoch)
    && (s.ack.Some? ==> s.ack.value.epoch == s.epoch)
    && (s.pc.Taken? ==> s.pc.ticket.epoch == s.epoch)
  }

  lemma CurrentStep(s: State, step: Step)
    requires AllCurrent(s) && Enabled(s, step) && (Next(s, step).epoch == s.epoch || NoTicket(Next(s, step)))
    ensures AllCurrent(Next(s, step))
  {
    if Next(s, step).epoch == s.epoch {
      CurrentPublishes(s, step);
      CurrentPlaces(s, step);
      hide Next, Enabled;
    } else {
      NoTicketIsCurrent(Next(s, step));
    }
  }

  lemma NoTicketIsCurrent(s: State)
    requires NoTicket(s)
    ensures AllCurrent(s)
  {
  }

  lemma CurrentPublishes(s: State, step: Step)
    requires AllCurrent(s) && Enabled(s, step) && Next(s, step).epoch == s.epoch
    ensures var t := Next(s, step);
            && (t.pending.Some? ==> t.pending.value.ticket.epoch == t.epoch)
            && (t.ack.Some? ==> t.ack.value.epoch == t.epoch)
  {
  }

  lemma CurrentPlaces(s: State, step: Step)
    requires AllCurrent(s) && Enabled(s, step) && Next(s, step).epoch == s.epoch
    ensures var t := Next(s, step);
            && (t.pc.Handed? ==> t.pc.issued.epoch == t.epoch)
            && (t.pc.Taken? ==> t.pc.ticket.epoch == t.epoch)
  {
  }

  /** When the queue never empties with a publish outstanding, nothing is ever lost. */
  lemma {:induction false} NothingLost(steps: seq<Step>)
    requires IsRun(START, steps) && Careful(steps)
    ensures Run(START, steps).lost == {} && AllCurrent(Run(START, steps))
    decreases |steps|
  {
    if steps != [] {
      var before, step := steps[..|steps| - 1], steps[|steps| - 1];
      NothingLost(before);
      OnlyStaleAcksLose(before, step);
      CurrentStep(Run(START, before), step);
    }
  }

  /**
     First deliveries are in order: when the broker receives a copy of a sample, every sample
     accepted before it has been received, dropped or lost already.
   */
  lemma DeliveryIsInOrder(steps: seq<Step>, mid: nat)
    requires IsRun(START, steps) && Enabled(Run(START, steps), Deliver(mid))
    ensures var s := Run(START, steps);
            forall m: nat :: m < s.outbox[mid].serial ==> m in s.received || m in s.dropped || m in s.lost
  {
    InvRun(steps);
    assert Settled(Run(START, steps), Run(START, steps).outbox[mid].serial);
  }

  /** What the broker receives is what was accepted, up to the replay mark, and it receives all that it received. */
  lemma ReceiptsAreGenuine(steps: seq<Step>)
    requires IsRun(START, steps)
    ensures var s := Run(START, steps);
            && (forall r :: r in s.inbox ==> r.serial in s.received && Genuine(s.accepted, r))
            && forall n :: n in s.received ==> exists r :: r in s.inbox && r.serial == n
  {
    InvRun(steps);
    assert InboxOk(Run(START, steps));
  }

  /** An unmarked copy leaves the device only as the first copy of its sample, up to 2^32 attempts. */
  lemma UnmarkedIsFirst(steps: seq<Step>, mid: nat)
    requires IsRun(START, steps) && Enabled(Run(START, steps), Publish(true, mid))
    requires !Run(START, steps).pc.replayed && Run(START, steps).pc.entry.tries < TWO_32
    ensures Run(START, steps).pc.entry.serial !in Run(START, steps).sent
  {
    InvRun(steps);
    hide IsRun, Run;
    UnmarkedFirst(Run(START, steps));
  }

  lemma UnmarkedFirst(s: State)
    requires NotesOk(s) && ResendsOk(s) && s.pc.Marked? && !s.pc.replayed && s.pc.entry.tries < TWO_32
    ensures s.pc.entry.serial !in s.sent
  {
    assert s.pc.entry.attempts == s.pc.entry.tries;
  }

  /** The attempt counter decides the marking, and it wraps. */
  lemma MarkingRule(steps: seq<Step>)
    requires IsRun(START, steps) && Run(START, steps).pc.Offering?
    ensures var s := Run(START, steps);
            !s.pc.replayed <==> !s.pc.entry.deferred && s.pc.entry.boot == s.boot && s.pc.entry.tries % TWO_32 == 0
  {
    InvRun(steps);
    hide Accounted, OrderOk, TicketsOk, LostOk, StampsOk, ResendsOk, IsRun, Run;
  }

  // ---------- what the main loop did ----------

  /** The steps of the event thread and the broker. */
  predicate IsEvent(step: Step) {
    step.Connect? || step.Disconnect? || step.Deliver? || step.Published?
  }

  /** The steps of a run that are the main loop's own. */
  function MainSteps(steps: seq<Step>): seq<Step> {
    if steps == [] then []
    else
      var last := steps[|steps| - 1];
      MainSteps(steps[..|steps| - 1]) + if IsEvent(last) then [] else [last]
  }

  lemma {:induction false} MainStepsJoin(a: seq<Step>, b: seq<Step>)
    ensures MainSteps(a + b) == MainSteps(a) + MainSteps(b)
    decreases |b|
  {
    if b == [] {
      assert a + b == a;
    } else {
      assert (a + b)[..|a + b| - 1] == a + b[..|b| - 1];
      MainStepsJoin(a, b[..|b| - 1]);
    }
  }

  /** The run went on from one point to another, and of the steps in between the main loop made exactly these. */
  ghost predicate Did(before: seq<Step>, after: seq<Step>, main: seq<Step>) {
    before <= after && MainSteps(after[|before|..]) == main
  }

  lemma DidNothing(run: seq<Step>)
    ensures Did(run, run, [])
  {
  }

  lemma DidOne(before: seq<Step>, after: seq<Step>, step: Step)
    requires after == before + [step]
    ensures Did(before, after, if IsEvent(step) then [] else [step])
  {
    assert after[|before|..] == [step] && [step][..0] == [];
  }

  lemma DidBoth(a: seq<Step>, b: seq<Step>, c: seq<Step>, first: seq<Step>, second: seq<Step>)
    requires Did(a, b, first) && Did(b, c, second)
    ensures Did(a, c, first + second) && a <= b <= c
  {
    assert c[|a|..] == b[|a|..] + c[|b|..];
    MainStepsJoin(b[|a|..], c[|b|..]);
  }

  /** What a stretch of a run may change, given what the main loop did in it. */
  ghost predicate Grown(s: State, t: State, main: seq<Step>) {
    && s.accepted <= t.accepted && s.sent <= t.sent && s.received <= t.received && s.acked <= t.acked
    && s.dropped <= t.dropped && s.lost <= t.lost && s.epoch <= t.epoch
    && ((forall p, d :: Append(p, d) !in main) ==> t.accepted == s.accepted)
    && (Drop !in main ==> t.dropped == s.dropped)
    && (HandleAck(true) !in main ==> t.lost == s.lost)
    && (Drop !in main && HandleAck(true) !in main ==> forall n :: OnDisk(s, n) ==> OnDisk(t, n))
  }

  lemma GrownStep(s: State, step: Step)
    requires NotesOk(s) && Enabled(s, step)
    ensures Grown(s, Next(s, step), if IsEvent(step) then [] else [step])
  {
    var t := Next(s, step);
    if step != Drop && step != HandleAck(true) {
      forall n: nat | OnDisk(s, n)
        ensures OnDisk(t, n)
      {
        var i :| 0 <= i < |s.fifo| && s.fifo[i].serial == n;
        assert t.fifo[i].serial == n;
      }
    }
  }

  lemma GrownBoth(s: State, t: State, u: State, first: seq<Step>, second: seq<Step>)
    requires Grown(s, t, first) && Grown(t, u, second)
    ensures Grown(s, u, first + second)
  {
    forall p, d | Append(p, d) !in first + second
      ensures Append(p, d) !in first && Append(p, d) !in second
    {
    }
    assert Drop !in first + second ==> Drop !in first && Drop !in second;
    assert HandleAck(true) !in first + second ==> HandleAck(true) !in first && HandleAck(true) !in second;
  }

  /** The main loop's steps decide what is accepted, dropped and lost. */
  lemma {:induction false} RunGrows(before: seq<Step>, after: seq<Step>, main: seq<Step>)
    requires IsRun(START, before) && IsRun(START, after) && Did(before, after, main)
    ensures Grown(Run(START, before), Run(START, after), main)
    decreases |after|
  {
    if |after| == |before| {
      assert after == before && after[|before|..] == [];
    } else {
      var prefix, last := after[..|after| - 1], after[|after| - 1];
      var mains := MainSteps(prefix[|before|..]);
      assert after[|before|..][..|after| - |before| - 1] == prefix[|before|..];
      RunGrows(before, prefix, mains);
      InvRun(prefix);
      GrownStep(Run(START, prefix), last);
      hide Grown, Next, Inv;
      GrownBoth(Run(START, before), Run(START, prefix), Run(START, after), mains, if IsEvent(last) then [] else [last]);
    }
  }

  /** What has left the disk does not come back. */
  lemma GoneStep(s: State, step: Step, n: nat)
    requires Enabled(s, step) && n < |s.accepted| && OnDisk(Next(s, step), n)
    ensures OnDisk(s, n)
  {
    var t := Next(s, step);
    var i :| 0 <= i < |t.fifo| && t.fifo[i].serial == n;
    if step.Drop? || (step.HandleAck? && t.fifo != s.fifo) {
      assert s.fifo[i + 1].serial == n;
    } else {
      assert s.fifo[i].serial == n;
    }
  }

  lemma {:induction false} GoneStays(before: seq<Step>, after: seq<Step>, n: nat)
    requires IsRun(START, before) && IsRun(START, after) && before <= after
    requires n < |Run(START, before).accepted| && OnDisk(Run(START, after), n)
    ensures Run(START, before).accepted <= Run(START, after).accepted && OnDisk(Run(START, before), n)
    decreases |after|
  {
    if |after| == |before| {
      assert after == before;
    } else {
      var prefix, last := after[..|after| - 1], after[|after| - 1];
      AcceptedStays(before, prefix);
      AcceptedStays(before, after);
      hide Next, Enabled, OnDisk;
      GoneStep(Run(START, prefix), last, n);
      GoneStays(before, prefix, n);
    }
  }

  lemma AcceptedStays(before: seq<Step>, after: seq<Step>)
    requires IsRun(START, before) && IsRun(START, after) && before <= after
    ensures Run(START, before).accepted <= Run(START, after).accepted
  {
    RunGrows(before, after, MainSteps(after[|before|..]));
    hide IsRun, Run;
  }

  /** `n` counted drops. */
  function Drops(n: nat): seq<Step> {
    seq(n, i => Drop)
  }

  /** The serial numbers of the first `n` entries. */
  function FirstSerials(fifo: seq<Entry>, n: nat): set<nat>
    requires n <= |fifo|
  {
    if n == 0 then {} else FirstSerials(fifo, n - 1) + {fifo[n - 1].serial}
  }

  /** The state after `n` drops: the front of the queue is gone, and counted as dropped. */
  ghost predicate DroppedFirst(s: State, t: State, n: nat) {
    && n <= |s.fifo| && t.fifo == s.fifo[n..] && t.dropped == s.dropped + FirstSerials(s.fifo, n)
    && t == s.(fifo := t.fifo, dropped := t.dropped, epoch := t.epoch)
    && t.epoch == if n == |s.fifo| > 0 then s.epoch + 1 else s.epoch
  }

  lemma DroppedNone(s: State)
    ensures DroppedFirst(s, s, 0)
  {
  }

  lemma DroppedNext(s: State, t: State, n: nat)
    requires DroppedFirst(s, t, n) && t.fifo != [] && Enabled(t, Drop)
    ensures DroppedFirst(s, Next(t, Drop), n + 1)
  {
  }

  // ---------- the hypothesis is needed ----------

  lemma Extend(steps: seq<Step>, s: State, step: Step) returns (longer: seq<Step>, t: State)
    requires IsRun(START, steps) && Run(START, steps) == s && Enabled(s, step)
    ensures longer == steps + [step] && IsRun(START, longer) && Run(START, longer) == t == Next(s, step)
  {
    longer, t := steps + [step], Next(s, step);
    assert longer[..|longer| - 1] == steps;
  }

  /** The main loop publishes the head as message `mid`. */
  lemma PublishHead(steps: seq<Step>, s: State, mid: nat) returns (longer: seq<Step>, t: State)
    requires IsRun(START, steps) && Run(START, steps) == s
    requires Enabled(s, Check) && mid !in s.outbox && Outgoing(s.fifo[0].payload, HeadIsReplay(s)).Some?
    ensures IsRun(START, longer) && Run(START, longer) == t
    ensures var e := s.fifo[0];
            var ticket := Ticket(ReplayToken(e.id), e.serial, s.epoch);
            var marked := HeadIsReplay(s);
            t == s.(fifo := [Stamped(e)] + s.fifo[1..],
                    outbox := s.outbox[mid := Copy(e.serial, Outgoing(e.payload, marked).value, marked, false)],
                    sent := s.sent + {e.serial}, pending := Some(Pending(mid, ticket)), pc := Idle)
  {
    hide IsRun, Run, ShouldMarkReplayed, Stamped, MarkReplayed;
    longer, t := Extend(steps, s, Check);
    longer, t := Extend(longer, t, Offer);
    longer, t := Extend(longer, t, Mark(true));
    longer, t := Extend(longer, t, Publish(true, mid));
    longer, t := Extend(longer, t, SetPending);
  }

  /** The shortest payload that can be marked. */
  const PAYLOAD := FALSE_MARK

  lemma PayloadCanBeMarked()
    ensures MarkReplayed(PAYLOAD) == Some(TRUE_MARK)
  {
    assert MatchAt(PAYLOAD, 0);
    assert Splice(PAYLOAD, 0) == TRUE_MARK;
  }

  const FIRST := Ticket(ReplayToken(1), 0, 0)

  /** The first sample is stored, and the main loop looks whether it may send. */
  lemma FirstStored() returns (steps: seq<Step>, s: State)
    ensures IsRun(START, steps) && Run(START, steps) == s
    ensures s == State(true, [Entry(1, false, 0, 1, PAYLOAD, 0, 0)], 1, true, None, None, map[], Checking, [PAYLOAD],
                       0, {}, {}, {}, {}, {}, {})
  {
    hide IsRun, Run, MarkReplayed;
    assert IsRun(START, []) && Run(START, []) == START by {
      EmptyRun();
    }
    steps, s := Extend([], START, Mount);
    steps, s := Extend(steps, s, Connect);
    steps, s := Extend(steps, s, Append(PAYLOAD, false));
    steps, s := Extend(steps, s, TakeAck);
  }

  /** The broker has the first sample, and its acknowledgement waits in the slot while the main loop passes by. */
  lemma AckSlipsBy() returns (steps: seq<Step>, s: State)
    ensures IsRun(START, steps) && Run(START, steps) == s
    ensures s == State(true, [Entry(1, false, 1, 1, PAYLOAD, 0, 1)], 1, true, None, Some(FIRST), map[], Checking,
                       [PAYLOAD], 0, {0}, {0}, {Receipt(0, PAYLOAD)}, {0}, {}, {})
  {
    hide IsRun, Run, MarkReplayed;
    steps, s := FirstStored();
    steps, s := PublishHead(steps, s, 1);
    steps, s := Extend(steps, s, Deliver(1));
    steps, s := Extend(steps, s, TakeAck);
    steps, s := Extend(steps, s, Published(1));
    assert s.outbox == map[];
  }

  lemma EmptyRun()
    ensures IsRun(START, []) && Run(START, []) == START
  {
  }

  /** The first sample is sent again, and its first acknowledgement empties the queue. */
  lemma SecondCopyOutstanding() returns (steps: seq<Step>, s: State)
    ensures IsRun(START, steps) && Run(START, steps) == s
    ensures s == State(true, [], 1, true, Some(Pending(2, FIRST)), None, map[2 := Copy(0, TRUE_MARK, true, false)],
                       Idle, [PAYLOAD], 1, {0}, {0}, {Receipt(0, PAYLOAD)}, {0}, {}, {})
  {
    hide IsRun, Run, MarkReplayed;
    steps, s := AckSlipsBy();
    PayloadCanBeMarked();
    steps, s := PublishHead(steps, s, 2);
    steps, s := Extend(steps, s, TakeAck);
    assert Matches(s, s.pc.ticket);
    steps, s := Extend(steps, s, HandleAck(true));
    steps, s := Extend(steps, s, Skip);
  }

  /**
     A run that loses a sample no broker ever saw: the PUBACK of the first publish arrives after the
     main loop looked for it and before it looked for a pending publish, so the head is sent twice;
     the first acknowledgement empties the queue, and the second removes the next sample, which got
     the same id.
   */
  lemma UnreceivedSampleLost() returns (steps: seq<Step>, s: State)
    ensures IsRun(START, steps) && Run(START, steps) == s
    ensures |s.accepted| == 2 && !OnDisk(s, 1) && 1 in s.lost && 1 !in s.sent && 1 !in s.received && 1 !in s.dropped
  {
    hide IsRun, Run, MarkReplayed;
    steps, s := SecondCopyOutstanding();
    steps, s := Extend(steps, s, Append(PAYLOAD, false));
    steps, s := Extend(steps, s, Deliver(2));
    steps, s := Extend(steps, s, Published(2));
    steps, s := Extend(steps, s, TakeAck);
    assert Matches(s, s.pc.ticket);
    steps, s := Extend(steps, s, HandleAck(true));
  }
}
