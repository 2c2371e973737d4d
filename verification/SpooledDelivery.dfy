/** The spool carries out the queue steps of the delivery protocol. */
module SpooledDelivery {
  import opened OfflineQueuePolicy
  import opened Spool
  import opened OfflineTelemetryQueue
  import D = Delivery

  predicate SameRecord(e: D.Entry, f: File) {
    && f.Record? && e.id == f.header.recordId && e.deferred == f.header.deferred
    && e.attempts == f.header.attempts && e.boot == f.header.bootId && e.payload == f.body
  }

  ghost predicate SameQueue(fifo: seq<D.Entry>, files: seq<File>) {
    |fifo| == |files| && forall i :: 0 <= i < |fifo| ==> SameRecord(fifo[i], files[i])
  }

  /** The next id follows the largest one on the card. */
  ghost predicate TopOk(q: Spool) {
    if q.files == map[] then q.next == 1 else q.next - 1 in q.files
  }

  /** The spool `q` holds the queue of the protocol state `s`. */
  ghost predicate Holds(q: Spool, s: D.State) {
    && Coherent(q) && TopOk(q) && SameQueue(s.fifo, Fifo(q.files))
    && q.next == D.NextId(s.fifo) && q.ready == s.ready && q.bootId == s.boot && s.boot >= 1
  }

  lemma HeadOf(q: Spool, s: D.State)
    requires Holds(q, s) && q.files != map[]
    ensures s.fifo != [] && q.oldest in q.files && SameRecord(s.fifo[0], q.files[q.oldest]) && s.fifo[0].id == q.oldest
  {
    hide Fifo, TotalBytes, MinOf;
    FifoHead(q.files);
    HeadIsRecord(q);
  }

  /** The cached id of the head is zero exactly when there is none. */
  lemma HeadIdOf(q: Spool, s: D.State)
    requires Holds(q, s)
    ensures (q.files != map[] <==> s.fifo != []) && (q.oldest != 0 <==> q.files != map[])
    ensures s.fifo != [] ==> q.oldest in q.files && s.fifo[0].id == q.oldest
  {
    hide TotalBytes, MinOf, WellFormed;
    if q.files != map[] {
      HeadOf(q, s);
    } else {
      assert |q.files| == 0;
    }
  }

  lemma TopAfterRemoval(q: Spool, countAsDropped: bool)
    requires Coherent(q) && TopOk(q) && q.files != map[]
    ensures TopOk(RemoveOldest(q, countAsDropped))
  {
    hide TotalBytes, MinOf;
    HeadBytes(q);
    SmallerMap(q.files, q.oldest);
    var rest := q.files - {q.oldest};
    if rest != map[] {
      var id :| id in rest;
      assert q.oldest < id < q.next;
    }
  }

  /** Taking the head off the spool takes it off the queue, for a drop and for an acknowledgement. */
  lemma RemovalRefines(q: Spool, s: D.State, countAsDropped: bool)
    requires Holds(q, s) && q.files != map[]
    ensures s.fifo != [] && Holds(RemoveOldest(q, countAsDropped), D.WithoutHead(s))
  {
    hide TotalBytes, MinOf, WellFormed;
    RemoveOldestIsDequeue(q, countAsDropped);
    TopAfterRemoval(q, countAsDropped);
    hide Coherent, TopOk, Fifo;
  }

  /** The guard of `acknowledge` is the match of the protocol, and its effect is the removal. */
  lemma AcknowledgeRefines(q: Spool, s: D.State)
    requires Holds(q, s) && s.pc.Taken? && IsReplayToken(s.pc.ticket.token)
    ensures D.Matches(s, s.pc.ticket)
       <==> q.ready && q.files != map[] && RecordIdFromToken(s.pc.ticket.token) == q.oldest
    ensures D.Matches(s, s.pc.ticket) ==> Holds(Acknowledged(q), D.Next(s, D.HandleAck(true)))
  {
    hide TotalBytes, MinOf, WellFormed, Fifo;
    if q.files != map[] {
      HeadOf(q, s);
      RemovalRefines(q, s, false);
      AcknowledgedIs(q);
      AcknowledgedIsDequeue(q);
    } else {
      assert |q.files| == 0;
    }
  }

  /** A stored sample is an accepted one. */
  lemma AppendRefines(q: Spool, s: D.State, payload: string, nowMs: nat, nowEpochSeconds: nat, deferred: bool)
    requires Holds(q, s) && Acceptable(q, payload) && D.Enabled(s, D.Append(payload, deferred))
    ensures Holds(Append(q, NewRecord(q, payload, nowMs, nowEpochSeconds, deferred)),
                  D.Next(s, D.Append(payload, deferred)))
  {
    hide TotalBytes, MinOf, Fifo, WellFormed, Checksum;
    var f := NewRecord(q, payload, nowMs, nowEpochSeconds, deferred);
    NewRecordFits(q, payload, nowMs, nowEpochSeconds, deferred);
    AppendIsEnqueue(q, f);
  }

  /** What `peek` decides about the head, and puts in the buffer, is what the protocol decides and sends. */
  lemma OfferRefines(q: Spool, s: D.State, size: nat, recordId: nat, marked: bool)
    requires Holds(q, s) && Offered(q, size, recordId, marked) && s.pc == D.Clear && s.fifo != []
    ensures D.Enabled(s, D.Offer)
    ensures D.Next(s, D.Offer).pc == D.Offering(s.fifo[0], marked) && s.fifo[0].id == recordId
    ensures OutgoingOf(q.files[recordId], q.bootId) == Outgoing(s.fifo[0].payload, marked)
  {
    hide TotalBytes, MinOf, Fifo, WellFormed, Coherent, Checksum, MarkReplayed;
    HeadOf(q, s);
  }

  /** The stamp on the card is the mark of the protocol. */
  lemma MarkRefines(q: Spool, s: D.State, replayed: bool)
    requires Holds(q, s) && D.Enabled(s, D.Mark(true)) && q.files != map[]
    ensures q.oldest in q.files && q.files[q.oldest].Record?
    ensures Holds(Stamp(q, q.oldest, replayed), D.Next(s, D.Mark(true)))
  {
    hide TotalBytes, MinOf, Fifo, WellFormed;
    HeadOf(q, s);
    StampKeepsQueue(q, q.oldest, replayed);
  }

  /** Mounting a card that holds only intact records brings back the queue that was on it. */
  lemma MountRefines(before: Spool, q: Spool, s: D.State)
    requires Holds(before, s.(ready := before.ready)) && q.ready && q.bootId == before.bootId
    requires q.files == before.files && Scanned(Intact(before.files), q.queued, q.bytes, q.oldest, q.next)
    requires D.Enabled(s, D.Mount)
    ensures Holds(q, D.Next(s, D.Mount))
  {
    hide TotalBytes, MinOf, Fifo, WellFormed;
    assert Intact(before.files) == before.files;
  }

  /** The sample is on disk, delivered and acknowledged, dropped and counted, or lost. */
  ghost predicate AccountedFor(s: D.State, n: nat) {
    D.OnDisk(s, n) || (n in s.acked && n in s.received) || n in s.dropped || n in s.lost
  }

  lemma AllAccountedFor(run: seq<D.Step>, s: D.State)
    requires D.IsRun(D.START, run) && D.Run(D.START, run) == s
    ensures forall n: nat :: n < |s.accepted| ==> AccountedFor(s, n)
    ensures D.Careful(run) ==> s.lost == {}
  {
    hide D.IsRun, D.Run;
    forall n: nat | n < |s.accepted|
      ensures AccountedFor(s, n)
    {
      D.NothingVanishes(run, n);
    }
    if D.Careful(run) {
      D.NothingLost(run);
    }
  }

  /** The relation looks only at the queue. */
  lemma HoldsByQueue(q: Spool, s: D.State, t: D.State)
    requires Holds(q, s) && t.fifo == s.fifo && t.ready == s.ready && t.boot == s.boot
    ensures Holds(q, t)
  {
    hide Coherent, TopOk, Fifo;
  }

  lemma HoldsIsValid(q: Spool, s: D.State)
    requires Holds(q, s)
    ensures Coherent(q) && q.bootId >= 1 && q.ready == s.ready && (q.files != map[] <==> s.fifo != [])
  {
  }
}
