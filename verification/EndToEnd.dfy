/** From the device's spool to the backend's table: nothing is lost on the way, changed or stored twice. */
module EndToEnd {
  import opened Ingestion
  import opened OfflineQueuePolicy
  import D = Delivery
  import Id = DeviceIdentity
  import Trips

  /** What the backend reads in a payload. */
  type Decode = string -> Message

  /** Every payload carries the id its sample was given, and no id was given twice. */
  ghost predicate Identified(decode: Decode, accepted: seq<string>, device: string, ids: seq<Id.Issued>) {
    && |ids| == |accepted| && (forall i, j :: 0 <= i < j < |ids| ==> ids[i] != ids[j])
    && forall n :: 0 <= n < |accepted| ==>
         decode(accepted[n]).Telemetry? && decode(accepted[n]).key == Id.Printed(device, ids[n])
  }

  /** The replay mark tells the backend nothing else than that the message was replayed. */
  ghost predicate MarkSaysNothing(decode: Decode, accepted: seq<string>) {
    forall n :: 0 <= n < |accepted| && MarkReplayed(accepted[n]).Some? ==>
      decode(MarkReplayed(accepted[n]).value) == decode(accepted[n])
  }

  /** The same message, whatever number the database gives its row. */
  predicate SameReading(m: Message, n: Message) {
    m.Telemetry? && n.Telemetry? && m.(sample := m.sample.(id := 0)) == n.(sample := n.sample.(id := 0))
  }

  /** What the backend is given under this device's sample ids is what the broker received from it. */
  ghost predicate FromBroker(decode: Decode, device: string, ids: seq<Id.Issued>, inbox: set<D.Receipt>,
                             attempts: seq<Attempt>) {
    forall k, n :: 0 <= k < |attempts| && 0 <= n < |ids| && attempts[k].message.Telemetry?
                   && attempts[k].message.key == Id.Printed(device, ids[n]) ==>
      Received(decode, inbox, attempts[k].message)
  }

  ghost predicate Received(decode: Decode, inbox: set<D.Receipt>, m: Message) {
    exists r :: r in inbox && SameReading(m, decode(r.payload))
  }

  /** The backend has acknowledged, without rejecting it, some delivery of every sample the broker received. */
  ghost predicate Consumed(cfg: Trips.Settings, autoRegister: bool, start: Db, attempts: seq<Attempt>,
                           received: set<nat>, device: string, ids: seq<Id.Issued>)
    requires Start(start)
  {
    forall n :: n in received && n < |ids| ==>
      exists k :: 0 <= k < |attempts| && AcceptedAt(cfg, autoRegister, start, attempts, k, Id.Printed(device, ids[n]))
  }

  ghost predicate AcceptedAt(cfg: Trips.Settings, autoRegister: bool, start: Db, attempts: seq<Attempt>, k: nat,
                             key: string)
    requires Start(start) && k < |attempts|
  {
    && attempts[k].message.Telemetry? && attempts[k].message.key == key
    && OutcomeOf(cfg, autoRegister, Ingested(cfg, autoRegister, start, attempts[..k]), attempts[k]).Accepted?
  }

  /** The row says what the message says. */
  ghost predicate Says(r: Row, m: Message) {
    m.Telemetry? && SameReading(Telemetry(r.vehicle, r.device, r.key, r.sample, r.measuredAt), m)
  }

  /** One row has the message's key, and it says what the message says. */
  ghost predicate HasOneRow(db: Db, m: Message)
    requires m.Telemetry?
  {
    exists i :: 0 <= i < |db.rows| && Says(db.rows[i], m)
                && forall j :: 0 <= j < |db.rows| && db.rows[j].key == m.key ==> j == i
  }

  lemma KeysAreDistinct(device: string, ids: seq<Id.Issued>, m: nat, n: nat)
    requires forall i, j :: 0 <= i < j < |ids| ==> ids[i] != ids[j]
    requires m < |ids| && n < |ids| && Id.Printed(device, ids[m]) == Id.Printed(device, ids[n])
    ensures m == n
  {
    Id.SampleIdsAreDistinct(device, ids[m].bootId, ids[m].sequence, ids[n].bootId, ids[n].sequence);
    assert ids[m] == ids[n];
  }

  /** A receipt that reads like a message with sample `n`'s key reads like sample `n`. */
  lemma ReceiptIsTheSample(decode: Decode, accepted: seq<string>, device: string, ids: seq<Id.Issued>, r: D.Receipt,
                           m: Message, n: nat)
    requires Identified(decode, accepted, device, ids) && MarkSaysNothing(decode, accepted) && D.Genuine(accepted, r)
    requires n < |ids| && SameReading(m, decode(r.payload)) && m.key == Id.Printed(device, ids[n])
    ensures SameReading(m, decode(accepted[n]))
  {
    assert decode(r.payload) == decode(accepted[r.serial]);
    hide MarkReplayed, Id.Printed;
    KeysAreDistinct(device, ids, r.serial, n);
  }

  /** No row under this device's sample ids says anything else than the sample with that id. */
  lemma RowIsTheSample(steps: seq<D.Step>, cfg: Trips.Settings, autoRegister: bool, start: Db, attempts: seq<Attempt>,
                       decode: Decode, device: string, ids: seq<Id.Issued>, n: nat, i: nat)
    requires D.IsRun(D.START, steps) && Start(start)
    requires var s := D.Run(D.START, steps);
             && Identified(decode, s.accepted, device, ids) && MarkSaysNothing(decode, s.accepted)
             && FromBroker(decode, device, ids, s.inbox, attempts) && n < |s.accepted|
    requires var rows := Ingested(cfg, autoRegister, start, attempts).rows;
             i < |rows| && rows[i].key == Id.Printed(device, ids[n])
    ensures Says(Ingested(cfg, autoRegister, start, attempts).rows[i], decode(D.Run(D.START, steps).accepted[n]))
  {
    var s, db := D.Run(D.START, steps), Ingested(cfg, autoRegister, start, attempts);
    D.ReceiptsAreGenuine(steps);
    OneRowPerKey(cfg, autoRegister, start, attempts);
    assert CameFrom(attempts, db.rows[i]);
    hide D.IsRun, D.Run, Ingested, RowsOk, Identified, MarkSaysNothing, Id.Printed, D.Genuine;
    var k :| 0 <= k < |attempts| && attempts[k].message.Telemetry?
             && RowOf(attempts[k].message, attempts[k].receivedAt) == db.rows[i];
    assert Received(decode, s.inbox, attempts[k].message);
    var r :| r in s.inbox && SameReading(attempts[k].message, decode(r.payload));
    ReceiptIsTheSample(decode, s.accepted, device, ids, r, attempts[k].message, n);
  }

  /**
     Whatever is sent twice, redelivered or rolled back: a sample the device accepted is still on its
     card, was dropped and counted there, or has exactly one row, which says what the sample says. Only
     a device whose queue emptied with a publish outstanding can lose a sample in any other way.
   */
  lemma ExactlyOnce(steps: seq<D.Step>, cfg: Trips.Settings, autoRegister: bool, start: Db, attempts: seq<Attempt>,
                    decode: Decode, device: string, ids: seq<Id.Issued>, n: nat)
    requires D.IsRun(D.START, steps) && Start(start)
    requires var s := D.Run(D.START, steps);
             && n < |s.accepted| && Identified(decode, s.accepted, device, ids) && MarkSaysNothing(decode, s.accepted)
             && FromBroker(decode, device, ids, s.inbox, attempts)
             && Consumed(cfg, autoRegister, start, attempts, s.received, device, ids)
    ensures var s := D.Run(D.START, steps);
            || D.OnDisk(s, n) || n in s.dropped || n in s.lost
            || HasOneRow(Ingested(cfg, autoRegister, start, attempts), decode(s.accepted[n]))
    ensures D.Careful(steps) ==> D.Run(D.START, steps).lost == {}
  {
    D.NothingVanishes(steps, n);
    if D.Careful(steps) {
      D.NothingLost(steps);
    }
    hide D.IsRun, D.Run, D.Careful, D.OnDisk, OutcomeOf, Ingested, MarkSaysNothing, FromBroker, Id.Printed;
    if n in D.Run(D.START, steps).received {
      var key := Id.Printed(device, ids[n]);
      var k :| 0 <= k < |attempts| && AcceptedAt(cfg, autoRegister, start, attempts, k, key);
      AcknowledgedIsStored(cfg, autoRegister, start, attempts, k);
      OneRowPerKey(cfg, autoRegister, start, attempts);
      var db := Ingested(cfg, autoRegister, start, attempts);
      var i := UniqueRow(db, attempts, key);
      RowIsTheSample(steps, cfg, autoRegister, start, attempts, decode, device, ids, n, i);
    }
  }

  lemma UniqueRow(db: Db, attempts: seq<Attempt>, key: string) returns (i: nat)
    requires RowsOk(db, attempts) && HasKey(db.rows, key)
    ensures i < |db.rows| && db.rows[i].key == key
    ensures forall j :: 0 <= j < |db.rows| && db.rows[j].key == key ==> j == i
  {
    i :| 0 <= i < |db.rows| && db.rows[i].key == key;
    hide Registered, CameFrom;
  }

  /** Different samples have different rows. */
  lemma SamplesHaveTheirOwnRows(decode: Decode, accepted: seq<string>, device: string, ids: seq<Id.Issued>, db: Db,
                                m: nat, n: nat, i: nat, j: nat)
    requires Identified(decode, accepted, device, ids) && m < |accepted| && n < |accepted| && m != n
    requires i < |db.rows| && j < |db.rows| && Says(db.rows[i], decode(accepted[m]))
    requires Says(db.rows[j], decode(accepted[n]))
    ensures i != j
  {
    if i == j {
      KeysAreDistinct(device, ids, m, n);
    }
    hide Id.Printed;
  }
}
