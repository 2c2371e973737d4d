/**
 What ingestion stores, in the terms of the messages: which message gets a row, and that the trips are
 those of the stored rows, each taken at its measured time, or at its arrival if it was not measured.
 */
module RowTrips {
  import opened Ingestion
  import opened OfflineQueuePolicy
  import opened Trips
  import opened TripProperties

  /** A message gets a row if and only if it commits, its sender is welcome, and no row has its key. */
  lemma StoresExactly(cfg: Settings, autoRegister: bool, start: Db, attempts: seq<Attempt>)
    requires Start(start) && attempts != []
    ensures var db, now := Ingested(cfg, autoRegister, start, attempts[..|attempts| - 1]),
                           Ingested(cfg, autoRegister, start, attempts);
            var a, m := attempts[|attempts| - 1], attempts[|attempts| - 1].message;
            if m.Telemetry? && a.fate != Aborts && SenderIsWelcome(autoRegister, db, m.vehicle, m.device)
               && (forall i :: 0 <= i < |db.rows| ==> db.rows[i].key != m.key)
            then now.rows == db.rows + [Row(m.key, m.vehicle, m.device, m.sample, m.measuredAt, a.receivedAt)]
            else now.rows == db.rows
  {
    var db := Ingested(cfg, autoRegister, start, attempts[..|attempts| - 1]);
    var a, m := attempts[|attempts| - 1], attempts[|attempts| - 1].message;
    assert Handled(cfg, autoRegister, db, m, a.receivedAt).Refused?
      <==> !SenderIsWelcome(autoRegister, db, m.vehicle, m.device);
    hide Processed;
  }

  // ---------- the trips are those of the rows ----------

  function InputOf(r: Row): Input {
    Input(r.device, r.sample, match r.measuredAt { case Some(time) => time case None => r.receivedAt })
  }

  function InputsOf(rows: seq<Row>): (inputs: seq<Input>)
    ensures |inputs| == |rows| && forall i :: 0 <= i < |rows| ==> inputs[i] == InputOf(rows[i])
  {
    seq(|rows|, i requires 0 <= i < |rows| => InputOf(rows[i]))
  }

  /** The devices as they were when they were first known. */
  function Initial(start: Db, devices: map<nat, Device>): map<nat, Device> {
    map d | d in devices ::
      if d in start.tables.devices then start.tables.devices[d] else Device(devices[d].vehicle, None, None)
  }

  /** A device that sends nothing makes no difference. */
  lemma {:induction false} AfterMore(cfg: Settings, devices: map<nat, Device>, d: nat, row: Device, inputs: seq<Input>)
    requires Known(devices, inputs) && d !in devices
    ensures Known(devices[d := row], inputs)
    ensures var w, v := After(cfg, devices, inputs), After(cfg, devices[d := row], inputs);
            v.trips == w.trips && v.points == w.points && v.devices == w.devices[d := row]
    decreases |inputs|
  {
    if inputs != [] {
      var before, last := inputs[..|inputs| - 1], inputs[|inputs| - 1];
      AfterMore(cfg, devices, d, row, before);
      var w, v := After(cfg, devices, before), After(cfg, devices[d := row], before);
      OwnRowOnly(cfg, w, v, last.device, last.sample, last.time);
      hide Processed;
    }
  }

  ghost predicate TripsOfRows(cfg: Settings, start: Db, db: Db) {
    && Known(Initial(start, db.tables.devices), InputsOf(db.rows))
    && db.tables == After(cfg, Initial(start, db.tables.devices), InputsOf(db.rows))
    && start.tables.devices.Keys <= db.tables.devices.Keys
  }

  lemma ResolvedTrips(cfg: Settings, autoRegister: bool, start: Db, db: Db, m: Message)
    requires TripsOfRows(cfg, start, db) && Resolved(autoRegister, db, m).Some?
    ensures TripsOfRows(cfg, start, Resolved(autoRegister, db, m).value)
  {
    var known := Resolved(autoRegister, db, m).value;
    hide After;
    if m.device !in db.tables.devices {
      var row := Device(m.vehicle, None, None);
      AfterMore(cfg, Initial(start, db.tables.devices), m.device, row, InputsOf(db.rows));
      assert Initial(start, known.tables.devices) == Initial(start, db.tables.devices)[m.device := row];
      assert After(cfg, Initial(start, db.tables.devices), InputsOf(db.rows)).devices == db.tables.devices;
    }
  }

  lemma RowTaken(cfg: Settings, start: Db, known: Db, row: Row)
    requires TripsOfRows(cfg, start, known) && row.device in known.tables.devices
    requires |known.tables.points| == |known.tables.trips|
    ensures var i := InputOf(row);
            TripsOfRows(cfg, start, known.(rows := known.rows + [row],
                                           tables := Processed(cfg, known.tables, i.device, i.sample, i.time)))
  {
    var i, inputs, all := InputOf(row), InputsOf(known.rows), InputsOf(known.rows + [row]);
    assert all == inputs + [i] && all[..|all| - 1] == inputs;
    VehiclesKept(cfg, known.tables, i.device, i.sample, i.time);
    var now := Processed(cfg, known.tables, i.device, i.sample, i.time);
    assert Initial(start, now.devices) == Initial(start, known.tables.devices);
    hide Processed;
  }

  lemma TripsOfRowsStep(cfg: Settings, autoRegister: bool, start: Db, db: Db, a: Attempt)
    requires TripsOfRows(cfg, start, db) && |db.tables.points| == |db.tables.trips|
    ensures TripsOfRows(cfg, start, Attempted(cfg, autoRegister, db, a))
  {
    var resolved := Resolved(autoRegister, db, a.message);
    hide TripsOfRows, Processed, HasKey, InputsOf;
    if resolved.Some? {
      ResolvedTrips(cfg, autoRegister, start, db, a.message);
      if a.message.Telemetry? {
        RowTaken(cfg, start, resolved.value, RowOf(a.message, a.receivedAt));
      }
    }
  }

  /**
     After any stream of messages, repeated, refused, rolled back or not, the trips and all device notes
     are those of the stored rows, one after the other, at their measured times, or else at their arrival.
   */
  lemma {:induction false} TripsAreOfRows(cfg: Settings, autoRegister: bool, start: Db, attempts: seq<Attempt>)
    requires Start(start) && start.tables.trips == [] && start.tables.points == []
    ensures var db := Ingested(cfg, autoRegister, start, attempts);
            && Known(Initial(start, db.tables.devices), InputsOf(db.rows))
            && db.tables == After(cfg, Initial(start, db.tables.devices), InputsOf(db.rows))
    decreases |attempts|
  {
    TripsOfRowsRun(cfg, autoRegister, start, attempts);
  }

  lemma {:induction false} TripsOfRowsRun(cfg: Settings, autoRegister: bool, start: Db, attempts: seq<Attempt>)
    requires Start(start) && start.tables.trips == [] && start.tables.points == []
    ensures TripsOfRows(cfg, start, Ingested(cfg, autoRegister, start, attempts))
    decreases |attempts|
  {
    if attempts == [] {
      assert Initial(start, start.tables.devices) == start.tables.devices && InputsOf(start.rows) == [];
    } else {
      var before, last := attempts[..|attempts| - 1], attempts[|attempts| - 1];
      TripsOfRowsRun(cfg, autoRegister, start, before);
      hide TripsOfRows, Attempted;
      TripsOfRowsStep(cfg, autoRegister, start, Ingested(cfg, autoRegister, start, before), last);
    }
  }

  /**
     Every point of every trip is a stored message of the trip's vehicle, at the time the message says it
     was measured, or, if it says none, at the arrival of the delivery that was stored.
   */
  lemma PointsAreMeasured(cfg: Settings, autoRegister: bool, start: Db, attempts: seq<Attempt>, i: nat, k: nat)
    returns (j: nat, a: nat)
    requires Start(start) && start.tables.trips == [] && start.tables.points == []
    requires i < |Ingested(cfg, autoRegister, start, attempts).tables.trips|
    requires k < |Ingested(cfg, autoRegister, start, attempts).tables.points[i]|
    ensures var db := Ingested(cfg, autoRegister, start, attempts);
            && j < |db.rows| && a < |attempts| && attempts[a].message.Telemetry?
            && db.rows[j] == RowOf(attempts[a].message, attempts[a].receivedAt)
            && var m, p := attempts[a].message, db.tables.points[i][k];
               m.vehicle == db.tables.trips[i].vehicle && p.telemetry == m.sample.id
               && p.recordedAt == match m.measuredAt { case Some(time) => time case None => attempts[a].receivedAt }
  {
    var db := Ingested(cfg, autoRegister, start, attempts);
    TripsAreOfRows(cfg, autoRegister, start, attempts);
    OneRowPerKey(cfg, autoRegister, start, attempts);
    var devices := Initial(start, db.tables.devices);
    hide Ingested, After;
    j := PointsAreSamples(cfg, devices, InputsOf(db.rows), i, k);
    SameVehicle(cfg, devices, InputsOf(db.rows), db.rows[j].device);
    assert CameFrom(attempts, db.rows[j]) && Registered(db, db.rows[j].vehicle, db.rows[j].device);
    a :| 0 <= a < |attempts| && attempts[a].message.Telemetry?
         && RowOf(attempts[a].message, attempts[a].receivedAt) == db.rows[j];
  }

  // ---------- delay ----------

  /** The same attempts, but measured messages may arrive at other times. */
  ghost predicate SameButArrival(one: seq<Attempt>, two: seq<Attempt>) {
    |one| == |two| && forall k :: 0 <= k < |one| ==> SameAttempt(one[k], two[k])
  }

  predicate SameAttempt(a: Attempt, b: Attempt) {
    && b.message == a.message && b.fate == a.fate
    && (a.message.Telemetry? && a.message.measuredAt.None? ==> b.receivedAt == a.receivedAt)
  }

  /** The same databases, but for the arrival of rows. */
  ghost predicate SameTables(a: Db, b: Db) {
    && b.vehicles == a.vehicles && b.tables == a.tables && |b.rows| == |a.rows|
    && forall i :: 0 <= i < |a.rows| ==> b.rows[i] == a.rows[i].(receivedAt := b.rows[i].receivedAt)
  }

  lemma SameKeys(a: Db, b: Db, key: string)
    requires SameTables(a, b)
    ensures HasKey(a.rows, key) <==> HasKey(b.rows, key)
  {
    if HasKey(a.rows, key) {
      var i :| 0 <= i < |a.rows| && a.rows[i].key == key;
      assert b.rows[i].key == key;
    }
    if HasKey(b.rows, key) {
      var i :| 0 <= i < |b.rows| && b.rows[i].key == key;
      assert a.rows[i].key == key;
    }
  }

  lemma DelayStep(cfg: Settings, autoRegister: bool, one: Db, two: Db, a: Attempt, b: Attempt)
    requires |one.tables.points| == |one.tables.trips| && |two.tables.points| == |two.tables.trips|
    requires SameTables(one, two) && SameAttempt(a, b)
    ensures SameTables(Attempted(cfg, autoRegister, one, a), Attempted(cfg, autoRegister, two, b))
  {
    if a.message.Telemetry? {
      SameKeys(one, two, a.message.key);
    }
    hide Processed, HasKey;
  }

  /** However long measured messages are on their way, trips and points are the same. */
  lemma {:induction false} DelayIsInvisible(cfg: Settings, autoRegister: bool, start: Db, one: seq<Attempt>,
                                            two: seq<Attempt>)
    requires Start(start) && SameButArrival(one, two)
    ensures SameTables(Ingested(cfg, autoRegister, start, one), Ingested(cfg, autoRegister, start, two))
    decreases |one|
  {
    if one != [] {
      var n := |one| - 1;
      DelayIsInvisible(cfg, autoRegister, start, one[..n], two[..n]);
      hide SameTables, Attempted, SameAttempt;
      DelayStep(cfg, autoRegister, Ingested(cfg, autoRegister, start, one[..n]),
                Ingested(cfg, autoRegister, start, two[..n]), one[n], two[n]);
    }
  }
}
