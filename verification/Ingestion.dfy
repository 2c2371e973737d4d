/**
 Ingestion of broker messages: identity, duplicate check, row and trips in one transaction that may
 be rolled back, and a manual acknowledgement that tells the broker not to deliver again.
 */
module Ingestion {
  import opened OfflineQueuePolicy
  import opened Trips
  import opened TripProperties

  /** A message that passed the contract. `Other` stands for the kinds that store no telemetry. */
  datatype Message =
    | Telemetry(vehicle: nat, device: nat, key: string, sample: Sample, measuredAt: Option<real>)
    | Other(vehicle: nat, device: nat)

  datatype Row = Row(key: string, vehicle: nat, device: nat, sample: Sample, measuredAt: Option<real>, receivedAt: real)

  /** The database: registered vehicles, devices and trips, and the telemetry rows. */
  datatype Db = Db(vehicles: set<nat>, tables: Tables, rows: seq<Row>)

  /** What becomes of a transaction: it is stored, rolled back, or stored before the live update fails. */
  datatype Fate = Commits | Aborts | FailsAfterCommit

  datatype Attempt = Attempt(message: Message, receivedAt: real, fate: Fate)

  datatype Effect = Refused | Repeated(db: Db) | Stored(db: Db)

  datatype Outcome = Accepted(duplicate: bool) | Rejected | Failed

  /** The backend answers the broker unless ingestion failed inside. */
  predicate Acknowledges(o: Outcome) {
    !o.Failed?
  }

  /** The database with the sender registered, unless it may not be or belongs to another vehicle. */
  function Resolved(autoRegister: bool, db: Db, m: Message): Option<Db> {
    var devices := db.tables.devices;
    if (m.vehicle !in db.vehicles || m.device !in devices) && !autoRegister then None
    else if m.device in devices && devices[m.device].vehicle != m.vehicle then None
    else
      var all := if m.device in devices then devices else devices[m.device := Device(m.vehicle, None, None)];
      Some(db.(vehicles := db.vehicles + {m.vehicle}, tables := db.tables.(devices := all)))
  }

  /** The sender may register, or is known; and a known device keeps its vehicle. */
  predicate SenderIsWelcome(autoRegister: bool, db: Db, vehicle: nat, device: nat) {
    && (autoRegister || (vehicle in db.vehicles && device in db.tables.devices))
    && (device in db.tables.devices ==> db.tables.devices[device].vehicle == vehicle)
  }

  predicate HasKey(rows: seq<Row>, key: string) {
    exists i :: 0 <= i < |rows| && rows[i].key == key
  }

  function EventTime(m: Message, receivedAt: real): real
    requires m.Telemetry?
  {
    if m.measuredAt.Some? then m.measuredAt.value else receivedAt
  }

  /** The row that a message is stored in. */
  function RowOf(m: Message, receivedAt: real): Row
    requires m.Telemetry?
  {
    Row(m.key, m.vehicle, m.device, m.sample, m.measuredAt, receivedAt)
  }

  /** The transaction of one message. */
  function Handled(cfg: Settings, autoRegister: bool, db: Db, m: Message, receivedAt: real): Effect
    requires |db.tables.points| == |db.tables.trips|
  {
    var resolved := Resolved(autoRegister, db, m);
    if resolved.None? then Refused
    else
      var known := resolved.value;
      if m.Other? then Stored(known)
      else if HasKey(known.rows, m.key) then Repeated(known)
      else
        var tables := Processed(cfg, known.tables, m.device, m.sample, EventTime(m, receivedAt));
        Stored(known.(rows := known.rows + [RowOf(m, receivedAt)], tables := tables))
  }

  function OutcomeOf(cfg: Settings, autoRegister: bool, db: Db, a: Attempt): Outcome
    requires |db.tables.points| == |db.tables.trips|
  {
    if a.fate.Aborts? then Failed
    else
      match Handled(cfg, autoRegister, db, a.message, a.receivedAt)
      case Refused => Rejected
      case Repeated(_) => Accepted(true)
      case Stored(_) => if a.fate.FailsAfterCommit? then Failed else Accepted(false)
  }

  function Attempted(cfg: Settings, autoRegister: bool, db: Db, a: Attempt): (now: Db)
    requires |db.tables.points| == |db.tables.trips|
    ensures |now.tables.points| == |now.tables.trips|
  {
    if a.fate.Aborts? then db
    else
      match Handled(cfg, autoRegister, db, a.message, a.receivedAt)
      case Refused => db
      case Repeated(now) => now
      case Stored(now) =>
        StoredShape(cfg, autoRegister, db, a.message, a.receivedAt);
        now
  }

  lemma StoredShape(cfg: Settings, autoRegister: bool, db: Db, m: Message, receivedAt: real)
    requires |db.tables.points| == |db.tables.trips| && Handled(cfg, autoRegister, db, m, receivedAt).Stored?
    ensures var now := Handled(cfg, autoRegister, db, m, receivedAt).db; |now.tables.points| == |now.tables.trips|
  {
    var known := Resolved(autoRegister, db, m).value;
    if m.Telemetry? {
      KeysKept(cfg, known.tables, m.device, m.sample, EventTime(m, receivedAt));
    }
  }

  // ---------- runs ----------

  predicate Start(db: Db) {
    |db.tables.points| == |db.tables.trips| && db.rows == []
  }

  /** The database after a stream of delivery attempts. */
  function Ingested(cfg: Settings, autoRegister: bool, start: Db, attempts: seq<Attempt>): (db: Db)
    requires Start(start)
    ensures |db.tables.points| == |db.tables.trips|
  {
    if attempts == [] then start
    else Attempted(cfg, autoRegister, Ingested(cfg, autoRegister, start, attempts[..|attempts| - 1]),
                   attempts[|attempts| - 1])
  }

  /** Whether an attempt changed the database for good. */
  predicate Took(cfg: Settings, autoRegister: bool, db: Db, a: Attempt)
    requires |db.tables.points| == |db.tables.trips|
  {
    !a.fate.Aborts? && Handled(cfg, autoRegister, db, a.message, a.receivedAt).Stored?
  }

  /** The attempts of a stream that were stored, in that order, each made once and without a failure. */
  function OnceEach(cfg: Settings, autoRegister: bool, start: Db, attempts: seq<Attempt>): seq<Attempt>
    requires Start(start)
  {
    if attempts == [] then []
    else
      var before, last := attempts[..|attempts| - 1], attempts[|attempts| - 1];
      OnceEach(cfg, autoRegister, start, before)
      + if Took(cfg, autoRegister, Ingested(cfg, autoRegister, start, before), last)
        then [last.(fate := Commits)] else []
  }

  /** Messages with the same key come from the same device. */
  ghost predicate SameSource(attempts: seq<Attempt>) {
    forall i, j :: 0 <= i < |attempts| && 0 <= j < |attempts|
                   && attempts[i].message.Telemetry? && attempts[j].message.Telemetry?
                   && attempts[i].message.key == attempts[j].message.key ==>
      attempts[i].message.vehicle == attempts[j].message.vehicle
      && attempts[i].message.device == attempts[j].message.device
  }

  /** Each key has one row, each row has a registered sender, and each row came from an attempt. */
  ghost predicate RowsOk(db: Db, attempts: seq<Attempt>) {
    && (forall i, j :: 0 <= i < j < |db.rows| ==> db.rows[i].key != db.rows[j].key)
    && (forall i :: 0 <= i < |db.rows| ==> Registered(db, db.rows[i].vehicle, db.rows[i].device))
    && forall i :: 0 <= i < |db.rows| ==> CameFrom(attempts, db.rows[i])
  }

  ghost predicate Registered(db: Db, vehicle: nat, device: nat) {
    vehicle in db.vehicles && device in db.tables.devices && db.tables.devices[device].vehicle == vehicle
  }

  /** The row is what some attempt said. */
  ghost predicate CameFrom(attempts: seq<Attempt>, r: Row) {
    exists k :: 0 <= k < |attempts| && attempts[k].message.Telemetry?
                && RowOf(attempts[k].message, attempts[k].receivedAt) == r
  }

  lemma CameFromLonger(attempts: seq<Attempt>, a: Attempt, r: Row)
    requires CameFrom(attempts, r)
    ensures CameFrom(attempts + [a], r)
  {
    var k :| 0 <= k < |attempts| && attempts[k].message.Telemetry?
             && RowOf(attempts[k].message, attempts[k].receivedAt) == r;
    assert (attempts + [a])[k] == attempts[k];
  }

  /** A stored message adds its row, if it has one, and registers its sender; senders stay registered. */
  lemma StoredAdds(cfg: Settings, autoRegister: bool, db: Db, m: Message, receivedAt: real)
    requires |db.tables.points| == |db.tables.trips| && !Handled(cfg, autoRegister, db, m, receivedAt).Refused?
    ensures var now := Handled(cfg, autoRegister, db, m, receivedAt).db;
            && (forall v: nat, d: nat :: Registered(db, v, d) ==> Registered(now, v, d))
            && Registered(now, m.vehicle, m.device)
            && (if m.Telemetry? && Handled(cfg, autoRegister, db, m, receivedAt).Stored?
                then !HasKey(db.rows, m.key)
                     && now.rows == db.rows + [RowOf(m, receivedAt)]
                else now.rows == db.rows)
  {
    var known := Resolved(autoRegister, db, m).value;
    if m.Telemetry? {
      VehiclesKept(cfg, known.tables, m.device, m.sample, EventTime(m, receivedAt));
    }
    hide Processed, HasKey;
  }

  lemma VehiclesKept(cfg: Settings, w: Tables, d: nat, s: Sample, time: real)
    requires |w.points| == |w.trips| && d in w.devices
    ensures Processed(cfg, w, d, s, time).devices.Keys == w.devices.Keys
    ensures forall k :: k in w.devices ==> Processed(cfg, w, d, s, time).devices[k].vehicle == w.devices[k].vehicle
  {
  }

  lemma RowsStep(cfg: Settings, autoRegister: bool, db: Db, attempts: seq<Attempt>, a: Attempt)
    requires |db.tables.points| == |db.tables.trips| && RowsOk(db, attempts)
    ensures RowsOk(Attempted(cfg, autoRegister, db, a), attempts + [a])
  {
    forall i | 0 <= i < |db.rows|
      ensures CameFrom(attempts + [a], db.rows[i])
    {
      CameFromLonger(attempts, a, db.rows[i]);
    }
    if !a.fate.Aborts? && !Handled(cfg, autoRegister, db, a.message, a.receivedAt).Refused? {
      StoredAdds(cfg, autoRegister, db, a.message, a.receivedAt);
      hide Handled, CameFrom, Registered;
      if a.message.Telemetry? {
        NewRowCameFrom(attempts, a);
      }
    }
  }

  lemma NewRowCameFrom(attempts: seq<Attempt>, a: Attempt)
    requires a.message.Telemetry?
    ensures CameFrom(attempts + [a], RowOf(a.message, a.receivedAt))
  {
    assert (attempts + [a])[|attempts|] == a;
  }

  /** However often messages are delivered, the telemetry table has one row per key. */
  lemma {:induction false} OneRowPerKey(cfg: Settings, autoRegister: bool, start: Db, attempts: seq<Attempt>)
    requires Start(start)
    ensures RowsOk(Ingested(cfg, autoRegister, start, attempts), attempts)
    decreases |attempts|
  {
    if attempts != [] {
      var before, last := attempts[..|attempts| - 1], attempts[|attempts| - 1];
      OneRowPerKey(cfg, autoRegister, start, before);
      hide Attempted, RowsOk;
      RowsStep(cfg, autoRegister, Ingested(cfg, autoRegister, start, before), before, last);
      assert before + [last] == attempts;
    }
  }

  /** Same rows, trips and points, and no device or vehicle more or different but senders without any notes. */
  ghost predicate Agrees(autoRegister: bool, once: Db, full: Db) {
    && full.rows == once.rows && full.tables.trips == once.tables.trips && full.tables.points == once.tables.points
    && once.vehicles <= full.vehicles && once.tables.devices.Keys <= full.tables.devices.Keys
    && (forall d :: d in once.tables.devices ==> full.tables.devices[d] == once.tables.devices[d])
    && (forall d :: d in full.tables.devices && d !in once.tables.devices ==>
          full.tables.devices[d] == Device(full.tables.devices[d].vehicle, None, None))
    && (!autoRegister ==> full == once)
  }

  /**
     An attempt that was not stored adds nothing but the registration of its sender, and that exactly
     when it repeats a key and the sender is new.
   */
  lemma RepeatChangesNothing(cfg: Settings, autoRegister: bool, db: Db, a: Attempt)
    requires |db.tables.points| == |db.tables.trips| && !Took(cfg, autoRegister, db, a)
    ensures Agrees(autoRegister, db, Attempted(cfg, autoRegister, db, a))
    ensures Attempted(cfg, autoRegister, db, a) == db
       <==> a.fate.Aborts? || Handled(cfg, autoRegister, db, a.message, a.receivedAt).Refused?
            || Registered(db, a.message.vehicle, a.message.device)
  {
    hide HasKey;
    if !a.fate.Aborts? && Handled(cfg, autoRegister, db, a.message, a.receivedAt).Repeated? {
      var now := Attempted(cfg, autoRegister, db, a);
      assert a.message.vehicle in now.vehicles && a.message.device in now.tables.devices;
      if a.message.vehicle in db.vehicles {
        assert db.vehicles + {a.message.vehicle} == db.vehicles;
      }
    }
  }

  /** When messages with one key have one sender, it changes nothing at all. */
  lemma RepeatOfSameSource(cfg: Settings, autoRegister: bool, db: Db, attempts: seq<Attempt>, a: Attempt)
    requires |db.tables.points| == |db.tables.trips| && RowsOk(db, attempts) && SameSource(attempts + [a])
    requires !Took(cfg, autoRegister, db, a)
    ensures Attempted(cfg, autoRegister, db, a) == db
  {
    RepeatChangesNothing(cfg, autoRegister, db, a);
    if !a.fate.Aborts? && Handled(cfg, autoRegister, db, a.message, a.receivedAt).Repeated? {
      var i :| 0 <= i < |db.rows| && db.rows[i].key == a.message.key;
      SourceOfRow(attempts, a, db.rows[i]);
    }
    hide Attempted, CameFrom;
  }

  lemma SourceOfRow(attempts: seq<Attempt>, a: Attempt, r: Row)
    requires SameSource(attempts + [a]) && CameFrom(attempts, r) && a.message.Telemetry? && a.message.key == r.key
    ensures a.message.vehicle == r.vehicle && a.message.device == r.device
  {
    var k :| 0 <= k < |attempts| && attempts[k].message.Telemetry?
             && RowOf(attempts[k].message, attempts[k].receivedAt) == r;
    assert (attempts + [a])[k] == attempts[k] && (attempts + [a])[|attempts|] == a;
  }

  // ---------- redelivery ----------

  /** What a sample does depends on the device's own row, the trips and the points only. */
  lemma OwnRowOnly(cfg: Settings, w: Tables, v: Tables, d: nat, s: Sample, time: real)
    requires |w.points| == |w.trips| && v.trips == w.trips && v.points == w.points
    requires d in w.devices && d in v.devices && v.devices[d] == w.devices[d]
    ensures var a, b := Processed(cfg, w, d, s, time), Processed(cfg, v, d, s, time);
            && a.trips == b.trips && a.points == b.points
            && d in a.devices && a.devices == w.devices[d := a.devices[d]] && b.devices == v.devices[d := a.devices[d]]
  {
    hide Accepts, Extended, Closed, Opened, SpeedOf;
    if Usable(s) {
      assert ActiveOf(v, v.devices[d].vehicle) == ActiveOf(w, w.devices[d].vehicle);
    }
    assert w.devices[d := w.devices[d]] == w.devices && v.devices[d := v.devices[d]] == v.devices;
  }

  lemma ResolvedAgrees(autoRegister: bool, once: Db, full: Db, m: Message)
    requires Agrees(autoRegister, once, full) && Resolved(autoRegister, full, m).Some?
    ensures Resolved(autoRegister, once, m).Some?
    ensures Agrees(autoRegister, Resolved(autoRegister, once, m).value, Resolved(autoRegister, full, m).value)
    ensures m.device in Resolved(autoRegister, once, m).value.tables.devices
  {
  }

  lemma ProcessedAgrees(cfg: Settings, autoRegister: bool, once: Db, full: Db, d: nat, s: Sample, time: real, row: Row)
    requires |full.tables.points| == |full.tables.trips| && Agrees(autoRegister, once, full) && d in once.tables.devices
    ensures Agrees(autoRegister,
                   once.(rows := once.rows + [row], tables := Processed(cfg, once.tables, d, s, time)),
                   full.(rows := full.rows + [row], tables := Processed(cfg, full.tables, d, s, time)))
  {
    OwnRowOnly(cfg, once.tables, full.tables, d, s, time);
    hide Processed;
  }

  /** A message that is stored in the one database is stored in the other, and they still agree. */
  lemma StoredAgrees(cfg: Settings, autoRegister: bool, once: Db, full: Db, a: Attempt)
    requires |full.tables.points| == |full.tables.trips| && |once.tables.points| == |once.tables.trips|
    requires Agrees(autoRegister, once, full) && Took(cfg, autoRegister, full, a)
    ensures Took(cfg, autoRegister, once, a.(fate := Commits))
    ensures Agrees(autoRegister, Attempted(cfg, autoRegister, once, a.(fate := Commits)),
                   Attempted(cfg, autoRegister, full, a))
  {
    var m := a.message;
    ResolvedAgrees(autoRegister, once, full, m);
    var o, f := Resolved(autoRegister, once, m).value, Resolved(autoRegister, full, m).value;
    assert o.rows == once.rows && f.rows == full.rows;
    hide Processed, HasKey, Resolved, Agrees;
    if m.Telemetry? {
      ProcessedAgrees(cfg, autoRegister, o, f, m.device, m.sample, EventTime(m, a.receivedAt), RowOf(m, a.receivedAt));
    }
  }

  lemma AgreesAlong(autoRegister: bool, a: Db, b: Db, c: Db)
    requires Agrees(autoRegister, a, b) && Agrees(autoRegister, b, c)
    ensures Agrees(autoRegister, a, c)
  {
  }

  /**
     Redelivery, failures and rollbacks are invisible, whoever uses which key: rows, trips, points and
     the notes of every device are those of running each stored message once, in the order they were
     first stored. All that a repeat can leave is the registration of its sender.
   */
  lemma {:induction false} RedeliveryIsInvisible(cfg: Settings, autoRegister: bool, start: Db, attempts: seq<Attempt>)
    requires Start(start)
    ensures Agrees(autoRegister, Ingested(cfg, autoRegister, start, OnceEach(cfg, autoRegister, start, attempts)),
                   Ingested(cfg, autoRegister, start, attempts))
    decreases |attempts|
  {
    if attempts != [] {
      var before, last := attempts[..|attempts| - 1], attempts[|attempts| - 1];
      RedeliveryIsInvisible(cfg, autoRegister, start, before);
      var once := OnceEach(cfg, autoRegister, start, before);
      var db := Ingested(cfg, autoRegister, start, before);
      var first := Ingested(cfg, autoRegister, start, once);
      hide Agrees, Attempted;
      if Took(cfg, autoRegister, db, last) {
        StoredAgrees(cfg, autoRegister, first, db, last);
        IngestedMore(cfg, autoRegister, start, once, last.(fate := Commits));
      } else {
        RepeatChangesNothing(cfg, autoRegister, db, last);
        AgreesAlong(autoRegister, first, db, Attempted(cfg, autoRegister, db, last));
        assert OnceEach(cfg, autoRegister, start, attempts) == once;
      }
    }
  }

  /** When messages with one key have one sender, the whole database is the same. */
  lemma {:induction false} RedeliveryLeavesNoSender(cfg: Settings, autoRegister: bool, start: Db,
                                                    attempts: seq<Attempt>)
    requires Start(start) && SameSource(attempts)
    ensures Ingested(cfg, autoRegister, start, OnceEach(cfg, autoRegister, start, attempts))
         == Ingested(cfg, autoRegister, start, attempts)
    decreases |attempts|
  {
    if attempts != [] {
      var before, last := attempts[..|attempts| - 1], attempts[|attempts| - 1];
      assert SameSource(before) && before + [last] == attempts;
      RedeliveryLeavesNoSender(cfg, autoRegister, start, before);
      var db := Ingested(cfg, autoRegister, start, before);
      OneRowPerKey(cfg, autoRegister, start, before);
      hide SameSource, RowsOk, Attempted;
      if Took(cfg, autoRegister, db, last) {
        FateIsIrrelevant(cfg, autoRegister, db, last);
        IngestedMore(cfg, autoRegister, start, OnceEach(cfg, autoRegister, start, before), last.(fate := Commits));
      } else {
        RepeatOfSameSource(cfg, autoRegister, db, before, last);
        assert OnceEach(cfg, autoRegister, start, attempts) == OnceEach(cfg, autoRegister, start, before);
      }
    }
  }

  const EMPTY := Db({}, Tables(map[], [], []), [])

  /** Two senders, one key: the second message is a repeat. */
  function Strangers(one: Sample, two: Sample): seq<Attempt> {
    [Attempt(Telemetry(1, 1, "a:1:1", one, None), 0.0, Commits),
     Attempt(Telemetry(2, 2, "a:1:1", two, None), 1.0, Commits)]
  }

  /** A repeat under another sender's key stores nothing and still registers its own sender. */
  lemma StrangerIsRegistered(cfg: Settings, one: Sample, two: Sample)
    ensures var db := Ingested(cfg, true, EMPTY, Strangers(one, two));
            |db.rows| == 1 && db.rows[0].vehicle == 1 && Registered(db, 2, 2)
    ensures OnceEach(cfg, true, EMPTY, Strangers(one, two)) == Strangers(one, two)[..1]
    ensures !Registered(Ingested(cfg, true, EMPTY, Strangers(one, two)[..1]), 2, 2)
  {
    var all := Strangers(one, two);
    assert all[..1] == [] + [all[0]] && all == all[..1] + [all[1]] && Ingested(cfg, true, EMPTY, []) == EMPTY;
    hide Ingested, Processed, Handled, Attempted, Took;
    IngestedMore(cfg, true, EMPTY, [], all[0]);
    IngestedMore(cfg, true, EMPTY, all[..1], all[1]);
    FirstOfTwo(cfg, one);
    SecondOfTwo(cfg, Ingested(cfg, true, EMPTY, all[..1]), two);
    OnceOfTwo(cfg, all);
  }

  lemma SecondOfTwo(cfg: Settings, db: Db, two: Sample)
    requires |db.tables.points| == |db.tables.trips| && db.vehicles == {1} && db.tables.devices.Keys == {1}
    requires |db.rows| == 1 && db.rows[0].key == "a:1:1"
    ensures !Took(cfg, true, db, Strangers(two, two)[1])
    ensures var now := Attempted(cfg, true, db, Strangers(two, two)[1]); now.rows == db.rows && Registered(now, 2, 2)
  {
    assert HasKey(db.rows, "a:1:1");
    hide Processed, HasKey;
  }

  lemma FirstOfTwo(cfg: Settings, one: Sample)
    ensures var now := Attempted(cfg, true, EMPTY, Strangers(one, one)[0]);
            && Took(cfg, true, EMPTY, Strangers(one, one)[0]) && now.vehicles == {1} && now.tables.devices.Keys == {1}
            && now.rows == [Row("a:1:1", 1, 1, one, None, 0.0)]
  {
    var known := Tables(map[1 := Device(1, None, None)], [], []);
    VehiclesKept(cfg, known, 1, one, 0.0);
    hide Processed;
  }

  lemma OnceOfTwo(cfg: Settings, all: seq<Attempt>)
    requires |all| == 2 && all[0].fate == Commits && Took(cfg, true, EMPTY, all[0])
    requires !Took(cfg, true, Ingested(cfg, true, EMPTY, all[..1]), all[1])
    ensures OnceEach(cfg, true, EMPTY, all) == all[..1]
  {
    hide Took, Handled;
    assert all[..1][..0] == [] && all[..1] == [all[0]] && Ingested(cfg, true, EMPTY, []) == EMPTY;
    assert OnceEach(cfg, true, EMPTY, []) == [];
    assert OnceEach(cfg, true, EMPTY, all[..1]) == [] + [all[0].(fate := Commits)];
  }

  lemma FateIsIrrelevant(cfg: Settings, autoRegister: bool, db: Db, a: Attempt)
    requires |db.tables.points| == |db.tables.trips| && Took(cfg, autoRegister, db, a)
    ensures Attempted(cfg, autoRegister, db, a.(fate := Commits)) == Attempted(cfg, autoRegister, db, a)
  {
    hide Handled;
  }

  lemma IngestedMore(cfg: Settings, autoRegister: bool, start: Db, attempts: seq<Attempt>, a: Attempt)
    requires Start(start)
    ensures Ingested(cfg, autoRegister, start, attempts + [a])
         == Attempted(cfg, autoRegister, Ingested(cfg, autoRegister, start, attempts), a)
  {
    hide Attempted;
    assert (attempts + [a])[..|attempts|] == attempts;
  }

  /** Every message that is made once is stored: the shortened stream cannot be shortened again. */
  lemma {:induction false} OnceEachIsStored(cfg: Settings, autoRegister: bool, start: Db, attempts: seq<Attempt>)
    requires Start(start)
    ensures var once := OnceEach(cfg, autoRegister, start, attempts); OnceEach(cfg, autoRegister, start, once) == once
    decreases |attempts|
  {
    if attempts != [] {
      var before, last := attempts[..|attempts| - 1], attempts[|attempts| - 1];
      OnceEachIsStored(cfg, autoRegister, start, before);
      RedeliveryIsInvisible(cfg, autoRegister, start, before);
      var db := Ingested(cfg, autoRegister, start, before);
      var once := OnceEach(cfg, autoRegister, start, before);
      hide Handled, Ingested, Agrees;
      if Took(cfg, autoRegister, db, last) {
        StoredAgrees(cfg, autoRegister, Ingested(cfg, autoRegister, start, once), db, last);
        OnceMore(cfg, autoRegister, start, once, last.(fate := Commits));
      } else {
        assert once + [] == once;
      }
    }
  }

  lemma OnceMore(cfg: Settings, autoRegister: bool, start: Db, once: seq<Attempt>, a: Attempt)
    requires Start(start) && a.fate == Commits && Took(cfg, autoRegister, Ingested(cfg, autoRegister, start, once), a)
    ensures OnceEach(cfg, autoRegister, start, once + [a]) == OnceEach(cfg, autoRegister, start, once) + [a]
  {
    hide Took, Ingested, Handled;
    assert (once + [a])[..|once|] == once;
  }

  /**
     Two streams in which the same messages are first stored in the same order end with the same rows,
     trips and points, and with the same notes of every device that sent one of those messages.
   */
  lemma ScheduleDoesNotMatter(cfg: Settings, autoRegister: bool, start: Db, one: seq<Attempt>, two: seq<Attempt>)
    requires Start(start) && OnceEach(cfg, autoRegister, start, one) == OnceEach(cfg, autoRegister, start, two)
    ensures var a, b := Ingested(cfg, autoRegister, start, one), Ingested(cfg, autoRegister, start, two);
            var once := OnceEach(cfg, autoRegister, start, one);
            && a.rows == b.rows && a.tables.trips == b.tables.trips && a.tables.points == b.tables.points
            && (forall k :: 0 <= k < |once| ==>
                  once[k].message.device in a.tables.devices && once[k].message.device in b.tables.devices
                  && a.tables.devices[once[k].message.device] == b.tables.devices[once[k].message.device])
            && (!autoRegister || (SameSource(one) && SameSource(two)) ==> a == b)
  {
    var once := OnceEach(cfg, autoRegister, start, one);
    RedeliveryIsInvisible(cfg, autoRegister, start, one);
    RedeliveryIsInvisible(cfg, autoRegister, start, two);
    OnceEachIsStored(cfg, autoRegister, start, one);
    hide Ingested, OnceEach, SameSource;
    forall k | 0 <= k < |once|
      ensures once[k].message.device in Ingested(cfg, autoRegister, start, once).tables.devices
    {
      SenderIsKnown(cfg, autoRegister, start, once, k);
    }
    if SameSource(one) && SameSource(two) {
      RedeliveryLeavesNoSender(cfg, autoRegister, start, one);
      RedeliveryLeavesNoSender(cfg, autoRegister, start, two);
    }
  }

  /** The sender of a message that is stored at once is registered ever after. */
  lemma {:induction false} SenderIsKnown(cfg: Settings, autoRegister: bool, start: Db, once: seq<Attempt>, k: nat)
    requires Start(start) && OnceEach(cfg, autoRegister, start, once) == once && k < |once|
    ensures once[k].message.device in Ingested(cfg, autoRegister, start, once).tables.devices
    decreases |once|
  {
    var before, last := once[..|once| - 1], once[|once| - 1];
    NoLonger(cfg, autoRegister, start, before);
    var db := Ingested(cfg, autoRegister, start, before);
    var rest := OnceEach(cfg, autoRegister, start, before);
    assert Took(cfg, autoRegister, db, last) && rest == before by {
      hide Took, Ingested;
    }
    StoredAdds(cfg, autoRegister, db, last.message, last.receivedAt);
    if k < |before| {
      SenderIsKnown(cfg, autoRegister, start, before, k);
    }
    DevicesStay(cfg, autoRegister, db, last);
    hide Handled, Ingested;
  }

  lemma DevicesStay(cfg: Settings, autoRegister: bool, db: Db, a: Attempt)
    requires |db.tables.points| == |db.tables.trips|
    ensures db.tables.devices.Keys <= Attempted(cfg, autoRegister, db, a).tables.devices.Keys
  {
    var resolved := Resolved(autoRegister, db, a.message);
    if resolved.Some? && a.message.Telemetry? {
      VehiclesKept(cfg, resolved.value.tables, a.message.device, a.message.sample, EventTime(a.message, a.receivedAt));
    }
    hide Processed, HasKey;
  }

  lemma {:induction false} NoLonger(cfg: Settings, autoRegister: bool, start: Db, attempts: seq<Attempt>)
    requires Start(start)
    ensures |OnceEach(cfg, autoRegister, start, attempts)| <= |attempts|
    decreases |attempts|
  {
    if attempts != [] {
      NoLonger(cfg, autoRegister, start, attempts[..|attempts| - 1]);
    }
    hide Took, Ingested;
  }

  // ---------- acknowledgement ----------

  /** Rows are never removed. */
  lemma {:induction false} RowsStay(cfg: Settings, autoRegister: bool, start: Db, attempts: seq<Attempt>, m: nat)
    requires Start(start) && m <= |attempts|
    ensures Ingested(cfg, autoRegister, start, attempts[..m]).rows <= Ingested(cfg, autoRegister, start, attempts).rows
    decreases |attempts|
  {
    if m == |attempts| {
      assert attempts[..m] == attempts;
    } else {
      var before, last := attempts[..|attempts| - 1], attempts[|attempts| - 1];
      assert before[..m] == attempts[..m];
      RowsStay(cfg, autoRegister, start, before, m);
      var db := Ingested(cfg, autoRegister, start, before);
      if !last.fate.Aborts? && !Handled(cfg, autoRegister, db, last.message, last.receivedAt).Refused? {
        StoredAdds(cfg, autoRegister, db, last.message, last.receivedAt);
      }
      hide Handled;
    }
  }

  /** A telemetry message that the backend acknowledges without rejecting it has its row, then and ever after. */
  lemma AcknowledgedIsStored(cfg: Settings, autoRegister: bool, start: Db, attempts: seq<Attempt>, k: nat)
    requires Start(start) && k < |attempts| && attempts[k].message.Telemetry?
    requires OutcomeOf(cfg, autoRegister, Ingested(cfg, autoRegister, start, attempts[..k]), attempts[k]).Accepted?
    ensures HasKey(Ingested(cfg, autoRegister, start, attempts).rows, attempts[k].message.key)
  {
    var db, a := Ingested(cfg, autoRegister, start, attempts[..k]), attempts[k];
    var m := a.message;
    StoredAdds(cfg, autoRegister, db, m, a.receivedAt);
    RowsStay(cfg, autoRegister, start, attempts, k + 1);
    assert attempts[..k + 1][..k] == attempts[..k] && attempts[..k + 1][k] == a;
    var now := Ingested(cfg, autoRegister, start, attempts[..k + 1]);
    assert now == Attempted(cfg, autoRegister, db, a);
    AcceptedHasKey(cfg, autoRegister, db, a);
    var i :| 0 <= i < |now.rows| && now.rows[i].key == m.key;
    hide Handled, Attempted;
    assert Ingested(cfg, autoRegister, start, attempts).rows[i] == now.rows[i];
  }

  lemma AcceptedHasKey(cfg: Settings, autoRegister: bool, db: Db, a: Attempt)
    requires |db.tables.points| == |db.tables.trips| && a.message.Telemetry?
    requires OutcomeOf(cfg, autoRegister, db, a).Accepted?
    ensures HasKey(Attempted(cfg, autoRegister, db, a).rows, a.message.key)
  {
    StoredAdds(cfg, autoRegister, db, a.message, a.receivedAt);
    var now := Attempted(cfg, autoRegister, db, a);
    if Handled(cfg, autoRegister, db, a.message, a.receivedAt).Stored? {
      assert now.rows[|db.rows|].key == a.message.key;
    } else {
      assert now.rows == db.rows;
    }
  }

  lemma OutcomeMeans(cfg: Settings, autoRegister: bool, db: Db, a: Attempt)
    requires |db.tables.points| == |db.tables.trips|
    ensures OutcomeOf(cfg, autoRegister, db, a).Accepted? && a.message.Telemetry? ==>
              HasKey(Attempted(cfg, autoRegister, db, a).rows, a.message.key)
    ensures OutcomeOf(cfg, autoRegister, db, a).Rejected? ==>
              Handled(cfg, autoRegister, db, a.message, a.receivedAt).Refused?
  {
    hide Handled, HasKey, Attempted;
    if OutcomeOf(cfg, autoRegister, db, a).Accepted? && a.message.Telemetry? {
      AcceptedHasKey(cfg, autoRegister, db, a);
    }
  }

  /** A message of a welcome sender that is no repeat. */
  predicate IsNews(autoRegister: bool, db: Db, m: Message) {
    && SenderIsWelcome(autoRegister, db, m.vehicle, m.device)
    && (m.Telemetry? ==> forall i :: 0 <= i < |db.rows| ==> db.rows[i].key != m.key)
  }

  lemma FailsExactly(cfg: Settings, autoRegister: bool, db: Db, a: Attempt)
    requires |db.tables.points| == |db.tables.trips|
    ensures OutcomeOf(cfg, autoRegister, db, a).Failed? <==>
            a.fate.Aborts? || (a.fate.FailsAfterCommit? && IsNews(autoRegister, db, a.message))
  {
    hide Processed;
  }

  /** Trips are faithful to their points whatever is redelivered. */
  lemma {:induction false} TripsSurviveRedelivery(cfg: Settings, autoRegister: bool, start: Db, attempts: seq<Attempt>)
    requires Start(start) && TablesOk(cfg, start.tables)
    ensures TablesOk(cfg, Ingested(cfg, autoRegister, start, attempts).tables)
    decreases |attempts|
  {
    if attempts != [] {
      var before, last := attempts[..|attempts| - 1], attempts[|attempts| - 1];
      TripsSurviveRedelivery(cfg, autoRegister, start, before);
      TablesSurvive(cfg, autoRegister, Ingested(cfg, autoRegister, start, before), last);
      hide TablesOk, Attempted;
    }
  }

  lemma TablesSurvive(cfg: Settings, autoRegister: bool, db: Db, a: Attempt)
    requires TablesOk(cfg, db.tables)
    ensures TablesOk(cfg, Attempted(cfg, autoRegister, db, a).tables)
  {
    var resolved := Resolved(autoRegister, db, a.message);
    if resolved.Some? && a.message.Telemetry? {
      assert TablesOk(cfg, resolved.value.tables);
      TablesStep(cfg, resolved.value.tables, a.message.device, a.message.sample, EventTime(a.message, a.receivedAt));
    }
    hide Processed;
  }

  // ---------- the service and its broker callback ----------

  class IngestionService {
    const cfg: Settings
    const autoRegister: bool
    const trips: TripService
    var vehicles: set<nat>
    var rows: seq<Row>

    ghost function State(): Db
      reads this, trips
    {
      Db(vehicles, trips.State(), rows)
    }

    ghost predicate Valid()
      reads this, trips
    {
      trips.cfg == cfg && |trips.points| == |trips.trips|
    }

    constructor (cfg: Settings, autoRegister: bool)
      ensures Valid() && this.cfg == cfg && this.autoRegister == autoRegister
      ensures Start(State()) && fresh(trips)
    {
      this.cfg, this.autoRegister, vehicles, rows := cfg, autoRegister, {}, [];
      trips := new TripService(cfg, map[]);
    }

    /** Registers the sender if that is needed and allowed. */
    method ResolveIdentity(m: Message) returns (ok: bool)
      requires Valid()
      modifies this`vehicles, trips
      ensures Valid() && ok == Resolved(autoRegister, old(State()), m).Some?
      ensures ok <==> SenderIsWelcome(autoRegister, old(State()), m.vehicle, m.device)
      ensures ok ==> vehicles == old(vehicles) + {m.vehicle} && m.device in trips.devices
                     && trips.devices == old(trips.devices)[m.device := trips.devices[m.device]]
                     && trips.devices[m.device] == (if m.device in old(trips.devices) then old(trips.devices)[m.device]
                                                    else Device(m.vehicle, None, None))
      ensures ok ==> State() == Resolved(autoRegister, old(State()), m).value
      ensures !ok ==> State() == old(State())
    {
      var devices := trips.devices;
      if (m.vehicle !in vehicles || m.device !in devices) && !autoRegister {
        return false;
      }
      if m.device in devices && devices[m.device].vehicle != m.vehicle {
        return false;
      }
      vehicles := vehicles + {m.vehicle};
      if m.device !in devices {
        trips.devices := devices[m.device := Device(m.vehicle, None, None)];
      }
      return true;
    }

    method FindKey(key: string) returns (found: bool)
      ensures found == HasKey(rows, key)
    {
      found := false;
      for i := 0 to |rows|
        invariant found == exists j :: 0 <= j < i && rows[j].key == key
      {
        if rows[i].key == key {
          found := true;
        }
      }
    }

    /** The transaction of one message, before it is known whether it can be stored. */
    method Handle(m: Message, receivedAt: real) returns (o: Outcome)
      requires Valid()
      modifies this, trips
      ensures Valid() && !o.Failed?
      ensures o == OutcomeOf(cfg, autoRegister, old(State()), Attempt(m, receivedAt, Commits))
      ensures State() == Attempted(cfg, autoRegister, old(State()), Attempt(m, receivedAt, Commits))
    {
      hide HasKey, Processed;
      var ok := ResolveIdentity(m);
      if !ok {
        return Rejected;
      }
      if m.Other? {
        return Accepted(false);
      }
      var existing := FindKey(m.key);
      if existing {
        return Accepted(true);
      }
      rows := rows + [Row(m.key, m.vehicle, m.device, m.sample, m.measuredAt, receivedAt)];
      var trip := trips.Process(m.device, m.sample, if m.measuredAt.Some? then m.measuredAt.value else receivedAt);
      return Accepted(false);
    }

    /**
     Ingests one delivery. A failing database rolls the transaction back; a failing live update is
     reported as the same failure although the transaction is stored.
     */
    method Ingest(m: Message, receivedAt: real, fate: Fate) returns (o: Outcome)
      requires Valid()
      modifies this, trips
      ensures Valid() && o == OutcomeOf(cfg, autoRegister, old(State()), Attempt(m, receivedAt, fate))
      ensures State() == Attempted(cfg, autoRegister, old(State()), Attempt(m, receivedAt, fate))
    {
      hide Handled;
      var savedVehicles, savedRows := vehicles, rows;
      var savedDevices, savedTrips, savedPoints := trips.devices, trips.trips, trips.points;
      o := Handle(m, receivedAt);
      if fate.Aborts? {
        vehicles, rows := savedVehicles, savedRows;
        trips.devices, trips.trips, trips.points := savedDevices, savedTrips, savedPoints;
        return Failed;
      }
      if fate.FailsAfterCommit? && o == Accepted(false) {
        return Failed;
      }
    }
  }

  /** The broker callback: acknowledges what needs no redelivery and reconnects to get the rest again. */
  class Consumer {
    const ingestion: IngestionService
    var acknowledged: seq<nat>
    var reconnects: nat
    ghost var attempts: seq<Attempt>
    ghost const start: Db

    ghost predicate Valid()
      reads this, ingestion, ingestion.trips
    {
      && ingestion.Valid() && Start(start)
      && ingestion.State() == Ingested(ingestion.cfg, ingestion.autoRegister, start, attempts)
    }

    constructor (ingestion: IngestionService)
      requires ingestion.Valid() && Start(ingestion.State())
      ensures this.ingestion == ingestion && Valid() && acknowledged == [] && reconnects == 0 && attempts == []
      ensures start == ingestion.State()
    {
      this.ingestion, acknowledged, reconnects, attempts, start := ingestion, [], 0, [], ingestion.State();
    }

    /** One delivery: a valid sample is acknowledged only when its row exists, and otherwise comes again. */
    method OnMessage(mid: nat, m: Message, receivedAt: real, fate: Fate)
      requires Valid()
      modifies this`acknowledged, this`reconnects, this`attempts, ingestion, ingestion.trips
      ensures Valid() && attempts == old(attempts) + [Attempt(m, receivedAt, fate)]
      ensures acknowledged == old(acknowledged) + [mid] || acknowledged == old(acknowledged)
      ensures acknowledged == old(acknowledged) <==> reconnects == old(reconnects) + 1
      ensures acknowledged == old(acknowledged) + [mid] && m.Telemetry? ==>
                HasKey(ingestion.rows, m.key)
                || Handled(ingestion.cfg, ingestion.autoRegister, old(ingestion.State()), m, receivedAt).Refused?
      ensures reconnects == old(reconnects) + 1 <==>
              fate.Aborts? || (fate.FailsAfterCommit? && IsNews(ingestion.autoRegister, old(ingestion.State()), m))
    {
      hide Handled, HasKey, Attempted, OutcomeOf, Ingested, Start;
      ghost var db, a := ingestion.State(), Attempt(m, receivedAt, fate);
      var outcome := ingestion.Ingest(m, receivedAt, fate);
      IngestedMore(ingestion.cfg, ingestion.autoRegister, start, attempts, a);
      attempts := attempts + [a];
      OutcomeMeans(ingestion.cfg, ingestion.autoRegister, db, a);
      FailsExactly(ingestion.cfg, ingestion.autoRegister, db, a);
      if Acknowledges(outcome) {
        acknowledged := acknowledged + [mid];
      } else {
        reconnects := reconnects + 1;
      }
    }

    /** What the consumer has stored is what each message would have left if it had come once. */
    lemma RepeatsAreInvisible()
      requires Valid()
      ensures var once := Ingested(ingestion.cfg, ingestion.autoRegister, start,
                                   OnceEach(ingestion.cfg, ingestion.autoRegister, start, attempts));
              Agrees(ingestion.autoRegister, once, ingestion.State())
              && (SameSource(attempts) ==> ingestion.State() == once)
    {
      hide SameSource, OnceEach, Agrees;
      RedeliveryIsInvisible(ingestion.cfg, ingestion.autoRegister, start, attempts);
      if SameSource(attempts) {
        RedeliveryLeavesNoSender(ingestion.cfg, ingestion.autoRegister, start, attempts);
      }
    }
  }
}
