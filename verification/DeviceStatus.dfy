/**
 Connectivity of devices as the backend sees it: status reports, the scan that finds silent devices,
 and the alerts that go with them, which operators may acknowledge or resolve at any time.
 */
module DeviceStatus {
  import opened OfflineQueuePolicy

  const STALE_AFTER_SECONDS := 45.0
  const OFFLINE_AFTER_SECONDS := 120.0
  const DEVICE_OFFLINE := "device_offline"
  const TELEMETRY_STALE := "telemetry_stale"

  datatype AlertState = Active | Acknowledged | Resolved
  datatype Source = Backend | External

  datatype Alert = Alert(
    device: nat, kind: string, state: AlertState, source: Source, triggeredAt: real, lastObservedAt: real,
    occurrences: nat, resolvedAt: Option<real>)

  datatype DeviceRow = DeviceRow(status: string, reason: Option<string>, lastSeen: Option<real>,
                                 lastStatus: Option<real>)

  datatype Change = Change(device: nat, state: string, reason: Option<string>, at: real)

  datatype Fleet = Fleet(devices: map<nat, DeviceRow>, alerts: seq<Alert>, history: seq<Change>)

  predicate Open(a: Alert) {
    !a.state.Resolved?
  }

  predicate Concerns(a: Alert, device: nat, kind: string) {
    Open(a) && a.device == device && a.kind == kind
  }

  /** Among the first `n` alerts, the open one of this device and kind that was triggered last. */
  function Latest(alerts: seq<Alert>, device: nat, kind: string, n: nat): (r: Option<nat>)
    requires n <= |alerts|
    ensures r.Some? ==> r.value < n && Concerns(alerts[r.value], device, kind)
    ensures r.None? ==> forall i :: 0 <= i < n ==> !Concerns(alerts[i], device, kind)
  {
    if n == 0 then None
    else
      var before := Latest(alerts, device, kind, n - 1);
      if Concerns(alerts[n - 1], device, kind)
         && (before.None? || alerts[n - 1].triggeredAt > alerts[before.value].triggeredAt) then Some(n - 1)
      else before
  }

  /** The alerts after a condition was observed to hold, or not to hold. */
  function Conditioned(alerts: seq<Alert>, device: nat, kind: string, active: bool, at: real): seq<Alert> {
    var current := Latest(alerts, device, kind, |alerts|);
    if current.None? then
      if active then alerts + [Alert(device, kind, Active, Backend, at, at, 1, None)] else alerts
    else
      var a := alerts[current.value];
      alerts[current.value :=
        if active then a.(lastObservedAt := at, occurrences := a.occurrences + 1)
        else a.(state := Resolved, resolvedAt := Some(at), lastObservedAt := at)]
  }

  /** The alerts after the state of a device was observed. */
  function Connectivity(alerts: seq<Alert>, device: nat, state: string, at: real): seq<Alert> {
    var one := Conditioned(alerts, device, DEVICE_OFFLINE, state == "offline", at);
    var two := Conditioned(one, device, TELEMETRY_STALE, state == "stale", at);
    if state == "online" then
      Conditioned(Conditioned(two, device, DEVICE_OFFLINE, false, at), device, TELEMETRY_STALE, false, at)
    else two
  }

  function MarkedRow(row: DeviceRow, state: string, at: real, reason: Option<string>): DeviceRow {
    DeviceRow(state, reason, if state == "online" || state == "reconnecting" then Some(at) else row.lastSeen, Some(at))
  }

  function Marked(f: Fleet, d: nat, state: string, at: real, reason: Option<string>): Fleet
    requires d in f.devices
  {
    var row := f.devices[d];
    Fleet(f.devices[d := MarkedRow(row, state, at, reason)], Connectivity(f.alerts, d, state, at),
          if row.status != state || row.reason != reason then f.history + [Change(d, state, reason, at)] else f.history)
  }

  /** What a device that was last seen at this time should be now. */
  function Target(lastSeen: real, now: real): string {
    if now - lastSeen >= OFFLINE_AFTER_SECONDS then "offline"
    else if now - lastSeen >= STALE_AFTER_SECONDS then "stale" else "online"
  }

  function ReasonFor(target: string): string {
    if target == "offline" then "telemetry_timeout"
    else if target == "stale" then "telemetry_stale"
    else "telemetry_resumed"
  }

  /** Whether the scan changes a device. */
  predicate Overtaken(row: DeviceRow, now: real) {
    row.lastSeen.Some? && row.status != Target(row.lastSeen.value, now)
  }

  function ScannedOne(f: Fleet, d: nat, now: real): Fleet
    requires d in f.devices
  {
    var row := f.devices[d];
    if Overtaken(row, now) then
      var target := Target(row.lastSeen.value, now);
      Marked(f, d, target, now, Some(ReasonFor(target)))
    else f
  }

  function Scanned(f: Fleet, order: seq<nat>, now: real): (r: Fleet)
    requires forall d :: d in order ==> d in f.devices
    ensures r.devices.Keys == f.devices.Keys
  {
    if order == [] then f else ScannedOne(Scanned(f, order[..|order| - 1], now), order[|order| - 1], now)
  }

  // ---------- the services ----------

  class DeviceStatusService {
    var devices: map<nat, DeviceRow>
    var alerts: seq<Alert>
    var history: seq<Change>

    ghost function State(): Fleet
      reads this
    {
      Fleet(devices, alerts, history)
    }

    constructor (devices: map<nat, DeviceRow>)
      ensures State() == Fleet(devices, [], [])
    {
      this.devices, alerts, history := devices, [], [];
    }

    method Current(device: nat, kind: string) returns (r: Option<nat>)
      ensures r == Latest(alerts, device, kind, |alerts|)
    {
      r := None;
      for i := 0 to |alerts|
        invariant r == Latest(alerts, device, kind, i)
      {
        if Concerns(alerts[i], device, kind) && (r.None? || alerts[i].triggeredAt > alerts[r.value].triggeredAt) {
          r := Some(i);
        }
      }
    }

    /** Opens, repeats or resolves the alert of a condition. */
    method Condition(device: nat, kind: string, active: bool, at: real)
      modifies this`alerts
      ensures alerts == Conditioned(old(alerts), device, kind, active, at)
    {
      var current := Current(device, kind);
      if current.None? {
        if active {
          alerts := alerts + [Alert(device, kind, Active, Backend, at, at, 1, None)];
        }
        return;
      }
      var a := alerts[current.value];
      if active {
        a := a.(lastObservedAt := at, occurrences := a.occurrences + 1);
      } else {
        a := a.(state := Resolved, resolvedAt := Some(at), lastObservedAt := at);
      }
      alerts := alerts[current.value := a];
    }

    method SetConnectivityAlert(device: nat, state: string, at: real)
      modifies this`alerts
      ensures alerts == Connectivity(old(alerts), device, state, at)
    {
      hide Conditioned;
      Condition(device, DEVICE_OFFLINE, state == "offline", at);
      Condition(device, TELEMETRY_STALE, state == "stale", at);
      if state == "online" {
        Condition(device, DEVICE_OFFLINE, false, at);
        Condition(device, TELEMETRY_STALE, false, at);
      }
    }

    method Mark(d: nat, state: string, at: real, reason: Option<string>)
      requires d in devices
      modifies this
      ensures State() == Marked(old(State()), d, state, at, reason)
    {
      hide Connectivity;
      var row := devices[d];
      var changed := row.status != state || row.reason != reason;
      row := row.(status := state, reason := reason, lastStatus := Some(at));
      if state == "online" || state == "reconnecting" {
        row := row.(lastSeen := Some(at));
      }
      devices := devices[d := row];
      if changed {
        history := history + [Change(d, state, reason, at)];
      }
      SetConnectivityAlert(d, state, at);
    }

    /** Finds the devices that went silent, or came back, and marks them. */
    method EvaluateStaleDevices(order: seq<nat>, now: real) returns (changed: seq<nat>)
      requires forall d :: d in order ==> d in devices
      modifies this
      ensures State() == Scanned(old(State()), order, now)
    {
      changed := [];
      ghost var before := State();
      for i := 0 to |order|
        invariant devices.Keys == before.devices.Keys
        invariant State() == Scanned(before, order[..i], now)
      {
        assert order[..i + 1][..i] == order[..i];
        var d := order[i];
        var row := devices[d];
        if row.lastSeen.Some? {
          var age := now - row.lastSeen.value;
          var target := if age >= OFFLINE_AFTER_SECONDS then "offline"
                        else if age >= STALE_AFTER_SECONDS then "stale"
                        else "online";
          if row.status != target {
            Mark(d, target, now, Some(ReasonFor(target)));
            changed := changed + [d];
          }
        }
      }
      assert order[..|order|] == order;
    }
  }

  // ---------- alerts agree with the status ----------

  predicate IsConnectivity(kind: string) {
    kind == DEVICE_OFFLINE || kind == TELEMETRY_STALE
  }

  /** No device has two open alerts of one kind that the backend raised. */
  ghost predicate OneOpen(alerts: seq<Alert>) {
    forall i, j :: 0 <= i < j < |alerts| && Open(alerts[i]) && Open(alerts[j])
                   && alerts[i].source.Backend? && alerts[j].source.Backend? ==>
      alerts[i].device != alerts[j].device || alerts[i].kind != alerts[j].kind
  }

  ghost predicate ConnectivityIsBackend(alerts: seq<Alert>) {
    forall i :: 0 <= i < |alerts| && IsConnectivity(alerts[i].kind) ==> alerts[i].source.Backend?
  }

  ghost predicate NoneOpen(alerts: seq<Alert>, device: nat, kind: string) {
    forall i :: 0 <= i < |alerts| ==> !Concerns(alerts[i], device, kind)
  }

  /** An open connectivity alert means that its device is in that state. */
  ghost predicate Coherent(f: Fleet) {
    && OneOpen(f.alerts) && ConnectivityIsBackend(f.alerts)
    && (forall d :: d in f.devices && f.devices[d].status != "offline" ==> NoneOpen(f.alerts, d, DEVICE_OFFLINE))
    && (forall d :: d in f.devices && f.devices[d].status != "stale" ==> NoneOpen(f.alerts, d, TELEMETRY_STALE))
  }

  lemma ConditionKeeps(alerts: seq<Alert>, device: nat, kind: string, active: bool, at: real)
    requires OneOpen(alerts) && ConnectivityIsBackend(alerts)
    ensures var now := Conditioned(alerts, device, kind, active, at);
            && OneOpen(now) && ConnectivityIsBackend(now)
            && (!active && IsConnectivity(kind) ==> NoneOpen(now, device, kind))
            && forall d: nat, k: string {:trigger NoneOpen(now, d, k)} ::
                 NoneOpen(alerts, d, k) && (d != device || k != kind || !active) ==> NoneOpen(now, d, k)
  {
  }

  lemma ConnectivityKeeps(alerts: seq<Alert>, device: nat, state: string, at: real)
    requires OneOpen(alerts) && ConnectivityIsBackend(alerts)
    ensures var now := Connectivity(alerts, device, state, at);
            && OneOpen(now) && ConnectivityIsBackend(now)
            && (state != "offline" ==> NoneOpen(now, device, DEVICE_OFFLINE))
            && (state != "stale" ==> NoneOpen(now, device, TELEMETRY_STALE))
            && forall d: nat, k: string {:trigger NoneOpen(now, d, k)} ::
                 NoneOpen(alerts, d, k) && d != device ==> NoneOpen(now, d, k)
  {
    hide Conditioned, OneOpen, ConnectivityIsBackend, NoneOpen;
    var one := Conditioned(alerts, device, DEVICE_OFFLINE, state == "offline", at);
    ConditionKeeps(alerts, device, DEVICE_OFFLINE, state == "offline", at);
    var two := Conditioned(one, device, TELEMETRY_STALE, state == "stale", at);
    ConditionKeeps(one, device, TELEMETRY_STALE, state == "stale", at);
    if state == "online" {
      ConditionKeeps(two, device, DEVICE_OFFLINE, false, at);
      ConditionKeeps(Conditioned(two, device, DEVICE_OFFLINE, false, at), device, TELEMETRY_STALE, false, at);
    }
  }

  lemma MarkKeeps(f: Fleet, d: nat, state: string, at: real, reason: Option<string>)
    requires Coherent(f) && d in f.devices
    ensures Coherent(Marked(f, d, state, at, reason))
  {
    hide Connectivity, OneOpen, ConnectivityIsBackend, NoneOpen;
    ConnectivityKeeps(f.alerts, d, state, at);
  }

  lemma {:induction false} ScanKeeps(f: Fleet, order: seq<nat>, now: real)
    requires Coherent(f) && forall d :: d in order ==> d in f.devices
    ensures Coherent(Scanned(f, order, now))
    decreases |order|
  {
    if order != [] {
      ScanKeeps(f, order[..|order| - 1], now);
      hide Coherent, Marked;
      var g, d := Scanned(f, order[..|order| - 1], now), order[|order| - 1];
      if Overtaken(g.devices[d], now) {
        var target := Target(g.devices[d].lastSeen.value, now);
        MarkKeeps(g, d, target, now, Some(ReasonFor(target)));
      }
    }
  }

  datatype Step =
    | Report(device: nat, state: string, at: real, reason: Option<string>)
    | Scan(order: seq<nat>, now: real)
    | Observe(device: nat, kind: string, active: bool, at: real)
    | Event(device: nat, kind: string, at: real)
    | Acknowledge(alert: nat)
    | Resolve(alert: nat, at: real)

  /**
     What may happen: devices report their state, the scan runs, telemetry conditions other than
     connectivity are observed, devices send events of other kinds, operators handle alerts.
   */
  predicate Enabled(f: Fleet, s: Step) {
    match s
    case Report(d, _, _, _) => d in f.devices
    case Scan(order, _) => forall d :: d in order ==> d in f.devices
    case Observe(_, kind, _, _) => !IsConnectivity(kind)
    case Event(_, kind, _) => !IsConnectivity(kind)
    case Acknowledge(i) => i < |f.alerts| && Open(f.alerts[i])
    case Resolve(i, _) => i < |f.alerts|
  }

  function Next(f: Fleet, s: Step): Fleet
    requires Enabled(f, s)
  {
    match s
    case Report(d, state, at, reason) => Marked(f, d, state, at, reason)
    case Scan(order, now) => Scanned(f, order, now)
    case Observe(d, kind, active, at) => f.(alerts := Conditioned(f.alerts, d, kind, active, at))
    case Event(d, kind, at) => f.(alerts := f.alerts + [Alert(d, kind, Active, External, at, at, 1, None)])
    case Acknowledge(i) => f.(alerts := f.alerts[i := f.alerts[i].(state := Acknowledged)])
    case Resolve(i, at) => f.(alerts := f.alerts[i := f.alerts[i].(state := Resolved, resolvedAt := Some(at))])
  }

  lemma StepKeeps(f: Fleet, s: Step)
    requires Coherent(f) && Enabled(f, s)
    ensures Coherent(Next(f, s))
  {
    match s
    case Report(d, state, at, reason) => MarkKeeps(f, d, state, at, reason);
    case Scan(order, now) => ScanKeeps(f, order, now);
    case Observe(d, kind, active, at) =>
      hide Conditioned, NoneOpen, OneOpen, ConnectivityIsBackend;
      ConditionKeeps(f.alerts, d, kind, active, at);
    case Event(_, _, _) =>
    case Acknowledge(_) =>
    case Resolve(_, _) =>
  }

  predicate IsRun(f: Fleet, steps: seq<Step>)
    decreases |steps|, 0
  {
    steps == [] || (IsRun(f, steps[..|steps| - 1]) && Enabled(Run(f, steps[..|steps| - 1]), steps[|steps| - 1]))
  }

  function Run(f: Fleet, steps: seq<Step>): Fleet
    requires IsRun(f, steps)
    decreases |steps|, 1
  {
    if steps == [] then f else Next(Run(f, steps[..|steps| - 1]), steps[|steps| - 1])
  }

  /**
     In every run, a device has at most one open backend alert of a kind, and an open connectivity
     alert means that the device is in that state.
   */
  lemma {:induction false} AlertsAgree(devices: map<nat, DeviceRow>, steps: seq<Step>)
    requires IsRun(Fleet(devices, [], []), steps)
    ensures Coherent(Run(Fleet(devices, [], []), steps))
    decreases |steps|
  {
    if steps != [] {
      var before := steps[..|steps| - 1];
      AlertsAgree(devices, before);
      hide Coherent, Next, Enabled;
      StepKeeps(Run(Fleet(devices, [], []), before), steps[|steps| - 1]);
    }
  }

  // ---------- silence settles ----------

  function ScannedRow(row: DeviceRow, now: real): DeviceRow {
    if Overtaken(row, now) then
      MarkedRow(row, Target(row.lastSeen.value, now), now, Some(ReasonFor(Target(row.lastSeen.value, now))))
    else row
  }

  /** The scan treats each device on its own. */
  lemma {:induction false} ScanIsRowByRow(f: Fleet, order: seq<nat>, now: real, d: nat)
    requires forall e :: e in order ==> e in f.devices
    requires forall i, j :: 0 <= i < j < |order| ==> order[i] != order[j]
    requires d in f.devices
    ensures Scanned(f, order, now).devices[d] == if d in order then ScannedRow(f.devices[d], now) else f.devices[d]
    decreases |order|
  {
    if order != [] {
      var before, last := order[..|order| - 1], order[|order| - 1];
      ScanIsRowByRow(f, before, now, d);
      assert order == before + [last];
      hide Connectivity;
    }
  }

  /** A device over a sequence of scans, without messages. */
  function RowAfter(row: DeviceRow, times: seq<real>): DeviceRow {
    if times == [] then row else ScannedRow(RowAfter(row, times[..|times| - 1]), times[|times| - 1])
  }

  function StatusChanges(row: DeviceRow, times: seq<real>): nat {
    if times == [] then 0
    else
      var before := times[..|times| - 1];
      StatusChanges(row, before) + if RowAfter(row, times).status != RowAfter(row, before).status then 1 else 0
  }

  ghost predicate Nondecreasing(times: seq<real>) {
    forall i, j :: 0 <= i < j < |times| ==> times[i] <= times[j]
  }

  /** How far along the way from online over stale to offline. */
  function Stage(status: string): nat {
    if status == "offline" then 2 else if status == "stale" then 1 else 0
  }

  /** After the first scan the status is what the time since the last sign of life demands, and only moves on. */
  lemma {:induction false} StagesAdvance(row: DeviceRow, times: seq<real>)
    requires Nondecreasing(times) && times != [] && row.lastSeen.Some?
    ensures var r, now := RowAfter(row, times), times[|times| - 1];
            && r.lastSeen.Some? && r.status == Target(r.lastSeen.value, now)
            && (r.lastSeen == row.lastSeen || r.lastSeen == Some(times[0]))
            && StatusChanges(row, times) <= 1 + Stage(r.status)
    decreases |times|
  {
    var before, now := times[..|times| - 1], times[|times| - 1];
    if before == [] {
      assert RowAfter(row, before) == row && StatusChanges(row, before) == 0;
    } else {
      StagesAdvance(row, before);
      assert before[0] == times[0] && before[|before| - 1] <= now;
    }
  }

  /** A device that was never seen keeps its status, whatever the scan times. */
  lemma {:induction false} NeverSeenStays(row: DeviceRow, times: seq<real>)
    requires row.lastSeen.None?
    ensures RowAfter(row, times) == row && StatusChanges(row, times) == 0
    decreases |times|
  {
    if times != [] {
      NeverSeenStays(row, times[..|times| - 1]);
    }
  }

  /**
     Without further messages a device changes its status at most three times, whatever the scan
     times. A device that was never seen keeps its status; any other is offline once the offline limit
     has passed since it was seen and since the first scan.
   */
  lemma SilenceSettles(row: DeviceRow, times: seq<real>)
    requires Nondecreasing(times)
    ensures StatusChanges(row, times) <= 3
    ensures row.lastSeen.None? ==> RowAfter(row, times) == row && StatusChanges(row, times) == 0
    ensures row.lastSeen.Some? && times != [] && times[|times| - 1] - row.lastSeen.value >= OFFLINE_AFTER_SECONDS
            && times[|times| - 1] - times[0] >= OFFLINE_AFTER_SECONDS ==>
              RowAfter(row, times).status == "offline"
  {
    if row.lastSeen.None? {
      NeverSeenStays(row, times);
    } else if times != [] {
      StagesAdvance(row, times);
    }
  }

  /** Three changes do occur: an offline report shortly after telemetry is taken back by the next scan. */
  lemma ThreeChanges()
    ensures var row := DeviceRow("offline", Some("unexpected_disconnect"), Some(0.0), Some(10.0));
            StatusChanges(row, [20.0, 65.0, 140.0]) == 3
  {
    var row := DeviceRow("offline", Some("unexpected_disconnect"), Some(0.0), Some(10.0));
    var times := [20.0, 65.0, 140.0];
    assert times[..2][..1] == [20.0] && times[..2][1] == 65.0 && times[..1] == [20.0];
    assert RowAfter(row, []) == row && [20.0][..0] == [];
    assert RowAfter(row, [20.0]).status == "online" && RowAfter(row, [20.0]).lastSeen == Some(20.0);
    assert RowAfter(row, times[..2]).status == "stale" && RowAfter(row, times[..2]).lastSeen == Some(20.0);
    assert StatusChanges(row, []) == 0 && StatusChanges(row, [20.0]) == 1 && StatusChanges(row, times[..2]) == 2;
  }
}
