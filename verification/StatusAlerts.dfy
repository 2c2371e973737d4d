/** What reports and scans do to the rows and alerts of devices, and when a device has an open alert. */
module StatusAlerts {
  import opened OfflineQueuePolicy
  import opened DeviceStatus

  /** The kind of alert that goes with a state; the other states have none. */
  function KindFor(state: string): string {
    if state == "offline" then "device_offline" else if state == "stale" then "telemetry_stale" else ""
  }

  predicate IsOpen(a: Alert, d: nat, kind: string) {
    a.device == d && a.kind == kind && (a.state == Active || a.state == Acknowledged)
  }

  ghost predicate HasOpen(alerts: seq<Alert>, d: nat, kind: string) {
    exists i :: 0 <= i < |alerts| && IsOpen(alerts[i], d, kind)
  }

  /** An alert after the state of device `d` was observed, with the kind that goes with that state. */
  function Moved(a: Alert, d: nat, kind: string, at: real): Alert {
    if !IsOpen(a, d, "device_offline") && !IsOpen(a, d, "telemetry_stale") then a
    else if a.kind == kind then a.(lastObservedAt := at, occurrences := a.occurrences + 1)
    else a.(state := Resolved, resolvedAt := Some(at), lastObservedAt := at)
  }

  /** The alerts after the state of device `d` was observed. */
  ghost predicate AlertsMoved(before: seq<Alert>, after: seq<Alert>, d: nat, kind: string, at: real) {
    && |before| <= |after| && (forall i :: 0 <= i < |before| ==> after[i] == Moved(before[i], d, kind, at))
    && after[|before|..] == if kind == "" || HasOpen(before, d, kind) then []
                            else [Alert(d, kind, Active, Backend, at, at, 1, None)]
  }

  lemma OpenIsConcern(a: Alert, d: nat, kind: string)
    ensures IsOpen(a, d, kind) <==> Concerns(a, d, kind)
  {
  }

  lemma NoneOrOpen(alerts: seq<Alert>, d: nat, kind: string)
    ensures HasOpen(alerts, d, kind) <==> !NoneOpen(alerts, d, kind)
  {
    forall i | 0 <= i < |alerts|
      ensures IsOpen(alerts[i], d, kind) <==> Concerns(alerts[i], d, kind)
    {
      OpenIsConcern(alerts[i], d, kind);
    }
  }

  /** What one condition does to the alert at a place. */
  function Observed(a: Alert, d: nat, kind: string, active: bool, at: real): Alert {
    if !IsOpen(a, d, kind) then a
    else if active then a.(lastObservedAt := at, occurrences := a.occurrences + 1)
    else a.(state := Resolved, resolvedAt := Some(at), lastObservedAt := at)
  }

  ghost predicate AlertsObserved(before: seq<Alert>, after: seq<Alert>, d: nat, kind: string, active: bool, at: real) {
    && |before| <= |after| && (forall i :: 0 <= i < |before| ==> after[i] == Observed(before[i], d, kind, active, at))
    && after[|before|..] == if !active || HasOpen(before, d, kind) then []
                            else [Alert(d, kind, Active, Backend, at, at, 1, None)]
  }

  lemma ConditionObserves(alerts: seq<Alert>, d: nat, kind: string, active: bool, at: real)
    requires OneOpen(alerts) && ConnectivityIsBackend(alerts) && IsConnectivity(kind)
    ensures AlertsObserved(alerts, Conditioned(alerts, d, kind, active, at), d, kind, active, at)
  {
    var current := Latest(alerts, d, kind, |alerts|);
    if current.Some? {
      OpenIsConcern(alerts[current.value], d, kind);
      forall i | 0 <= i < |alerts| && i != current.value
        ensures !IsOpen(alerts[i], d, kind)
      {
        if i < current.value {
          assert Open(alerts[i]) && Open(alerts[current.value]) ==> alerts[i].device != d || alerts[i].kind != kind;
        }
      }
    }
  }

  lemma KindsDiffer()
    ensures "device_offline" != "telemetry_stale" && "device_offline" != "" && "telemetry_stale" != ""
    ensures "offline" != "stale" && "online" != "offline" && "online" != "stale"
  {
    assert "device_offline"[0] == 'd' && "telemetry_stale"[0] == 't' && "offline"[0] == 'o' && "stale"[0] == 's';
    assert "online"[1] == 'n' && "offline"[1] == 'f';
  }

  /** Both conditions together. */
  lemma BothObserved(before: seq<Alert>, one: seq<Alert>, two: seq<Alert>, d: nat, state: string, at: real)
    requires AlertsObserved(before, one, d, "device_offline", state == "offline", at)
    requires AlertsObserved(one, two, d, "telemetry_stale", state == "stale", at)
    ensures AlertsMoved(before, two, d, KindFor(state), at)
  {
    KindsDiffer();
    var kind := KindFor(state);
    forall i | 0 <= i < |before|
      ensures two[i] == Moved(before[i], d, kind, at)
    {
      assert one[i] == Observed(before[i], d, "device_offline", state == "offline", at);
      assert two[i] == Observed(one[i], d, "telemetry_stale", state == "stale", at);
    }
    if state == "offline" {
      assert two[|before|..] == one[|before|..] by {
        assert |two| == |one| && forall i :: |before| <= i < |one| ==> one[i] == one[|before|..][i - |before|];
      }
    } else {
      assert |one| == |before|;
      SameOpen(before, one, d, state == "offline", at);
    }
  }

  lemma SameOpen(before: seq<Alert>, one: seq<Alert>, d: nat, active: bool, at: real)
    requires |one| == |before| && AlertsObserved(before, one, d, "device_offline", active, at)
    ensures HasOpen(before, d, "telemetry_stale") <==> HasOpen(one, d, "telemetry_stale")
  {
    KindsDiffer();
    forall i | 0 <= i < |before|
      ensures IsOpen(before[i], d, "telemetry_stale") <==> IsOpen(one[i], d, "telemetry_stale")
    {
    }
  }

  lemma NothingObserved(before: seq<Alert>, after: seq<Alert>, d: nat, kind: string, at: real)
    requires AlertsObserved(before, after, d, kind, false, at) && NoneOpen(before, d, kind)
    ensures after == before
  {
    NoneOrOpen(before, d, kind);
    assert after == after[..|before|] + after[|before|..];
    forall i | 0 <= i < |before|
      ensures after[i] == before[i]
    {
      assert !IsOpen(before[i], d, kind);
    }
  }

  /**
     A report of a device opens an alert of the kind that goes with its state, or repeats the one that is
     open, ends its other one, and touches no other alert.
   */
  lemma ReportMovesAlerts(alerts: seq<Alert>, d: nat, state: string, at: real)
    requires OneOpen(alerts) && ConnectivityIsBackend(alerts)
    ensures AlertsMoved(alerts, Connectivity(alerts, d, state, at), d, KindFor(state), at)
  {
    KindsDiffer();
    hide Conditioned, OneOpen, ConnectivityIsBackend, AlertsObserved, AlertsMoved, NoneOpen;
    var one := Conditioned(alerts, d, DEVICE_OFFLINE, state == "offline", at);
    ConditionKeeps(alerts, d, DEVICE_OFFLINE, state == "offline", at);
    ConditionObserves(alerts, d, DEVICE_OFFLINE, state == "offline", at);
    var two := Conditioned(one, d, TELEMETRY_STALE, state == "stale", at);
    ConditionKeeps(one, d, TELEMETRY_STALE, state == "stale", at);
    ConditionObserves(one, d, TELEMETRY_STALE, state == "stale", at);
    BothObserved(alerts, one, two, d, state, at);
    if state == "online" {
      ConditionObserves(two, d, DEVICE_OFFLINE, false, at);
      NothingObserved(two, Conditioned(two, d, DEVICE_OFFLINE, false, at), d, DEVICE_OFFLINE, at);
      ConditionObserves(two, d, TELEMETRY_STALE, false, at);
      NothingObserved(two, Conditioned(two, d, TELEMETRY_STALE, false, at), d, TELEMETRY_STALE, at);
    }
  }

  /** The row and the history after a report. */
  lemma ReportMovesRow(f: Fleet, d: nat, state: string, at: real, reason: Option<string>)
    requires d in f.devices
    ensures var g, row := Marked(f, d, state, at, reason), f.devices[d];
            && g.devices.Keys == f.devices.Keys
            && (forall e :: e in f.devices && e != d ==> g.devices[e] == f.devices[e])
            && g.devices[d].status == state && g.devices[d].reason == reason && g.devices[d].lastStatus == Some(at)
            && (state == "online" || state == "reconnecting" ==> g.devices[d].lastSeen == Some(at))
            && (state != "online" && state != "reconnecting" ==> g.devices[d].lastSeen == row.lastSeen)
            && (row.status == state && row.reason == reason ==> g.history == f.history)
            && (row.status != state || row.reason != reason ==> g.history == f.history + [Change(d, state, reason, at)])
  {
    hide Connectivity;
  }

  /** The state that the scan finds for a device that was last seen at this time. */
  function Due(lastSeen: real, now: real): string {
    if now >= lastSeen + 120.0 then "offline" else if now >= lastSeen + 45.0 then "stale" else "online"
  }

  function Reason(state: string): string {
    if state == "offline" then "telemetry_timeout"
    else if state == "stale" then "telemetry_stale"
    else "telemetry_resumed"
  }

  /** The scan changes the devices whose silence demands another state, as a report of that state would. */
  lemma ScanReports(f: Fleet, d: nat, now: real)
    requires d in f.devices
    ensures ScannedOne(f, d, now) ==
            match f.devices[d].lastSeen {
              case None => f
              case Some(seen) =>
                if f.devices[d].status == Due(seen, now) then f
                else Marked(f, d, Due(seen, now), now, Some(Reason(Due(seen, now))))
            }
  {
    KindsDiffer();
    hide Marked;
  }

  // ---------- runs ----------

  /** Whether an alert is open exactly while the device is in the state. */
  ghost predicate Announced(f: Fleet, d: nat)
    requires d in f.devices
  {
    && (f.devices[d].status == "offline" <==> HasOpen(f.alerts, d, "device_offline"))
    && (f.devices[d].status == "stale" <==> HasOpen(f.alerts, d, "telemetry_stale"))
  }

  lemma MovedAnnounces(before: seq<Alert>, after: seq<Alert>, d: nat, state: string, at: real)
    requires AlertsMoved(before, after, d, KindFor(state), at)
    ensures HasOpen(after, d, "device_offline") <==> state == "offline"
    ensures HasOpen(after, d, "telemetry_stale") <==> state == "stale"
  {
    KindsDiffer();
    var kind := KindFor(state);
    forall i | 0 <= i < |before|
      ensures forall k :: k in ["device_offline", "telemetry_stale"] ==>
                (IsOpen(after[i], d, k) <==> k == kind && IsOpen(before[i], d, k))
    {
      assert after[i] == Moved(before[i], d, kind, at);
    }
    if kind != "" {
      if HasOpen(before, d, kind) {
        var i :| 0 <= i < |before| && IsOpen(before[i], d, kind);
        assert IsOpen(after[i], d, kind);
      } else {
        assert after[|before|] == after[|before|..][0];
        assert IsOpen(after[|before|], d, kind);
      }
    }
    forall i, k | 0 <= i < |after| && k in ["device_offline", "telemetry_stale"] && IsOpen(after[i], d, k)
      ensures k == kind
    {
      if i >= |before| {
        assert after[i] == after[|before|..][i - |before|];
      }
    }
  }

  lemma MovedLeavesOthers(before: seq<Alert>, after: seq<Alert>, d: nat, kind: string, at: real, other: nat, k: string)
    requires AlertsMoved(before, after, d, kind, at) && other != d
    ensures HasOpen(after, other, k) <==> HasOpen(before, other, k)
  {
    forall i | 0 <= i < |before|
      ensures IsOpen(after[i], other, k) <==> IsOpen(before[i], other, k)
    {
      assert after[i] == Moved(before[i], d, kind, at);
    }
    forall i | |before| <= i < |after|
      ensures !IsOpen(after[i], other, k)
    {
      assert after[i] == after[|before|..][i - |before|];
    }
    if HasOpen(before, other, k) {
      var i :| 0 <= i < |before| && IsOpen(before[i], other, k);
      assert IsOpen(after[i], other, k);
    }
  }

  lemma MarkAnnounces(f: Fleet, e: nat, state: string, at: real, reason: Option<string>, d: nat)
    requires Coherent(f) && e in f.devices && d in f.devices && (d == e || Announced(f, d))
    ensures Announced(Marked(f, e, state, at, reason), d)
  {
    ReportMovesAlerts(f.alerts, e, state, at);
    ReportMovesRow(f, e, state, at, reason);
    var after := Connectivity(f.alerts, e, state, at);
    assert Marked(f, e, state, at, reason).alerts == after;
    hide Marked, Connectivity, AlertsMoved, HasOpen, Coherent;
    if d == e {
      MovedAnnounces(f.alerts, after, d, state, at);
    } else {
      MovedLeavesOthers(f.alerts, after, e, KindFor(state), at, d, "device_offline");
      MovedLeavesOthers(f.alerts, after, e, KindFor(state), at, d, "telemetry_stale");
    }
  }

  lemma {:induction false} ScanAnnounces(f: Fleet, order: seq<nat>, now: real, d: nat)
    requires Coherent(f) && d in f.devices && Announced(f, d) && forall e :: e in order ==> e in f.devices
    ensures Announced(Scanned(f, order, now), d)
    decreases |order|
  {
    if order != [] {
      var before, e := order[..|order| - 1], order[|order| - 1];
      ScanAnnounces(f, before, now, d);
      ScanKeeps(f, before, now);
      hide Coherent, Marked, Announced;
      var g := Scanned(f, before, now);
      ScanReports(g, e, now);
      match g.devices[e].lastSeen {
        case None =>
        case Some(seen) => MarkAnnounces(g, e, Due(seen, now), now, Some(Reason(Due(seen, now))), d);
      }
    }
  }

  /** A step that is not an operator ending a connectivity alert by hand. */
  predicate KeepsAlerts(f: Fleet, s: Step)
    requires Enabled(f, s)
  {
    s.Resolve? ==> f.alerts[s.alert].kind != "device_offline" && f.alerts[s.alert].kind != "telemetry_stale"
  }

  predicate NoneResolvedByHand(f: Fleet, steps: seq<Step>)
    requires IsRun(f, steps)
  {
    forall k :: 0 <= k < |steps| ==> PrefixOfRun(f, steps, k) && KeepsAlerts(Run(f, steps[..k]), steps[k])
  }

  predicate PrefixOfRun(f: Fleet, steps: seq<Step>, k: nat)
    requires k < |steps|
  {
    IsRun(f, steps[..k]) && Enabled(Run(f, steps[..k]), steps[k])
  }

  /** A step that leaves every connectivity alert open or not as it was. */
  ghost predicate SameConnectivity(before: seq<Alert>, after: seq<Alert>, d: nat) {
    && (HasOpen(after, d, "device_offline") <==> HasOpen(before, d, "device_offline"))
    && (HasOpen(after, d, "telemetry_stale") <==> HasOpen(before, d, "telemetry_stale"))
  }

  lemma OneChanged(before: seq<Alert>, after: seq<Alert>, i: nat, d: nat)
    requires i < |before| == |after| && after == before[i := after[i]] && after[i].device == before[i].device
    requires after[i].kind == before[i].kind
    requires !IsConnectivity(before[i].kind) || (before[i].state != Resolved && after[i].state != Resolved)
    ensures SameConnectivity(before, after, d)
  {
    KindsDiffer();
    forall j, k | 0 <= j < |before| && k in ["device_offline", "telemetry_stale"]
      ensures IsOpen(after[j], d, k) <==> IsOpen(before[j], d, k)
    {
    }
    SameWherever(before, after, d, "device_offline");
    SameWherever(before, after, d, "telemetry_stale");
  }

  lemma SameWherever(before: seq<Alert>, after: seq<Alert>, d: nat, kind: string)
    requires |before| <= |after|
    requires forall j :: 0 <= j < |before| ==> (IsOpen(after[j], d, kind) <==> IsOpen(before[j], d, kind))
    requires forall j :: |before| <= j < |after| ==> !IsOpen(after[j], d, kind)
    ensures HasOpen(after, d, kind) <==> HasOpen(before, d, kind)
  {
    if HasOpen(before, d, kind) {
      var j :| 0 <= j < |before| && IsOpen(before[j], d, kind);
      assert IsOpen(after[j], d, kind);
    }
  }

  lemma OneAppended(before: seq<Alert>, a: Alert, d: nat)
    requires !IsConnectivity(a.kind)
    ensures SameConnectivity(before, before + [a], d)
  {
    SameWherever(before, before + [a], d, "device_offline");
    SameWherever(before, before + [a], d, "telemetry_stale");
  }

  lemma StepAnnounces(f: Fleet, s: Step, d: nat)
    requires Coherent(f) && Enabled(f, s) && KeepsAlerts(f, s) && d in f.devices && Announced(f, d)
    ensures d in Next(f, s).devices && Announced(Next(f, s), d)
  {
    hide Marked, Scanned, Coherent, HasOpen, IsOpen;
    match s
    case Report(e, state, at, reason) =>
      ReportMovesRow(f, e, state, at, reason);
      MarkAnnounces(f, e, state, at, reason, d);
    case Scan(order, now) => ScanAnnounces(f, order, now, d);
    case Observe(e, kind, active, at) =>
      var current := Latest(f.alerts, e, kind, |f.alerts|);
      if current.Some? {
        OneChanged(f.alerts, Conditioned(f.alerts, e, kind, active, at), current.value, d);
      } else if active {
        OneAppended(f.alerts, Alert(e, kind, Active, Backend, at, at, 1, None), d);
      }
    case Event(e, kind, at) => OneAppended(f.alerts, Alert(e, kind, Active, External, at, at, 1, None), d);
    case Acknowledge(i) => OneChanged(f.alerts, Next(f, s).alerts, i, d);
    case Resolve(i, at) => OneChanged(f.alerts, Next(f, s).alerts, i, d);
  }

  /**
     In every run in which no operator ends a connectivity alert by hand, a device that was neither
     offline nor stale at the beginning has an open alert of a kind exactly while it is in that state.
   */
  lemma {:induction false} StatusIsAnnounced(devices: map<nat, DeviceRow>, steps: seq<Step>, d: nat)
    requires IsRun(Fleet(devices, [], []), steps) && NoneResolvedByHand(Fleet(devices, [], []), steps)
    requires d in devices && devices[d].status != "offline" && devices[d].status != "stale"
    ensures d in Run(Fleet(devices, [], []), steps).devices && Announced(Run(Fleet(devices, [], []), steps), d)
    decreases |steps|
  {
    var f := Fleet(devices, [], []);
    if steps != [] {
      var n := |steps| - 1;
      var before := steps[..n];
      forall k | 0 <= k < n
        ensures PrefixOfRun(f, before, k) && KeepsAlerts(Run(f, before[..k]), before[k])
      {
        assert before[..k] == steps[..k] && PrefixOfRun(f, steps, k);
      }
      StatusIsAnnounced(devices, before, d);
      AlertsAgree(devices, before);
      hide Coherent, Announced, Next;
      assert PrefixOfRun(f, steps, n);
      StepAnnounces(Run(f, before), steps[n], d);
    }
  }

  /** The scan decides by the age of the last sign of life: 45 and 120 seconds are the limits. */
  lemma ScanDecides(f: Fleet, order: seq<nat>, now: real, d: nat)
    requires forall e :: e in order ==> e in f.devices
    requires forall i, j :: 0 <= i < j < |order| ==> order[i] != order[j]
    requires d in order
    ensures var row, after := f.devices[d], Scanned(f, order, now).devices[d];
            match row.lastSeen {
              case None => after == row
              case Some(seen) =>
                && after.status == Due(seen, now)
                && (row.status == after.status ==> after == row)
                && (row.status != after.status ==>
                      && after.reason == Some(Reason(after.status)) && after.lastStatus == Some(now)
                      && after.lastSeen == if after.status == "online" then Some(now) else row.lastSeen)
            }
  {
    ScanIsRowByRow(f, order, now, d);
    KindsDiffer();
    assert "online"[0] == 'o' && "reconnecting"[0] == 'r' && "stale"[0] == 's' && "offline"[0] == 'o';
    hide Scanned;
  }
}
