/** What holds of the trips after any sequence of samples. */
module TripProperties {
  import opened OfflineQueuePolicy
  import opened Trips

  // ---------- aggregates are those of the points ----------

  function PointSpeed(p: Point): real {
    Max(0.0, p.speed)
  }

  function SumOfSpeeds(points: seq<Point>): real {
    if points == [] then 0.0 else SumOfSpeeds(points[..|points| - 1]) + PointSpeed(points[|points| - 1])
  }

  ghost predicate IsTopSpeed(points: seq<Point>, top: real) {
    && (forall i :: 0 <= i < |points| ==> PointSpeed(points[i]) <= top)
    && exists i :: 0 <= i < |points| && PointSpeed(points[i]) == top
  }

  /** The length of the path through the points. */
  function PathLength(cfg: Settings, points: seq<Point>): real {
    if |points| <= 1 then 0.0
    else PathLength(cfg, points[..|points| - 1]) + cfg.distance(points[|points| - 2].place, points[|points| - 1].place)
  }

  /** The seconds the legs are taken to last: the time between points, at least one second each. */
  function LegSeconds(points: seq<Point>): real {
    if |points| <= 1 then 0.0
    else LegSeconds(points[..|points| - 1])
         + Max(points[|points| - 1].recordedAt - points[|points| - 2].recordedAt, 1.0)
  }

  ghost predicate Increasing(points: seq<Point>) {
    forall i, j :: 0 <= i < j < |points| ==> points[i].recordedAt < points[j].recordedAt
  }

  /** How far one gets at a speed in some seconds: kilometres, times the 3600 seconds of an hour. */
  function Reach(limit: real, seconds: real): real {
    limit * seconds
  }

  predicate WithinReach(km: real, limit: real, seconds: real) {
    km * 3600.0 <= Reach(limit, seconds)
  }

  /** No leg is faster than the jump limit. */
  ghost predicate NoJumps(cfg: Settings, points: seq<Point>) {
    forall k :: 1 <= k < |points| ==> LegOk(cfg, points, k)
  }

  ghost predicate LegOk(cfg: Settings, points: seq<Point>, k: nat)
    requires 1 <= k < |points|
  {
    WithinReach(cfg.distance(points[k - 1].place, points[k].place), cfg.maxJumpSpeed,
                Max(points[k].recordedAt - points[k - 1].recordedAt, 1.0))
  }

  /** The row of a trip says what its points say. */
  ghost predicate Faithful(cfg: Settings, trip: Trip, points: seq<Point>) {
    && points != [] && trip.pointCount == |points| && trip.speedSamples == |points|
    && trip.start == points[0].place && trip.startedAt + cfg.startSeconds <= points[0].recordedAt
    && trip.last == points[|points| - 1].place && trip.lastPointAt == points[|points| - 1].recordedAt
    && Increasing(points) && NoJumps(cfg, points)
    && trip.speedSum == SumOfSpeeds(points) && IsTopSpeed(points, trip.maximumSpeed)
    && trip.distanceKm == PathLength(cfg, points)
    && trip.averageSpeed == (if |points| == 1 then None else Some(Average(SumOfSpeeds(points), |points|)))
    && trip.endedAt == (if trip.active then None else Some(trip.lastPointAt))
    && trip.end == (if trip.active then None else Some(trip.last))
  }

  lemma OpenedIsFaithful(cfg: Settings, vehicle: nat, d: nat, since: real, s: Sample, time: real)
    requires Usable(s) && time - since >= cfg.startSeconds
    ensures Faithful(cfg, Opened(vehicle, d, since, s, time), [PointOf(s, time)])
  {
    var points := [PointOf(s, time)];
    assert PointSpeed(points[0]) == SpeedOf(s);
    assert SumOfSpeeds(points[..0]) == 0.0;
  }

  /** A leg within the jump limit, written without division. */
  lemma LegWithinLimit(distance: real, hours: real, limit: real, seconds: real)
    requires hours > 0.0 && distance / hours <= limit && hours * 3600.0 == seconds
    ensures WithinReach(distance, limit, seconds)
  {
    assert distance == distance / hours * hours;
    TimesPositive(distance / hours, limit, hours);
    assert limit * seconds == limit * hours * 3600.0;
  }

  lemma TimesPositive(a: real, b: real, c: real)
    requires a <= b && c > 0.0
    ensures a * c <= b * c
  {
  }

  lemma AcceptedLeg(cfg: Settings, trip: Trip, s: Sample, time: real)
    requires Usable(s) && Accepts(cfg, trip, s, time)
    ensures WithinReach(cfg.distance(trip.last, PlaceOf(s)), cfg.maxJumpSpeed, Max(time - trip.lastPointAt, 1.0))
  {
    hide WithinReach, Reach;
    LegWithinLimit(cfg.distance(trip.last, PlaceOf(s)), LegHours(trip, time), cfg.maxJumpSpeed,
                   Max(time - trip.lastPointAt, 1.0));
  }

  lemma NoJumpsExtends(cfg: Settings, trip: Trip, points: seq<Point>, s: Sample, time: real)
    requires points != [] && trip.last == points[|points| - 1].place
    requires trip.lastPointAt == points[|points| - 1].recordedAt
    requires NoJumps(cfg, points) && Increasing(points) && Usable(s) && Accepts(cfg, trip, s, time)
    ensures NoJumps(cfg, points + [PointOf(s, time)]) && Increasing(points + [PointOf(s, time)])
  {
    hide WithinReach, Reach, Max, LegHours;
    var all := points + [PointOf(s, time)];
    AcceptedLeg(cfg, trip, s, time);
    assert time > trip.lastPointAt;
    hide Accepts;
    forall k | 1 <= k < |all|
      ensures LegOk(cfg, all, k)
    {
      if k < |points| {
        assert LegOk(cfg, points, k);
      }
    }
  }

  lemma SumsExtend(cfg: Settings, points: seq<Point>, p: Point)
    requires points != []
    ensures SumOfSpeeds(points + [p]) == SumOfSpeeds(points) + PointSpeed(p)
    ensures PathLength(cfg, points + [p]) == PathLength(cfg, points) + cfg.distance(points[|points| - 1].place, p.place)
  {
    assert (points + [p])[..|points|] == points;
  }

  lemma ExtendedIsFaithful(cfg: Settings, trip: Trip, points: seq<Point>, s: Sample, time: real)
    requires Faithful(cfg, trip, points) && trip.active && Usable(s) && Accepts(cfg, trip, s, time)
    ensures Faithful(cfg, Extended(cfg, trip, s, time), points + [PointOf(s, time)])
  {
    NoJumpsExtends(cfg, trip, points, s, time);
    SumsExtend(cfg, points, PointOf(s, time));
    assert PointSpeed(PointOf(s, time)) == SpeedOf(s);
    TopSpeedExtends(points, trip.maximumSpeed, PointOf(s, time));
    hide IsTopSpeed, NoJumps, Increasing, Accepts, SumOfSpeeds, PathLength, Average, Max, WithinReach;
  }

  lemma TopSpeedExtends(points: seq<Point>, top: real, p: Point)
    requires IsTopSpeed(points, top)
    ensures IsTopSpeed(points + [p], Max(top, PointSpeed(p)))
  {
    var all := points + [p];
    var i :| 0 <= i < |points| && PointSpeed(points[i]) == top;
    assert all[i] == points[i] && all[|points|] == p;
  }

  lemma ClosedIsFaithful(cfg: Settings, trip: Trip, points: seq<Point>, s: Sample, time: real)
    requires Faithful(cfg, trip, points) && trip.active && Usable(s) && trip.last == PlaceOf(s)
    requires trip.lastPointAt == time
    ensures Faithful(cfg, Closed(trip, s, time), points)
  {
    hide SumOfSpeeds, PathLength, Increasing, NoJumps, IsTopSpeed;
  }

  /** At most one trip of a vehicle is active. */
  ghost predicate OneActive(trips: seq<Trip>) {
    forall i, j :: 0 <= i < j < |trips| && trips[i].active && trips[j].active ==> trips[i].vehicle != trips[j].vehicle
  }

  ghost predicate TablesOk(cfg: Settings, w: Tables) {
    && |w.points| == |w.trips| && OneActive(w.trips)
    && forall i :: 0 <= i < |w.trips| ==> Faithful(cfg, w.trips[i], w.points[i])
  }

  lemma TablesStep(cfg: Settings, w: Tables, d: nat, s: Sample, time: real)
    requires TablesOk(cfg, w) && d in w.devices
    ensures TablesOk(cfg, Processed(cfg, w, d, s, time))
    ensures Processed(cfg, w, d, s, time).devices.Keys == w.devices.Keys
    ensures forall k :: k in w.devices ==> Processed(cfg, w, d, s, time).devices[k].vehicle == w.devices[k].vehicle
  {
    hide Faithful;
    if Usable(s) {
      var active := ActiveOf(w, w.devices[d].vehicle);
      if active.None? {
        if w.devices[d].motionSince.Some? && time - w.devices[d].motionSince.value >= cfg.startSeconds {
          OpenedIsFaithful(cfg, w.devices[d].vehicle, d, w.devices[d].motionSince.value, s, time);
        }
      } else {
        FollowKeepsTables(cfg, w, d, active.value, s, time);
      }
    }
  }

  lemma FollowKeepsTables(cfg: Settings, w: Tables, d: nat, i: nat, s: Sample, time: real)
    requires TablesOk(cfg, w) && d in w.devices && i < |w.trips| && w.trips[i].active && Usable(s)
    ensures TablesOk(cfg, Follow(cfg, w, d, i, s, time))
  {
    hide Faithful, Accepts;
    if Accepts(cfg, w.trips[i], s, time) {
      ExtendedIsFaithful(cfg, w.trips[i], w.points[i], s, time);
      var trip := Extended(cfg, w.trips[i], s, time);
      ClosedIsFaithful(cfg, trip, w.points[i] + [PointOf(s, time)], s, time);
      hide Extended;
    }
  }

  // ---------- runs ----------

  datatype Input = Input(device: nat, sample: Sample, time: real)

  ghost predicate Known(devices: map<nat, Device>, inputs: seq<Input>) {
    forall k :: 0 <= k < |inputs| ==> inputs[k].device in devices
  }

  /** The tables after a sequence of samples. */
  function After(cfg: Settings, devices: map<nat, Device>, inputs: seq<Input>): (w: Tables)
    requires forall k :: 0 <= k < |inputs| ==> inputs[k].device in devices
    ensures w.devices.Keys == devices.Keys && |w.points| == |w.trips|
  {
    if inputs == [] then Tables(devices, [], [])
    else
      var last := inputs[|inputs| - 1];
      var before := After(cfg, devices, inputs[..|inputs| - 1]);
      KeysKept(cfg, before, last.device, last.sample, last.time);
      Processed(cfg, before, last.device, last.sample, last.time)
  }

  lemma KeysKept(cfg: Settings, w: Tables, d: nat, s: Sample, time: real)
    requires |w.points| == |w.trips| && d in w.devices
    ensures Processed(cfg, w, d, s, time).devices.Keys == w.devices.Keys
    ensures |Processed(cfg, w, d, s, time).points| == |Processed(cfg, w, d, s, time).trips|
  {
  }

  /** After any samples, every trip says what its points say, and no vehicle has two active trips. */
  lemma {:induction false} TripsAreFaithful(cfg: Settings, devices: map<nat, Device>, inputs: seq<Input>)
    requires Known(devices, inputs)
    ensures TablesOk(cfg, After(cfg, devices, inputs))
    decreases |inputs|
  {
    if inputs != [] {
      var before, last := inputs[..|inputs| - 1], inputs[|inputs| - 1];
      TripsAreFaithful(cfg, devices, before);
      hide TablesOk, Processed;
      TablesStep(cfg, After(cfg, devices, before), last.device, last.sample, last.time);
    }
  }

  /** Every point of a trip is a usable sample that a device of its vehicle sent. */
  lemma {:induction false} PointsAreSamples(cfg: Settings, devices: map<nat, Device>, inputs: seq<Input>, i: nat,
                                            k: nat)
    returns (j: nat)
    requires Known(devices, inputs) && i < |After(cfg, devices, inputs).trips|
    requires k < |After(cfg, devices, inputs).points[i]|
    ensures j < |inputs| && Usable(inputs[j].sample)
    ensures After(cfg, devices, inputs).points[i][k] == PointOf(inputs[j].sample, inputs[j].time)
    ensures devices[inputs[j].device].vehicle == After(cfg, devices, inputs).trips[i].vehicle
    decreases |inputs|
  {
    var before, last := inputs[..|inputs| - 1], inputs[|inputs| - 1];
    var w := After(cfg, devices, before);
    PointStep(cfg, w, last.device, last.sample, last.time, i, k);
    SameVehicle(cfg, devices, before, last.device);
    hide Processed;
    if i < |w.trips| && k < |w.points[i]| {
      j := PointsAreSamples(cfg, devices, before, i, k);
    } else {
      j := |inputs| - 1;
    }
  }

  lemma {:induction false} SameVehicle(cfg: Settings, devices: map<nat, Device>, inputs: seq<Input>, d: nat)
    requires Known(devices, inputs) && d in devices
    ensures After(cfg, devices, inputs).devices[d].vehicle == devices[d].vehicle
    decreases |inputs|
  {
    if inputs != [] {
      var before, last := inputs[..|inputs| - 1], inputs[|inputs| - 1];
      SameVehicle(cfg, devices, before, d);
      hide Extended, Accepts, Closed, Opened;
    }
  }

  /** What one sample adds to the points. */
  lemma PointStep(cfg: Settings, w: Tables, d: nat, s: Sample, time: real, i: nat, k: nat)
    requires |w.points| == |w.trips| && d in w.devices
    requires i < |Processed(cfg, w, d, s, time).trips|
    requires |Processed(cfg, w, d, s, time).points| == |Processed(cfg, w, d, s, time).trips|
    requires k < |Processed(cfg, w, d, s, time).points[i]|
    ensures var now := Processed(cfg, w, d, s, time);
            if i < |w.trips| && k < |w.points[i]|
            then now.points[i][k] == w.points[i][k] && now.trips[i].vehicle == w.trips[i].vehicle
            else Usable(s) && now.points[i][k] == PointOf(s, time) && now.trips[i].vehicle == w.devices[d].vehicle
  {
    hide Accepts;
  }

  // ---------- bounds ----------

  lemma {:induction false} PathWithinLimit(cfg: Settings, points: seq<Point>)
    requires NoJumps(cfg, points)
    ensures WithinReach(PathLength(cfg, points), cfg.maxJumpSpeed, LegSeconds(points))
    decreases |points|
  {
    hide Reach, Max;
    if |points| <= 1 {
      NoReach(cfg.maxJumpSpeed);
    } else {
      hide WithinReach;
      var before, k := points[..|points| - 1], |points| - 1;
      forall j | 1 <= j < k
        ensures LegOk(cfg, before, j)
      {
        assert LegOk(cfg, points, j);
      }
      PathWithinLimit(cfg, before);
      assert LegOk(cfg, points, k);
      assert points[k] == points[|points| - 1];
      hide NoJumps;
      LegAdds(PathLength(cfg, before), cfg.distance(points[k - 1].place, points[k].place), cfg.maxJumpSpeed,
              LegSeconds(before), Max(points[k].recordedAt - points[k - 1].recordedAt, 1.0));
    }
  }

  lemma NoReach(limit: real)
    ensures Reach(limit, 0.0) == 0.0
  {
  }

  lemma LegAdds(path: real, leg: real, limit: real, seconds: real, more: real)
    requires WithinReach(path, limit, seconds) && WithinReach(leg, limit, more)
    ensures WithinReach(path + leg, limit, seconds + more)
  {
    Distributes(limit, seconds, more);
  }

  lemma Distributes(a: real, b: real, c: real)
    ensures a * (b + c) == a * b + a * c
  {
  }

  /** The distance of a trip is at most what the jump limit allows for the time of its legs. */
  lemma DistanceIsBounded(cfg: Settings, trip: Trip, points: seq<Point>)
    requires Faithful(cfg, trip, points)
    ensures 0.0 <= trip.distanceKm && WithinReach(trip.distanceKm, cfg.maxJumpSpeed, LegSeconds(points))
  {
    PathWithinLimit(cfg, points);
    PathIsNotNegative(cfg, points);
  }

  lemma {:induction false} PathIsNotNegative(cfg: Settings, points: seq<Point>)
    ensures PathLength(cfg, points) >= 0.0
    decreases |points|
  {
    if |points| > 1 {
      PathIsNotNegative(cfg, points[..|points| - 1]);
    }
  }

  lemma {:induction false} SumWithinTop(points: seq<Point>, top: real)
    requires forall i :: 0 <= i < |points| ==> PointSpeed(points[i]) <= top
    ensures SumOfSpeeds(points) <= |points| as real * top
    decreases |points|
  {
    if points != [] {
      var before := points[..|points| - 1];
      SumWithinTop(before, top);
      Distributes(top, |before| as real, 1.0);
    }
  }

  lemma Quotient(sum: real, n: nat, top: real)
    requires n > 0 && sum <= n as real * top
    ensures Average(sum, n) <= top
  {
  }

  lemma FaithfulSpeeds(cfg: Settings, trip: Trip, points: seq<Point>)
    requires Faithful(cfg, trip, points)
    ensures points != [] && IsTopSpeed(points, trip.maximumSpeed)
    ensures trip.averageSpeed.Some? ==> trip.averageSpeed.value == Average(SumOfSpeeds(points), |points|)
  {
    hide IsTopSpeed, NoJumps, Increasing, SumOfSpeeds, PathLength, Average;
  }

  lemma AverageWithinTop(points: seq<Point>, top: real)
    requires points != [] && IsTopSpeed(points, top)
    ensures Average(SumOfSpeeds(points), |points|) <= top
  {
    SumWithinTop(points, top);
    hide SumOfSpeeds, IsTopSpeed;
    Quotient(SumOfSpeeds(points), |points|, top);
  }

  /** The average speed is at most the maximum. */
  lemma AverageIsAtMostMaximum(cfg: Settings, trip: Trip, points: seq<Point>)
    requires Faithful(cfg, trip, points) && trip.averageSpeed.Some?
    ensures trip.averageSpeed.value <= trip.maximumSpeed
  {
    hide *;
    FaithfulSpeeds(cfg, trip, points);
    AverageWithinTop(points, trip.maximumSpeed);
  }

  // ---------- a completed trip is final ----------

  lemma CompletedStep(cfg: Settings, w: Tables, d: nat, s: Sample, time: real)
    requires |w.points| == |w.trips| && d in w.devices
    ensures var now := Processed(cfg, w, d, s, time);
            && |w.trips| <= |now.trips| && |now.points| == |now.trips|
            && forall i :: 0 <= i < |w.trips| && !w.trips[i].active ==>
                 now.trips[i] == w.trips[i] && now.points[i] == w.points[i]
  {
    hide Extended, Accepts, Closed, Opened;
  }

  /** No later sample changes a completed trip or its points. */
  lemma {:induction false} CompletedIsFinal(cfg: Settings, devices: map<nat, Device>, inputs: seq<Input>, m: nat,
                                            i: nat)
    requires Known(devices, inputs) && m <= |inputs|
    requires i < |After(cfg, devices, inputs[..m]).trips| && !After(cfg, devices, inputs[..m]).trips[i].active
    ensures var early, late := After(cfg, devices, inputs[..m]), After(cfg, devices, inputs);
            i < |late.trips| && late.trips[i] == early.trips[i] && late.points[i] == early.points[i]
    decreases |inputs|
  {
    if m == |inputs| {
      assert inputs[..m] == inputs;
    } else {
      var before, last := inputs[..|inputs| - 1], inputs[|inputs| - 1];
      assert before[..m] == inputs[..m];
      CompletedIsFinal(cfg, devices, before, m, i);
      CompletedStep(cfg, After(cfg, devices, before), last.device, last.sample, last.time);
      hide Processed;
    }
  }
}
