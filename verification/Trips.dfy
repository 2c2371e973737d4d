/**
 Trip inference: usable positions of a vehicle open a trip after sustained motion, extend it, and
 close it after a sustained stop. A trip carries running aggregates of its points.
 */
module Trips {
  import opened OfflineQueuePolicy

  datatype Place = Place(latitude: real, longitude: real)

  type Distance = f: (Place, Place) -> real | forall a, b :: f(a, b) >= 0.0 witness ((a, b) => 0.0)

  datatype Settings = Settings(
    startSpeed: real, startSeconds: real, stopSpeed: real, stopSeconds: real, maxJumpSpeed: real, distance: Distance)

  datatype Sample = Sample(
    id: nat, gpsValid: bool, latitude: Option<real>, longitude: Option<real>, speed: Option<real>, hdop: Option<real>,
    simulated: bool)

  datatype Device = Device(vehicle: nat, motionSince: Option<real>, stoppedSince: Option<real>)

  datatype Point = Point(telemetry: nat, recordedAt: real, place: Place, speed: real, hdop: Option<real>)

  datatype Trip = Trip(
    vehicle: nat, device: nat, active: bool, startedAt: real, endedAt: Option<real>, start: Place, last: Place,
    end: Option<Place>, lastPointAt: real, distanceKm: real, maximumSpeed: real, speedSum: real,
    averageSpeed: Option<real>, speedSamples: nat, pointCount: nat, simulated: bool)

  /** The rows of the three tables; `points[i]` are those of trip `i` in insertion order. */
  datatype Tables = Tables(devices: map<nat, Device>, trips: seq<Trip>, points: seq<seq<Point>>)

  const MAX_HDOP := 5.0

  predicate Usable(s: Sample) {
    s.gpsValid && s.latitude.Some? && s.longitude.Some? && s.speed.Some? && (s.hdop.Some? ==> s.hdop.value <= MAX_HDOP)
  }

  function PlaceOf(s: Sample): Place
    requires Usable(s)
  {
    Place(s.latitude.value, s.longitude.value)
  }

  function Max(a: real, b: real): real {
    if a >= b then a else b
  }

  function SpeedOf(s: Sample): real
    requires Usable(s)
  {
    Max(0.0, s.speed.value)
  }

  function PointOf(s: Sample, time: real): Point
    requires Usable(s)
  {
    Point(s.id, time, PlaceOf(s), s.speed.value, s.hdop)
  }

  /** Among the first `n` trips, the active one of the vehicle that started last. */
  function Latest(trips: seq<Trip>, vehicle: nat, n: nat): (r: Option<nat>)
    requires n <= |trips|
    ensures r.Some? ==> r.value < n && trips[r.value].active && trips[r.value].vehicle == vehicle
    ensures r.None? ==> forall i :: 0 <= i < n ==> !(trips[i].active && trips[i].vehicle == vehicle)
  {
    if n == 0 then None
    else
      var before := Latest(trips, vehicle, n - 1);
      if trips[n - 1].active && trips[n - 1].vehicle == vehicle
         && (before.None? || trips[n - 1].startedAt > trips[before.value].startedAt) then Some(n - 1)
      else before
  }

  function ActiveOf(w: Tables, vehicle: nat): (r: Option<nat>)
    ensures r.Some? ==> r.value < |w.trips| && w.trips[r.value].active && w.trips[r.value].vehicle == vehicle
    ensures r.None? ==> forall i :: 0 <= i < |w.trips| ==> !(w.trips[i].active && w.trips[i].vehicle == vehicle)
  {
    Latest(w.trips, vehicle, |w.trips|)
  }

  /** The hours a leg is taken to last, at least one second. */
  function LegHours(trip: Trip, time: real): (h: real)
    ensures h > 0.0
  {
    Max((time - trip.lastPointAt) / 3600.0, 1.0 / 3600.0)
  }

  /** The trip that starts with this sample. */
  function Opened(vehicle: nat, d: nat, since: real, s: Sample, time: real): Trip
    requires Usable(s)
  {
    Trip(vehicle, d, true, since, None, PlaceOf(s), PlaceOf(s), None, time, 0.0, SpeedOf(s), SpeedOf(s), None, 1, 1,
         s.simulated)
  }

  function Average(sum: real, n: nat): real
    requires n > 0
  {
    sum / n as real
  }

  /** The trip with one more point. */
  function Extended(cfg: Settings, trip: Trip, s: Sample, time: real): Trip
    requires Usable(s)
  {
    var sum := trip.speedSum + SpeedOf(s);
    trip.(distanceKm := trip.distanceKm + cfg.distance(trip.last, PlaceOf(s)), last := PlaceOf(s), lastPointAt := time,
          pointCount := trip.pointCount + 1, speedSum := sum, speedSamples := trip.speedSamples + 1,
          maximumSpeed := Max(trip.maximumSpeed, SpeedOf(s)), averageSpeed := Some(Average(sum, trip.speedSamples + 1)))
  }

  function Closed(trip: Trip, s: Sample, time: real): Trip
    requires Usable(s)
  {
    trip.(active := false, endedAt := Some(time), end := Some(PlaceOf(s)))
  }

  /** Without an active trip: motion is noted, and a trip opens once it has lasted. */
  function Seek(cfg: Settings, w: Tables, d: nat, s: Sample, time: real): Tables
    requires d in w.devices && Usable(s) && |w.points| == |w.trips|
  {
    var device := w.devices[d];
    if SpeedOf(s) < cfg.startSpeed then w.(devices := w.devices[d := device.(motionSince := None)])
    else if device.motionSince.None? then w.(devices := w.devices[d := device.(motionSince := Some(time))])
    else if time - device.motionSince.value < cfg.startSeconds then w
    else Tables(w.devices[d := device.(motionSince := None, stoppedSince := None)],
               w.trips + [Opened(device.vehicle, d, device.motionSince.value, s, time)],
               w.points + [[PointOf(s, time)]])
  }

  /** Whether the sample becomes a point: it is newer than the last one and not an impossible jump. */
  predicate Accepts(cfg: Settings, trip: Trip, s: Sample, time: real)
    requires Usable(s)
  {
    time > trip.lastPointAt && cfg.distance(trip.last, PlaceOf(s)) / LegHours(trip, time) <= cfg.maxJumpSpeed
  }

  /** With an active trip: an accepted point extends it, and a stop that has lasted closes it. */
  function Follow(cfg: Settings, w: Tables, d: nat, i: nat, s: Sample, time: real): Tables
    requires d in w.devices && Usable(s) && i < |w.trips| && |w.points| == |w.trips|
  {
    if !Accepts(cfg, w.trips[i], s, time) then w
    else
      var device := w.devices[d];
      var trip := Extended(cfg, w.trips[i], s, time);
      var points := w.points[i := w.points[i] + [PointOf(s, time)]];
      if SpeedOf(s) > cfg.stopSpeed then
        Tables(w.devices[d := device.(stoppedSince := None)], w.trips[i := trip], points)
      else
        var since := if device.stoppedSince.Some? then device.stoppedSince.value else time;
        Tables(w.devices[d := device.(stoppedSince := Some(since))],
              w.trips[i := if time - since >= cfg.stopSeconds then Closed(trip, s, time) else trip], points)
  }

  function Processed(cfg: Settings, w: Tables, d: nat, s: Sample, time: real): Tables
    requires d in w.devices && |w.points| == |w.trips|
  {
    if !Usable(s) then w
    else
      var active := ActiveOf(w, w.devices[d].vehicle);
      if active.None? then Seek(cfg, w, d, s, time) else Follow(cfg, w, d, active.value, s, time)
  }

  // ---------- the service ----------

  class TripService {
    const cfg: Settings
    var devices: map<nat, Device>
    var trips: seq<Trip>
    var points: seq<seq<Point>>

    ghost function State(): Tables
      reads this
    {
      Tables(devices, trips, points)
    }

    constructor (cfg: Settings, devices: map<nat, Device>)
      ensures this.cfg == cfg && State() == Tables(devices, [], [])
    {
      this.cfg, this.devices, trips, points := cfg, devices, [], [];
    }

    method ActiveTrip(vehicle: nat) returns (r: Option<nat>)
      ensures r == ActiveOf(State(), vehicle)
    {
      r := None;
      for i := 0 to |trips|
        invariant r == Latest(trips, vehicle, i)
      {
        if trips[i].active && trips[i].vehicle == vehicle
           && (r.None? || trips[i].startedAt > trips[r.value].startedAt) {
          r := Some(i);
        }
      }
    }

    /** Feeds one stored sample to the trips of its vehicle. */
    method Process(d: nat, s: Sample, time: real) returns (r: Option<nat>)
      requires d in devices && |points| == |trips|
      modifies this
      ensures State() == Processed(cfg, old(State()), d, s, time) && |points| == |trips|
      ensures r.Some? ==> r.value < |trips|
    {
      if !s.gpsValid || s.latitude.None? || s.longitude.None? || s.speed.None?
         || (s.hdop.Some? && s.hdop.value > MAX_HDOP) {
        return None;
      }
      var active := ActiveTrip(devices[d].vehicle);
      if active.None? {
        r := SeekMotion(d, s, time);
        return;
      }
      var i := active.value;
      if time > trips[i].lastPointAt {
        FollowTrip(d, i, s, time);
      }
      return Some(i);
    }

    method SeekMotion(d: nat, s: Sample, time: real) returns (r: Option<nat>)
      requires d in devices && |points| == |trips| && Usable(s)
      modifies this
      ensures State() == Seek(cfg, old(State()), d, s, time) && |points| == |trips|
      ensures r.Some? ==> r.value < |trips|
    {
      var device, speed := devices[d], Max(0.0, s.speed.value);
      if speed < cfg.startSpeed {
        devices := devices[d := device.(motionSince := None)];
        return None;
      }
      if device.motionSince.None? {
        devices := devices[d := device.(motionSince := Some(time))];
        return None;
      }
      if time - device.motionSince.value < cfg.startSeconds {
        return None;
      }
      var place := Place(s.latitude.value, s.longitude.value);
      trips := trips + [Trip(device.vehicle, d, true, device.motionSince.value, None, place, place, None, time, 0.0,
                             speed, speed, None, 1, 1, s.simulated)];
      points := points + [[Point(s.id, time, place, s.speed.value, s.hdop)]];
      devices := devices[d := device.(motionSince := None, stoppedSince := None)];
      return Some(|trips| - 1);
    }

    method FollowTrip(d: nat, i: nat, s: Sample, time: real)
      requires d in devices && |points| == |trips| && Usable(s) && i < |trips| && time > trips[i].lastPointAt
      modifies this
      ensures State() == Follow(cfg, old(State()), d, i, s, time) && |points| == |trips|
    {
      var trip, place := trips[i], Place(s.latitude.value, s.longitude.value);
      var leg := cfg.distance(trip.last, place);
      var hours := Max((time - trip.lastPointAt) / 3600.0, 1.0 / 3600.0);
      if leg / hours > cfg.maxJumpSpeed {
        return;
      }
      var speed := Max(0.0, s.speed.value);
      trip := trip.(distanceKm := trip.distanceKm + leg);
      points := points[i := points[i] + [Point(s.id, time, place, s.speed.value, s.hdop)]];
      trip := trip.(last := place, lastPointAt := time, pointCount := trip.pointCount + 1);
      trip := trip.(speedSum := trip.speedSum + speed, speedSamples := trip.speedSamples + 1);
      trip := trip.(maximumSpeed := Max(trip.maximumSpeed, speed));
      trip := trip.(averageSpeed := Some(Average(trip.speedSum, trip.speedSamples)));
      var device := devices[d];
      if speed <= cfg.stopSpeed {
        if device.stoppedSince.None? {
          device := device.(stoppedSince := Some(time));
        }
        if time - device.stoppedSince.value >= cfg.stopSeconds {
          trip := trip.(active := false, endedAt := Some(time), end := Some(place));
        }
      } else {
        device := device.(stoppedSince := None);
      }
      devices, trips := devices[d := device], trips[i := trip];
    }
  }
}
