/** What one sample does to the trips of its vehicle, after any samples before it, in the sample's own terms. */
module TripSteps {
  import opened OfflineQueuePolicy
  import opened Trips
  import opened TripProperties

  /** The receiver had a fix with a position and a speed, and no bad dilution of precision. */
  predicate HasFix(s: Sample) {
    && s.gpsValid && s.latitude.Some? && s.longitude.Some? && s.speed.Some?
    && match s.hdop { case None => true case Some(hdop) => hdop <= 5.0 }
  }

  /** The sample is later than the trip's last point and not farther away than the jump speed allows. */
  predicate Follows(cfg: Settings, trip: Trip, s: Sample, time: real)
    requires HasFix(s)
  {
    && time > trip.lastPointAt
    && cfg.distance(trip.last, Place(s.latitude.value, s.longitude.value)) * 3600.0
       <= cfg.maxJumpSpeed * (if time - trip.lastPointAt > 1.0 then time - trip.lastPointAt else 1.0)
  }

  lemma QuotientLimit(distance: real, hours: real, limit: real)
    requires hours > 0.0
    ensures distance / hours <= limit <==> distance <= limit * hours
  {
    assert distance == distance / hours * hours;
    if distance / hours <= limit {
      TimesPositive(distance / hours, limit, hours);
    }
    if distance / hours > limit {
      TimesMore(limit, distance / hours, hours);
    }
  }

  lemma TimesMore(a: real, b: real, c: real)
    requires a < b && c > 0.0
    ensures a * c < b * c
  {
  }

  lemma AcceptsIsFollows(cfg: Settings, trip: Trip, s: Sample, time: real)
    ensures Usable(s) <==> HasFix(s)
    ensures Usable(s) ==> (Accepts(cfg, trip, s, time) <==> Follows(cfg, trip, s, time))
  {
    if Usable(s) {
      var distance, hours := cfg.distance(trip.last, PlaceOf(s)), LegHours(trip, time);
      QuotientLimit(distance, hours, cfg.maxJumpSpeed);
      var seconds := if time - trip.lastPointAt > 1.0 then time - trip.lastPointAt else 1.0;
      assert hours * 3600.0 == seconds;
      assert cfg.maxJumpSpeed * seconds == cfg.maxJumpSpeed * hours * 3600.0;
    }
  }

  /** The point that a sample becomes. */
  function PointAt(s: Sample, time: real): Point
    requires HasFix(s)
  {
    Point(s.id, time, Place(s.latitude.value, s.longitude.value), s.speed.value, s.hdop)
  }

  /**
     A sample that meets an active trip of its vehicle becomes the trip's last point if and only if it has
     a fix, is later than the last point, and is not an impossible jump; otherwise nothing changes.
   */
  lemma JoinsExactly(cfg: Settings, devices: map<nat, Device>, inputs: seq<Input>, i: nat)
    requires Known(devices, inputs) && inputs != []
    requires var w := After(cfg, devices, inputs[..|inputs| - 1]);
             i < |w.trips| && w.trips[i].active && w.trips[i].vehicle == devices[inputs[|inputs| - 1].device].vehicle
    ensures var w, now, last := After(cfg, devices, inputs[..|inputs| - 1]), After(cfg, devices, inputs),
                                inputs[|inputs| - 1];
            if HasFix(last.sample) && Follows(cfg, w.trips[i], last.sample, last.time)
            then now.points == w.points[i := w.points[i] + [PointAt(last.sample, last.time)]]
                 && |now.trips| == |w.trips|
                 && (forall j :: 0 <= j < |w.trips| && j != i ==> now.trips[j] == w.trips[j])
                 && now.trips[i].lastPointAt == last.time
                 && now.trips[i].last == Place(last.sample.latitude.value, last.sample.longitude.value)
                 && now.trips[i].distanceKm == w.trips[i].distanceKm + cfg.distance(w.trips[i].last, now.trips[i].last)
            else now == w
  {
    var before, last := inputs[..|inputs| - 1], inputs[|inputs| - 1];
    var w := After(cfg, devices, before);
    TripsAreFaithful(cfg, devices, before);
    SameVehicle(cfg, devices, before, last.device);
    OnlyActive(cfg, w, i);
    AcceptsIsFollows(cfg, w.trips[i], last.sample, last.time);
    hide TablesOk, Accepts, Follows, Average;
  }

  lemma OnlyActive(cfg: Settings, w: Tables, i: nat)
    requires TablesOk(cfg, w) && i < |w.trips| && w.trips[i].active
    ensures ActiveOf(w, w.trips[i].vehicle) == Some(i)
  {
    hide Faithful;
  }

  /**
     A sample whose vehicle has no active trip: without a fix it changes nothing; below the start speed it
     clears the motion note of its device; else it writes the note, or waits, or, once the start duration
     has passed since the note, opens a trip that started then and has this sample as its first point.
   */
  lemma OpensExactly(cfg: Settings, devices: map<nat, Device>, inputs: seq<Input>)
    requires Known(devices, inputs) && inputs != []
    requires var w := After(cfg, devices, inputs[..|inputs| - 1]);
             forall i :: 0 <= i < |w.trips| && w.trips[i].active ==>
               w.trips[i].vehicle != devices[inputs[|inputs| - 1].device].vehicle
    ensures var w, now, last := After(cfg, devices, inputs[..|inputs| - 1]), After(cfg, devices, inputs),
                                inputs[|inputs| - 1];
            var d, s := w.devices[last.device], last.sample;
            if !HasFix(s) then now == w
            else if s.speed.value < cfg.startSpeed && 0.0 < cfg.startSpeed then
              now == w.(devices := w.devices[last.device := d.(motionSince := None)])
            else if d.motionSince.None? then
              now == w.(devices := w.devices[last.device := d.(motionSince := Some(last.time))])
            else if last.time - d.motionSince.value < cfg.startSeconds then now == w
            else now.devices == w.devices[last.device := d.(motionSince := None, stoppedSince := None)]
                 && now.points == w.points + [[PointAt(s, last.time)]]
                 && |now.trips| == |w.trips| + 1 && now.trips[..|w.trips|] == w.trips
                 && var trip := now.trips[|w.trips|];
                    trip.active && trip.vehicle == d.vehicle && trip.device == last.device
                    && trip.startedAt == d.motionSince.value && trip.lastPointAt == last.time
  {
    var before, last := inputs[..|inputs| - 1], inputs[|inputs| - 1];
    var w := After(cfg, devices, before);
    SameVehicle(cfg, devices, before, last.device);
    assert ActiveOf(w, w.devices[last.device].vehicle).None?;
  }
}
