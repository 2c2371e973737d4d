/**
 When trips open and close, and how they lie in time: for any devices and event times, and what
 follows when every vehicle has one device and times do not decrease.
 */
module TripWindows {
  import opened OfflineQueuePolicy
  import opened Trips
  import opened TripProperties

  ghost predicate OneDevice(devices: map<nat, Device>) {
    forall d, e :: d in devices && e in devices && devices[d].vehicle == devices[e].vehicle ==> d == e
  }

  predicate Fresh(devices: map<nat, Device>) {
    forall d :: d in devices ==> devices[d].motionSince == None && devices[d].stoppedSince == None
  }

  // ---------- opening ----------

  /** While motion is being noted, the vehicle has no active trip. */
  ghost predicate MotionMeansIdle(w: Tables) {
    forall d, i :: d in w.devices && w.devices[d].motionSince.Some? && 0 <= i < |w.trips| && w.trips[i].active ==>
      w.trips[i].vehicle != w.devices[d].vehicle
  }

  lemma MotionStep(cfg: Settings, w: Tables, d: nat, s: Sample, time: real)
    requires |w.points| == |w.trips| && d in w.devices && OneDevice(w.devices) && MotionMeansIdle(w)
    ensures OneDevice(Processed(cfg, w, d, s, time).devices) && MotionMeansIdle(Processed(cfg, w, d, s, time))
  {
    hide Accepts, SpeedOf, Average;
  }

  lemma {:induction false} MotionIsIdle(cfg: Settings, devices: map<nat, Device>, inputs: seq<Input>)
    requires Known(devices, inputs) && OneDevice(devices)
    ensures OneDevice(After(cfg, devices, inputs).devices) && MotionMeansIdle(After(cfg, devices, inputs))
    decreases |inputs|
  {
    if inputs != [] {
      var before, last := inputs[..|inputs| - 1], inputs[|inputs| - 1];
      MotionIsIdle(cfg, devices, before);
      hide OneDevice, MotionMeansIdle, Processed;
      MotionStep(cfg, After(cfg, devices, before), last.device, last.sample, last.time);
    }
  }

  /** Sample `j` is usable and meets no active trip of its vehicle. */
  ghost predicate Seeks(cfg: Settings, devices: map<nat, Device>, inputs: seq<Input>, j: nat)
    requires Known(devices, inputs) && j < |inputs|
  {
    var w, d := After(cfg, devices, inputs[..j]), inputs[j].device;
    Usable(inputs[j].sample) && ActiveOf(w, w.devices[d].vehicle).None?
  }

  /** From sample `m` up to sample `k`, no usable sample of the device outside trips was below the start speed. */
  ghost predicate Moving(cfg: Settings, devices: map<nat, Device>, inputs: seq<Input>, d: nat, m: nat, k: nat)
    requires Known(devices, inputs) && m < k <= |inputs|
  {
    && inputs[m].device == d && Seeks(cfg, devices, inputs, m)
    && forall j :: m <= j < k && inputs[j].device == d && Seeks(cfg, devices, inputs, j) ==>
         SpeedOf(inputs[j].sample) >= cfg.startSpeed
  }

  /** From just after sample `m` up to sample `k`, the device's motion note says when sample `m` was taken. */
  ghost predicate Noted(cfg: Settings, devices: map<nat, Device>, inputs: seq<Input>, d: nat, m: nat, k: nat)
    requires Known(devices, inputs) && m < k <= |inputs| && d in devices
  {
    forall j :: m < j <= k ==> After(cfg, devices, inputs[..j]).devices[d].motionSince == Some(inputs[m].time)
  }

  lemma OtherDevice(cfg: Settings, w: Tables, d: nat, e: nat, s: Sample, time: real)
    requires |w.points| == |w.trips| && d in w.devices && e in w.devices && e != d
    ensures e in Processed(cfg, w, d, s, time).devices && Processed(cfg, w, d, s, time).devices[e] == w.devices[e]
  {
    hide Extended, Accepts, Closed, Opened;
  }

  /** What one sample does to the motion note of its own device. */
  lemma OwnMotion(cfg: Settings, w: Tables, d: nat, s: Sample, time: real)
    requires |w.points| == |w.trips| && d in w.devices
    requires d in Processed(cfg, w, d, s, time).devices && Processed(cfg, w, d, s, time).devices[d].motionSince.Some?
    ensures var seeks := Usable(s) && ActiveOf(w, w.devices[d].vehicle).None?;
            && (seeks ==> SpeedOf(s) >= cfg.startSpeed)
            && (Processed(cfg, w, d, s, time).devices[d].motionSince == w.devices[d].motionSince
                || (seeks && Processed(cfg, w, d, s, time).devices[d].motionSince == Some(time)))
  {
    hide Extended, Accepts, Closed, Opened;
  }

  /** The sample that a motion note goes back to. */
  lemma {:induction false} MotionStart(cfg: Settings, devices: map<nat, Device>, inputs: seq<Input>, d: nat)
    returns (m: nat)
    requires Known(devices, inputs) && Fresh(devices)
    requires d in devices && After(cfg, devices, inputs).devices[d].motionSince.Some?
    ensures m < |inputs| && Moving(cfg, devices, inputs, d, m, |inputs|) && Noted(cfg, devices, inputs, d, m, |inputs|)
    decreases |inputs|
  {
    var before, last := inputs[..|inputs| - 1], inputs[|inputs| - 1];
    var w := After(cfg, devices, before);
    assert inputs[..|inputs|] == inputs;
    hide Processed, SpeedOf, Moving, Noted, Fresh;
    if last.device == d {
      OwnMotion(cfg, w, d, last.sample, last.time);
      if w.devices[d].motionSince != After(cfg, devices, inputs).devices[d].motionSince {
        MovingOnce(cfg, devices, inputs, d);
        return |inputs| - 1;
      }
    } else {
      OtherDevice(cfg, w, last.device, d, last.sample, last.time);
    }
    m := MotionStart(cfg, devices, before, d);
    MovingExtends(cfg, devices, inputs, d, m);
    NotedExtends(cfg, devices, inputs, d, m);
  }

  lemma MovingOnce(cfg: Settings, devices: map<nat, Device>, inputs: seq<Input>, d: nat)
    requires Known(devices, inputs) && inputs != [] && d in devices && inputs[|inputs| - 1].device == d
    requires Seeks(cfg, devices, inputs, |inputs| - 1) && SpeedOf(inputs[|inputs| - 1].sample) >= cfg.startSpeed
    requires After(cfg, devices, inputs).devices[d].motionSince == Some(inputs[|inputs| - 1].time)
    ensures Moving(cfg, devices, inputs, d, |inputs| - 1, |inputs|)
    ensures Noted(cfg, devices, inputs, d, |inputs| - 1, |inputs|)
  {
    hide After, Seeks;
    assert inputs[..|inputs|] == inputs;
  }

  lemma SeeksBefore(cfg: Settings, devices: map<nat, Device>, inputs: seq<Input>, j: nat)
    requires Known(devices, inputs) && j < |inputs| - 1
    ensures Seeks(cfg, devices, inputs[..|inputs| - 1], j) == Seeks(cfg, devices, inputs, j)
  {
    assert inputs[..|inputs| - 1][..j] == inputs[..j];
  }

  lemma MovingExtends(cfg: Settings, devices: map<nat, Device>, inputs: seq<Input>, d: nat, m: nat)
    requires Known(devices, inputs) && inputs != [] && m < |inputs| - 1
    requires Moving(cfg, devices, inputs[..|inputs| - 1], d, m, |inputs| - 1)
    requires var last := inputs[|inputs| - 1];
             last.device == d && Seeks(cfg, devices, inputs, |inputs| - 1) ==> SpeedOf(last.sample) >= cfg.startSpeed
    ensures Moving(cfg, devices, inputs, d, m, |inputs|)
  {
    var before := inputs[..|inputs| - 1];
    SeeksBefore(cfg, devices, inputs, m);
    hide Seeks, After;
    forall j | m <= j < |inputs| && inputs[j].device == d && Seeks(cfg, devices, inputs, j)
      ensures SpeedOf(inputs[j].sample) >= cfg.startSpeed
    {
      if j < |inputs| - 1 {
        SeeksBefore(cfg, devices, inputs, j);
        assert before[j] == inputs[j];
      }
    }
  }

  lemma NotedExtends(cfg: Settings, devices: map<nat, Device>, inputs: seq<Input>, d: nat, m: nat)
    requires Known(devices, inputs) && inputs != [] && m < |inputs| - 1 && d in devices
    requires Noted(cfg, devices, inputs[..|inputs| - 1], d, m, |inputs| - 1)
    requires After(cfg, devices, inputs).devices[d].motionSince
          == After(cfg, devices, inputs[..|inputs| - 1]).devices[d].motionSince
    ensures Noted(cfg, devices, inputs, d, m, |inputs|)
  {
    var before := inputs[..|inputs| - 1];
    hide After;
    assert before[..|inputs| - 1] == before && inputs[..|inputs|] == inputs;
    forall j | m < j <= |inputs|
      ensures After(cfg, devices, inputs[..j]).devices[d].motionSince == Some(inputs[m].time)
    {
      if j < |inputs| {
        assert before[..j] == inputs[..j];
      }
    }
  }

  /** A trip opens with sample `k` after motion since sample `m`. */
  ghost predicate OpensAt(cfg: Settings, devices: map<nat, Device>, inputs: seq<Input>, trip: Trip, first: Point,
                          m: nat, k: nat)
    requires Known(devices, inputs)
  {
    && m < k < |inputs| && trip.device in devices && Moving(cfg, devices, inputs, trip.device, m, k + 1)
    && Noted(cfg, devices, inputs, trip.device, m, k)
    && inputs[k].device == trip.device && Seeks(cfg, devices, inputs, k)
    && inputs[k].time - inputs[m].time >= cfg.startSeconds
    && trip.startedAt == inputs[m].time && first == PointOf(inputs[k].sample, inputs[k].time)
  }

  lemma OpensStays(cfg: Settings, devices: map<nat, Device>, inputs: seq<Input>, trip: Trip, first: Point, m: nat,
                   k: nat)
    requires Known(devices, inputs) && inputs != [] && OpensAt(cfg, devices, inputs[..|inputs| - 1], trip, first, m, k)
    ensures OpensAt(cfg, devices, inputs, trip, first, m, k)
  {
    hide After, Seeks;
    var before := inputs[..|inputs| - 1];
    assert forall j :: 0 <= j < |before| ==> before[j] == inputs[j];
    forall j | 0 <= j <= |before|
      ensures before[..j] == inputs[..j]
    {
    }
    forall j | 0 <= j < |before|
      ensures Seeks(cfg, devices, before, j) == Seeks(cfg, devices, inputs, j)
    {
      SeeksBefore(cfg, devices, inputs, j);
    }
  }

  /** What one sample does to the list of trips. */
  lemma TripsGrow(cfg: Settings, w: Tables, d: nat, s: Sample, time: real, i: nat)
    requires TablesOk(cfg, w) && d in w.devices
    ensures var now := Processed(cfg, w, d, s, time);
            && |w.trips| <= |now.trips| <= |w.trips| + 1 && |now.points| == |now.trips|
            && (i < |w.trips| ==> now.trips[i].device == w.trips[i].device
                                  && now.trips[i].startedAt == w.trips[i].startedAt
                                  && w.points[i] != [] && now.points[i] != [] && now.points[i][0] == w.points[i][0])
    ensures var now := Processed(cfg, w, d, s, time);
            i == |w.trips| < |now.trips| ==>
              Usable(s) && SpeedOf(s) >= cfg.startSpeed && w.devices[d].motionSince.Some?
              && ActiveOf(w, w.devices[d].vehicle).None? && now.trips[i].device == d
              && now.trips[i].startedAt == w.devices[d].motionSince.value
              && time - w.devices[d].motionSince.value >= cfg.startSeconds && now.points[i] == [PointOf(s, time)]
  {
    hide Accepts, OneActive, IsTopSpeed, NoJumps, Increasing, SumOfSpeeds, PathLength, Average;
  }

  /**
     Every trip, of any devices, opens only after the start duration of motion, in which no usable
     sample of its device outside trips was below the start speed; it starts when that motion was noted.
   */
  lemma {:induction false} OpeningWindow(cfg: Settings, devices: map<nat, Device>, inputs: seq<Input>, i: nat)
    returns (m: nat, k: nat)
    requires Known(devices, inputs) && Fresh(devices) && i < |After(cfg, devices, inputs).trips|
    ensures var w := After(cfg, devices, inputs);
            w.points[i] != [] && OpensAt(cfg, devices, inputs, w.trips[i], w.points[i][0], m, k)
    decreases |inputs|
  {
    var before, last := inputs[..|inputs| - 1], inputs[|inputs| - 1];
    var w := After(cfg, devices, before);
    TripsAreFaithful(cfg, devices, before);
    TripsGrow(cfg, w, last.device, last.sample, last.time, i);
    hide Processed, TablesOk;
    if i < |w.trips| {
      m, k := OpeningWindow(cfg, devices, before, i);
      hide OpensAt;
      OpensStays(cfg, devices, inputs, w.trips[i], w.points[i][0], m, k);
    } else {
      m := OpenedBy(cfg, devices, inputs, After(cfg, devices, inputs).trips[i]);
      k := |inputs| - 1;
    }
  }

  /** A trip that the last sample opened. */
  lemma OpenedBy(cfg: Settings, devices: map<nat, Device>, inputs: seq<Input>, trip: Trip) returns (m: nat)
    requires Known(devices, inputs) && Fresh(devices) && inputs != []
    requires var last := inputs[|inputs| - 1];
             var device := After(cfg, devices, inputs[..|inputs| - 1]).devices[last.device];
             && Usable(last.sample) && SpeedOf(last.sample) >= cfg.startSpeed
             && Seeks(cfg, devices, inputs, |inputs| - 1)
             && device.motionSince.Some? && last.time - device.motionSince.value >= cfg.startSeconds
             && trip.device == last.device && trip.startedAt == device.motionSince.value
    ensures var last := inputs[|inputs| - 1];
            OpensAt(cfg, devices, inputs, trip, PointOf(last.sample, last.time), m, |inputs| - 1)
  {
    var before, last := inputs[..|inputs| - 1], inputs[|inputs| - 1];
    m := MotionStart(cfg, devices, before, last.device);
    assert last.device in devices && After(cfg, devices, before[..|inputs| - 1]).devices[last.device].motionSince
        == Some(before[m].time) by {
      hide After;
    }
    assert before[..|inputs| - 1] == before;
    hide After, Seeks;
    MovingExtends(cfg, devices, inputs, last.device, m);
    NotedBefore(cfg, devices, inputs, last.device, m);
    hide Moving, Noted;
  }

  lemma NotedBefore(cfg: Settings, devices: map<nat, Device>, inputs: seq<Input>, d: nat, m: nat)
    requires Known(devices, inputs) && inputs != [] && m < |inputs| - 1 && d in devices
    requires Noted(cfg, devices, inputs[..|inputs| - 1], d, m, |inputs| - 1)
    ensures Noted(cfg, devices, inputs, d, m, |inputs| - 1)
  {
    hide After;
    forall j | m < j <= |inputs| - 1
      ensures After(cfg, devices, inputs[..j]).devices[d].motionSince == Some(inputs[m].time)
    {
      assert inputs[..|inputs| - 1][..j] == inputs[..j];
    }
  }

  /** With one device per vehicle that window holds no usable sample below the start speed at all. */
  lemma OpeningWindowAlone(cfg: Settings, devices: map<nat, Device>, inputs: seq<Input>, i: nat)
    returns (m: nat, k: nat)
    requires Known(devices, inputs) && OneDevice(devices) && Fresh(devices) && i < |After(cfg, devices, inputs).trips|
    ensures var trip := After(cfg, devices, inputs).trips[i];
            && m < k < |inputs| && inputs[k].time - inputs[m].time >= cfg.startSeconds
               && trip.startedAt == inputs[m].time
            && forall j :: m <= j <= k && inputs[j].device == trip.device && Usable(inputs[j].sample) ==>
                 SpeedOf(inputs[j].sample) >= cfg.startSpeed
  {
    m, k := OpeningWindow(cfg, devices, inputs, i);
    var d := After(cfg, devices, inputs).trips[i].device;
    hide After, Seeks, Noted, SpeedOf, Usable, OneDevice;
    forall j | m <= j <= k && inputs[j].device == d && Usable(inputs[j].sample)
      ensures SpeedOf(inputs[j].sample) >= cfg.startSpeed
    {
      if j > m {
        AloneSeeks(cfg, devices, inputs, d, m, k, j);
      }
    }
  }

  /** With one device per vehicle, noted motion means that every usable sample of the device is outside trips. */
  lemma AloneSeeks(cfg: Settings, devices: map<nat, Device>, inputs: seq<Input>, d: nat, m: nat, k: nat, j: nat)
    requires Known(devices, inputs) && OneDevice(devices) && m < j <= k < |inputs| && d in devices
    requires Noted(cfg, devices, inputs, d, m, k) && inputs[j].device == d && Usable(inputs[j].sample)
    ensures Seeks(cfg, devices, inputs, j)
  {
    var w := After(cfg, devices, inputs[..j]);
    MotionIsIdle(cfg, devices, inputs[..j]);
    assert w.devices[d].motionSince.Some?;
    hide After, Noted, OneDevice;
  }

  // ---------- closing ----------

  /** Since when the points of a trip have all been slow; the point that opened it does not count. */
  function SlowSince(cfg: Settings, points: seq<Point>): Option<real> {
    if |points| <= 1 || PointSpeed(points[|points| - 1]) > cfg.stopSpeed then None
    else
      var before := SlowSince(cfg, points[..|points| - 1]);
      if before.Some? then before else Some(points[|points| - 1].recordedAt)
  }

  /** It is the time of the first point of the slow run at the end. */
  lemma {:induction false} SlowSinceIsRun(cfg: Settings, points: seq<Point>) returns (q: nat)
    requires SlowSince(cfg, points).Some?
    ensures 1 <= q < |points| && points[q].recordedAt == SlowSince(cfg, points).value
    ensures forall j :: q <= j < |points| ==> PointSpeed(points[j]) <= cfg.stopSpeed
    ensures q == 1 || PointSpeed(points[q - 1]) > cfg.stopSpeed
    decreases |points|
  {
    var before := points[..|points| - 1];
    if SlowSince(cfg, before).Some? {
      q := SlowSinceIsRun(cfg, before);
    } else {
      q := |points| - 1;
    }
  }

  /** Whether the points say that the stop has lasted. */
  predicate HasStopped(cfg: Settings, points: seq<Point>) {
    |points| > 0 && SlowSince(cfg, points).Some?
    && points[|points| - 1].recordedAt - SlowSince(cfg, points).value >= cfg.stopSeconds
  }

  /** The stop notes agree with the points, and exactly the trips that have stopped are completed. */
  ghost predicate StopsOk(cfg: Settings, w: Tables) {
    && |w.points| == |w.trips|
    && (forall i :: 0 <= i < |w.trips| ==> (w.trips[i].active <==> !HasStopped(cfg, w.points[i])))
    && forall d, i :: d in w.devices && 0 <= i < |w.trips| && w.trips[i].active
                      && w.trips[i].vehicle == w.devices[d].vehicle ==>
         w.devices[d].stoppedSince == SlowSince(cfg, w.points[i])
  }

  lemma SlowExtends(cfg: Settings, points: seq<Point>, p: Point)
    requires points != []
    ensures SlowSince(cfg, points + [p])
         == if PointSpeed(p) > cfg.stopSpeed then None
            else if SlowSince(cfg, points).Some? then SlowSince(cfg, points) else Some(p.recordedAt)
  {
    assert (points + [p])[..|points|] == points;
  }

  lemma StopStep(cfg: Settings, w: Tables, d: nat, s: Sample, time: real)
    requires StopsOk(cfg, w) && TablesOk(cfg, w) && d in w.devices && OneDevice(w.devices)
    ensures StopsOk(cfg, Processed(cfg, w, d, s, time))
  {
    hide Accepts, Faithful, SlowSince, Extended, OneActive;
    if Usable(s) {
      var active := ActiveOf(w, w.devices[d].vehicle);
      assert PointSpeed(PointOf(s, time)) == SpeedOf(s);
      if active.Some? {
        StopOnFollow(cfg, w, d, active.value, s, time);
      } else {
        FirstPointIsNoStop(cfg, PointOf(s, time));
      }
    }
  }

  lemma FirstPointIsNoStop(cfg: Settings, p: Point)
    ensures SlowSince(cfg, [p]) == None
  {
  }

  lemma NotEmpty(cfg: Settings, w: Tables, i: nat)
    requires TablesOk(cfg, w) && i < |w.trips|
    ensures w.points[i] != []
  {
    assert Faithful(cfg, w.trips[i], w.points[i]);
  }

  lemma StopOnFollow(cfg: Settings, w: Tables, d: nat, i: nat, s: Sample, time: real)
    requires StopsOk(cfg, w) && TablesOk(cfg, w) && d in w.devices && OneDevice(w.devices) && Usable(s)
    requires i < |w.trips| && w.trips[i].active && w.trips[i].vehicle == w.devices[d].vehicle
    ensures StopsOk(cfg, Follow(cfg, w, d, i, s, time))
  {
    hide Accepts, Faithful, SlowSince, SpeedOf, PointSpeed, TablesOk;
    assert PointSpeed(PointOf(s, time)) == SpeedOf(s) by {
      SameSpeed(s, time);
    }
    assert OneActive(w.trips) by {
      OneActiveOf(cfg, w);
    }
    NotEmpty(cfg, w, i);
    SlowExtends(cfg, w.points[i], PointOf(s, time));
  }

  lemma SameSpeed(s: Sample, time: real)
    requires Usable(s)
    ensures PointSpeed(PointOf(s, time)) == SpeedOf(s)
  {
  }

  lemma OneActiveOf(cfg: Settings, w: Tables)
    requires TablesOk(cfg, w)
    ensures OneActive(w.trips)
  {
  }

  /** With one device per vehicle a trip is completed exactly when its points have been slow for the stop duration. */
  lemma {:induction false} StoppedIsCompleted(cfg: Settings, devices: map<nat, Device>, inputs: seq<Input>)
    requires Known(devices, inputs) && OneDevice(devices)
    ensures StopsOk(cfg, After(cfg, devices, inputs))
    decreases |inputs|
  {
    if inputs != [] {
      var before, last := inputs[..|inputs| - 1], inputs[|inputs| - 1];
      StoppedIsCompleted(cfg, devices, before);
      TripsAreFaithful(cfg, devices, before);
      MotionIsIdle(cfg, devices, before);
      hide StopsOk, TablesOk, OneDevice, MotionMeansIdle, Processed;
      StopStep(cfg, After(cfg, devices, before), last.device, last.sample, last.time);
    }
  }

  /** Sample `j` becomes a point of the active trip of its vehicle. */
  ghost predicate Joins(cfg: Settings, devices: map<nat, Device>, inputs: seq<Input>, j: nat)
    requires Known(devices, inputs) && j < |inputs|
  {
    var w, d := After(cfg, devices, inputs[..j]), inputs[j].device;
    var active := ActiveOf(w, w.devices[d].vehicle);
    Usable(inputs[j].sample) && active.Some? && Accepts(cfg, w.trips[active.value], inputs[j].sample, inputs[j].time)
  }

  /** Sample `j` opens a trip. */
  ghost predicate OpensTrip(cfg: Settings, devices: map<nat, Device>, inputs: seq<Input>, j: nat)
    requires Known(devices, inputs) && j < |inputs|
  {
    Opens(cfg, After(cfg, devices, inputs[..j]), inputs[j].device, inputs[j].sample, inputs[j].time)
  }

  /** Whether the sample opens a trip. */
  predicate Opens(cfg: Settings, w: Tables, d: nat, s: Sample, time: real)
    requires d in w.devices
  {
    && Usable(s) && ActiveOf(w, w.devices[d].vehicle).None? && SpeedOf(s) >= cfg.startSpeed
    && w.devices[d].motionSince.Some? && time - w.devices[d].motionSince.value >= cfg.startSeconds
  }

  /** From sample `m` up to sample `k`, every point the device contributed was slow, and it opened no trip. */
  ghost predicate Stopping(cfg: Settings, devices: map<nat, Device>, inputs: seq<Input>, d: nat, m: nat, k: nat)
    requires Known(devices, inputs) && m < k <= |inputs|
  {
    && inputs[m].device == d && Joins(cfg, devices, inputs, m)
    && forall j :: m <= j < k && inputs[j].device == d ==>
         !OpensTrip(cfg, devices, inputs, j)
         && (Joins(cfg, devices, inputs, j) ==> SpeedOf(inputs[j].sample) <= cfg.stopSpeed)
  }

  /** What one sample does to the stop note of its own device. */
  lemma OwnStop(cfg: Settings, w: Tables, d: nat, s: Sample, time: real)
    requires |w.points| == |w.trips| && d in w.devices
    requires d in Processed(cfg, w, d, s, time).devices && Processed(cfg, w, d, s, time).devices[d].stoppedSince.Some?
    ensures var active := ActiveOf(w, w.devices[d].vehicle);
            var joins := Usable(s) && active.Some? && Accepts(cfg, w.trips[active.value], s, time);
            && !Opens(cfg, w, d, s, time) && (joins ==> SpeedOf(s) <= cfg.stopSpeed)
            && (Processed(cfg, w, d, s, time).devices[d].stoppedSince == w.devices[d].stoppedSince
                || (joins && Processed(cfg, w, d, s, time).devices[d].stoppedSince == Some(time)))
  {
    hide Extended, Closed, Opened, Accepts;
  }

  lemma JoinsBefore(cfg: Settings, devices: map<nat, Device>, inputs: seq<Input>, j: nat)
    requires Known(devices, inputs) && j < |inputs| - 1
    ensures Joins(cfg, devices, inputs[..|inputs| - 1], j) == Joins(cfg, devices, inputs, j)
    ensures OpensTrip(cfg, devices, inputs[..|inputs| - 1], j) == OpensTrip(cfg, devices, inputs, j)
  {
    assert inputs[..|inputs| - 1][..j] == inputs[..j];
  }

  lemma StoppingExtends(cfg: Settings, devices: map<nat, Device>, inputs: seq<Input>, d: nat, m: nat)
    requires Known(devices, inputs) && inputs != [] && m < |inputs| - 1
    requires Stopping(cfg, devices, inputs[..|inputs| - 1], d, m, |inputs| - 1)
    requires var k := |inputs| - 1;
             inputs[k].device == d ==>
               !OpensTrip(cfg, devices, inputs, k)
               && (Joins(cfg, devices, inputs, k) ==> SpeedOf(inputs[k].sample) <= cfg.stopSpeed)
    ensures Stopping(cfg, devices, inputs, d, m, |inputs|)
  {
    var before := inputs[..|inputs| - 1];
    JoinsBefore(cfg, devices, inputs, m);
    hide Joins, OpensTrip, After, SpeedOf;
    forall j | m <= j < |inputs| && inputs[j].device == d
      ensures !OpensTrip(cfg, devices, inputs, j)
              && (Joins(cfg, devices, inputs, j) ==> SpeedOf(inputs[j].sample) <= cfg.stopSpeed)
    {
      if j < |inputs| - 1 {
        JoinsBefore(cfg, devices, inputs, j);
        assert before[j] == inputs[j];
      }
    }
  }

  /** The sample that a stop note goes back to. */
  lemma {:induction false} StopStart(cfg: Settings, devices: map<nat, Device>, inputs: seq<Input>, d: nat)
    returns (m: nat)
    requires Known(devices, inputs) && Fresh(devices)
    requires d in devices && After(cfg, devices, inputs).devices[d].stoppedSince.Some?
    ensures m < |inputs| && Stopping(cfg, devices, inputs, d, m, |inputs|)
    ensures After(cfg, devices, inputs).devices[d].stoppedSince == Some(inputs[m].time)
    decreases |inputs|
  {
    var before, last := inputs[..|inputs| - 1], inputs[|inputs| - 1];
    var w := After(cfg, devices, before);
    if last.device == d {
      OwnStop(cfg, w, d, last.sample, last.time);
      hide Processed, SpeedOf, Stopping, Fresh, Accepts, Opens;
      if w.devices[d].stoppedSince != After(cfg, devices, inputs).devices[d].stoppedSince {
        StoppingOnce(cfg, devices, inputs, d);
        return |inputs| - 1;
      }
    } else {
      OtherDevice(cfg, w, last.device, d, last.sample, last.time);
    }
    hide Processed, SpeedOf, Stopping, Fresh, Accepts, Opens;
    m := StopStart(cfg, devices, before, d);
    StoppingExtends(cfg, devices, inputs, d, m);
  }

  lemma StoppingOnce(cfg: Settings, devices: map<nat, Device>, inputs: seq<Input>, d: nat)
    requires Known(devices, inputs) && inputs != [] && inputs[|inputs| - 1].device == d
    requires Joins(cfg, devices, inputs, |inputs| - 1) && !OpensTrip(cfg, devices, inputs, |inputs| - 1)
    requires SpeedOf(inputs[|inputs| - 1].sample) <= cfg.stopSpeed
    ensures Stopping(cfg, devices, inputs, d, |inputs| - 1, |inputs|)
  {
    hide Joins, OpensTrip, SpeedOf;
  }

  /** What one sample does to the trip it joins. */
  lemma OwnClosing(cfg: Settings, w: Tables, d: nat, s: Sample, time: real)
    requires |w.points| == |w.trips| && d in w.devices && Usable(s) && ActiveOf(w, w.devices[d].vehicle).Some?
    requires Accepts(cfg, w.trips[ActiveOf(w, w.devices[d].vehicle).value], s, time)
    ensures var now, i := Processed(cfg, w, d, s, time), ActiveOf(w, w.devices[d].vehicle).value;
            && i < |now.trips| && d in now.devices
            && (SpeedOf(s) > cfg.stopSpeed ==> now.trips[i].active)
            && (SpeedOf(s) <= cfg.stopSpeed ==>
                  now.devices[d].stoppedSince.Some?
                  && (now.trips[i].active <==> time - now.devices[d].stoppedSince.value < cfg.stopSeconds))
  {
    hide Accepts;
  }

  /**
     For any devices: a sample that joins a trip completes it exactly when the sample is slow and the
     stop duration has passed since a point of the same device, from which on every point that device
     contributed was slow and it opened no trip.
   */
  lemma ClosingWindow(cfg: Settings, devices: map<nat, Device>, inputs: seq<Input>) returns (i: nat, m: nat)
    requires Known(devices, inputs) && Fresh(devices) && inputs != [] && Joins(cfg, devices, inputs, |inputs| - 1)
    ensures var w, last := After(cfg, devices, inputs[..|inputs| - 1]), inputs[|inputs| - 1];
            var now := After(cfg, devices, inputs);
            && ActiveOf(w, w.devices[last.device].vehicle) == Some(i) && i < |now.trips|
            && (SpeedOf(last.sample) > cfg.stopSpeed ==> now.trips[i].active)
            && (SpeedOf(last.sample) <= cfg.stopSpeed ==>
                  m < |inputs| && Stopping(cfg, devices, inputs, last.device, m, |inputs|)
                  && now.devices[last.device].stoppedSince == Some(inputs[m].time)
                  && (now.trips[i].active <==> last.time - inputs[m].time < cfg.stopSeconds))
  {
    var w, last := After(cfg, devices, inputs[..|inputs| - 1]), inputs[|inputs| - 1];
    i, m := ActiveOf(w, w.devices[last.device].vehicle).value, 0;
    OwnClosing(cfg, w, last.device, last.sample, last.time);
    hide Processed, Stopping, Accepts;
    if SpeedOf(last.sample) <= cfg.stopSpeed {
      m := StopStart(cfg, devices, inputs, last.device);
    }
  }

  /** No other sample completes a trip: a completed trip was completed by a sample that joined it. */
  lemma {:induction false} CompletedBy(cfg: Settings, devices: map<nat, Device>, inputs: seq<Input>, i: nat)
    returns (k: nat)
    requires Known(devices, inputs) && i < |After(cfg, devices, inputs).trips|
    requires !After(cfg, devices, inputs).trips[i].active
    ensures k < |inputs| && Joins(cfg, devices, inputs, k)
    ensures var w := After(cfg, devices, inputs[..k]); ActiveOf(w, w.devices[inputs[k].device].vehicle) == Some(i)
    ensures After(cfg, devices, inputs).trips[i].endedAt == Some(inputs[k].time)
    decreases |inputs|
  {
    var before, last := inputs[..|inputs| - 1], inputs[|inputs| - 1];
    var w := After(cfg, devices, before);
    CompletionStep(cfg, w, last.device, last.sample, last.time, i);
    hide Processed, Accepts;
    if i < |w.trips| && !w.trips[i].active {
      CompletedStep(cfg, w, last.device, last.sample, last.time);
      k := CompletedBy(cfg, devices, before, i);
      JoinsBefore(cfg, devices, inputs, k);
      assert before[..k] == inputs[..k];
    } else {
      k := |inputs| - 1;
    }
  }

  lemma CompletionStep(cfg: Settings, w: Tables, d: nat, s: Sample, time: real, i: nat)
    requires |w.points| == |w.trips| && d in w.devices
    requires i < |Processed(cfg, w, d, s, time).trips| && !Processed(cfg, w, d, s, time).trips[i].active
    ensures i < |w.trips|
    ensures w.trips[i].active ==>
              Usable(s) && ActiveOf(w, w.devices[d].vehicle) == Some(i) && Accepts(cfg, w.trips[i], s, time)
              && Processed(cfg, w, d, s, time).trips[i].endedAt == Some(time)
  {
    hide Accepts;
  }

  // ---------- order in time ----------

  ghost predicate Chronological(inputs: seq<Input>) {
    forall i, j :: 0 <= i < j < |inputs| ==> inputs[i].time <= inputs[j].time
  }

  /** Trips of a vehicle follow one another, and motion is noted only after them. */
  ghost predicate InOrder(w: Tables, now: real) {
    && (forall i, j :: 0 <= i < j < |w.trips| && w.trips[i].vehicle == w.trips[j].vehicle ==>
          !w.trips[i].active && w.trips[i].lastPointAt <= w.trips[j].startedAt)
    && (forall i :: 0 <= i < |w.trips| ==> w.trips[i].lastPointAt <= now)
    && forall d, i :: d in w.devices && w.devices[d].motionSince.Some? && 0 <= i < |w.trips|
                      && w.trips[i].vehicle == w.devices[d].vehicle ==>
         w.trips[i].lastPointAt <= w.devices[d].motionSince.value
  }

  lemma OrderStep(cfg: Settings, w: Tables, d: nat, s: Sample, time: real, now: real)
    requires |w.points| == |w.trips| && InOrder(w, now) && now <= time && d in w.devices
    requires OneDevice(w.devices) && MotionMeansIdle(w)
    ensures InOrder(Processed(cfg, w, d, s, time), time)
  {
    if Usable(s) {
      var active := ActiveOf(w, w.devices[d].vehicle);
      if active.None? {
        SeekInOrder(cfg, w, d, s, time, now);
      } else {
        FollowInOrder(cfg, w, d, active.value, s, time, now);
      }
    }
    hide OneDevice, MotionMeansIdle, Seek, Follow;
  }

  lemma SeekInOrder(cfg: Settings, w: Tables, d: nat, s: Sample, time: real, now: real)
    requires |w.points| == |w.trips| && InOrder(w, now) && now <= time && d in w.devices && OneDevice(w.devices)
    requires Usable(s)
    requires forall i :: 0 <= i < |w.trips| && w.trips[i].vehicle == w.devices[d].vehicle ==> !w.trips[i].active
    ensures InOrder(Seek(cfg, w, d, s, time), time)
  {
    hide SpeedOf;
  }

  lemma FollowInOrder(cfg: Settings, w: Tables, d: nat, i: nat, s: Sample, time: real, now: real)
    requires |w.points| == |w.trips| && InOrder(w, now) && now <= time && d in w.devices && MotionMeansIdle(w)
    requires Usable(s)
    requires i < |w.trips| && w.trips[i].active && w.trips[i].vehicle == w.devices[d].vehicle
    ensures InOrder(Follow(cfg, w, d, i, s, time), time)
  {
    FollowShape(cfg, w, d, i, s, time);
    hide Follow;
  }

  /** Following a trip changes its last point and whether it is active, and one stop note; no motion note. */
  lemma FollowShape(cfg: Settings, w: Tables, d: nat, i: nat, s: Sample, time: real)
    requires |w.points| == |w.trips| && d in w.devices && Usable(s) && i < |w.trips| && w.trips[i].active
    ensures var now := Follow(cfg, w, d, i, s, time);
            && |now.trips| == |w.trips| && (forall j :: 0 <= j < |w.trips| && j != i ==> now.trips[j] == w.trips[j])
            && now.trips[i].vehicle == w.trips[i].vehicle && now.trips[i].startedAt == w.trips[i].startedAt
            && (now.trips[i].lastPointAt == w.trips[i].lastPointAt || now.trips[i].lastPointAt == time)
            && now.devices.Keys == w.devices.Keys
            && forall e :: e in w.devices ==>
                 now.devices[e].vehicle == w.devices[e].vehicle
                 && now.devices[e].motionSince == w.devices[e].motionSince
  {
    hide Accepts, SpeedOf;
  }

  lemma {:induction false} TripsInOrder(cfg: Settings, devices: map<nat, Device>, inputs: seq<Input>)
    requires Known(devices, inputs) && OneDevice(devices) && Chronological(inputs)
    ensures inputs != [] ==> InOrder(After(cfg, devices, inputs), inputs[|inputs| - 1].time)
    decreases |inputs|
  {
    if inputs != [] {
      var before, last := inputs[..|inputs| - 1], inputs[|inputs| - 1];
      TripsInOrder(cfg, devices, before);
      MotionIsIdle(cfg, devices, before);
      hide OneDevice, MotionMeansIdle, Processed;
      var w := After(cfg, devices, before);
      var now := if before == [] then last.time else before[|before| - 1].time;
      assert InOrder(w, now);
      OrderStep(cfg, w, last.device, last.sample, last.time, now);
    }
  }

  /** The trips of a vehicle are disjoint and in order: each has ended when the next one starts. */
  ghost predicate Disjoint(trips: seq<Trip>, vehicle: nat) {
    forall i, j :: 0 <= i < j < |trips| && trips[i].vehicle == vehicle && trips[j].vehicle == vehicle ==>
      !trips[i].active && trips[i].endedAt.Some? && trips[i].endedAt.value <= trips[j].startedAt
  }

  /**
     The guard that a caller can test before a sample is processed: if it opens a trip, the motion note
     of its device is not before the last point of any earlier trip of the vehicle.
   */
  ghost predicate OpensClear(cfg: Settings, w: Tables, d: nat, s: Sample, time: real)
    requires d in w.devices
  {
    Opens(cfg, w, d, s, time) ==>
      forall i :: 0 <= i < |w.trips| && w.trips[i].vehicle == w.devices[d].vehicle ==>
        w.trips[i].lastPointAt <= w.devices[d].motionSince.value
  }

  /** The guard held at every sample of the vehicle. */
  ghost predicate AllClear(cfg: Settings, devices: map<nat, Device>, inputs: seq<Input>, vehicle: nat)
    requires Known(devices, inputs)
  {
    inputs == []
    || (var before, last := inputs[..|inputs| - 1], inputs[|inputs| - 1];
        var w := After(cfg, devices, before);
        AllClear(cfg, devices, before, vehicle)
        && (w.devices[last.device].vehicle == vehicle ==> OpensClear(cfg, w, last.device, last.sample, last.time)))
  }

  /** Of two trips of a vehicle the earlier one is completed. */
  ghost predicate EarlierDone(trips: seq<Trip>) {
    forall i, j :: 0 <= i < j < |trips| && trips[i].vehicle == trips[j].vehicle ==> !trips[i].active
  }

  ghost predicate Spaced(trips: seq<Trip>, vehicle: nat) {
    forall i, j :: 0 <= i < j < |trips| && trips[i].vehicle == vehicle && trips[j].vehicle == vehicle ==>
      trips[i].lastPointAt <= trips[j].startedAt
  }

  /** One sample keeps the trips spaced exactly when they were and the guard holds. */
  lemma SpacedStep(cfg: Settings, w: Tables, d: nat, s: Sample, time: real, vehicle: nat)
    requires |w.points| == |w.trips| && d in w.devices && EarlierDone(w.trips)
    ensures var now := Processed(cfg, w, d, s, time);
            && EarlierDone(now.trips)
            && (Spaced(now.trips, vehicle) <==>
                Spaced(w.trips, vehicle) && (w.devices[d].vehicle == vehicle ==> OpensClear(cfg, w, d, s, time)))
  {
    var now := Processed(cfg, w, d, s, time);
    if Opens(cfg, w, d, s, time) {
      OpeningSpaces(cfg, w, d, s, time, vehicle);
    } else if now.trips != w.trips {
      FollowingSpaces(cfg, w, d, s, time, vehicle);
    }
  }

  lemma OpeningSpaces(cfg: Settings, w: Tables, d: nat, s: Sample, time: real, vehicle: nat)
    requires |w.points| == |w.trips| && d in w.devices && EarlierDone(w.trips) && Opens(cfg, w, d, s, time)
    ensures var now := Processed(cfg, w, d, s, time);
            && EarlierDone(now.trips)
            && (Spaced(now.trips, vehicle) <==>
                Spaced(w.trips, vehicle) && (w.devices[d].vehicle == vehicle ==> OpensClear(cfg, w, d, s, time)))
  {
    var now, n := Processed(cfg, w, d, s, time), |w.trips|;
    assert |now.trips| == n + 1 && now.trips[n].startedAt == w.devices[d].motionSince.value;
    assert now.trips[n].vehicle == w.devices[d].vehicle;
    assert forall i :: 0 <= i < n ==> now.trips[i] == w.trips[i];
    hide Processed, SpeedOf;
  }

  lemma FollowingSpaces(cfg: Settings, w: Tables, d: nat, s: Sample, time: real, vehicle: nat)
    requires |w.points| == |w.trips| && d in w.devices && EarlierDone(w.trips)
    requires !Opens(cfg, w, d, s, time) && Processed(cfg, w, d, s, time).trips != w.trips
    ensures var now := Processed(cfg, w, d, s, time);
            EarlierDone(now.trips) && (Spaced(now.trips, vehicle) <==> Spaced(w.trips, vehicle))
  {
    var now, a := Processed(cfg, w, d, s, time), ActiveOf(w, w.devices[d].vehicle).value;
    assert |now.trips| == |w.trips| && now.trips[a].vehicle == w.trips[a].vehicle && w.trips[a].active;
    assert now.trips[a].startedAt == w.trips[a].startedAt;
    assert forall i :: 0 <= i < |w.trips| && i != a ==> now.trips[i] == w.trips[i];
    hide Processed, Opens;
  }

  lemma {:induction false} SpacedRun(cfg: Settings, devices: map<nat, Device>, inputs: seq<Input>, vehicle: nat)
    requires Known(devices, inputs)
    ensures var trips := After(cfg, devices, inputs).trips;
            EarlierDone(trips) && (Spaced(trips, vehicle) <==> AllClear(cfg, devices, inputs, vehicle))
    decreases |inputs|
  {
    if inputs != [] {
      var before, last := inputs[..|inputs| - 1], inputs[|inputs| - 1];
      SpacedRun(cfg, devices, before, vehicle);
      hide Processed, EarlierDone, Spaced, OpensClear;
      SpacedStep(cfg, After(cfg, devices, before), last.device, last.sample, last.time, vehicle);
    }
  }

  /**
     For any devices and any event times: the trips of a vehicle are disjoint and in order if and only
     if, whenever one of its samples opened a trip, the guard held.
   */
  lemma DisjointIfAndOnlyIfClear(cfg: Settings, devices: map<nat, Device>, inputs: seq<Input>, vehicle: nat)
    requires Known(devices, inputs)
    ensures Disjoint(After(cfg, devices, inputs).trips, vehicle) <==> AllClear(cfg, devices, inputs, vehicle)
  {
    SpacedRun(cfg, devices, inputs, vehicle);
    TripsAreFaithful(cfg, devices, inputs);
    var w := After(cfg, devices, inputs);
    hide After, AllClear;
    forall i | 0 <= i < |w.trips| && !w.trips[i].active
      ensures w.trips[i].endedAt == Some(w.trips[i].lastPointAt)
    {
      EndedAtLastPoint(cfg, w, i);
    }
    hide TablesOk;
  }

  lemma EndedAtLastPoint(cfg: Settings, w: Tables, i: nat)
    requires TablesOk(cfg, w) && i < |w.trips| && !w.trips[i].active
    ensures w.trips[i].endedAt == Some(w.trips[i].lastPointAt)
  {
    assert Faithful(cfg, w.trips[i], w.points[i]);
  }

  /** With one device per vehicle and event times that do not decrease, the guard always holds. */
  lemma {:induction false} OneDeviceIsClear(cfg: Settings, devices: map<nat, Device>, inputs: seq<Input>, vehicle: nat)
    requires Known(devices, inputs) && OneDevice(devices) && Chronological(inputs)
    ensures AllClear(cfg, devices, inputs, vehicle)
    decreases |inputs|
  {
    if inputs != [] {
      var before, last := inputs[..|inputs| - 1], inputs[|inputs| - 1];
      OneDeviceIsClear(cfg, devices, before, vehicle);
      if before == [] {
        assert After(cfg, devices, before).trips == [];
      } else {
        TripsInOrder(cfg, devices, before);
      }
      hide After, Opens, OneDevice;
    }
  }

  /**
     So with one device per vehicle and event times that do not decrease, the trips of a vehicle are
     disjoint and in order.
   */
  lemma TripsAreDisjoint(cfg: Settings, devices: map<nat, Device>, inputs: seq<Input>, vehicle: nat)
    requires Known(devices, inputs) && OneDevice(devices) && Chronological(inputs)
    ensures Disjoint(After(cfg, devices, inputs).trips, vehicle)
  {
    OneDeviceIsClear(cfg, devices, inputs, vehicle);
    DisjointIfAndOnlyIfClear(cfg, devices, inputs, vehicle);
  }

  // ---------- both hypotheses are needed ----------

  function Fix(id: nat, speed: real): Sample {
    Sample(id, true, Some(0.0), Some(0.0), Some(speed), None, false)
  }

  /** The vehicle stands still on the map while its speed is reported. */
  const STANDING := Settings(5.0, 20.0, 2.0, 120.0, 250.0, (a, b) => 0.0)

  const SHARED: map<nat, Device> := map[1 := Device(7, None, None), 2 := Device(7, None, None)]

  /**
     Two devices report for vehicle 7. The first notes motion and falls silent; the second makes a
     whole trip; then one more sample of the first opens a trip that starts before the other ended.
   */
  function Overlapping(): (inputs: seq<Input>)
    ensures Known(SHARED, inputs)
  {
    [Input(1, Fix(1, 50.0), 0.0), Input(2, Fix(2, 50.0), 0.0), Input(2, Fix(3, 50.0), 20.0),
     Input(2, Fix(4, 0.0), 21.0), Input(2, Fix(5, 0.0), 141.0), Input(1, Fix(6, 50.0), 142.0)]
  }

  lemma AfterOne(cfg: Settings, devices: map<nat, Device>, inputs: seq<Input>, last: Input)
    requires Known(devices, inputs) && last.device in devices
    ensures Known(devices, inputs + [last])
    ensures After(cfg, devices, inputs + [last])
         == Processed(cfg, After(cfg, devices, inputs), last.device, last.sample, last.time)
  {
    assert (inputs + [last])[..|inputs|] == inputs;
  }

  const ORIGIN := Place(0.0, 0.0)

  /** The second device's trip as it opens. */
  const SECOND := Trip(7, 2, true, 0.0, None, ORIGIN, ORIGIN, None, 20.0, 0.0, 50.0, 50.0, None, 1, 1, false)

  lemma SecondOpens()
    ensures var w := After(STANDING, SHARED, Overlapping()[..3]);
            w.devices == map[1 := Device(7, Some(0.0), None), 2 := Device(7, None, None)]
            && w.trips == [SECOND] && w.points == [[PointOf(Fix(3, 50.0), 20.0)]]
  {
    var all := Overlapping();
    hide After;
    AfterNone();
    AfterOne(STANDING, SHARED, [], all[0]);
    AfterOne(STANDING, SHARED, all[..1], all[1]);
    AfterOne(STANDING, SHARED, all[..2], all[2]);
    assert all[..1] == [] + [all[0]] && all[..2] == all[..1] + [all[1]] && all[..3] == all[..2] + [all[2]];
  }

  lemma SecondSlows(w: Tables, i: Input, j: Input)
    requires w.devices == map[1 := Device(7, Some(0.0), None), 2 := Device(7, None, None)]
    requires w.trips == [SECOND] && |w.points| == 1
    requires i == Input(2, Fix(4, 0.0), 21.0) && j == Input(2, Fix(5, 0.0), 141.0)
    ensures var once := Processed(STANDING, w, 2, i.sample, i.time);
            && |once.points| == |once.trips| && 2 in once.devices
            && var twice := Processed(STANDING, once, 2, j.sample, j.time);
               |twice.trips| == |twice.points| == 1 && !twice.trips[0].active && twice.trips[0].vehicle == 7
               && twice.trips[0].endedAt == Some(141.0)
               && 1 in twice.devices && twice.devices[1] == Device(7, Some(0.0), None)
  {
    hide Average;
    var once := Processed(STANDING, w, 2, i.sample, i.time);
    assert once.trips[0].active && once.devices[2] == Device(7, None, Some(21.0)) && once.trips[0].lastPointAt == 21.0;
  }

  lemma SharedVehicleOverlaps()
    ensures Chronological(Overlapping()) && Fresh(SHARED) && !OneDevice(SHARED)
    ensures var trips := After(STANDING, SHARED, Overlapping()).trips;
            |trips| == 2 && trips[0].vehicle == trips[1].vehicle == 7
            && trips[0].endedAt == Some(141.0) && trips[1].startedAt == 0.0
  {
    hide After, Processed;
    OverlappingIsChronological();
    var all := Overlapping();
    assert all[..4] == all[..3] + [all[3]] && all[..5] == all[..4] + [all[4]] && all == all[..5] + [all[5]];
    SecondOpens();
    SecondSlows(After(STANDING, SHARED, all[..3]), all[3], all[4]);
    AfterOne(STANDING, SHARED, all[..3], all[3]);
    AfterOne(STANDING, SHARED, all[..4], all[4]);
    AfterOne(STANDING, SHARED, all[..5], all[5]);
    FirstOpens(After(STANDING, SHARED, all[..5]), all[5]);
  }

  lemma OverlappingIsChronological()
    ensures Chronological(Overlapping()) && Fresh(SHARED) && !OneDevice(SHARED)
  {
    assert SHARED[1].vehicle == SHARED[2].vehicle;
  }

  lemma FirstOpens(w: Tables, i: Input)
    requires |w.trips| == |w.points| == 1 && !w.trips[0].active && w.trips[0].vehicle == 7
    requires w.trips[0].endedAt == Some(141.0)
    requires 1 in w.devices && w.devices[1] == Device(7, Some(0.0), None) && i == Input(1, Fix(6, 50.0), 142.0)
    ensures var trips := Processed(STANDING, w, 1, i.sample, i.time).trips;
            |trips| == 2 && trips[0].vehicle == trips[1].vehicle == 7
            && trips[0].endedAt == Some(141.0) && trips[1].startedAt == 0.0
  {
  }

  lemma AfterNone()
    ensures After(STANDING, SHARED, []) == Tables(SHARED, [], [])
  {
  }

  const ALONE: map<nat, Device> := map[1 := Device(7, None, None)]

  /**
     One device whose times go back, as they do when a sample without a valid clock is stamped on
     arrival: a trip from 100 to 241, and then a trip that starts at 130.
   */
  function GoingBack(): (inputs: seq<Input>)
    ensures Known(ALONE, inputs)
  {
    [Input(1, Fix(1, 50.0), 100.0), Input(1, Fix(2, 50.0), 120.0), Input(1, Fix(3, 0.0), 121.0),
     Input(1, Fix(4, 0.0), 241.0), Input(1, Fix(5, 50.0), 130.0), Input(1, Fix(6, 50.0), 150.0)]
  }

  const ONLY := Trip(7, 1, true, 100.0, None, ORIGIN, ORIGIN, None, 120.0, 0.0, 50.0, 50.0, None, 1, 1, false)

  lemma OnlyOpens()
    ensures var w := After(STANDING, ALONE, GoingBack()[..2]);
            w.devices == map[1 := Device(7, None, None)] && w.trips == [ONLY] && |w.points| == 1
  {
    var all := GoingBack();
    assert After(STANDING, ALONE, []) == Tables(ALONE, [], []);
    hide After;
    AfterOne(STANDING, ALONE, [], all[0]);
    AfterOne(STANDING, ALONE, all[..1], all[1]);
    assert all[..1] == [] + [all[0]] && all[..2] == all[..1] + [all[1]];
  }

  /** The trip is slow at 121 and closes at 241. */
  lemma OnlyCloses(w: Tables, i: Input, j: Input)
    requires w.devices == map[1 := Device(7, None, None)] && w.trips == [ONLY] && |w.points| == 1
    requires i == Input(1, Fix(3, 0.0), 121.0) && j == Input(1, Fix(4, 0.0), 241.0)
    ensures var once := Processed(STANDING, w, 1, i.sample, i.time);
            && |once.points| == |once.trips| && 1 in once.devices
            && var twice := Processed(STANDING, once, 1, j.sample, j.time);
               |twice.trips| == |twice.points| == 1 && !twice.trips[0].active && twice.trips[0].vehicle == 7
               && twice.trips[0].endedAt == Some(241.0) && 1 in twice.devices
                  && twice.devices[1] == Device(7, None, Some(121.0))
  {
    hide Average;
    var once := Processed(STANDING, w, 1, i.sample, i.time);
    assert once.trips[0].active && once.devices[1] == Device(7, None, Some(121.0))
           && once.trips[0].lastPointAt == 121.0;
  }

  lemma NextOpens(w: Tables, i: Input, j: Input)
    requires |w.trips| == |w.points| == 1 && !w.trips[0].active && w.trips[0].vehicle == 7
    requires 1 in w.devices && w.devices[1] == Device(7, None, Some(121.0))
    requires i == Input(1, Fix(5, 50.0), 130.0) && j == Input(1, Fix(6, 50.0), 150.0)
    ensures var once := Processed(STANDING, w, 1, i.sample, i.time);
            && |once.points| == |once.trips| && 1 in once.devices
            && var twice := Processed(STANDING, once, 1, j.sample, j.time);
               |twice.trips| == 2 && twice.trips[0] == w.trips[0] && twice.trips[1].vehicle == 7
               && twice.trips[1].startedAt == 130.0
  {
    var once := Processed(STANDING, w, 1, i.sample, i.time);
    assert once.trips == w.trips && once.devices[1] == Device(7, Some(130.0), Some(121.0));
  }

  lemma GoingBackOverlaps()
    ensures OneDevice(ALONE) && Fresh(ALONE) && !Chronological(GoingBack())
    ensures !Disjoint(After(STANDING, ALONE, GoingBack()).trips, 7)
    ensures var trips := After(STANDING, ALONE, GoingBack()).trips;
            |trips| == 2 && trips[0].vehicle == trips[1].vehicle == 7
            && trips[0].endedAt == Some(241.0) && trips[1].startedAt == 130.0
  {
    hide After, Processed;
    var all := GoingBack();
    assert all[3].time > all[4].time;
    assert all[..3] == all[..2] + [all[2]] && all[..4] == all[..3] + [all[3]] && all[..5] == all[..4] + [all[4]];
    assert all == all[..5] + [all[5]];
    OnlyOpens();
    AfterOne(STANDING, ALONE, all[..2], all[2]);
    AfterOne(STANDING, ALONE, all[..3], all[3]);
    OnlyCloses(After(STANDING, ALONE, all[..2]), all[2], all[3]);
    AfterOne(STANDING, ALONE, all[..4], all[4]);
    AfterOne(STANDING, ALONE, all[..5], all[5]);
    NextOpens(After(STANDING, ALONE, all[..4]), all[4], all[5]);
  }
}
