/** The two sensor front ends that drive neuron inputs.
    RaycastSensor measures a distance, either by a single forward raycast or
    by reading one angular bin of DistanceFromLidar, and maps it through the
    distance transfer function. HeadingErrorSensor follows a recorded
    trajectory with a lookahead, records the heading error, and splits it
    into a left and a right error for two neurons. The physics raycast, the
    trajectory manager and the heading geometry are parameters. */
module Sensors {
  import opened Prims
  import opened RealSeq
  import opened Transfer
  import opened Binner

  /** Where a RaycastSensor takes its distance from. */
  datatype MeasurementType = RaycastMode | LidarMode

  /** RaycastSensor's configuration (its serialized fields). */
  datatype RaycastSensor = RaycastSensor(
    params: DistanceParams, kind: MeasurementType, lidarDegreeInterval: int, lidarId: int)

  /** The field initialisers: raycast mode, 10-degree bins, bin 0. */
  const DefaultRaycastSensor: RaycastSensor := RaycastSensor(DefaultDistanceParams, RaycastMode, 10, 0)

  /** The input Start writes to the neuron before any measurement. */
  const StartInput: real := 3.5

  /** The distance a lidar-mode sensor reads: the magnitude of its bin's
      minimum, or `float.MaxValue` when there is no processed data yet or the
      bin received no return. */
  function LidarDistance(processed: Option<map<int, MeasurementStats>>, lidarId: int): (r: real)
    ensures r >= 0.0
    ensures processed.None? || lidarId !in processed.value ==> r == MaxFloat
    ensures processed.Some? && lidarId in processed.value ==> r == Abs(processed.value[lidarId].min)
  {
    if processed.Some? && lidarId in processed.value then Abs(processed.value[lidarId].min) else MaxFloat
  }

  /** RaycastSensor.Update: the neuron input after one frame, or None when the
      input is left untouched (lidar mode without a DistanceFromLidar). `hit`
      is the raycast's hit distance; `lidar` the DistanceFromLidar, if any. */
  function SensorInput(s: RaycastSensor, tanh: TanhFn, hit: Option<real>, lidar: Option<Lidar>): (r: Option<real>)
    ensures s.kind == RaycastMode ==> r == Some(CurrentFromDistance(s.params, tanh, if hit.Some? then hit.value else MaxFloat))
    ensures s.kind == LidarMode ==> (r.None? <==> lidar.None?)
    ensures s.kind == LidarMode && lidar.Some? ==>
      r == Some(CurrentFromDistance(s.params, tanh, LidarDistance(lidar.value.processed, s.lidarId)))
  {
    match s.kind
    case RaycastMode =>
      var distance := if hit.Some? then hit.value else MaxFloat;
      Some(CurrentFromDistance(s.params, tanh, distance))
    case LidarMode =>
      if lidar.None? then None
      else Some(CurrentFromDistance(s.params, tanh, LidarDistance(lidar.value.processed, s.lidarId)))
  }

  /** RaycastSensor.Start: the neuron input is set to 3.5 and an attached
      DistanceFromLidar is told the sensor's degree interval, which
      reprocesses the lidar buffer's current contents `buffer` if the binner
      already holds the buffer. */
  method SensorStart(angle: AngleFn, length: LengthFn, s: RaycastSensor, lidar: Option<Lidar>,
                     buffer: seq<Vec3>, pose: Pose)
    returns (input: real, lidarAfter: Option<Lidar>)
    requires s.lidarDegreeInterval != 0
    ensures input == StartInput
    ensures lidarAfter.None? <==> lidar.None?
    ensures lidar.Some? ==> lidarAfter.value.degreeInterval == s.lidarDegreeInterval
    ensures lidar.Some? && lidar.value.outputData.None? ==>
      lidarAfter.value == lidar.value.(degreeInterval := s.lidarDegreeInterval)
    ensures lidar.Some? && lidar.value.outputData.Some? ==>
      && lidarAfter.value.outputData == Some(buffer)
      && lidarAfter.value.processed.Some? && lidarAfter.value.grouped.Some?
      && Processed(angle, length, buffer, s.lidarDegreeInterval, pose.forward, pose.position,
                   lidarAfter.value.processed.value, lidarAfter.value.grouped.value)
  {
    input := StartInput;
    lidarAfter := lidar;
    if lidar.Some? {
      var st := SetDegreeInterval(angle, length, lidar.value, s.lidarDegreeInterval, buffer, pose);
      lidarAfter := Some(st);
    }
  }

  /** Nothing seen means "far away": a raycast miss, and a lidar bin with no
      return, both give the far-branch current a1 * Imin whenever xmax does not
      exceed `float.MaxValue`. */
  lemma NothingSeenGivesFarCurrent(s: RaycastSensor, tanh: TanhFn, lidar: Option<Lidar>)
    requires s.params.xMax <= MaxFloat
    requires s.kind == RaycastMode || (lidar.Some? && (lidar.value.processed.None? || s.lidarId !in lidar.value.processed.value))
    ensures SensorInput(s, tanh, None, lidar) == Some(s.params.a1 * s.params.iMin)
  {
    assert CurrentFromDistance(s.params, tanh, MaxFloat) == s.params.a1 * s.params.iMin;
    if s.kind == LidarMode {
      assert LidarDistance(lidar.value.processed, s.lidarId) == MaxFloat;
    }
  }

  /** After DistanceFromLidar has processed a frame, a lidar-mode sensor whose
      bin received returns reads exactly the distance of the nearest return in
      that bin: no return of the bin is nearer, and one of them is that near. */
  lemma LidarReadsNearestReturn(angle: AngleFn, length: LengthFn, tanh: TanhFn, s: RaycastSensor,
                                lidar: Lidar, data: seq<Vec3>, pose: Pose)
    requires IsLength(length)
    requires s.kind == LidarMode && lidar.degreeInterval != 0
    requires lidar.processed.Some? && lidar.grouped.Some?
    requires Processed(angle, length, data, lidar.degreeInterval, pose.forward, pose.position,
                       lidar.processed.value, lidar.grouped.value)
    requires exists i :: InBin(angle, data, lidar.degreeInterval, pose.forward, pose.position, i, s.lidarId)
    ensures var d := LidarDistance(lidar.processed, s.lidarId);
      && SensorInput(s, tanh, None, Some(lidar)) == Some(CurrentFromDistance(s.params, tanh, d))
      && (forall i :: InBin(angle, data, lidar.degreeInterval, pose.forward, pose.position, i, s.lidarId) ==>
            d <= length(Sub(data[i], pose.position)))
      && (exists i :: InBin(angle, data, lidar.degreeInterval, pose.forward, pose.position, i, s.lidarId) &&
            d == length(Sub(data[i], pose.position)))
  {
    BinMinimum(angle, length, data, lidar.degreeInterval, pose.forward, pose.position,
               lidar.processed.value, lidar.grouped.value, s.lidarId);
  }

  /** HeadingErrorSensor's state: its transfer fields, the lookahead, the last
      error it recorded and the index of the next trajectory point. */
  datatype HeadingSensor = HeadingSensor(params: AngleParams, lookahead: int, error: real, currentPointIndex: int)

  /** The result of one frame: the new state and, when the frame ran to the
      end, the (left, right) currents it wrote. */
  datatype HeadingFrame = HeadingFrame(sensor: HeadingSensor, currents: Option<(real, real)>)

  /** The distance below which the current trajectory point counts as reached. */
  const ReachRadius: real := 3.0

  /** The split of a heading error: the left neuron gets minus the error
      clamped to [0, 90], the right neuron the error clamped to [-90, 0]. */
  function RouteError(e: real): (lr: (real, real))
    ensures -90.0 <= lr.0 <= 0.0 && -90.0 <= lr.1 <= 0.0
    ensures lr.0 == 0.0 || lr.1 == 0.0
    ensures e >= 0.0 ==> lr.1 == 0.0 && lr.0 == -Min(e, 90.0)
    ensures e <= 0.0 ==> lr.0 == 0.0 && lr.1 == Max(e, -90.0)
  {
    (-Clamp(e, 0.0, 90.0), Clamp(e, -90.0, 0.0))
  }

  /** Within +-90 degrees the routing loses nothing: right minus left gives the
      error back. */
  lemma RouteErrorRecovers(e: real)
    requires -90.0 <= e <= 90.0
    ensures RouteError(e).1 - RouteError(e).0 == e
  {
  }

  /** The frame's heading geometry: the `Mathf.DeltaAngle` between the
      sensor's current heading and the direction from it to a target point,
      as seen from the sensor's transform in that frame. */
  type HeadingErrorOf = Vec3 -> real

  /** The lookahead target: `lookahead` points past the current one, capped
      at the last point. */
  function TargetIndex(index: int, lookahead: int, count: int): (r: int)
    ensures r <= index + lookahead && r <= count - 1
    ensures r == index + lookahead || r == count - 1
  {
    MinInt(index + lookahead, count - 1)
  }

  /** With a non-negative lookahead and a current index inside the
      trajectory, the target lies between the current point and the last
      one, so reading it never fails. */
  lemma TargetIndexInRange(index: int, lookahead: int, count: int)
    requires 0 <= index < count && lookahead >= 0
    ensures index <= TargetIndex(index, lookahead, count) <= count - 1
  {
  }

  /** HeadingErrorSensor.Update. `points` is the loaded trajectory (None until
      loaded), `vehicle` the tracked vehicle's position (None when the named
      object does not exist), `headingErrorOf` the frame's heading geometry,
      applied to the target point. An index error or a null object aborts the
      frame, leaving everything as it was. */
  function HeadingUpdate(s: HeadingSensor, tanh: TanhFn, length: LengthFn, points: Option<seq<Vec3>>,
                         vehicle: Option<Vec3>, headingErrorOf: HeadingErrorOf): (r: HeadingFrame)
    requires s.currentPointIndex >= 0
    ensures r.sensor.params == s.params && r.sensor.lookahead == s.lookahead
    ensures r.currents.None? ==> r.sensor == s
    ensures r.currents.Some? <==>
      && points.Some? && s.currentPointIndex < |points.value|
      && TargetIndex(s.currentPointIndex, s.lookahead, |points.value|) >= 0 && vehicle.Some?
    ensures r.currents.Some? ==>
      var target := TargetIndex(s.currentPointIndex, s.lookahead, |points.value|);
      && 0 <= target < |points.value|
      && r.sensor.error == headingErrorOf(points.value[target])
      && r.currents.value == (CurrentFromAngle(s.params, tanh, RouteError(r.sensor.error).0),
                              CurrentFromAngle(s.params, tanh, RouteError(r.sensor.error).1))
      && (r.sensor.currentPointIndex == s.currentPointIndex + 1 <==>
            length(Sub(vehicle.value, points.value[s.currentPointIndex])) < ReachRadius)
    ensures points.Some? && s.currentPointIndex < |points.value| && s.lookahead >= 0 && vehicle.Some? ==>
      r.currents.Some?
    ensures s.currentPointIndex <= r.sensor.currentPointIndex <= s.currentPointIndex + 1
    ensures points.Some? && s.currentPointIndex <= |points.value| ==> r.sensor.currentPointIndex <= |points.value|
  {
    if points.None? || s.currentPointIndex >= |points.value| then HeadingFrame(s, None)
    else
      var pts := points.value;
      var targetIndex := TargetIndex(s.currentPointIndex, s.lookahead, |pts|);
      if targetIndex < 0 || vehicle.None? then HeadingFrame(s, None)
      else
        var targetPoint := pts[targetIndex];
        var nextPoint := pts[s.currentPointIndex];
        var error := headingErrorOf(targetPoint);
        var index := if length(Sub(vehicle.value, nextPoint)) < ReachRadius
                     then s.currentPointIndex + 1 else s.currentPointIndex;
        var (left, right) := RouteError(error);
        HeadingFrame(s.(error := error, currentPointIndex := index),
                     Some((CurrentFromAngle(s.params, tanh, left), CurrentFromAngle(s.params, tanh, right))))
  }

  /** `Mathf.Min` on ints. */
  function MinInt(a: int, b: int): (r: int)
    ensures r <= a && r <= b && (r == a || r == b)
  {
    if a < b then a else b
  }

  /** Neither routed error is ever positive, so with minAngle >= 0 both fall in
      the "at or below minAngle" branch: whatever the heading error, both
      neurons receive Imax. This holds for the shipped minAngle = 0 and
      maxAngle = 10. */
  lemma HeadingCurrentsSaturate(p: AngleParams, tanh: TanhFn, e: real)
    requires p.minAngle >= 0.0 && p.maxAngle > 0.0
    ensures CurrentFromAngle(p, tanh, RouteError(e).0) == p.iMax
    ensures CurrentFromAngle(p, tanh, RouteError(e).1) == p.iMax
  {
  }

  /** A trajectory follower's frames in sequence, with the per-frame inputs. */
  datatype HeadingInputs = HeadingInputs(vehicle: Option<Vec3>, headingErrorOf: HeadingErrorOf)

  function HeadingRun(s: HeadingSensor, tanh: TanhFn, length: LengthFn, points: Option<seq<Vec3>>,
                      frames: seq<HeadingInputs>): (r: HeadingSensor)
    requires s.currentPointIndex >= 0
    ensures r.currentPointIndex >= s.currentPointIndex
    decreases |frames|
  {
    if frames == [] then s
    else
      var before := HeadingRun(s, tanh, length, points, frames[..|frames| - 1]);
      var f := frames[|frames| - 1];
      HeadingUpdate(before, tanh, length, points, f.vehicle, f.headingErrorOf).sensor
  }

  /** Over any run of frames the trajectory index never decreases, advances by
      at most one per frame, and never passes the end of the trajectory. */
  lemma {:induction false} HeadingRunProgress(s: HeadingSensor, tanh: TanhFn, length: LengthFn,
                                              points: seq<Vec3>, frames: seq<HeadingInputs>)
    requires 0 <= s.currentPointIndex <= |points|
    ensures var r := HeadingRun(s, tanh, length, Some(points), frames);
      s.currentPointIndex <= r.currentPointIndex <= |points| &&
      r.currentPointIndex <= s.currentPointIndex + |frames|
    decreases |frames|
  {
    if frames != [] {
      HeadingRunProgress(s, tanh, length, points, frames[..|frames| - 1]);
    }
  }
}
