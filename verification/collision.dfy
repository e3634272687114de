/** StatisticsWithCollision: the trajectory metrics of TrajectoryProcessor,
    plus a yaw rate, the nearest obstacle, the boundary-to-boundary distance
    to it, and a latched collision counter that counts each contact once.
    Colliders' `ClosestPoint` is left uninterpreted (a function parameter).

    The frame as written aborts in two places with a null dereference, so
    it stops before its bookkeeping: see `FrameAsWritten`. `Frame` is the
    evidently intended frame, which `CollisionUpdate` uses. */
module Collision {
  import opened Prims
  import opened TrackMetrics

  /** A collider's `ClosestPoint`. */
  type ClosestPointFn = Vec3 -> Vec3

  /** One child of the obstacle parent: its transform position and its
      MeshCollider, when it has one. */
  datatype Obstacle = Obstacle(position: Vec3, mesh: Option<ClosestPointFn>)

  /** The distances `FindNearestObstacle` compares, all defined. */
  function ObstacleDistances(length: LengthFn, p: Vec3, obstacles: seq<Obstacle>): seq<Option<real>> {
    seq(|obstacles|, i requires 0 <= i < |obstacles| => Some(length(Sub(p, obstacles[i].position))))
  }

  /** `FindNearestObstacle`: the first obstacle at the least distance below
      float.MaxValue; None when there is none (no obstacles, or all at least
      that far). */
  method FindNearestObstacle(length: LengthFn, p: Vec3, obstacles: seq<Obstacle>) returns (nearest: Option<nat>)
    ensures obstacles == [] ==> nearest.None?
    ensures nearest.None? <==> forall i :: 0 <= i < |obstacles| ==> length(Sub(p, obstacles[i].position)) >= MaxFloat
    ensures nearest.Some? ==>
      && nearest.value < |obstacles|
      && length(Sub(p, obstacles[nearest.value].position)) < MaxFloat
      && (forall i :: 0 <= i < |obstacles| ==>
            length(Sub(p, obstacles[nearest.value].position)) <= length(Sub(p, obstacles[i].position)))
      && (forall i :: 0 <= i < nearest.value ==>
            length(Sub(p, obstacles[nearest.value].position)) < length(Sub(p, obstacles[i].position)))
  {
    var ds := ObstacleDistances(length, p, obstacles);
    nearest := ScanMinimum(ds);
    assert forall i :: 0 <= i < |obstacles| ==> ds[i] == Some(length(Sub(p, obstacles[i].position)));
  }

  /** `CalculateBoundaryToBoundaryDistance`: float.MaxValue when the vehicle
      collider or the obstacle's mesh collider is missing; otherwise the
      distance between the vehicle's closest point to the obstacle and the
      obstacle's closest point to that. */
  function BoundaryDistance(length: LengthFn, vehicleCollider: Option<ClosestPointFn>, o: Obstacle): (r: real)
    ensures vehicleCollider.None? || o.mesh.None? ==> r == MaxFloat
    ensures IsLength(length) ==> r >= 0.0
  {
    match (vehicleCollider, o.mesh)
    case (Some(vehicle), Some(mesh)) =>
      var onVehicle := vehicle(o.position);
      length(Sub(onVehicle, mesh(onVehicle)))
    case _ => MaxFloat
  }

  /** A boundary distance at or below zero counts as contact. */
  predicate Collides(d: real) {
    d <= 0.0
  }

  /** The collision counter and its latch. */
  datatype LatchState = LatchState(collisionCount: int, inCollision: bool)

  const InitialLatch: LatchState := LatchState(0, false)

  /** The latch step: contact sets the latch and, when it was clear, counts
      one collision; no contact clears it. */
  function Latch(s: LatchState, boundaryDistance: real): (r: LatchState)
    ensures r.inCollision <==> Collides(boundaryDistance)
    ensures s.collisionCount <= r.collisionCount <= s.collisionCount + 1
    ensures r.collisionCount == s.collisionCount + 1 <==> Collides(boundaryDistance) && !s.inCollision
  {
    if boundaryDistance <= 0.0 then
      if !s.inCollision then LatchState(s.collisionCount + 1, true) else s
    else s.(inCollision := false)
  }

  /** The latch over a run of boundary distances, one per frame. */
  function LatchRun(s: LatchState, ds: seq<real>): (r: LatchState)
    ensures r.collisionCount >= s.collisionCount
    decreases |ds|
  {
    if ds == [] then s else Latch(LatchRun(s, ds[..|ds| - 1]), ds[|ds| - 1])
  }

  /** Frame i of a run starts a contact: it collides and the frame before it
      (or, for the first, the latch before the run) did not. */
  predicate RisingEdge(ds: seq<real>, wasIn: bool, i: int)
    requires 0 <= i < |ds|
  {
    Collides(ds[i]) && if i == 0 then !wasIn else !Collides(ds[i - 1])
  }

  function RisingEdges(ds: seq<real>, wasIn: bool): set<int> {
    set i | 0 <= i < |ds| && RisingEdge(ds, wasIn, i)
  }

  /** Over any run the counter grows by exactly the number of contacts begun
      in it, and the latch ends up reflecting the last frame. */
  lemma {:induction false} LatchRunCountsRisingEdges(s: LatchState, ds: seq<real>)
    ensures LatchRun(s, ds).collisionCount == s.collisionCount + |RisingEdges(ds, s.inCollision)|
    ensures LatchRun(s, ds).inCollision == if ds == [] then s.inCollision else Collides(ds[|ds| - 1])
    decreases |ds|
  {
    if ds == [] {
      assert RisingEdges(ds, s.inCollision) == {};
    } else {
      var n := |ds| - 1;
      var init := ds[..n];
      var w := s.inCollision;
      LatchRunCountsRisingEdges(s, init);
      assert forall i :: 0 <= i < n ==> (RisingEdge(ds, w, i) <==> RisingEdge(init, w, i));
      if RisingEdge(ds, w, n) {
        assert RisingEdges(ds, w) == RisingEdges(init, w) + {n};
      } else {
        assert RisingEdges(ds, w) == RisingEdges(init, w);
      }
    }
  }

  /** Sustained contact counts once: over a run in which every frame
      collides, the counter grows by one if the latch was clear before, and
      not at all if it was already set. */
  lemma SustainedContactCountsOnce(s: LatchState, ds: seq<real>)
    requires ds != [] && forall i :: 0 <= i < |ds| ==> Collides(ds[i])
    ensures LatchRun(s, ds).collisionCount == s.collisionCount + (if s.inCollision then 0 else 1)
    ensures LatchRun(s, ds).inCollision
  {
    LatchRunCountsRisingEdges(s, ds);
    if s.inCollision {
      assert RisingEdges(ds, s.inCollision) == {};
    } else {
      assert RisingEdges(ds, s.inCollision) == {0};
    }
  }

  /** The vehicle's bounding-box fields: width 2 and height 1 by default. */
  const DefaultVehicleWidth: real := 2.0
  const DefaultVehicleHeight: real := 1.0

  /** q lies within the vehicle's box in the XZ plane. */
  predicate InBox(center: Vec3, width: real, height: real, q: Vec3) {
    && center.x - width / 2.0 <= q.x <= center.x + width / 2.0
    && center.z - height / 2.0 <= q.z <= center.z + height / 2.0
  }

  /** `GetClosestPointOnBoundingBox`: x and z clamped to the box around the
      vehicle, y kept from the obstacle. */
  function BoxClosestPoint(center: Vec3, obstacle: Vec3, width: real, height: real): (r: Vec3)
    ensures r.y == obstacle.y
    ensures width >= 0.0 && height >= 0.0 ==> InBox(center, width, height, r)
    ensures InBox(center, width, height, obstacle) ==> r == obstacle
  {
    Vec3(Clamp(obstacle.x, center.x - width / 2.0, center.x + width / 2.0),
         obstacle.y,
         Clamp(obstacle.z, center.z - height / 2.0, center.z + height / 2.0))
  }

  /** Clamping twice is clamping once. */
  lemma BoxClosestPointIdempotent(center: Vec3, obstacle: Vec3, width: real, height: real)
    requires width >= 0.0 && height >= 0.0
    ensures var r := BoxClosestPoint(center, obstacle, width, height);
      BoxClosestPoint(center, r, width, height) == r
  {
  }

  /** No point of the box at the obstacle's height is nearer the obstacle
      than the clamped point. */
  lemma BoxClosestPointIsNearest(center: Vec3, obstacle: Vec3, width: real, height: real, q: Vec3)
    requires width >= 0.0 && height >= 0.0
    requires InBox(center, width, height, q) && q.y == obstacle.y
    ensures SqrMagnitude(Sub(obstacle, BoxClosestPoint(center, obstacle, width, height)))
         <= SqrMagnitude(Sub(obstacle, q))
  {
    var r := BoxClosestPoint(center, obstacle, width, height);
    ClampIsNearest(obstacle.x, center.x - width / 2.0, center.x + width / 2.0, q.x);
    ClampIsNearest(obstacle.z, center.z - height / 2.0, center.z + height / 2.0, q.z);
    assert obstacle.y - r.y == 0.0 && obstacle.y - q.y == 0.0;
  }

  /** One coordinate: the clamp of x is the point of [lo, hi] nearest x. */
  lemma ClampIsNearest(x: real, lo: real, hi: real, y: real)
    requires lo <= y <= hi
    ensures (x - Clamp(x, lo, hi)) * (x - Clamp(x, lo, hi)) <= (x - y) * (x - y)
  {
    var c := Clamp(x, lo, hi);
    if x < lo {
      SquareMonotone(c - x, y - x);
      Negate(x - c);
      Negate(x - y);
    } else if x > hi {
      SquareMonotone(x - c, x - y);
    } else {
      assert x - c == 0.0;
      SquareNonNegative(x - y);
    }
  }

  lemma Negate(a: real)
    ensures a * a == (-a) * (-a)
  {
  }

  lemma SquareMonotone(a: real, b: real)
    requires 0.0 <= a <= b
    ensures a * a <= b * b
  {
    assert a * a <= a * b;
    assert a * b <= b * b;
  }

  /** The collision statistics' state: the trajectory tracker, the latch, and
      the last nearest obstacle, boundary distance and yaw rate. */
  datatype CollisionTracker = CollisionTracker(
    tracker: Tracker, latch: LatchState, nearest: Option<nat>, boundaryDistance: real, yawRate: real)

  /** One CSV row: the trajectory row plus the collision columns. The
      obstacle columns are absent when there is no nearest obstacle. */
  datatype CollisionRow = CollisionRow(
    track: TrackRow, collisionCount: int, yawRate: real, obstacle: Option<nat>,
    boundaryDistance: real, obstaclePosition: Option<Vec3>)

  /** `Start`: as for TrajectoryProcessor, with a clear latch, no nearest
      obstacle and zero boundary distance and yaw rate. */
  function CollisionStart(vehicle: Option<Vehicle>): (r: (CollisionTracker, bool))
    ensures r.1 <==> vehicle.Some?
    ensures r.0.latch == InitialLatch && r.0.nearest.None?
    ensures vehicle.Some? ==> r.0.tracker.previousPosition == vehicle.value.position && r.0.tracker.previousSpeed == 0.0
  {
    var (t, writer) := TrackerStart(vehicle);
    (CollisionTracker(t, InitialLatch, None, 0.0, 0.0), writer)
  }

  /** What a frame has computed before its bookkeeping: the vehicle's pose,
      its trajectory errors and heading error, and the nearest obstacle. */
  datatype Measured = Measured(vehicle: Vehicle, errors: TrackErrors, headingError: real, nearest: Option<nat>)

  /** The bookkeeping of a frame in which the guard passed, as the code
      evidently intends: the yaw rate and nearest obstacle are recorded; with
      a nearest obstacle its boundary distance (float.MaxValue for a missing
      collider) goes through the latch; a row is written whenever the writer
      exists; and the current pose becomes the previous one. */
  function Frame(length: LengthFn, s: CollisionTracker, m: Measured, obstacles: seq<Obstacle>,
                 vehicleCollider: Option<ClosestPointFn>, hasWriter: bool, time: real, deltaTime: real)
    : (r: (CollisionTracker, Option<CollisionRow>))
    requires deltaTime > 0.0
    requires m.nearest.Some? ==> m.nearest.value < |obstacles|
    ensures r.0.tracker.previousPosition == m.vehicle.position && r.0.tracker.previousHeading == m.vehicle.heading
    ensures r.0.tracker.previousSpeed * deltaTime == length(Sub(m.vehicle.position, s.tracker.previousPosition))
    ensures r.0.yawRate * deltaTime == m.vehicle.heading - s.tracker.previousHeading
    ensures r.0.nearest == m.nearest
    ensures r.1.Some? <==> hasWriter
    ensures m.nearest.None? ==> r.0.latch == s.latch && r.0.boundaryDistance == s.boundaryDistance
    ensures m.nearest.Some? ==>
      r.0.latch == Latch(s.latch, BoundaryDistance(length, vehicleCollider, obstacles[m.nearest.value]))
    ensures m.nearest.Some? && (vehicleCollider.None? || obstacles[m.nearest.value].mesh.None?) ==>
      r.0.boundaryDistance == MaxFloat && !r.0.latch.inCollision && r.0.latch.collisionCount == s.latch.collisionCount
    ensures r.1.Some? ==> r.1.value.collisionCount == r.0.latch.collisionCount && r.1.value.obstacle == m.nearest
  {
    var v := m.vehicle;
    var speed := CalculateSpeed(length, v.position, s.tracker.previousPosition, deltaTime);
    var yaw := (v.heading - s.tracker.previousHeading) / deltaTime;
    var s1 := s.(yawRate := yaw, nearest := m.nearest);
    var s2 :=
      match m.nearest
      case None => s1
      case Some(j) =>
        var bd := BoundaryDistance(length, vehicleCollider, obstacles[j]);
        s1.(boundaryDistance := bd, latch := Latch(s1.latch, bd));
    var row :=
      if hasWriter then
        Some(CollisionRow(TrackRow(time, v.position, v.heading, speed, m.errors, m.headingError),
                          s2.latch.collisionCount, yaw, m.nearest, s2.boundaryDistance,
                          if m.nearest.Some? then Some(obstacles[m.nearest.value].position) else None))
      else None;
    (s2.(tracker := Tracker(v.position, v.heading, speed)), row)
  }

  /** The same bookkeeping as the code is written. A missing collider makes
      the `ClosestPoint` calls after the boundary distance dereference null,
      and no nearest obstacle makes the row's `nearestObstacle.name` do so;
      either exception ends the frame, leaving the latch and the previous
      pose as they were. */
  function FrameAsWritten(length: LengthFn, s: CollisionTracker, m: Measured, obstacles: seq<Obstacle>,
                          vehicleCollider: Option<ClosestPointFn>, hasWriter: bool, time: real, deltaTime: real)
    : (r: (CollisionTracker, Option<CollisionRow>))
    requires deltaTime > 0.0
    requires m.nearest.Some? ==> m.nearest.value < |obstacles|
    ensures m.nearest.None? && hasWriter ==> r.0.tracker == s.tracker && r.1.None?
    ensures m.nearest.Some? && (vehicleCollider.None? || obstacles[m.nearest.value].mesh.None?) ==>
      && r.0.boundaryDistance == MaxFloat && r.0.latch == s.latch
      && r.0.tracker == s.tracker && r.1.None?
    ensures r.0.nearest == m.nearest
    ensures r.0.yawRate * deltaTime == m.vehicle.heading - s.tracker.previousHeading
  {
    var v := m.vehicle;
    var yaw := (v.heading - s.tracker.previousHeading) / deltaTime;
    var s1 := s.(yawRate := yaw, nearest := m.nearest);
    match m.nearest
    case None =>
      if hasWriter then (s1, None)
      else Frame(length, s, m, obstacles, vehicleCollider, hasWriter, time, deltaTime)
    case Some(j) =>
      if vehicleCollider.None? || obstacles[j].mesh.None? then
        (s1.(boundaryDistance := MaxFloat), None)
      else Frame(length, s, m, obstacles, vehicleCollider, hasWriter, time, deltaTime)
  }

  /** Outside the two aborting cases the code as written is the intended frame. */
  lemma AsWrittenAgreesOtherwise(length: LengthFn, s: CollisionTracker, m: Measured, obstacles: seq<Obstacle>,
                                 vehicleCollider: Option<ClosestPointFn>, hasWriter: bool, time: real, deltaTime: real)
    requires deltaTime > 0.0
    requires m.nearest.Some? ==> m.nearest.value < |obstacles|
    requires m.nearest.None? ==> !hasWriter
    requires m.nearest.Some? ==> vehicleCollider.Some? && obstacles[m.nearest.value].mesh.Some?
    ensures FrameAsWritten(length, s, m, obstacles, vehicleCollider, hasWriter, time, deltaTime)
         == Frame(length, s, m, obstacles, vehicleCollider, hasWriter, time, deltaTime)
  {
  }

  /** With no obstacle near enough and the CSV writer open, the code as
      written never moves its previous position on: a vehicle that has left
      the origin is still remembered there, so the next speed spans every
      frame since, and no row is ever written. */
  lemma NoObstacleFreezesTracker(length: LengthFn, s: CollisionTracker, v: Vehicle, e: TrackErrors)
    requires s.tracker.previousPosition == Zero && v.position == Vec3(1.0, 0.0, 0.0)
    ensures var m := Measured(v, e, 0.0, None);
      && FrameAsWritten(length, s, m, [], None, true, 0.0, 1.0).0.tracker.previousPosition == Zero
      && FrameAsWritten(length, s, m, [], None, true, 0.0, 1.0).1.None?
      && Frame(length, s, m, [], None, true, 0.0, 1.0).0.tracker.previousPosition == v.position
      && Frame(length, s, m, [], None, true, 0.0, 1.0).1.Some?
  {
  }

  /** A contact with obstacle A, a frame whose nearest obstacle B has no mesh
      collider, then a second contact with A: the code as written never
      clears the latch on the middle frame and counts one collision; the
      intended frame counts two. A sits at the origin and B ten units along
      x; the vehicle is at A, then at B, then back at A, and each frame's
      nearest index is the one `FindNearestObstacle` picks for that position
      (`FirstMinimum` of the distances it compares). `shapeAtA` and
      `shapeAtB` are the vehicle collider's `ClosestPoint` at the two poses. */
  lemma MissedSecondContact(length: LengthFn, s: CollisionTracker, heading: real, e: TrackErrors,
                            shapeAtA: ClosestPointFn, shapeAtB: ClosestPointFn)
    requires length(Zero) == 0.0
    requires length(Vec3(10.0, 0.0, 0.0)) == 10.0 && length(Vec3(-10.0, 0.0, 0.0)) == 10.0
    requires s.latch == InitialLatch
    ensures var atA, atB, obstacles := Zero, Vec3(10.0, 0.0, 0.0), WitnessObstacles();
      && FirstMinimum(ObstacleDistances(length, atA, obstacles), 2, 0)
      && FirstMinimum(ObstacleDistances(length, atB, obstacles), 2, 1)
    ensures var onA, onB := OnObstacle(heading, e, 0), OnObstacle(heading, e, 1);
      var w1 := FrameAsWritten(length, s, onA, WitnessObstacles(), Some(shapeAtA), false, 0.0, 1.0).0;
      var w2 := FrameAsWritten(length, w1, onB, WitnessObstacles(), Some(shapeAtB), false, 0.0, 1.0).0;
      var w3 := FrameAsWritten(length, w2, onA, WitnessObstacles(), Some(shapeAtA), false, 0.0, 1.0).0;
      w3.latch.collisionCount == 1
    ensures var onA, onB := OnObstacle(heading, e, 0), OnObstacle(heading, e, 1);
      var f1 := Frame(length, s, onA, WitnessObstacles(), Some(shapeAtA), false, 0.0, 1.0).0;
      var f2 := Frame(length, f1, onB, WitnessObstacles(), Some(shapeAtB), false, 0.0, 1.0).0;
      var f3 := Frame(length, f2, onA, WitnessObstacles(), Some(shapeAtA), false, 0.0, 1.0).0;
      f3.latch.collisionCount == 2
  {
    var obstacles := WitnessObstacles();
    WitnessNearest(length, obstacles);
    var onA, onB := OnObstacle(heading, e, 0), OnObstacle(heading, e, 1);
    var w1 := FrameAsWritten(length, s, onA, obstacles, Some(shapeAtA), false, 0.0, 1.0).0;
    ContactFrame(length, s, onA, obstacles, shapeAtA);
    var w2 := FrameAsWritten(length, w1, onB, obstacles, Some(shapeAtB), false, 0.0, 1.0).0;
    MeshlessFrame(length, w1, onB, obstacles, shapeAtB);
    ContactFrame(length, w2, onA, obstacles, shapeAtA);
    var f1 := Frame(length, s, onA, obstacles, Some(shapeAtA), false, 0.0, 1.0).0;
    var f2 := Frame(length, f1, onB, obstacles, Some(shapeAtB), false, 0.0, 1.0).0;
    MeshlessFrame(length, f1, onB, obstacles, shapeAtB);
    ContactFrame(length, f2, onA, obstacles, shapeAtA);
  }

  /** The measurement of a frame in which the vehicle stands on obstacle
      `i` of WitnessObstacles, which is then the nearest one. */
  function OnObstacle(heading: real, e: TrackErrors, i: nat): (r: Measured)
    requires i < 2
    ensures r.vehicle.position == WitnessObstacles()[i].position && r.nearest == Some(i)
  {
    Measured(Vehicle(WitnessObstacles()[i].position, heading), e, 0.0, Some(i))
  }

  /** The obstacles of MissedSecondContact: A at the origin, whose mesh
      collider touches any point (its closest point is the point itself),
      and B ten units along x, without a mesh collider. */
  function WitnessObstacles(): (r: seq<Obstacle>)
    ensures |r| == 2 && r[0].position == Zero && r[1].position == Vec3(10.0, 0.0, 0.0)
    ensures r[0].mesh.Some? && r[1].mesh.None?
  {
    [Obstacle(Zero, Some(TouchingMesh)), Obstacle(Vec3(10.0, 0.0, 0.0), None)]
  }

  /** A mesh collider whose closest point to any point is that point. */
  function TouchingMesh(q: Vec3): Vec3 { q }

  /** A frame whose nearest obstacle has the identity as its mesh: the
      boundary distance is 0, so both frames step the latch on contact. */
  lemma ContactFrame(length: LengthFn, s: CollisionTracker, m: Measured, obstacles: seq<Obstacle>, shape: ClosestPointFn)
    requires length(Zero) == 0.0
    requires m.nearest == Some(0) && |obstacles| > 0 && obstacles[0].mesh == Some(TouchingMesh)
    ensures FrameAsWritten(length, s, m, obstacles, Some(shape), false, 0.0, 1.0).0.latch == Latch(s.latch, 0.0)
    ensures Frame(length, s, m, obstacles, Some(shape), false, 0.0, 1.0).0.latch == Latch(s.latch, 0.0)
  {
    var onVehicle := shape(obstacles[0].position);
    assert Sub(onVehicle, obstacles[0].mesh.value(onVehicle)) == Zero;
    assert BoundaryDistance(length, Some(shape), obstacles[0]) == 0.0;
    AsWrittenAgreesOtherwise(length, s, m, obstacles, Some(shape), false, 0.0, 1.0);
  }

  /** A frame whose nearest obstacle has no mesh collider: as written the
      latch is left as it was; as intended it is cleared without counting. */
  lemma MeshlessFrame(length: LengthFn, s: CollisionTracker, m: Measured, obstacles: seq<Obstacle>, shape: ClosestPointFn)
    requires m.nearest == Some(1) && |obstacles| > 1 && obstacles[1].mesh.None?
    ensures FrameAsWritten(length, s, m, obstacles, Some(shape), false, 0.0, 1.0).0.latch == s.latch
    ensures var r := Frame(length, s, m, obstacles, Some(shape), false, 0.0, 1.0).0.latch;
      !r.inCollision && r.collisionCount == s.latch.collisionCount
  {
  }

  /** In the witness of MissedSecondContact, the search picks A at A's
      position and B at B's. */
  lemma WitnessNearest(length: LengthFn, obstacles: seq<Obstacle>)
    requires length(Zero) == 0.0
    requires length(Vec3(10.0, 0.0, 0.0)) == 10.0 && length(Vec3(-10.0, 0.0, 0.0)) == 10.0
    requires |obstacles| == 2 && obstacles[0].position == Zero && obstacles[1].position == Vec3(10.0, 0.0, 0.0)
    ensures FirstMinimum(ObstacleDistances(length, Zero, obstacles), 2, 0)
    ensures FirstMinimum(ObstacleDistances(length, Vec3(10.0, 0.0, 0.0), obstacles), 2, 1)
  {
    var atA, atB := Zero, Vec3(10.0, 0.0, 0.0);
    assert Sub(atA, atA) == Zero && Sub(atB, atB) == Zero;
    assert Sub(atA, atB) == Vec3(-10.0, 0.0, 0.0) && Sub(atB, atA) == atB;
    var d := ObstacleDistances(length, atA, obstacles);
    assert d[0] == Some(0.0) && d[1] == Some(10.0);
    var d' := ObstacleDistances(length, atB, obstacles);
    assert d'[0] == Some(10.0) && d'[1] == Some(0.0);
  }

  /** `Update`: without a tracked object, a trajectory manager or at least two
      recorded points nothing happens; otherwise the errors, the heading
      error and the nearest obstacle are measured and the frame's
      bookkeeping is done as `Frame` intends. */
  method CollisionUpdate(length: LengthFn, headingErrorOf: HeadingErrorFn, s: CollisionTracker,
                         vehicle: Option<Vehicle>, points: Option<seq<Vec3>>, obstacles: seq<Obstacle>,
                         vehicleCollider: Option<ClosestPointFn>, hasWriter: bool, time: real, deltaTime: real)
    returns (r: CollisionTracker, row: Option<CollisionRow>)
    requires deltaTime > 0.0
    ensures vehicle.None? || points.None? || |points.value| <= 1 ==> r == s && row.None?
    ensures vehicle.Some? && points.Some? && |points.value| > 1 ==>
      && r.tracker.previousPosition == vehicle.value.position
      && (row.Some? <==> hasWriter)
      && (r.nearest.None? <==>
            forall i :: 0 <= i < |obstacles| ==> length(Sub(vehicle.value.position, obstacles[i].position)) >= MaxFloat)
      && (r.nearest.Some? ==>
            && r.nearest.value < |obstacles|
            && (forall i :: 0 <= i < |obstacles| ==>
                  length(Sub(vehicle.value.position, obstacles[r.nearest.value].position))
                  <= length(Sub(vehicle.value.position, obstacles[i].position)))
            && r.latch == Latch(s.latch, BoundaryDistance(length, vehicleCollider, obstacles[r.nearest.value])))
      && (r.nearest.None? ==> r.latch == s.latch)
    ensures row.Some? ==>
      && vehicle.Some? && points.Some?
      && ErrorsFor(length, points.value, vehicle.value.position, row.value.track.errors)
      && row.value.collisionCount == r.latch.collisionCount
  {
    r, row := s, None;
    if vehicle.Some? && points.Some? && |points.value| > 1 {
      var v := vehicle.value;
      var e := CalculateErrors(length, v.position, points.value);
      var headingError := headingErrorOf(e.closest, e.next, v.heading);
      var nearest := FindNearestObstacle(length, v.position, obstacles);
      var m := Measured(v, e, headingError, nearest);
      var out := Frame(length, s, m, obstacles, vehicleCollider, hasWriter, time, deltaTime);
      r, row := out.0, out.1;
      assert row.Some? ==> row.value.track.errors == e;
    }
  }
}
