/** TrajectoryProcessor (Statistics.cs): each frame it measures how far the
    tracked vehicle is from the recorded trajectory. It projects the vehicle
    onto every segment of the polyline and keeps the first nearest projection,
    which gives the cross-track error, the along-track error to that segment's
    end, and the speed since the previous frame. StatisticsWithCollision
    repeats the same helpers verbatim; they are defined once here.

    A degenerate segment (squared length 0) divides 0 by 0 in the code. The
    NaN passes through `Clamp01`, and the strict `<` of the scan never selects
    it, so the model gives such a segment no projection at all (None). */
module TrackMetrics {
  import opened Prims

  /** The clamped parameter of `ProjectPointOnLineSegment`: where along
      a -> b the foot of p lies, as a fraction of the segment. */
  function ProjectionParameter(a: Vec3, b: Vec3, p: Vec3): (t: Option<real>)
    ensures t.None? <==> Degenerate(a, b)
    ensures t.Some? ==> 0.0 <= t.value <= 1.0
    ensures t.Some? && Dot(Sub(p, a), Sub(b, a)) <= 0.0 ==> t.value == 0.0
    ensures t.Some? && Dot(Sub(p, a), Sub(b, a)) >= SqrMagnitude(Sub(b, a)) ==> t.value == 1.0
    ensures t.Some? && 0.0 < Dot(Sub(p, a), Sub(b, a)) < SqrMagnitude(Sub(b, a)) ==>
      t.value * SqrMagnitude(Sub(b, a)) == Dot(Sub(p, a), Sub(b, a))
  {
    var d := Sub(b, a);
    var q := SqrMagnitude(d);
    if q == 0.0 then None
    else
      var w := Dot(Sub(p, a), d);
      DivideByPositive(w, q);
      Some(Clamp01(w / q))
  }

  lemma DivideByPositive(w: real, q: real)
    requires q > 0.0
    ensures w <= 0.0 ==> w / q <= 0.0
    ensures w >= q ==> w / q >= 1.0
    ensures (w / q) * q == w
  {
  }

  /** The segment the code cannot project onto: its squared length is 0, as
      it is for a == b (and, in floats, for a segment short enough to
      underflow). */
  predicate Degenerate(a: Vec3, b: Vec3) {
    SqrMagnitude(Sub(b, a)) == 0.0
  }

  lemma EqualPointsDegenerate(a: Vec3)
    ensures Degenerate(a, a)
  {
  }

  /** `ProjectPointOnLineSegment`: a + t * (b - a). */
  function Project(a: Vec3, b: Vec3, p: Vec3): (r: Option<Vec3>)
    ensures r.None? <==> Degenerate(a, b)
    ensures r.Some? ==> OnSegment(a, b, r.value)
  {
    match ProjectionParameter(a, b, p)
    case None => None
    case Some(t) =>
      var q := Add(a, Scale(t, Sub(b, a)));
      assert OnSegment(a, b, q) by { assert 0.0 <= t <= 1.0 && q == Add(a, Scale(t, Sub(b, a))); }
      Some(q)
  }

  /** q lies on the closed segment from a to b. */
  ghost predicate OnSegment(a: Vec3, b: Vec3, q: Vec3) {
    exists t :: 0.0 <= t <= 1.0 && q == Add(a, Scale(t, Sub(b, a)))
  }

  /** The projection is the point of the segment nearest to p: no point
      a + s * (b - a) with s in [0, 1] is closer. */
  lemma ProjectionIsNearest(a: Vec3, b: Vec3, p: Vec3, s: real)
    requires !Degenerate(a, b) && 0.0 <= s <= 1.0
    ensures SqrMagnitude(Sub(p, Project(a, b, p).value))
         <= SqrMagnitude(Sub(p, Add(a, Scale(s, Sub(b, a)))))
  {
    var d := Sub(b, a);
    var t := ProjectionParameter(a, b, p).value;
    var q, w, c := SqrMagnitude(d), Dot(Sub(p, a), d), SqrMagnitude(Sub(p, a));
    assert Project(a, b, p).value == Add(a, Scale(t, d));
    QuadraticAt(p, a, d, t, c, w, q);
    QuadraticAt(p, a, d, s, c, w, q);
    ClampedMinimum(q, w, t, s);
  }

  /** The scalar core of `ProjectionIsNearest`: x^2 q - 2 x w over [0, 1] is
      least at the clamped vertex w / q. */
  lemma ClampedMinimum(q: real, w: real, t: real, s: real)
    requires q > 0.0 && 0.0 <= s <= 1.0 && 0.0 <= t <= 1.0
    requires w <= 0.0 ==> t == 0.0
    requires w >= q ==> t == 1.0
    requires 0.0 < w < q ==> t * q == w
    ensures t * t * q - 2.0 * t * w <= s * s * q - 2.0 * s * w
  {
    // f(s) - f(t) = (s - t) ((s + t) q - 2 w)
    var diff := (s * s - t * t) * q - 2.0 * (s - t) * w;
    assert diff == (s - t) * ((s + t) * q - 2.0 * w);
    if w <= 0.0 {
      assert diff == s * (s * q - 2.0 * w);
      ProductNonNegative(s, s * q - 2.0 * w);
    } else if w >= q {
      assert diff == (1.0 - s) * (2.0 * w - (s + 1.0) * q);
      ProductNonNegative(1.0 - s, q);
      ProductNonNegative(1.0 - s, 2.0 * w - (s + 1.0) * q);
    } else {
      var u := s - t;
      assert (s + t) * q - 2.0 * w == u * q;
      assert diff == u * (u * q);
      assert u * (u * q) == (u * u) * q;
      SquareNonNegative(u);
      ProductNonNegative(u * u, q);
    }
  }

  /** The squared distance from p to a + x * d as a quadratic in x. */
  lemma Quadratic(p: Vec3, a: Vec3, d: Vec3, x: real)
    ensures SqrMagnitude(Sub(p, Add(a, Scale(x, d))))
         == SqrMagnitude(Sub(p, a)) - 2.0 * x * Dot(Sub(p, a), d) + x * x * SqrMagnitude(d)
  {
    var w, v := Sub(p, a), Scale(x, d);
    assert Sub(p, Add(a, v)) == Sub(w, v);
    SquareOfVectorDifference(w, v);
    DotScale(w, x, d);
    SqrMagnitudeScale(x, d);
  }

  lemma SquareOfVectorDifference(w: Vec3, v: Vec3)
    ensures SqrMagnitude(Sub(w, v)) == SqrMagnitude(w) - 2.0 * Dot(w, v) + SqrMagnitude(v)
  {
    SquareOfDifference(w.x, v.x);
    SquareOfDifference(w.y, v.y);
    SquareOfDifference(w.z, v.z);
  }

  lemma DotScale(w: Vec3, x: real, d: Vec3)
    ensures Dot(w, Scale(x, d)) == x * Dot(w, d)
  {
    assert w.x * (x * d.x) == x * (w.x * d.x);
    assert w.y * (x * d.y) == x * (w.y * d.y);
    assert w.z * (x * d.z) == x * (w.z * d.z);
    Distribute3(x, w.x * d.x, w.y * d.y, w.z * d.z);
  }

  lemma SqrMagnitudeScale(x: real, d: Vec3)
    ensures SqrMagnitude(Scale(x, d)) == x * x * SqrMagnitude(d)
  {
    assert (x * d.x) * (x * d.x) == (x * x) * (d.x * d.x);
    assert (x * d.y) * (x * d.y) == (x * x) * (d.y * d.y);
    assert (x * d.z) * (x * d.z) == (x * x) * (d.z * d.z);
    Distribute3(x * x, d.x * d.x, d.y * d.y, d.z * d.z);
  }

  lemma Distribute3(k: real, u: real, v: real, w: real)
    ensures k * u + k * v + k * w == k * (u + v + w)
  {
  }

  lemma QuadraticAt(p: Vec3, a: Vec3, d: Vec3, x: real, c: real, w: real, q: real)
    requires c == SqrMagnitude(Sub(p, a)) && w == Dot(Sub(p, a), d) && q == SqrMagnitude(d)
    ensures SqrMagnitude(Sub(p, Add(a, Scale(x, d)))) == c - 2.0 * x * w + x * x * q
  {
    Quadratic(p, a, d, x);
  }

  lemma SquareOfDifference(w: real, v: real)
    ensures (w - v) * (w - v) == w * w - 2.0 * (w * v) + v * v
  {
  }

  lemma ProductNonNegative(x: real, y: real)
    requires x >= 0.0 && y >= 0.0
    ensures x * y >= 0.0
  {
  }

  /** A scan with a strict `<` from float.MaxValue settles on entry j of the
      first n: a defined value below MaxValue, no defined entry smaller, and
      every earlier defined entry strictly larger (so ties go to the first).
      Undefined entries stand for NaN distances, which never compare less. */
  ghost predicate FirstMinimum(ds: seq<Option<real>>, n: int, j: int)
    requires 0 <= n <= |ds|
  {
    && 0 <= j < n && ds[j].Some? && ds[j].value < MaxFloat
    && (forall i :: 0 <= i < n && ds[i].Some? ==> ds[j].value <= ds[i].value)
    && (forall i :: 0 <= i < j && ds[i].Some? ==> ds[j].value < ds[i].value)
  }

  /** No defined entry among the first n lies below float.MaxValue. */
  ghost predicate NoneBelowMax(ds: seq<Option<real>>, n: int)
    requires 0 <= n <= |ds|
  {
    forall i :: 0 <= i < n && ds[i].Some? ==> ds[i].value >= MaxFloat
  }

  /** The scan's choice is unique. */
  lemma FirstMinimumUnique(ds: seq<Option<real>>, j1: int, j2: int)
    requires FirstMinimum(ds, |ds|, j1) && FirstMinimum(ds, |ds|, j2)
    ensures j1 == j2
  {
  }

  /** The loop shared by `CalculateErrors` and `FindNearestObstacle`: keep
      the first entry strictly below the best so far, starting from
      float.MaxValue. None when nothing ever beat the start value. */
  method ScanMinimum(ds: seq<Option<real>>) returns (best: Option<nat>)
    ensures best.None? <==> NoneBelowMax(ds, |ds|)
    ensures best.Some? ==> FirstMinimum(ds, |ds|, best.value)
  {
    var minDistance := MaxFloat;
    best := None;
    var i := 0;
    while i < |ds|
      invariant 0 <= i <= |ds|
      invariant best.None? ==> minDistance == MaxFloat && NoneBelowMax(ds, i)
      invariant best.Some? ==> FirstMinimum(ds, i, best.value) && minDistance == ds[best.value].value
    {
      if ds[i].Some? && ds[i].value < minDistance {
        minDistance := ds[i].value;
        best := Some(i);
      }
      i := i + 1;
    }
  }

  /** The distance from p to each segment's projection, in segment order
      (`Vector3.Distance(currentPosition, projectedPoint)`). */
  function SegmentDistances(length: LengthFn, pts: seq<Vec3>, p: Vec3): (ds: seq<Option<real>>)
    ensures |pts| >= 1 ==> |ds| == |pts| - 1
    ensures |pts| == 0 ==> ds == []
    ensures forall i :: 0 <= i < |ds| ==> ds[i] == SegmentDistance(length, pts, p, i)
  {
    if |pts| <= 1 then [] else seq(|pts| - 1, i requires 0 <= i < |pts| - 1 => SegmentDistance(length, pts, p, i))
  }

  /** Segment i's distance: None for a degenerate segment. */
  function SegmentDistance(length: LengthFn, pts: seq<Vec3>, p: Vec3, i: int): (d: Option<real>)
    requires 0 <= i < |pts| - 1
    ensures d.None? <==> Degenerate(pts[i], pts[i + 1])
  {
    match Project(pts[i], pts[i + 1], p)
    case None => None
    case Some(q) => Some(length(Sub(p, q)))
  }

  /** The four values `CalculateErrors` returns: cross-track error, along-track
      error, the projected point and the end of its segment. */
  datatype TrackErrors = TrackErrors(cte: real, ate: real, closest: Vec3, next: Vec3)

  /** What `CalculateErrors` returns when no segment is selected. */
  const NoErrors: TrackErrors := TrackErrors(MaxFloat, 0.0, Zero, Zero)

  /** The errors taken from segment j. */
  function ErrorsAt(length: LengthFn, pts: seq<Vec3>, p: Vec3, j: int): TrackErrors
    requires 0 <= j < |pts| - 1 && !Degenerate(pts[j], pts[j + 1])
  {
    var q := Project(pts[j], pts[j + 1], p).value;
    TrackErrors(length(Sub(p, q)), length(Sub(pts[j + 1], q)), q, pts[j + 1])
  }

  /** The specification of `CalculateErrors`: either the first nearest
      segment's errors, or the defaults when no segment has a distance below
      float.MaxValue. */
  ghost predicate ErrorsFor(length: LengthFn, pts: seq<Vec3>, p: Vec3, e: TrackErrors) {
    var ds := SegmentDistances(length, pts, p);
    || (e == NoErrors && NoneBelowMax(ds, |ds|))
    || (exists j :: 0 <= j < |ds| && FirstMinimum(ds, |ds|, j) && e == ErrorsAt(length, pts, p, j))
  }

  /** `CalculateErrors`: the cross-track error is the smallest distance to
      any segment, attained by the first segment that attains it, and the
      along-track values come from that segment's end. */
  method CalculateErrors(length: LengthFn, p: Vec3, pts: seq<Vec3>) returns (e: TrackErrors)
    ensures ErrorsFor(length, pts, p, e)
    ensures e.cte <= MaxFloat
    ensures var ds := SegmentDistances(length, pts, p);
      forall i :: 0 <= i < |ds| && ds[i].Some? ==> e.cte <= ds[i].value
    ensures |pts| <= 1 ==> e == NoErrors
  {
    var ds := SegmentDistances(length, pts, p);
    var best := ScanMinimum(ds);
    match best
    case None =>
      e := NoErrors;
    case Some(j) =>
      e := ErrorsAt(length, pts, p, j);
  }

  /** Both errors are lengths, so never negative; and unless no segment was
      selected, the projected point lies on some segment of the trajectory
      and the along-track point is that segment's end. */
  lemma ErrorsAreDistances(length: LengthFn, pts: seq<Vec3>, p: Vec3, e: TrackErrors)
    requires IsLength(length) && ErrorsFor(length, pts, p, e)
    ensures e.cte >= 0.0 && e.ate >= 0.0
    ensures e != NoErrors ==> exists j :: 0 <= j < |pts| - 1 && e.next == pts[j + 1] && OnSegment(pts[j], pts[j + 1], e.closest)
  {
  }

  /** `CalculateSpeed`: the distance covered since the previous frame over
      the frame time. Unity's frame time is positive. */
  function CalculateSpeed(length: LengthFn, current: Vec3, previous: Vec3, deltaTime: real): (r: real)
    requires deltaTime > 0.0
    ensures r * deltaTime == length(Sub(current, previous))
    ensures IsLength(length) ==> r >= 0.0
  {
    length(Sub(current, previous)) / deltaTime
  }

  /** The tracked object's position and `eulerAngles.y` this frame. */
  datatype Vehicle = Vehicle(position: Vec3, heading: real)

  /** `CalculateHeadingError(segmentStart, segmentEnd, heading)`: Atan2 and
      `Mathf.DeltaAngle`, left uninterpreted. */
  type HeadingErrorFn = (Vec3, Vec3, real) -> real

  /** The processor's memory of the previous frame. */
  datatype Tracker = Tracker(previousPosition: Vec3, previousHeading: real, previousSpeed: real)

  /** One CSV row of Statistics.cs. */
  datatype TrackRow = TrackRow(time: real, position: Vec3, heading: real, speed: real,
                               errors: TrackErrors, headingError: real)

  /** `Start`: with a tracked object, remember its pose with speed 0 and open
      the CSV writer; without one, nothing is set and no writer exists. */
  function TrackerStart(vehicle: Option<Vehicle>): (r: (Tracker, bool))
    ensures r.1 <==> vehicle.Some?
    ensures vehicle.Some? ==> r.0 == Tracker(vehicle.value.position, vehicle.value.heading, 0.0)
    ensures vehicle.None? ==> r.0 == Tracker(Zero, 0.0, 0.0)
  {
    match vehicle
    case None => (Tracker(Zero, 0.0, 0.0), false)
    case Some(v) => (Tracker(v.position, v.heading, 0.0), true)
  }

  /** `Update`. `points` is `GetRecordedPoints()` (None when there is no
      trajectory manager). Without a tracked object, a manager, or at least
      two recorded points nothing happens. Otherwise the errors and speed are
      computed, a row is written when the writer exists, and the current
      pose and speed become the previous ones. */
  method TrackerUpdate(length: LengthFn, headingErrorOf: HeadingErrorFn, t: Tracker, vehicle: Option<Vehicle>,
                       points: Option<seq<Vec3>>, hasWriter: bool, time: real, deltaTime: real)
    returns (r: Tracker, row: Option<TrackRow>)
    requires deltaTime > 0.0
    ensures vehicle.None? || points.None? || |points.value| <= 1 ==> r == t && row.None?
    ensures vehicle.Some? && points.Some? && |points.value| > 1 ==>
      && r.previousPosition == vehicle.value.position
      && r.previousHeading == vehicle.value.heading
      && r.previousSpeed * deltaTime == length(Sub(vehicle.value.position, t.previousPosition))
      && (row.Some? <==> hasWriter)
    ensures row.Some? ==>
      && vehicle.Some? && points.Some?
      && ErrorsFor(length, points.value, vehicle.value.position, row.value.errors)
      && row.value.speed == r.previousSpeed
      && row.value.headingError == headingErrorOf(row.value.errors.closest, row.value.errors.next, vehicle.value.heading)
      && row.value.time == time && row.value.position == vehicle.value.position
  {
    r, row := t, None;
    if vehicle.Some? && points.Some? && |points.value| > 1 {
      var v := vehicle.value;
      var e := CalculateErrors(length, v.position, points.value);
      var headingError := headingErrorOf(e.closest, e.next, v.heading);
      var speed := CalculateSpeed(length, v.position, t.previousPosition, deltaTime);
      if hasWriter {
        row := Some(TrackRow(time, v.position, v.heading, speed, e, headingError));
      }
      r := Tracker(v.position, v.heading, speed);
    }
  }
}
