/** PointCloudPublisher.PublishPointCloud: the lidar frame is converted point
    by point from Unity's left-handed, y-up metres to the ROS frame the
    receiving side expects, scaled down by 10, and published with the given
    frame id. The QCar layout keeps x, swaps y and z; the other layout maps
    Unity z to ROS x and -x to ROS y. The parent rotation is computed but
    never applied. The timestamp comes from the wall clock and is a parameter. */
module Publisher {
  import opened Prims

  /** `geometry_msgs/Point32`. */
  datatype Point32 = Point32(x: real, y: real, z: real)

  /** The ROS time stamp (seconds and nanoseconds). */
  datatype Stamp = Stamp(sec: int, nanosec: int)

  /** `sensor_msgs/PointCloud`: header frame id and stamp, and the points. */
  datatype PointCloudMsg = PointCloudMsg(frameId: string, stamp: Stamp, points: seq<Point32>)

  /** `transform.rotation` as a quaternion. */
  datatype Quaternion = Quaternion(x: real, y: real, z: real, w: real)

  /** The conversion of one point. */
  function Remap(p: Vec3, isQcar: bool): (q: Point32)
    ensures isQcar ==> q.x * 10.0 == p.x && q.y * 10.0 == p.z && q.z * 10.0 == p.y
    ensures !isQcar ==> q.x * 10.0 == p.z && q.y * 10.0 == -p.x && q.z * 10.0 == p.y
  {
    if isQcar then Point32(p.x / 10.0, p.z / 10.0, p.y / 10.0)
    else Point32(p.z / 10.0, (p.x * -1.0) / 10.0, p.y / 10.0)
  }

  /** The inverse conversion, from the ROS point back to Unity coordinates. */
  function Unmap(q: Point32, isQcar: bool): Vec3 {
    if isQcar then Vec3(q.x * 10.0, q.z * 10.0, q.y * 10.0)
    else Vec3(q.y * -10.0, q.z * 10.0, q.x * 10.0)
  }

  /** Both conversions are invertible, so no two lidar points are merged. */
  lemma RemapRoundTrip(p: Vec3, q: Point32, isQcar: bool)
    ensures Unmap(Remap(p, isQcar), isQcar) == p
    ensures Remap(Unmap(q, isQcar), isQcar) == q
  {
  }

  lemma RemapInjective(a: Vec3, b: Vec3, isQcar: bool)
    requires Remap(a, isQcar) == Remap(b, isQcar)
    ensures a == b
  {
    RemapRoundTrip(a, Point32(0.0, 0.0, 0.0), isQcar);
    RemapRoundTrip(b, Point32(0.0, 0.0, 0.0), isQcar);
  }

  /** Both conversions are a rigid map followed by a 1/10 scale: squared
      distances between points shrink by exactly 100. */
  lemma RemapScalesDistances(a: Vec3, b: Vec3, isQcar: bool)
    ensures var qa, qb := Remap(a, isQcar), Remap(b, isQcar);
      SqrMagnitude(Sub(a, b)) == 100.0 * SqrMagnitude(Sub(Vec3(qa.x, qa.y, qa.z), Vec3(qb.x, qb.y, qb.z)))
  {
    var qa, qb := Remap(a, isQcar), Remap(b, isQcar);
    var d := Sub(a, b);
    var e := Sub(Vec3(qa.x, qa.y, qa.z), Vec3(qb.x, qb.y, qb.z));
    if isQcar {
      assert e == Vec3(d.x / 10.0, d.z / 10.0, d.y / 10.0);
    } else {
      assert e == Vec3(d.z / 10.0, -d.x / 10.0, d.y / 10.0);
    }
    ScaledSquare(d.x);
    ScaledSquare(d.y);
    ScaledSquare(d.z);
  }

  lemma ScaledSquare(x: real)
    ensures x * x == 100.0 * ((x / 10.0) * (x / 10.0))
    ensures x * x == 100.0 * ((-x / 10.0) * (-x / 10.0))
  {
    var y := x / 10.0;
    assert x == 10.0 * y;
    assert -x / 10.0 == -y;
  }

  /** The publisher's one piece of state: the last parent world position it saw. */
  datatype PublisherState = PublisherState(parentWorldPosition: Vec3)

  /** PublishPointCloud: record the parent position, then build the message
      with the given frame id, the clock's stamp and one converted point per
      lidar point, in order. */
  function PublishPointCloud(st: PublisherState, position: Vec3, rotation: Quaternion,
                             data: seq<Vec3>, frameId: string, isQcar: bool, stamp: Stamp): (r: (PublisherState, PointCloudMsg))
    ensures r.0.parentWorldPosition == position
    ensures r.1.frameId == frameId && r.1.stamp == stamp
    ensures |r.1.points| == |data|
    ensures forall i :: 0 <= i < |data| ==> Unmap(r.1.points[i], isQcar) == data[i]
  {
    var msg := PointCloudMsg(frameId, stamp, seq(|data|, i requires 0 <= i < |data| => Remap(data[i], isQcar)));
    forall i | 0 <= i < |data| ensures Unmap(msg.points[i], isQcar) == data[i] {
      RemapRoundTrip(data[i], msg.points[i], isQcar);
    }
    (PublisherState(position), msg)
  }

  /** The message depends neither on the parent's rotation nor on its position. */
  lemma PublishIgnoresPose(st: PublisherState, p1: Vec3, p2: Vec3, q1: Quaternion, q2: Quaternion,
                           data: seq<Vec3>, frameId: string, isQcar: bool, stamp: Stamp)
    ensures PublishPointCloud(st, p1, q1, data, frameId, isQcar, stamp).1
         == PublishPointCloud(st, p2, q2, data, frameId, isQcar, stamp).1
  {
  }

  /** Under the QCar layout a point one metre ahead in Unity (z = 1) becomes
      0.1 along ROS y; under the other layout it becomes 0.1 along ROS x. */
  lemma RemapExample()
    ensures Remap(Vec3(0.0, 0.0, 1.0), true) == Point32(0.0, 0.1, 0.0)
    ensures Remap(Vec3(0.0, 0.0, 1.0), false) == Point32(0.1, 0.0, 0.0)
  {
  }
}
