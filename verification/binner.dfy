/** DistanceFromLidar: every lidar return is tagged with an angular bin
    (the signed horizontal angle from the vehicle's forward axis, divided by
    the degree interval and floored), the returns are grouped by bin, and each
    group is summarised by the mean, maximum and minimum distance from the
    vehicle. `Vector3.Angle` and `math.length` are parameters. */
module Binner {
  import opened Prims
  import opened RealSeq

  /** The field initialiser of `degreeInterval`. */
  const DefaultDegreeInterval: int := 10

  /** A vector with its height dropped, as the job builds `forwardXZ` and `pointXZ`. */
  function Flatten(v: Vec3): Vec3 {
    Vec3(v.x, 0.0, v.z)
  }

  /** The y component of `math.cross(a, b)`. */
  function CrossY(a: Vec3, b: Vec3): real {
    a.z * b.x - a.x * b.z
  }

  /** The angle from the flattened forward axis to the flattened point, signed
      by the cross product: positive to the right (positive cross y), negative
      to the left, and 0 whenever the two are collinear, including a point
      straight behind. */
  function SignedAngle(angle: AngleFn, forward: Vec3, rel: Vec3): (r: real)
    ensures IsAngle(angle) ==> -180.0 <= r <= 180.0
    ensures var f, p := Flatten(forward), Flatten(rel);
      && (CrossY(f, p) > 0.0 ==> r == angle(f, p))
      && (CrossY(f, p) < 0.0 ==> r == -angle(f, p))
      && (CrossY(f, p) == 0.0 ==> r == 0.0)
  {
    var f, p := Flatten(forward), Flatten(rel);
    angle(f, p) * Sign(CrossY(f, p))
  }

  /** `Mathf.FloorToInt(angle / degreeInterval)`: the unique integer bin whose
      interval [bin * d, (bin + 1) * d) holds the angle (for d > 0). */
  function BinOf(a: real, degrees: int): (r: int)
    requires degrees != 0
    ensures r as real <= a / degrees as real < r as real + 1.0
  {
    (a / degrees as real).Floor
  }

  /** ProcessLidarDataJob.Execute: the bin of one lidar return, measured from
      the vehicle's position. */
  function GroupId(angle: AngleFn, forward: Vec3, position: Vec3, point: Vec3, degrees: int): int
    requires degrees != 0
  {
    BinOf(SignedAngle(angle, forward, Sub(point, position)), degrees)
  }

  /** One entry of the job's output queue: a bin id and the untranslated point. */
  datatype Tagged = Tagged(groupId: int, point: Vec3)

  /** The job's output, one entry per return, in index order. */
  function TagAll(angle: AngleFn, forward: Vec3, position: Vec3, data: seq<Vec3>, degrees: int): (r: seq<Tagged>)
    requires degrees != 0
    ensures |r| == |data|
    ensures forall i :: 0 <= i < |data| ==>
      r[i].point == data[i] && r[i].groupId == GroupId(angle, forward, position, data[i], degrees)
  {
    seq(|data|, i requires 0 <= i < |data| => Tagged(GroupId(angle, forward, position, data[i], degrees), data[i]))
  }

  /** The points tagged `k`, in queue order: the reference for one group. */
  function Members(t: seq<Tagged>, k: int): (r: seq<Vec3>)
    ensures |r| <= |t|
    ensures forall i :: 0 <= i < |t| && t[i].groupId == k ==> t[i].point in r
    ensures forall p :: p in r ==> exists i :: 0 <= i < |t| && t[i].groupId == k && t[i].point == p
    ensures (forall i :: 0 <= i < |t| ==> t[i].groupId != k) ==> r == []
    decreases |t|
  {
    if t == [] then []
    else
      var init := t[..|t| - 1];
      var last := t[|t| - 1];
      var rest := Members(init, k);
      assert forall i :: 0 <= i < |init| ==> init[i] == t[i];
      if last.groupId == k then rest + [last.point] else rest
  }

  /** The set of bin ids occurring in a queue. */
  ghost function Ids(t: seq<Tagged>): set<int> {
    set i | 0 <= i < |t| :: t[i].groupId
  }

  /** The dequeue loop of ProcessData: append each point to its bin's list,
      creating the list on the first point of that bin. */
  function Group(t: seq<Tagged>): (g: map<int, seq<Vec3>>)
    ensures g.Keys == Ids(t)
    ensures forall k :: k in g ==> g[k] == Members(t, k) && |g[k]| > 0
    decreases |t|
  {
    if t == [] then map[]
    else
      var init := t[..|t| - 1];
      var last := t[|t| - 1];
      IdsSnoc(t);
      AddPoint(Group(init), last.groupId, last.point)
  }

  /** Append a point to bin k's list, creating the list if k is new. */
  function AddPoint(g: map<int, seq<Vec3>>, k: int, p: Vec3): (r: map<int, seq<Vec3>>)
    ensures r.Keys == g.Keys + {k}
    ensures r[k] == (if k in g then g[k] else []) + [p]
    ensures forall j :: j in g && j != k ==> r[j] == g[j]
  {
    if k in g then g[k := g[k] + [p]] else g[k := [p]]
  }

  lemma IdsSnoc(t: seq<Tagged>)
    requires |t| > 0
    ensures Ids(t) == Ids(t[..|t| - 1]) + {t[|t| - 1].groupId}
  {
    var init := t[..|t| - 1];
    forall k | k in Ids(t) ensures k in Ids(init) + {t[|t| - 1].groupId} {
      var i :| 0 <= i < |t| && t[i].groupId == k;
      if i < |t| - 1 {
        assert init[i] == t[i];
      }
    }
    forall k | k in Ids(init) ensures k in Ids(t) {
      var i :| 0 <= i < |init| && init[i].groupId == k;
      assert t[i] == init[i];
    }
  }

  /** The total number of points held by a grouping. */
  ghost function SizeSum(g: map<int, seq<Vec3>>): nat
    decreases |g.Keys|
  {
    if g.Keys == {} then 0
    else
      var k := PickKey(g);
      assert (g - {k}).Keys == g.Keys - {k};
      |g[k]| + SizeSum(g - {k})
  }

  ghost function PickKey(g: map<int, seq<Vec3>>): (k: int)
    requires g.Keys != {}
    ensures k in g
  {
    Inhabited(g.Keys);
    var k :| k in g.Keys; k
  }

  /** SizeSum may peel off any key, not just the one it picks. */
  lemma {:induction false} SizeSumRemove(g: map<int, seq<Vec3>>, k: int)
    requires k in g
    ensures SizeSum(g) == |g[k]| + SizeSum(g - {k})
    decreases |g.Keys|
  {
    var j := PickKey(g);
    if j != k {
      var gj := g - {j};
      var gk := g - {k};
      assert |gj.Keys| < |g.Keys| by {
        assert gj.Keys == g.Keys - {j};
      }
      assert |gk.Keys| < |g.Keys| by {
        assert gk.Keys == g.Keys - {k};
      }
      SizeSumRemove(gj, k);
      SizeSumRemove(gk, j);
      assert gj - {k} == gk - {j};
    }
  }

  /** Adding one point to a grouping adds one to its total size. */
  lemma AddPointSize(g: map<int, seq<Vec3>>, k: int, p: Vec3)
    ensures SizeSum(AddPoint(g, k, p)) == SizeSum(g) + 1
  {
    var r := AddPoint(g, k, p);
    SizeSumRemove(r, k);
    if k in g {
      SizeSumRemove(g, k);
      assert r - {k} == g - {k};
    } else {
      assert r - {k} == g;
    }
  }

  /** Grouping loses and duplicates nothing: the group sizes add up to the
      number of returns. */
  lemma {:induction false} GroupPartitions(t: seq<Tagged>)
    ensures SizeSum(Group(t)) == |t|
    decreases |t|
  {
    if t == [] {
      assert Group(t).Keys == {};
    } else {
      var init := t[..|t| - 1];
      GroupPartitions(init);
      AddPointSize(Group(init), t[|t| - 1].groupId, t[|t| - 1].point);
    }
  }

  /** The per-bin summary: DistanceFromLidar.MeasurementStats. */
  datatype MeasurementStats = MeasurementStats(mean: real, max: real, min: real)

  /** The reference summary of a non-empty list of distances. */
  function StatsOf(ds: seq<real>): MeasurementStats
    requires |ds| > 0
  {
    MeasurementStats(SumOf(ds) / |ds| as real, MaxOf(ds), MinOf(ds))
  }

  /** The distance of every point of a group from the vehicle. */
  function Lengths(length: LengthFn, points: seq<Vec3>, position: Vec3): (r: seq<real>)
    ensures |r| == |points|
    ensures forall i :: 0 <= i < |points| ==> r[i] == length(Sub(points[i], position))
  {
    MapSeq((p: Vec3) => length(Sub(p, position)), points)
  }

  /** The statistics loop of ProcessData for one group: max and min start at the
      first point's distance, the total at 0, and the mean is total / count. */
  method MeasureGroup(length: LengthFn, points: seq<Vec3>, position: Vec3) returns (s: MeasurementStats)
    requires |points| > 0
    ensures s == StatsOf(Lengths(length, points, position))
  {
    ghost var ds := Lengths(length, points, position);
    var first := length(Sub(points[0], position));
    var mx, mn, total := first, first, 0.0;
    var i := 0;
    while i < |points|
      invariant 0 <= i <= |points|
      invariant total == SumOf(ds[..i])
      invariant i == 0 ==> mx == first && mn == first
      invariant i > 0 ==> mx == MaxOf(ds[..i]) && mn == MinOf(ds[..i])
    {
      var len := length(Sub(points[i], position));
      assert ds[..i + 1][..i] == ds[..i];
      total := total + len;
      mx := Max(mx, len);
      mn := Min(mn, len);
      i := i + 1;
    }
    assert ds[..i] == ds;
    s := MeasurementStats(total / |points| as real, mx, mn);
  }

  /** The minimum is a lower bound attained by some distance, the maximum an
      upper bound attained by some distance, and the mean lies between them. */
  lemma StatsBounds(ds: seq<real>)
    requires |ds| > 0
    ensures var s := StatsOf(ds);
      && s.min <= s.mean <= s.max
      && (forall i :: 0 <= i < |ds| ==> s.min <= ds[i] <= s.max)
      && (exists i :: 0 <= i < |ds| && ds[i] == s.min)
      && (exists i :: 0 <= i < |ds| && ds[i] == s.max)
  {
    MinOfIsLeast(ds);
    MaxOfIsGreatest(ds);
    SumBetweenMinAndMax(ds);
    DivideBounds(|ds| as real, MinOf(ds), SumOf(ds), MaxOf(ds));
  }

  lemma DivideBounds(n: real, lo: real, s: real, hi: real)
    requires n > 0.0 && n * lo <= s <= n * hi
    ensures lo <= s / n <= hi
  {
    var q := s / n;
    assert s == n * q;
  }

  /** The summary does not depend on the order in which the parallel job
      enqueued the points of a group. */
  lemma StatsOrderIndependent(length: LengthFn, a: seq<Vec3>, b: seq<Vec3>, position: Vec3)
    requires |a| > 0 && multiset(a) == multiset(b)
    ensures |b| > 0
    ensures StatsOf(Lengths(length, a, position)) == StatsOf(Lengths(length, b, position))
  {
    assert |b| == |multiset(b)| == |multiset(a)| == |a|;
    var f := (p: Vec3) => length(Sub(p, position));
    MapSeqPermutation(f, a, b);
    var la, lb := Lengths(length, a, position), Lengths(length, b, position);
    SumOfPermutation(la, lb);
    MinMaxPermutation(la, lb);
  }

  /** What ProcessData leaves behind for a set of returns: one entry per bin
      that received a return, the bin's points in queue order, and their summary. */
  ghost predicate Processed(angle: AngleFn, length: LengthFn, data: seq<Vec3>, degrees: int,
                            forward: Vec3, position: Vec3,
                            processed: map<int, MeasurementStats>, grouped: map<int, seq<Vec3>>)
    requires degrees != 0
  {
    var t := TagAll(angle, forward, position, data, degrees);
    && grouped.Keys == processed.Keys == Ids(t)
    && (forall k :: k in grouped ==> grouped[k] == Members(t, k) && |grouped[k]| > 0)
    && (forall k :: k in processed ==> processed[k] == StatsOf(Lengths(length, grouped[k], position)))
    && SizeSum(grouped) == |data|
  }

  /** The dequeue loop of ProcessData. */
  method DrainQueue(tagged: seq<Tagged>) returns (groups: map<int, seq<Vec3>>)
    ensures groups == Group(tagged)
    ensures SizeSum(groups) == |tagged|
  {
    groups := map[];
    var i := 0;
    while i < |tagged|
      invariant 0 <= i <= |tagged|
      invariant groups == Group(tagged[..i])
    {
      GroupSnoc(tagged, i);
      groups := AddPoint(groups, tagged[i].groupId, tagged[i].point);
      i := i + 1;
    }
    GroupAll(tagged);
  }

  lemma GroupAll(t: seq<Tagged>)
    ensures Group(t[..|t|]) == Group(t)
    ensures SizeSum(Group(t)) == |t|
  {
    assert t[..|t|] == t;
    GroupPartitions(t);
  }

  lemma GroupSnoc(t: seq<Tagged>, i: int)
    requires 0 <= i < |t|
    ensures Group(t[..i + 1]) == AddPoint(Group(t[..i]), t[i].groupId, t[i].point)
  {
    assert t[..i + 1][..i] == t[..i];
  }

  /** The summary loop of ProcessData: one MeasureGroup per bin. */
  method SummariseGroups(length: LengthFn, groups: map<int, seq<Vec3>>, position: Vec3)
    returns (processed: map<int, MeasurementStats>)
    requires forall k :: k in groups ==> |groups[k]| > 0
    ensures processed.Keys == groups.Keys
    ensures forall k :: k in processed ==> processed[k] == StatsOf(Lengths(length, groups[k], position))
  {
    processed := map[];
    var keys := groups.Keys;
    while keys != {}
      invariant keys <= groups.Keys
      invariant processed.Keys == groups.Keys - keys
      invariant forall k :: k in processed ==> processed[k] == StatsOf(Lengths(length, groups[k], position))
      decreases |keys|
    {
      Inhabited(keys);
      var k :| k in keys;
      var s := MeasureGroup(length, groups[k], position);
      processed := processed[k := s];
      keys := keys - {k};
    }
  }

  /** ProcessData: run the tagging job, drain its queue into per-bin lists, then
      summarise every list. */
  method ProcessData(angle: AngleFn, length: LengthFn, data: seq<Vec3>, degrees: int, forward: Vec3, position: Vec3)
    returns (processed: map<int, MeasurementStats>, grouped: map<int, seq<Vec3>>)
    requires degrees != 0
    ensures Processed(angle, length, data, degrees, forward, position, processed, grouped)
    ensures forall i :: 0 <= i < |data| ==>
      var k := GroupId(angle, forward, position, data[i], degrees);
      k in processed && k in grouped && data[i] in grouped[k]
  {
    var tagged := TagAll(angle, forward, position, data, degrees);
    grouped := DrainQueue(tagged);
    assert forall k :: k in grouped ==> |grouped[k]| > 0;
    processed := SummariseGroups(length, grouped, position);
    forall i | 0 <= i < |data|
      ensures GroupId(angle, forward, position, data[i], degrees) in grouped
    {
      assert tagged[i].groupId in Ids(tagged);
    }
  }

  /** The minimum distance of a group is non-negative, no point of the group
      is nearer, and some point is that near. */
  lemma NearestOfGroup(length: LengthFn, pts: seq<Vec3>, position: Vec3)
    requires IsLength(length) && |pts| > 0
    ensures var m := MinOf(Lengths(length, pts, position));
      && m >= 0.0
      && (forall p :: p in pts ==> m <= length(Sub(p, position)))
      && (exists p :: p in pts && m == length(Sub(p, position)))
  {
    var ds := Lengths(length, pts, position);
    MinOfIsLeast(ds);
    var j :| 0 <= j < |ds| && ds[j] == MinOf(ds);
    assert pts[j] in pts;
    forall p | p in pts ensures MinOf(ds) <= length(Sub(p, position)) {
      var i :| 0 <= i < |pts| && pts[i] == p;
      assert ds[i] == length(Sub(p, position));
    }
  }

  /** Return i of a frame falls in bin k. */
  ghost predicate InBin(angle: AngleFn, data: seq<Vec3>, degrees: int, forward: Vec3, position: Vec3, i: int, k: int)
    requires degrees != 0
  {
    0 <= i < |data| && GroupId(angle, forward, position, data[i], degrees) == k
  }

  /** After processing, the minimum recorded for a bin that received returns
      is the distance of the nearest return in that bin. */
  lemma BinMinimum(angle: AngleFn, length: LengthFn, data: seq<Vec3>, degrees: int, forward: Vec3, position: Vec3,
                   processed: map<int, MeasurementStats>, grouped: map<int, seq<Vec3>>, k: int)
    requires IsLength(length) && degrees != 0
    requires Processed(angle, length, data, degrees, forward, position, processed, grouped)
    requires exists i :: InBin(angle, data, degrees, forward, position, i, k)
    ensures k in processed
    ensures processed[k].min >= 0.0
    ensures forall i :: InBin(angle, data, degrees, forward, position, i, k) ==>
      processed[k].min <= length(Sub(data[i], position))
    ensures exists i ::
      InBin(angle, data, degrees, forward, position, i, k) && processed[k].min == length(Sub(data[i], position))
  {
    var t := TagAll(angle, forward, position, data, degrees);
    var pts := BinPoints(angle, length, data, degrees, forward, position, processed, grouped, k);
    var m := processed[k].min;
    NearestOfGroup(length, pts, position);
    forall i | InBin(angle, data, degrees, forward, position, i, k)
      ensures m <= length(Sub(data[i], position))
    {
      assert t[i].groupId == k && t[i].point == data[i];
    }
    var p :| p in pts && m == length(Sub(p, position));
    var i1 :| 0 <= i1 < |t| && t[i1].groupId == k && t[i1].point == p;
    assert InBin(angle, data, degrees, forward, position, i1, k);
  }

  /** The points of bin k after processing, and the facts tying them to the frame. */
  lemma BinPoints(angle: AngleFn, length: LengthFn, data: seq<Vec3>, degrees: int, forward: Vec3, position: Vec3,
                  processed: map<int, MeasurementStats>, grouped: map<int, seq<Vec3>>, k: int)
    returns (pts: seq<Vec3>)
    requires degrees != 0
    requires Processed(angle, length, data, degrees, forward, position, processed, grouped)
    requires exists i :: InBin(angle, data, degrees, forward, position, i, k)
    ensures k in processed && k in grouped && pts == grouped[k] && |pts| > 0
    ensures pts == Members(TagAll(angle, forward, position, data, degrees), k)
    ensures processed[k].min == MinOf(Lengths(length, pts, position))
  {
    var t := TagAll(angle, forward, position, data, degrees);
    var i0 :| InBin(angle, data, degrees, forward, position, i0, k);
    assert t[i0].groupId == k;
    assert k in Ids(t);
    pts := grouped[k];
  }

  /** The binner's state: the interval, the last lidar frame, and the two
      dictionaries, which stay null until the first frame is processed. */
  datatype Lidar = Lidar(
    degreeInterval: int, outputData: Option<seq<Vec3>>,
    processed: Option<map<int, MeasurementStats>>, grouped: Option<map<int, seq<Vec3>>>)

  const InitialLidar: Lidar := Lidar(DefaultDegreeInterval, None, None, None)

  /** The vehicle's pose as the job reads it from `transform`. */
  datatype Pose = Pose(forward: Vec3, position: Vec3)

  /** UpdateLidarData: with a lidar controller present, take its latest frame
      and reprocess it, replacing both dictionaries wholesale. */
  method UpdateLidarData(angle: AngleFn, length: LengthFn, st: Lidar, visual: Option<seq<Vec3>>, pose: Pose)
    returns (r: Lidar)
    requires st.degreeInterval != 0
    ensures visual.None? ==> r == st
    ensures visual.Some? ==>
      && r.degreeInterval == st.degreeInterval && r.outputData == visual
      && r.processed.Some? && r.grouped.Some?
      && Processed(angle, length, visual.value, st.degreeInterval, pose.forward, pose.position,
                   r.processed.value, r.grouped.value)
  {
    match visual
    case None =>
      r := st;
    case Some(data) =>
      var p, g := ProcessData(angle, length, data, st.degreeInterval, pose.forward, pose.position);
      r := st.(outputData := Some(data), processed := Some(p), grouped := Some(g));
  }

  /** SetDegreeInterval: store the interval and, once the binner holds the
      lidar controller's buffer, reprocess at once whatever that buffer holds
      now. The buffer is shared with the controller, which overwrites it in
      place every scan, so `buffer` is its current contents rather than the
      frame the last UpdateLidarData took. */
  method SetDegreeInterval(angle: AngleFn, length: LengthFn, st: Lidar, interval: int,
                           buffer: seq<Vec3>, pose: Pose)
    returns (r: Lidar)
    requires interval != 0
    ensures r.degreeInterval == interval
    ensures st.outputData.None? ==> r == st.(degreeInterval := interval)
    ensures st.outputData.Some? ==>
      && r.outputData == Some(buffer)
      && r.processed.Some? && r.grouped.Some?
      && Processed(angle, length, buffer, interval, pose.forward, pose.position,
                   r.processed.value, r.grouped.value)
  {
    r := st.(degreeInterval := interval);
    if st.outputData.Some? {
      var p, g := ProcessData(angle, length, buffer, interval, pose.forward, pose.position);
      r := r.(outputData := Some(buffer), processed := Some(p), grouped := Some(g));
    }
  }

  /** The dictionaries ProcessData leaves behind are determined by the
      returns, the interval and the pose: reprocessing after SetDegreeInterval
      and the next UpdateLidarData with the same buffer agree exactly. */
  lemma ProcessedDeterminesResult(angle: AngleFn, length: LengthFn, data: seq<Vec3>, degrees: int,
                                  forward: Vec3, position: Vec3,
                                  p1: map<int, MeasurementStats>, g1: map<int, seq<Vec3>>,
                                  p2: map<int, MeasurementStats>, g2: map<int, seq<Vec3>>)
    requires degrees != 0
    requires Processed(angle, length, data, degrees, forward, position, p1, g1)
    requires Processed(angle, length, data, degrees, forward, position, p2, g2)
    ensures g1 == g2 && p1 == p2
  {
    var t := TagAll(angle, forward, position, data, degrees);
    GroupingDetermined(length, t, position, p1, g1, p2, g2);
  }

  lemma GroupingDetermined(length: LengthFn, t: seq<Tagged>, position: Vec3,
                           p1: map<int, MeasurementStats>, g1: map<int, seq<Vec3>>,
                           p2: map<int, MeasurementStats>, g2: map<int, seq<Vec3>>)
    requires g1.Keys == p1.Keys == Ids(t) && g2.Keys == p2.Keys == Ids(t)
    requires forall k :: k in g1 ==> g1[k] == Members(t, k) && |g1[k]| > 0
    requires forall k :: k in g2 ==> g2[k] == Members(t, k) && |g2[k]| > 0
    requires forall k :: k in p1 ==> p1[k] == StatsOf(Lengths(length, g1[k], position))
    requires forall k :: k in p2 ==> p2[k] == StatsOf(Lengths(length, g2[k], position))
    ensures g1 == g2 && p1 == p2
  {
    forall k | k in g1 ensures g1[k] == g2[k] {
      var m := Members(t, k);
      assert g1[k] == m;
    }
    MapsAgree(g1, g2);
    forall k | k in p1 ensures p1[k] == p2[k] {
      var s := StatsOf(Lengths(length, g1[k], position));
      assert p1[k] == s;
    }
    MapsAgree(p1, p2);
  }

  lemma MapsAgree<K, V>(a: map<K, V>, b: map<K, V>)
    requires a.Keys == b.Keys && forall k :: k in a ==> a[k] == b[k]
    ensures a == b
  {
  }

  /** Binning is monotone in the angle for a positive interval. */
  lemma BinMonotone(a1: real, a2: real, degrees: int)
    requires degrees > 0 && a1 <= a2
    ensures BinOf(a1, degrees) <= BinOf(a2, degrees)
  {
    var d := degrees as real;
    assert a1 / d <= a2 / d by {
      assert a2 / d - a1 / d == (a2 - a1) / d;
    }
  }

  /** With the default 10-degree interval every return falls in one of the
      bins -18 .. 18. */
  lemma DefaultBinsRange(angle: AngleFn, forward: Vec3, position: Vec3, point: Vec3)
    requires IsAngle(angle)
    ensures -18 <= GroupId(angle, forward, position, point, DefaultDegreeInterval) <= 18
  {
    var a := SignedAngle(angle, forward, Sub(point, position));
    BinMonotone(-180.0, a, 10);
    BinMonotone(a, 180.0, 10);
    assert BinOf(-180.0, 10) == -18;
    assert BinOf(180.0, 10) == 18;
  }

  /** Bins are half-open: angles 5 and 15 land in bins 0 and 1, and -5 in
      bin -1, since the floor rounds towards negative infinity. */
  lemma BinExamples()
    ensures BinOf(5.0, 10) == 0 && BinOf(15.0, 10) == 1 && BinOf(-5.0, 10) == -1
  {
    assert BinOf(5.0, 10) == 0;
    assert BinOf(15.0, 10) == 1;
    assert BinOf(-5.0, 10) == -1;
  }

  /** A return straight behind the vehicle has a zero cross product, so its
      signed angle is 0 and it shares bin 0 with the returns straight ahead,
      whatever `Vector3.Angle` reports for it. */
  lemma BehindSharesAheadBin(angle: AngleFn, position: Vec3, dist: real)
    requires dist > 0.0
    ensures GroupId(angle, Vec3(0.0, 0.0, 1.0), position, Add(position, Vec3(0.0, 0.0, -dist)), DefaultDegreeInterval) == 0
  {
    var rel := Sub(Add(position, Vec3(0.0, 0.0, -dist)), position);
    assert CrossY(Flatten(Vec3(0.0, 0.0, 1.0)), Flatten(rel)) == 0.0;
  }
}
