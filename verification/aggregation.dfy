/** The layers between the neurons and the vehicle controller.
    The obstacle-avoidance side sums spike counts per array
    (IndependentGain_NeuronArrayConcentrator) and turns the first four
    left/right pairs into a weighted steering angle
    (IndependentGain_ObstacleAvoidanceOrchestrator). The trajectory-following
    side cross-pairs four monitors per follower (TrajectoryFollowerConcentrator)
    and sums the followers (TrajectoryFollowerOrchestrator). Each component
    reads the `spikeCount` fields of NeuronMonitor instances; here those
    counts are passed in. */
module Aggregation {
  import opened Prims
  import opened RealSeq

  /** IndependentGain_NeuronArrayConcentrator.Update: `totalSpikes` becomes the
      sum of the monitors' spike counts, accumulated from 0 in array order. */
  method ArrayTotal(spikeCounts: seq<real>) returns (totalSpikes: real)
    ensures totalSpikes == SumOf(spikeCounts)
    ensures spikeCounts == [] ==> totalSpikes == 0.0
  {
    var accumulator := 0.0;
    var i := 0;
    while i < |spikeCounts|
      invariant 0 <= i <= |spikeCounts|
      invariant accumulator == SumOf(spikeCounts[..i])
    {
      assert spikeCounts[..i + 1][..i] == spikeCounts[..i];
      accumulator := accumulator + spikeCounts[i];
      i := i + 1;
    }
    assert spikeCounts[..i] == spikeCounts;
    totalSpikes := accumulator;
  }

  /** Spike counts are queue lengths, so the array total is never negative. */
  lemma ArrayTotalNonNegative(spikeCounts: seq<real>)
    requires forall i :: 0 <= i < |spikeCounts| ==> spikeCounts[i] >= 0.0
    ensures SumOf(spikeCounts) >= 0.0
  {
    SumOfNonNegative(spikeCounts);
  }

  /** The total does not depend on the order in which GetComponentsInChildren
      returned the monitors. */
  lemma ArrayTotalOrderIndependent(a: seq<real>, b: seq<real>)
    requires multiset(a) == multiset(b)
    ensures SumOf(a) == SumOf(b)
  {
    SumOfPermutation(a, b);
  }

  /** The avoidance orchestrator's four pair gains, all 1 by default. */
  datatype PairGains = PairGains(gain1: real, gain2: real, gain3: real, gain4: real)

  const DefaultPairGains: PairGains := PairGains(1.0, 1.0, 1.0, 1.0)

  /** The avoidance orchestrator's outputs. */
  datatype Avoidance = Avoidance(steeringAngle: real, potentialDifference: real)

  const InitialAvoidance: Avoidance := Avoidance(0.0, 0.0)

  /** The gain of pair i (0-based). */
  function GainOf(g: PairGains, i: int): real
    requires 0 <= i < 4
  {
    if i == 0 then g.gain1 else if i == 1 then g.gain2 else if i == 2 then g.gain3 else g.gain4
  }

  /** The reference: the weighted left-minus-right activity of pairs 0 .. n-1,
      summed in pair order. */
  function PairSum(g: PairGains, left: seq<real>, right: seq<real>, n: nat): real
    requires n <= 4 && n <= |left| && n <= |right|
  {
    if n == 0 then 0.0
    else PairSum(g, left, right, n - 1) + (left[n - 1] - right[n - 1]) * GainOf(g, n - 1)
  }

  /** IndependentGain_ObstacleAvoidanceOrchestrator.Update. `left` and `right`
      are the spike counts of the two arrays' monitors (None for a missing
      concentrator). Fewer than four monitors on either side, or a missing
      concentrator, throws before any field is written. */
  function AvoidanceUpdate(g: PairGains, st: Avoidance, left: Option<seq<real>>, right: Option<seq<real>>): (r: Avoidance)
    ensures left.None? || right.None? || |left.value| < 4 || |right.value| < 4 ==> r == st
    ensures left.Some? && right.Some? && |left.value| >= 4 && |right.value| >= 4 ==>
      r.steeringAngle == r.potentialDifference == PairSum(g, left.value, right.value, 4)
  {
    if left.None? || right.None? || |left.value| < 4 || |right.value| < 4 then st
    else
      var l, rt := left.value, right.value;
      var pair1 := (l[0] - rt[0]) * g.gain1;
      var pair2 := (l[1] - rt[1]) * g.gain2;
      var pair3 := (l[2] - rt[2]) * g.gain3;
      var pair4 := (l[3] - rt[3]) * g.gain4;
      var diff := pair1 + pair2 + pair3 + pair4;
      PairSumFour(g, l, rt);
      Avoidance(diff, diff)
  }

  lemma PairSumFour(g: PairGains, left: seq<real>, right: seq<real>)
    requires |left| >= 4 && |right| >= 4
    ensures PairSum(g, left, right, 4) == (left[0] - right[0]) * g.gain1 + (left[1] - right[1]) * g.gain2
                                        + (left[2] - right[2]) * g.gain3 + (left[3] - right[3]) * g.gain4
  {
    assert PairSum(g, left, right, 1) == (left[0] - right[0]) * g.gain1;
    assert PairSum(g, left, right, 2) == PairSum(g, left, right, 1) + (left[1] - right[1]) * g.gain2;
    assert PairSum(g, left, right, 3) == PairSum(g, left, right, 2) + (left[2] - right[2]) * g.gain3;
  }

  /** Mirroring the arrays mirrors the steering: swapping left and right
      negates the pair sum. */
  lemma {:induction false} PairSumAntisymmetric(g: PairGains, left: seq<real>, right: seq<real>, n: nat)
    requires n <= 4 && n <= |left| && n <= |right|
    ensures PairSum(g, right, left, n) == -PairSum(g, left, right, n)
    decreases n
  {
    if n > 0 {
      PairSumAntisymmetric(g, left, right, n - 1);
      assert (right[n - 1] - left[n - 1]) * GainOf(g, n - 1) == -((left[n - 1] - right[n - 1]) * GainOf(g, n - 1));
    }
  }

  /** Equal counts in the first pairs give zero steering, whatever the gains. */
  lemma {:induction false} PairSumBalanced(g: PairGains, left: seq<real>, right: seq<real>, n: nat)
    requires n <= 4 && n <= |left| && n <= |right|
    requires forall i :: 0 <= i < n ==> left[i] == right[i]
    ensures PairSum(g, left, right, n) == 0.0
    decreases n
  {
    if n > 0 {
      PairSumBalanced(g, left, right, n - 1);
    }
  }

  /** Only the first n monitors of each array matter. */
  lemma {:induction false} PairSumPrefix(g: PairGains, left: seq<real>, right: seq<real>, left': seq<real>, right': seq<real>, n: nat)
    requires n <= 4 && n <= |left| && n <= |right| && n <= |left'| && n <= |right'|
    requires left[..n] == left'[..n] && right[..n] == right'[..n]
    ensures PairSum(g, left, right, n) == PairSum(g, left', right', n)
    decreases n
  {
    if n > 0 {
      assert left[n - 1] == left[..n][n - 1] == left'[n - 1];
      assert right[n - 1] == right[..n][n - 1] == right'[n - 1];
      assert left[..n - 1] == left[..n][..n - 1];
      assert left'[..n - 1] == left'[..n][..n - 1];
      assert right[..n - 1] == right[..n][..n - 1];
      assert right'[..n - 1] == right'[..n][..n - 1];
      PairSumPrefix(g, left, right, left', right', n - 1);
    }
  }

  /** With non-negative gains and the left side spiking at least as much in
      every pair, the steering is non-negative. */
  lemma {:induction false} PairSumLeftDominant(g: PairGains, left: seq<real>, right: seq<real>, n: nat)
    requires n <= 4 && n <= |left| && n <= |right|
    requires g.gain1 >= 0.0 && g.gain2 >= 0.0 && g.gain3 >= 0.0 && g.gain4 >= 0.0
    requires forall i :: 0 <= i < n ==> left[i] >= right[i]
    ensures PairSum(g, left, right, n) >= 0.0
    decreases n
  {
    if n > 0 {
      PairSumLeftDominant(g, left, right, n - 1);
      ScaleMonotone(GainOf(g, n - 1), 0.0, left[n - 1] - right[n - 1]);
    }
  }

  /** Mirroring the whole obstacle-avoidance input mirrors its outputs. */
  lemma AvoidanceMirror(g: PairGains, st: Avoidance, left: seq<real>, right: seq<real>)
    requires |left| >= 4 && |right| >= 4
    ensures AvoidanceUpdate(g, st, Some(right), Some(left)).steeringAngle
         == -AvoidanceUpdate(g, st, Some(left), Some(right)).steeringAngle
  {
    PairSumAntisymmetric(g, left, right, 4);
  }

  /** TrajectoryFollowerConcentrator's fields. */
  datatype Follower = Follower(steeringGain: real, error: real, spikeActivity: real, steeringAngle: real)

  /** The spike counts of a follower's four monitors. */
  datatype FollowerCounts = FollowerCounts(innerLeft: real, innerRight: real, outerLeft: real, outerRight: real)

  /** The mirror image of a follower's counts: inner and outer pairs swap sides. */
  function Mirror(c: FollowerCounts): FollowerCounts {
    FollowerCounts(c.innerRight, c.innerLeft, c.outerRight, c.outerLeft)
  }

  /** TrajectoryFollowerConcentrator.Update: the stored error is the sum of the
      two sensors' errors; the activity is (outerRight + innerLeft) minus
      (outerLeft + innerRight); the steering is the gain times the activity. */
  function FollowerUpdate(f: Follower, leftError: real, rightError: real, c: FollowerCounts): (r: Follower)
    ensures r.steeringGain == f.steeringGain
    ensures r.error == rightError + leftError
    ensures r.spikeActivity + c.outerLeft + c.innerRight == c.outerRight + c.innerLeft
    ensures r.steeringAngle == f.steeringGain * r.spikeActivity
  {
    var activity := (c.outerRight + c.innerLeft) - (c.outerLeft + c.innerRight);
    f.(error := rightError + leftError, spikeActivity := activity,
       steeringAngle := f.steeringGain * ((c.outerRight + c.innerLeft) - (c.outerLeft + c.innerRight)))
  }

  /** The heading errors are stored but never reach the steering: two updates
      that differ only in the errors steer identically. */
  lemma FollowerIgnoresErrors(f: Follower, e1: real, e2: real, e3: real, e4: real, c: FollowerCounts)
    ensures FollowerUpdate(f, e1, e2, c).steeringAngle == FollowerUpdate(f, e3, e4, c).steeringAngle
    ensures FollowerUpdate(f, e1, e2, c).spikeActivity == FollowerUpdate(f, e3, e4, c).spikeActivity
  {
  }

  /** Mirroring the four monitors negates activity and steering. */
  lemma FollowerMirror(f: Follower, e1: real, e2: real, c: FollowerCounts)
    ensures FollowerUpdate(f, e1, e2, Mirror(c)).spikeActivity == -FollowerUpdate(f, e1, e2, c).spikeActivity
    ensures FollowerUpdate(f, e1, e2, Mirror(c)).steeringAngle == -FollowerUpdate(f, e1, e2, c).steeringAngle
  {
    var a := FollowerUpdate(f, e1, e2, c).spikeActivity;
    assert f.steeringGain * -a == -(f.steeringGain * a);
  }

  /** A worked example: outer-right 3, inner-left 2, outer-left 1, inner-right 1
      give activity 3 and, with gain 2, steering 6. */
  lemma FollowerExample(f: Follower)
    requires f.steeringGain == 2.0
    ensures FollowerUpdate(f, 0.0, 0.0, FollowerCounts(2.0, 1.0, 1.0, 3.0)).spikeActivity == 3.0
    ensures FollowerUpdate(f, 0.0, 0.0, FollowerCounts(2.0, 1.0, 1.0, 3.0)).steeringAngle == 6.0
  {
  }

  /** TrajectoryFollowerOrchestrator's totals. */
  datatype FollowerTotals = FollowerTotals(steeringAngleTotal: real, neuronActivityTotal: real)

  function Steerings(fs: seq<Follower>): (r: seq<real>)
    ensures |r| == |fs| && forall i :: 0 <= i < |fs| ==> r[i] == fs[i].steeringAngle
  {
    MapSeq((f: Follower) => f.steeringAngle, fs)
  }

  function Activities(fs: seq<Follower>): (r: seq<real>)
    ensures |r| == |fs| && forall i :: 0 <= i < |fs| ==> r[i] == fs[i].spikeActivity
  {
    MapSeq((f: Follower) => f.spikeActivity, fs)
  }

  /** TrajectoryFollowerOrchestrator.Update: both accumulators start at 0 and
      add every follower's steering and activity in array order. */
  method FollowerOrchestrate(fs: seq<Follower>) returns (t: FollowerTotals)
    ensures t.steeringAngleTotal == SumOf(Steerings(fs))
    ensures t.neuronActivityTotal == SumOf(Activities(fs))
    ensures fs == [] ==> t == FollowerTotals(0.0, 0.0)
  {
    var steeringAcc, activityAcc := 0.0, 0.0;
    var i := 0;
    while i < |fs|
      invariant 0 <= i <= |fs|
      invariant steeringAcc == SumOf(Steerings(fs)[..i])
      invariant activityAcc == SumOf(Activities(fs)[..i])
    {
      assert Steerings(fs)[..i + 1][..i] == Steerings(fs)[..i];
      assert Activities(fs)[..i + 1][..i] == Activities(fs)[..i];
      steeringAcc := steeringAcc + fs[i].steeringAngle;
      activityAcc := activityAcc + fs[i].spikeActivity;
      i := i + 1;
    }
    assert Steerings(fs)[..i] == Steerings(fs);
    assert Activities(fs)[..i] == Activities(fs);
    t := FollowerTotals(steeringAcc, activityAcc);
  }

  /** When every follower uses the same gain and has updated, the steering
      total is that gain times the activity total. */
  lemma {:induction false} SharedGainSteering(fs: seq<Follower>, gain: real)
    requires forall i :: 0 <= i < |fs| ==> fs[i].steeringAngle == gain * fs[i].spikeActivity
    ensures SumOf(Steerings(fs)) == gain * SumOf(Activities(fs))
    decreases |fs|
  {
    if fs != [] {
      var init := fs[..|fs| - 1];
      SharedGainSteering(init, gain);
      assert Steerings(fs)[..|fs| - 1] == Steerings(init);
      assert Activities(fs)[..|fs| - 1] == Activities(init);
      assert gain * SumOf(Activities(fs)) == gain * SumOf(Activities(init)) + gain * fs[|fs| - 1].spikeActivity;
    }
  }

  /** The totals do not depend on the order of the followers. */
  lemma FollowerTotalsOrderIndependent(a: seq<Follower>, b: seq<Follower>)
    requires multiset(a) == multiset(b)
    ensures SumOf(Steerings(a)) == SumOf(Steerings(b))
    ensures SumOf(Activities(a)) == SumOf(Activities(b))
  {
    MapSeqPermutation((f: Follower) => f.steeringAngle, a, b);
    MapSeqPermutation((f: Follower) => f.spikeActivity, a, b);
    SumOfPermutation(Steerings(a), Steerings(b));
    SumOfPermutation(Activities(a), Activities(b));
  }
}
