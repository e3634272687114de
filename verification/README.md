# Neuromorphic vehicle controller — a Dafny model

This project models the sensor → spiking-neuron → steering pipeline of a
Unity vehicle controller, together with its trajectory and collision
statistics. Each Unity component is a small sequential computation. Here it
is a pure function, or a short method, over immutable records of `real`s.

- **Transfer functions** (`transfer.dfy`). These are `RaycastSensor.ProcessDistance`
  and `HeadingErrorSensor.calculateCurrent`. Each is a three-branch map: a
  constant at or beyond the upper bound, a scaled `tanh` sigmoid strictly
  between the bounds, and another constant at or below the lower bound.
- **Sensors** (`sensors.dfy`). The raycast and lidar routing of a RaycastSensor
  covers the `float.MaxValue` sentinel for "nothing seen". The
  HeadingErrorSensor covers the lookahead index, the point-advance rule and
  the split of the heading error into a left half and a right half.
- **Izhikevich neuron** (`neuron.dfy`). It has one explicit Euler step with the
  threshold reset, `Initialize`, and the `Input`/`Output` accessors.
- **Neuron monitor** (`monitor.dfy`). It has the armed rising-edge spike
  detector, the exponential moving average and the sliding-window eviction,
  run in the order the code runs them.
- **Lidar binner** (`binner.dfy`). `DistanceFromLidar` tags each lidar return
  with `floor(signedAngle / degreeInterval)`, groups the returns by bin and
  summarises each bin by mean, maximum and minimum distance.
- **Aggregation** (`aggregation.dfy`). The spike-count concentrator and the
  four-pair avoidance orchestrator make up one side. The trajectory-follower
  concentrator and orchestrator make up the other.
- **Vehicle controller** (`controller.dfy`). `RosQCarController` has a manual
  law and an autonomous law. Manual mode forces zero output, and the Space
  toggle takes effect on the next frame. Published steering is clamped.
- **Point-cloud publisher** (`publisher.dfy`). It applies the per-point axis
  remap and the 1/10 scale.
- **Trajectory statistics** (`trackmetrics.dfy`, `collision.dfy`). These cover
  segment projection, the first-nearest-segment scan for cross-track and
  along-track error, speed, and the nearest obstacle. They also cover the
  boundary distance and the latched collision counter.

`prims.dfy` holds the Unity vector and scalar primitives, in Unity's exact
definitions. For example, `Mathf.Clamp` tests the lower bound first.
`realseq.dfy` holds reference sums, minima and maxima over sequences.

Several functions are left uninterpreted and passed in as parameters:
`tanh`, vector length, `Vector3.Angle`, colliders' `ClosestPoint`, the
heading-error trigonometry and `FilterManager`'s filters. The lemmas that
need facts about them take a ghost predicate in their `requires`:

- `IsTanh`: bounded in (-1, 1), monotone, and `tanh(0) = 0`;
- `IsLength`: non-negative;
- `IsAngle`: within [0, 180].

Clocks, keyboard axes and ROS stamps are parameters too. Floats are
modelled as reals, and `float.MaxValue` is the exact value
340282346638528859811704183484516925440.

Where the code and its documentation disagree, the model follows the code.

- **Neuron coupling.** The coupling term is `couplingStrength * coupled.v - v`
  (IZNeuron.cs:30). It is not the diffusive `couplingStrength * (coupled.v - v)`;
  `IzNeuron.CouplingIsNotDiffusive` states exactly when the two agree.
- **Distance current.** The distance current is not monotone over the whole
  distance range with the shipped coefficients (a1 = 0.95, b1 = 1.35,
  c1 = 0.85). Just above xmin the tanh argument approaches 5 / (10 / 4.5) = 2.25,
  so the current approaches 0.675 * tanh(2.25) + 0.5, about 1.160, but at
  xmin it is c1 * Imax = 0.85. Just below xmax the current approaches about
  -0.160, and at xmax it jumps up to a1 * Imin = 0. Monotonicity is proved inside the middle
  branch. Over the whole range it is proved only under the condition
  `EdgesBracketSigmoid`.

Other consequences of the code, proved about the model:

- The routed heading errors are never positive. With the shipped
  `minAngle = 0` and `maxAngle = 10` (any minAngle >= 0 and maxAngle > 0), both trajectory neurons therefore always receive Imax
  (`Sensors.HeadingCurrentsSaturate`).
- Manual mode publishes zero steering and zero speed
  (`Controller.ManualModePublishesZero`).
- With the shipped ROS bounds (both 2), autonomous mode always asks for
  speed 2 (`Controller.DefaultAutonomousSpeedIsConstant`).
- A lidar return straight behind the vehicle has a zero cross product. It
  therefore shares bin 0 with the returns straight ahead
  (`Binner.BehindSharesAheadBin`).
- `Mathf.Clamp` is monotone only for ordered bounds (`Controller.ClampMonotone`).

## Model

| member | source | states |
|---|---|---|
| Transfer.CurrentFromDistance | RaycastSensor.cs:110-130 | distance >= xmax gives exactly a1*Imin; distance <= xmin (below xmax) gives exactly c1*Imax; strictly between, the current is within \|b1*A/2\| of the height A/2 + Imin, and strictly within it when b1*A is not 0 |
| Transfer.CurrentFromAngle | HeadingErrorSensor.cs:128-146 | error >= maxAngle gives exactly Imin; error <= minAngle (below maxAngle) gives exactly Imax; strictly between, the current is within \|A/2\| of the height |
| Transfer.SigmoidBound | RaycastSensor.cs:120-124 | the sigmoid branch never leaves height +- \|gain*A/2\| and stays strictly inside when that half-width is non-zero |
| Transfer.ArgumentAntitone | RaycastSensor.cs:121-124 | with positive eccentricity the tanh argument (center - x)/range falls as the measurement grows |
| Transfer.SigmoidAntitone | HeadingErrorSensor.cs:136-140 | for gain*A >= 0 the sigmoid branch is non-increasing in the measurement |
| Transfer.DistanceMidBranchAntitone | RaycastSensor.cs:117-125 | between xmin and xmax the distance current is non-increasing in the distance when b1*A >= 0 and eccentricity > 0 |
| Transfer.DistanceCurrentBand | RaycastSensor.cs:113-129 | when the edge constants bracket the sigmoid, every current lies in [a1*Imin, c1*Imax], and middle-branch currents lie in [height - k, height + k] |
| Transfer.DistanceCurrentAntitone | RaycastSensor.cs:113-129 | when the edge constants bracket the sigmoid (the shipped coefficients do not), the current is non-increasing over the whole distance range, across both branch edges |
| Transfer.AngleCurrentAntitone | HeadingErrorSensor.cs:130-145 | for Imin <= Imax and positive eccentricity the heading current is non-increasing in the error over the whole range, across the branch edges |
| Sensors.LidarDistance | RaycastSensor.cs:86-101 | no processed data or a missing bin gives float.MaxValue; otherwise the magnitude of the bin's minimum; never negative |
| Sensors.SensorInput | RaycastSensor.cs:48-108 | raycast mode feeds the hit distance, or float.MaxValue on a miss; lidar mode feeds LidarDistance; lidar mode without a DistanceFromLidar leaves the input unchanged (None) |
| Sensors.SensorStart | RaycastSensor.cs:30-46 | the neuron input becomes 3.5; an attached binner gets the sensor's degree interval and, if it already holds the lidar buffer, reprocesses that buffer's current contents with it |
| Sensors.NothingSeenGivesFarCurrent | RaycastSensor.cs:73-116 | a raycast miss, and a lidar bin without returns, both give exactly a1*Imin whenever xmax <= float.MaxValue |
| Sensors.LidarReadsNearestReturn | RaycastSensor.cs:86-94 | after processing, a lidar-mode sensor whose bin has returns reads the distance of the nearest return of that bin: none nearer, one that near |
| Sensors.RouteError | HeadingErrorSensor.cs:123-124 | left gets -clamp(e, 0, 90), right clamp(e, -90, 0); both lie in [-90, 0] and at least one is 0 |
| Sensors.RouteErrorRecovers | HeadingErrorSensor.cs:123-124 | within +-90 degrees, right minus left gives the error back, so the split loses nothing |
| Sensors.HeadingUpdate | HeadingErrorSensor.cs:71-126 | nothing happens without points, past the end, with a negative target index or without the vehicle, and with a non-negative lookahead the frame always runs; otherwise the recorded error is the heading error towards the target point TargetIndex, which lies in the trajectory, both currents come from the routed halves, and the index advances by one exactly when the vehicle is within 3 of the current point |
| Sensors.TargetIndex | HeadingErrorSensor.cs:79 | the target is lookahead points ahead of the current one or the last point, whichever comes first: never beyond either |
| Sensors.TargetIndexInRange | HeadingErrorSensor.cs:73-82 | with a current index inside the trajectory and a non-negative lookahead, the target lies between the current point and the last one, so reading it cannot fail |
| Sensors.HeadingCurrentsSaturate | HeadingErrorSensor.cs:123-145 | with minAngle >= 0 and maxAngle > 0 both neurons receive exactly Imax for every heading error (with maxAngle <= 0 the error 0 would give Imin) |
| Sensors.HeadingRun | HeadingErrorSensor.cs:118-121 | over any run of frames the point index never decreases |
| Sensors.HeadingRunProgress | HeadingErrorSensor.cs:73-121 | over any run of frames the index stays within the trajectory and grows by at most the number of frames |
| IzNeuron.Initialize | IZNeuron.cs:16-21 | v becomes c and u becomes b*c; the parameters and the input are untouched |
| IzNeuron.CouplingTerm | IZNeuron.cs:27-31 | no coupled neuron gives 0; otherwise term + v == strength * coupled.v |
| IzNeuron.SimulateStep | IZNeuron.cs:23-49 | with c below 30 the potential after a step is always below the spike peak 30; reaching the peak resets v to c and adds d to u; only v and u change |
| IzNeuron.SetInput | IZNeuron.cs:55-59 | only the input current changes |
| IzNeuron.DefaultRestState | IZNeuron.cs:6-21 | with the defaults, Initialize gives v = -65 and u = -13 |
| IzNeuron.SetInputKeepsOutput | IZNeuron.cs:52-59 | setting the input never changes the output |
| IzNeuron.CouplingIsNotDiffusive | IZNeuron.cs:30 | the code's coupling equals strength*(coupled.v - v) if and only if strength = 1 or v = 0 |
| IzNeuron.RunStaysBelowPeak | IZNeuron.cs:41-46 | after Initialize with c < 30, the potential stays below 30 for any number of steps |
| Monitor.DetectSpike | NeuronMonitor.cs:45-58 | the flag is armed exactly when the output is below threshold; a timestamp is appended exactly when the output reaches the threshold on an armed detector; nothing else changes |
| Monitor.MeasureEma | NeuronMonitor.cs:60-73 | the first sample seeds the average; later ones move it alpha of the way to the output, and for alpha in [0, 1] it stays between the two |
| Monitor.EmaStep | NeuronMonitor.cs:69 | one EMA step moves alpha of the way from the old average to the output, and for alpha in [0, 1] it lands between them |
| Monitor.Evict | NeuronMonitor.cs:78-81 | the result is a suffix of the queue; every dropped timestamp is strictly older than the window; the first kept one is within it |
| Monitor.UpdateSpikeCount | NeuronMonitor.cs:75-84 | the queue is evicted and spikeCount equals its new length |
| Monitor.Update | NeuronMonitor.cs:29-43 | nothing changes without a neuron; otherwise spikeCount is the queue length, the EMA is seeded, and at most one timestamp is added |
| Monitor.UpdateEma | NeuronMonitor.cs:34-40 | the EMA of a full update is MeasureEma on the state before it, since detection does not touch it |
| Monitor.UpdateKeepsWindow | NeuronMonitor.cs:29-84 | with a non-decreasing clock, every update leaves the queue sorted with every timestamp in [now - window, now] |
| Monitor.EvictSortedInWindow | NeuronMonitor.cs:77-81 | eviction of a sorted queue leaves it sorted and within the window |
| Monitor.AboveThresholdRunCountsOnce | NeuronMonitor.cs:48-57 | consecutive at-or-above-threshold observations add at most one timestamp, none if the detector starts disarmed, and leave it disarmed |
| Monitor.EmaWithinObserved | NeuronMonitor.cs:62-70 | for alpha in [0, 1], the EMA of a fresh monitor always lies between the least and the greatest output observed |
| Binner.SignedAngle | DistanceFromLidar.cs:206-219 | the unsigned XZ angle, positive for a positive cross-product y, negated for a negative one, 0 when collinear; within [-180, 180] |
| Binner.BinOf | DistanceFromLidar.cs:225 | the bin is the unique integer b with b <= angle/interval < b + 1 |
| Binner.TagAll | DistanceFromLidar.cs:204-228 | one entry per return, carrying the untranslated point and its bin |
| Binner.AddPoint | DistanceFromLidar.cs:108-113 | appends the point to its bin's list, creating the list for a new bin, and leaves every other bin as it was |
| Binner.Group | DistanceFromLidar.cs:105-114 | the keys are exactly the bins that received a return, and each bin holds its returns in queue order, never empty |
| Binner.AddPointSize | DistanceFromLidar.cs:109-113 | adding one point adds exactly one to the total size of the grouping |
| Binner.GroupPartitions | DistanceFromLidar.cs:105-114 | group sizes add up to the number of returns: nothing lost, nothing duplicated |
| Binner.DrainQueue | DistanceFromLidar.cs:105-114 | the dequeue loop builds exactly the grouping, and its sizes sum to the queue length |
| Binner.MeasureGroup | DistanceFromLidar.cs:121-137 | the statistics loop computes the mean, maximum and minimum of the group's distances |
| Binner.StatsBounds | DistanceFromLidar.cs:122-137 | min <= mean <= max; every distance lies in [min, max], and both min and max are attained |
| Binner.StatsOrderIndependent | DistanceFromLidar.cs:106-137 | a bin's statistics do not depend on the order in which the parallel job enqueued its points |
| Binner.SummariseGroups | DistanceFromLidar.cs:116-140 | one summary per bin, with the same keys as the grouping |
| Binner.ProcessData | DistanceFromLidar.cs:84-141 | both dictionaries have exactly the populated bins as keys, every return is in its bin's list, and the sizes add up to the number of returns |
| Binner.NearestOfGroup | DistanceFromLidar.cs:125-136 | a group's minimum is non-negative, no point of the group is nearer, and some point is that near |
| Binner.BinMinimum | DistanceFromLidar.cs:117-140 | after processing, the minimum of a bin with returns is the distance of its nearest return |
| Binner.UpdateLidarData | DistanceFromLidar.cs:75-82 | without a controller nothing changes; otherwise the latest frame is processed and both dictionaries are replaced wholesale |
| Binner.SetDegreeInterval | DistanceFromLidar.cs:46-53 | the interval is stored; once the binner holds the lidar buffer, the buffer's current contents are reprocessed with it at once and both dictionaries replaced; before that nothing else changes |
| Binner.ProcessedDeterminesResult | DistanceFromLidar.cs:49-51 | the dictionaries left by processing are determined by the returns, the interval and the pose, so reprocessing from SetDegreeInterval agrees with the next UpdateLidarData on the same buffer |
| Binner.BinMonotone | DistanceFromLidar.cs:225 | for a positive interval the bin is monotone in the angle |
| Binner.DefaultBinsRange | DistanceFromLidar.cs:215-225 | with the default 10-degree interval every bin lies in -18 .. 18 |
| Binner.BinExamples | DistanceFromLidar.cs:225 | angles 5, 15 and -5 land in bins 0, 1 and -1 |
| Binner.BehindSharesAheadBin | DistanceFromLidar.cs:215-225 | a return straight behind the vehicle lands in bin 0, the bin of the returns straight ahead |
| Aggregation.ArrayTotal | IndependentGain_NeuronArrayConcentrator.cs:18-31 | the total is the sum of the spike counts, and 0 for an empty array |
| Aggregation.ArrayTotalNonNegative | IndependentGain_NeuronArrayConcentrator.cs:24-27 | non-negative counts give a non-negative total |
| Aggregation.ArrayTotalOrderIndependent | IndependentGain_NeuronArrayConcentrator.cs:24-27 | the total does not depend on the order of the monitors |
| Aggregation.AvoidanceUpdate | IndependentGain_ObstacleAvoidanceOrchestrator.cs:19-54 | fewer than four monitors or a missing concentrator leave both outputs unchanged; otherwise steering = potential difference = the gain-weighted sum over pairs 1-4 |
| Aggregation.PairSumFour | IndependentGain_ObstacleAvoidanceOrchestrator.cs:38-50 | the pair sum is the four weighted left-minus-right terms |
| Aggregation.PairSumAntisymmetric | IndependentGain_ObstacleAvoidanceOrchestrator.cs:38-50 | swapping left and right negates the pair sum |
| Aggregation.PairSumBalanced | IndependentGain_ObstacleAvoidanceOrchestrator.cs:38-50 | pairwise-equal counts give 0 whatever the gains |
| Aggregation.PairSumPrefix | IndependentGain_ObstacleAvoidanceOrchestrator.cs:22-29 | only the first four monitors of each array influence the result |
| Aggregation.PairSumLeftDominant | IndependentGain_ObstacleAvoidanceOrchestrator.cs:38-50 | with non-negative gains, left counts at least the right ones in every pair give non-negative steering |
| Aggregation.AvoidanceMirror | IndependentGain_ObstacleAvoidanceOrchestrator.cs:38-53 | mirroring the two arrays negates the steering |
| Aggregation.FollowerUpdate | TrajectoryFollowerConcentrator.cs:29-41 | activity = (outerRight + innerLeft) - (outerLeft + innerRight), steering = gain * activity, error = the sum of the sensor errors |
| Aggregation.FollowerIgnoresErrors | TrajectoryFollowerConcentrator.cs:31-37 | the sensor errors influence neither activity nor steering |
| Aggregation.FollowerMirror | TrajectoryFollowerConcentrator.cs:36-37 | swapping inner and outer left/right negates activity and steering |
| Aggregation.FollowerExample | TrajectoryFollowerConcentrator.cs:36-37 | counts 3, 2, 1, 1 give activity 3, and with gain 2 steering 6 |
| Aggregation.FollowerOrchestrate | TrajectoryFollowerOrchestrator.cs:20-36 | the totals are the sums of the followers' steering and activity, both 0 without followers |
| Aggregation.SharedGainSteering | TrajectoryFollowerOrchestrator.cs:27-35 | if every follower steers by the same gain, the steering total is that gain times the activity total |
| Aggregation.FollowerTotalsOrderIndependent | TrajectoryFollowerOrchestrator.cs:27-31 | the totals do not depend on the order of the followers |
| Controller.AutonomousSpeed | ROS_QCarController.cs:112 | for ordered ROS bounds the autonomous speed lies within them |
| Controller.UpdateState | ROS_QCarController.cs:91-115 | manual: steering = horizontal * max angle, speed given by ManualSpeed (unchanged without vertical input); autonomous: steering = the sum of both orchestrators, speed = AutonomousSpeed; mode and filtered values untouched |
| Controller.ManualSpeed | ROS_QCarController.cs:101-105 | without vertical input the speed is kept; with it, the speed moves by vertical * rate * frame time (acceleration up, deceleration down) when that stays within [0, 0.06], and stops at 0 or 0.06 otherwise |
| Controller.ManualSpeedDirection | ROS_QCarController.cs:101-105 | with non-negative rates and frame time and a speed within the manual limits, holding the axis up never slows the vehicle and holding it down never speeds it up |
| Controller.Update | ROS_QCarController.cs:57-89 | filters apply when present and are the identity otherwise; manual mode forces both filtered values to 0; Space flips the mode after the frame's computation |
| Controller.Publish | ROS_QCarController.cs:117-124 | the published steering lies within +-maxSteeringAngle and equals the filtered one when that is within the limit; speed is published as is |
| Controller.ManualModePublishesZero | ROS_QCarController.cs:73-77 | in manual mode both published values are 0, whatever the input |
| Controller.AutonomousPublishes | ROS_QCarController.cs:62-77 | without filters, autonomous mode publishes the summed steering (within the limit) and the clamped autonomous speed |
| Controller.ToggleTakesEffectNextFrame | ROS_QCarController.cs:57-89 | a Space press changes only the mode, and only for the next frame |
| Controller.AutonomousSpeedAntitone | ROS_QCarController.cs:112 | with non-negative strengths and ordered bounds, more activity on either side never increases the speed |
| Controller.ClampMonotone | ROS_QCarController.cs:112 | Unity's Clamp is monotone in its value for ordered bounds |
| Controller.DefaultAutonomousSpeedIsConstant | ROS_QCarController.cs:26-27 | with both shipped ROS bounds at 2 the autonomous speed is always 2 |
| Controller.AutonomousSpeedExample | ROS_QCarController.cs:112 | a raw speed below the lower bound is clamped up to it |
| Publisher.Remap | PointCloudPublisher.cs:60-73 | QCar layout: (x/10, z/10, y/10); otherwise (z/10, -x/10, y/10) |
| Publisher.RemapRoundTrip | PointCloudPublisher.cs:60-73 | both layouts are invertible: unmapping a remapped point gives it back, and remapping an unmapped point gives it back |
| Publisher.RemapInjective | PointCloudPublisher.cs:60-73 | no two lidar points are merged |
| Publisher.RemapScalesDistances | PointCloudPublisher.cs:60-73 | squared distances between points shrink by exactly 100 |
| Publisher.PublishPointCloud | PointCloudPublisher.cs:33-78 | the parent position is stored; the message keeps frame id and stamp, has one point per input point, and point i unmaps to input point i |
| Publisher.PublishIgnoresPose | PointCloudPublisher.cs:39-58 | the message depends on neither the parent's rotation nor its position |
| Publisher.RemapExample | PointCloudPublisher.cs:60-73 | a point one metre ahead becomes 0.1 along ROS y under QCar and 0.1 along ROS x otherwise |
| TrackMetrics.ProjectionParameter | Statistics.cs:103-108 | None exactly for a degenerate segment; otherwise t in [0, 1], t = 0 when the dot product is <= 0, t = 1 when it is >= the squared length, and t * squared length = dot product in between |
| TrackMetrics.Project | Statistics.cs:103-110 | None exactly for a degenerate segment; otherwise a point of the closed segment |
| TrackMetrics.EqualPointsDegenerate | Statistics.cs:105-107 | a segment from a point to itself is degenerate |
| TrackMetrics.ProjectionIsNearest | Statistics.cs:103-110 | no point of the segment is nearer the vehicle than the projection |
| TrackMetrics.ScanMinimum | Statistics.cs:75-95 | None exactly when no defined distance is below float.MaxValue; otherwise the first index of least distance |
| TrackMetrics.FirstMinimumUnique | Statistics.cs:88 | the strict `<` makes the chosen segment unique |
| TrackMetrics.SegmentDistance | Statistics.cs:82-86 | a segment's distance is undefined exactly when it is degenerate |
| TrackMetrics.CalculateErrors | Statistics.cs:73-101 | the errors are the first nearest segment's, or the defaults when none is below float.MaxValue; the cross-track error is at most every segment's distance; fewer than two points give the defaults |
| TrackMetrics.ErrorsAreDistances | StatisticsWithCollision.cs:213-250 | the duplicated helpers give non-negative errors, a closest point on a segment of the trajectory, and that segment's end as the next point |
| TrackMetrics.CalculateSpeed | Statistics.cs:119-122 | speed * frame time = distance covered, never negative |
| TrackMetrics.TrackerStart | Statistics.cs:21-36 | with a tracked object its pose is remembered with speed 0 and a writer exists; without one, neither |
| TrackMetrics.TrackerUpdate | Statistics.cs:38-71 | nothing changes without an object, a manager or two points; otherwise the pose and speed become the previous ones and a row is written exactly when the writer exists, carrying the errors and heading error |
| Collision.FindNearestObstacle | StatisticsWithCollision.cs:151-165 | no obstacles gives None; None exactly when every obstacle is at least float.MaxValue away; otherwise the first obstacle at least distance |
| Collision.BoundaryDistance | StatisticsWithCollision.cs:167-194 | a missing vehicle collider or mesh collider gives float.MaxValue; the distance is never negative |
| Collision.Latch | StatisticsWithCollision.cs:100-113 | the latch is set exactly on contact; the count grows by at most one, and by one exactly on contact with a clear latch |
| Collision.LatchRun | StatisticsWithCollision.cs:101-113 | the collision count never decreases |
| Collision.LatchRunCountsRisingEdges | StatisticsWithCollision.cs:101-113 | over any run the count grows by exactly the number of contacts begun in it |
| Collision.SustainedContactCountsOnce | StatisticsWithCollision.cs:103-109 | uninterrupted contact counts once if the latch was clear and not at all if it was set |
| Collision.BoxClosestPoint | StatisticsWithCollision.cs:197-211 | y is kept; the result lies in the box; a point already inside is returned unchanged |
| Collision.BoxClosestPointIdempotent | StatisticsWithCollision.cs:197-211 | clamping twice is clamping once |
| Collision.BoxClosestPointIsNearest | StatisticsWithCollision.cs:197-211 | no point of the box at the obstacle's height is nearer the obstacle |
| Collision.CollisionStart | StatisticsWithCollision.cs:37-65 | with a tracked object its pose is remembered with speed 0; the latch is clear and there is no nearest obstacle |
| Collision.Frame | StatisticsWithCollision.cs:79-127 | the intended frame: previous pose and speed advance, yaw rate = heading change / frame time, the latch sees the nearest obstacle's boundary distance, a missing collider counts as no contact, and a row is written exactly when the writer exists |
| Collision.FrameAsWritten | StatisticsWithCollision.cs:82-123 | the frame as written: no nearest obstacle with the writer open, or a missing collider, ends the frame with the latch and previous pose unchanged and no row |
| Collision.AsWrittenAgreesOtherwise | StatisticsWithCollision.cs:86-127 | outside those two cases the code as written is the intended frame |
| Collision.NoObstacleFreezesTracker | StatisticsWithCollision.cs:117-127 | counterexample: no obstacle and an open writer leave the previous position where it was, and no row is written |
| Collision.MissedSecondContact | StatisticsWithCollision.cs:86-113 | counterexample: contact, a frame near an obstacle without mesh collider, contact again counts 1 as written and 2 as intended; the vehicle stands on A, on B, then on A, and each nearest index is the first minimum `FindNearestObstacle` picks there |
| Collision.WitnessNearest | StatisticsWithCollision.cs:151-165 | with obstacles at the origin and ten units along x, the strict-less scan picks the first at the origin and the second ten units along x |
| Collision.ContactFrame | StatisticsWithCollision.cs:86-106 | when the nearest obstacle's mesh touches the vehicle's closest point, the boundary distance is 0 and both frames step the latch on contact |
| Collision.MeshlessFrame | StatisticsWithCollision.cs:89-92 | when the nearest obstacle has no mesh collider, the latch is left unchanged as written and cleared without counting as intended |
| Collision.CollisionUpdate | StatisticsWithCollision.cs:67-130 | built on the corrected Frame (see Findings and Collision.FrameAsWritten): nothing changes without an object, a manager or two points; otherwise the previous position advances, the nearest obstacle is the least-distance one, the latch steps on its boundary distance, and the row carries the errors and the count |

## Left out

- Reaction_LidarController.cs, PointCloudAquisition.cs and LaserScanAquisition.cs are not part of this model. They handle physics raycast batches, ROS subscriptions and polar-to-cartesian trigonometry.
- Floating point is not modelled: rounding, overflow to infinity, and NaN are all absent. A degenerate trajectory segment divides 0 by 0 in the code. The resulting NaN never wins the strict `<` of the scan, so the model gives such a segment no distance (None).
- The uninterpreted functions carry only the facts listed above; nothing else is assumed about `tanh`, length, angle, `Atan2`, `Mathf.DeltaAngle` or `ClosestPoint`.
- I/O and engine glue are left out:
  - ROS registration and publishing, and the `InvokeRepeating` rates;
  - CSV file creation, the paths and the timestamps in them (a row is modelled as a record);
  - `Debug.Log`/`DrawLine`, the LineRenderer, the group colours and `UpdateWheelRotation`;
  - `GameObject.Find`/`GetComponent` lookups, including RaycastSensor's fallback lookup at RaycastSensor.cs:41-45.
- HeadingErrorSensor's `LoadTrajectoryPoints` retry coroutine is left out; the loaded list is a parameter. The heading geometry (InverseTransformPoint, Atan2, DeltaAngle) is a function of the target point passed in; only the choice of target point is modelled.
- Parallel-job and NativeQueue mechanics are left out. The job is modelled as a sequential map in index order.
- Binner.Group: each bin's list is stated in index order (Members), which the code does not guarantee: the parallel job fills the queue in an unspecified order. Only the bin's contents are promised by the code, and the statistics are proved independent of the order (`Binner.StatsOrderIndependent`). The same holds for the lists in `Binner.ProcessData`, `Binner.UpdateLidarData`, `Binner.SetDegreeInterval` and `Binner.ProcessedDeterminesResult`.
- Binner.SetDegreeInterval: the lidar buffer is shared with the controller and overwritten in place each scan; the model takes its current contents as a parameter, and whether DistanceFromLidar's Start has run before RaycastSensor's (which decides whether the buffer is held) is a parameter of the state.
- `GetGroupedPoints` is the `grouped` field of `Binner.Lidar`, and `GetProcessedData` is its `processed` field (None until the first frame). Neither is a separate member.
- The yaw rate is the raw heading difference over the frame time, with no wrapping, as in the code.
- The point-cloud stamp (wall-clock seconds and the nanosecond fraction of `Time.time`) is a parameter; its `uint` casts are not modelled.
- TrackMetrics.CalculateSpeed: requires a positive frame time. The code divides by `Time.deltaTime` unguarded, and Unity reports a positive one. `TrackMetrics.TrackerUpdate`, `Collision.Frame`, `Collision.FrameAsWritten` and `Collision.CollisionUpdate` inherit the same requirement.
- Binner.ProcessData: requires a non-zero degree interval. An interval of 0 makes the code's float division produce infinities or NaN. `Binner.UpdateLidarData`, `Binner.SetDegreeInterval` and `Sensors.SensorStart` inherit the same requirement.
- Sensors.HeadingUpdate: requires a non-negative point index. The index is private, starts at 0 and is only incremented.
- Collision.CollisionUpdate: the obstacle list is a parameter. Start's null dereference when no obstacle parent is assigned (StatisticsWithCollision.cs:46) is not modelled.
- Transfer.DistanceCurrentAntitone: monotonicity across the branch edges is proved only under `EdgesBracketSigmoid`, because the code is not monotone there with the shipped coefficients.

## Findings

| source | as written | input that shows it | evidently intended | confidence | as-written member | corrected member |
|---|---|---|---|---|---|---|
| StatisticsWithCollision.cs:122 | The CSV row reads `nearestObstacle.name` and its position even when `FindNearestObstacle` found none. The null dereference ends the frame before the previous position, heading and speed are updated. | No obstacles (or all at float.MaxValue or more) and an open writer. The vehicle moves from the origin to (1, 0, 0), but the remembered position stays at the origin and no row is written. | Write the row with empty obstacle columns, then advance the previous pose. | not executed | Collision.NoObstacleFreezesTracker | Collision.Frame |
| StatisticsWithCollision.cs:89-92 | A missing vehicle collider or obstacle MeshCollider yields float.MaxValue at line 89. Lines 91-92 then call `ClosestPoint` through the same null reference. The frame ends before the latch is cleared. | Obstacle A at the origin with a MeshCollider, B ten units along x without one. The vehicle stands on A, then on B (now nearest), then on A again. The count is 1 where two contacts began. | Treat float.MaxValue as no contact, clearing the latch as lines 110-113 do, and finish the frame. | not executed | Collision.MissedSecondContact | Collision.Frame |
