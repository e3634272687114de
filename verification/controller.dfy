/** RosQCarController: each frame it computes a steering angle and a speed,
    either from the keyboard axes (manual mode, the initial mode) or from the
    two orchestrators (autonomous mode), passes them through the optional
    FilterManager, and publishes the filtered pair to ROS at a fixed rate.
    The Space key toggles the mode after the frame's computation. Input axes,
    `Time.deltaTime`, the key state and the orchestrators' outputs are
    parameters; the filters are functions passed in. */
module Controller {
  import opened Prims

  /** The controller's serialized tuning fields. */
  datatype ControllerParams = ControllerParams(
    maxSteeringAngle: real, acceleration: real, deceleration: real,
    baseVelocity: real, avoidanceStrength: real, followerStrength: real,
    maxSpeedRos: real, minSpeedRos: real)

  /** The field initialisers: max steering 30, acceleration and deceleration 2,
      base velocity and both strengths 0, and both ROS speed bounds 2. */
  const DefaultParams: ControllerParams := ControllerParams(30.0, 2.0, 2.0, 0.0, 0.0, 0.0, 2.0, 2.0)

  /** The manual-mode speed limits of `Mathf.Clamp(currentSpeed, 0, 0.06f)`. */
  const ManualMaxSpeed: real := 0.06

  /** The controller's state. `angleControlEnabled` set means manual mode. */
  datatype Controller = Controller(
    currentSpeed: real, currentSteeringAngle: real, angleControlEnabled: bool,
    filteredSteeringAngle: real, filteredSpeed: real)

  const Initial: Controller := Controller(0.0, 0.0, true, 0.0, 0.0)

  /** One frame's user input: the two axes, the frame time and whether Space
      went down this frame. */
  datatype FrameInput = FrameInput(horizontal: real, vertical: real, deltaTime: real, spacePressed: bool)

  /** What autonomous mode reads from the orchestrators. */
  datatype Orchestrators = Orchestrators(
    avoidanceSteering: real, avoidancePotential: real,
    followerSteeringTotal: real, followerActivityTotal: real)

  /** FilterManager's two filters. */
  datatype Filters = Filters(steering: real -> real, velocity: real -> real)

  /** The speed autonomous mode asks for: the base velocity minus the absolute
      activity of each side times its strength, clamped to the ROS bounds. */
  function AutonomousSpeed(p: ControllerParams, o: Orchestrators): (r: real)
    ensures p.minSpeedRos <= p.maxSpeedRos ==> p.minSpeedRos <= r <= p.maxSpeedRos
  {
    Clamp(RawSpeed(p, o), p.minSpeedRos, p.maxSpeedRos)
  }

  /** The autonomous speed before clamping. */
  function RawSpeed(p: ControllerParams, o: Orchestrators): real {
    p.baseVelocity - Abs(o.avoidancePotential) * p.avoidanceStrength
                   - Abs(o.followerActivityTotal) * p.followerStrength
  }

  /** The manual speed law: while the vertical axis is held, accelerate (up)
      or decelerate (down) at the configured rate for the frame's time, and
      keep the result within [0, 0.06]; with the axis released, keep speed. */
  function ManualSpeed(p: ControllerParams, speed: real, vertical: real, deltaTime: real): (r: real)
    ensures vertical == 0.0 ==> r == speed
    ensures vertical != 0.0 ==> 0.0 <= r <= ManualMaxSpeed
    ensures vertical != 0.0 ==>
      var rate := if vertical > 0.0 then p.acceleration else p.deceleration;
      var target := speed + vertical * rate * deltaTime;
      (0.0 <= target <= ManualMaxSpeed ==> r == target)
      && (target < 0.0 ==> r == 0.0) && (target > ManualMaxSpeed ==> r == ManualMaxSpeed)
  {
    if vertical != 0.0 then
      var rate := if vertical > 0.0 then p.acceleration else p.deceleration;
      Clamp(speed + vertical * rate * deltaTime, 0.0, ManualMaxSpeed)
    else speed
  }

  /** With non-negative rates and frame time and a speed already within the
      manual limits, holding the axis up never slows the vehicle and holding
      it down never speeds it up. */
  lemma ManualSpeedDirection(p: ControllerParams, speed: real, vertical: real, deltaTime: real)
    requires p.acceleration >= 0.0 && p.deceleration >= 0.0 && deltaTime >= 0.0
    requires 0.0 <= speed <= ManualMaxSpeed
    ensures vertical > 0.0 ==> ManualSpeed(p, speed, vertical, deltaTime) >= speed
    ensures vertical < 0.0 ==> ManualSpeed(p, speed, vertical, deltaTime) <= speed
  {
    var rate := if vertical > 0.0 then p.acceleration else p.deceleration;
    var step := vertical * rate * deltaTime;
    if vertical > 0.0 {
      MulMonotone(rate, 0.0, vertical);
      MulMonotone(deltaTime, 0.0, vertical * rate);
      assert step >= 0.0;
    } else if vertical < 0.0 {
      MulMonotone(rate, vertical, 0.0);
      MulMonotone(deltaTime, vertical * rate, 0.0);
      assert step <= 0.0;
    }
  }

  /** UpdateState: manual mode steers by the horizontal axis and, while the
      vertical axis is held, accelerates or decelerates within [0, 0.06];
      autonomous mode steers by the sum of the two orchestrators. */
  function UpdateState(p: ControllerParams, c: Controller, input: FrameInput, o: Orchestrators): (r: Controller)
    ensures r.angleControlEnabled == c.angleControlEnabled
    ensures r.filteredSteeringAngle == c.filteredSteeringAngle && r.filteredSpeed == c.filteredSpeed
    ensures c.angleControlEnabled ==> r.currentSteeringAngle == input.horizontal * p.maxSteeringAngle
    ensures c.angleControlEnabled ==> r.currentSpeed == ManualSpeed(p, c.currentSpeed, input.vertical, input.deltaTime)
    ensures c.angleControlEnabled && input.vertical == 0.0 ==> r.currentSpeed == c.currentSpeed
    ensures c.angleControlEnabled && input.vertical != 0.0 ==> 0.0 <= r.currentSpeed <= ManualMaxSpeed
    ensures !c.angleControlEnabled ==>
      r.currentSteeringAngle == o.avoidanceSteering + o.followerSteeringTotal &&
      r.currentSpeed == AutonomousSpeed(p, o)
  {
    if c.angleControlEnabled then
      var speed := ManualSpeed(p, c.currentSpeed, input.vertical, input.deltaTime);
      c.(currentSteeringAngle := input.horizontal * p.maxSteeringAngle, currentSpeed := speed)
    else
      c.(currentSteeringAngle := o.avoidanceSteering + o.followerSteeringTotal,
         currentSpeed := AutonomousSpeed(p, o))
  }

  /** Update: UpdateState, then filtering (identity without a FilterManager),
      then the manual-mode override of both filtered values to 0, and last the
      Space toggle, which takes effect from the next frame. */
  function Update(p: ControllerParams, c: Controller, filters: Option<Filters>,
                  input: FrameInput, o: Orchestrators): (r: Controller)
    ensures r.angleControlEnabled == (c.angleControlEnabled != input.spacePressed)
    ensures r.currentSteeringAngle == UpdateState(p, c, input, o).currentSteeringAngle
    ensures r.currentSpeed == UpdateState(p, c, input, o).currentSpeed
    ensures c.angleControlEnabled ==> r.filteredSteeringAngle == 0.0 && r.filteredSpeed == 0.0
    ensures !c.angleControlEnabled && filters.None? ==>
      r.filteredSteeringAngle == r.currentSteeringAngle && r.filteredSpeed == r.currentSpeed
    ensures !c.angleControlEnabled && filters.Some? ==>
      r.filteredSteeringAngle == filters.value.steering(r.currentSteeringAngle) &&
      r.filteredSpeed == filters.value.velocity(r.currentSpeed)
  {
    var s := UpdateState(p, c, input, o);
    var (steer, speed) :=
      match filters
      case Some(f) => (f.steering(s.currentSteeringAngle), f.velocity(s.currentSpeed))
      case None => (s.currentSteeringAngle, s.currentSpeed);
    var (steer', speed') := if s.angleControlEnabled then (0.0, 0.0) else (steer, speed);
    s.(filteredSteeringAngle := steer', filteredSpeed := speed',
       angleControlEnabled := if input.spacePressed then !s.angleControlEnabled else s.angleControlEnabled)
  }

  /** The pair of values one ROS publication carries. */
  datatype RosMessage = RosMessage(steeringAngle: real, vehicleSpeed: real)

  /** PublishRosData: the filtered steering clamped to +-maxSteeringAngle, and
      the filtered speed as is. */
  function Publish(p: ControllerParams, c: Controller): (m: RosMessage)
    ensures -Abs(p.maxSteeringAngle) <= m.steeringAngle <= Abs(p.maxSteeringAngle)
    ensures p.maxSteeringAngle >= 0.0 && Abs(c.filteredSteeringAngle) <= p.maxSteeringAngle ==>
      m.steeringAngle == c.filteredSteeringAngle
    ensures m.vehicleSpeed == c.filteredSpeed
  {
    RosMessage(Clamp(c.filteredSteeringAngle, -p.maxSteeringAngle, p.maxSteeringAngle), c.filteredSpeed)
  }

  /** In manual mode (the initial one) the controller publishes zero steering
      and zero speed, whatever the keyboard does: manual driving moves only
      the wheels' visual rotation. */
  lemma ManualModePublishesZero(p: ControllerParams, c: Controller, filters: Option<Filters>,
                                input: FrameInput, o: Orchestrators)
    requires c.angleControlEnabled && p.maxSteeringAngle >= 0.0
    ensures Publish(p, Update(p, c, filters, input, o)) == RosMessage(0.0, 0.0)
  {
  }

  /** Without filters, autonomous mode publishes the orchestrators' summed
      steering (within the limit) and the clamped autonomous speed. */
  lemma AutonomousPublishes(p: ControllerParams, c: Controller, input: FrameInput, o: Orchestrators)
    requires !c.angleControlEnabled && p.maxSteeringAngle >= 0.0
    requires Abs(o.avoidanceSteering + o.followerSteeringTotal) <= p.maxSteeringAngle
    ensures Publish(p, Update(p, c, None, input, o)) ==
      RosMessage(o.avoidanceSteering + o.followerSteeringTotal, AutonomousSpeed(p, o))
  {
  }

  /** The mode used in a frame is the one before that frame's key press: a
      press switches the following frame, not the current one. */
  lemma ToggleTakesEffectNextFrame(p: ControllerParams, c: Controller, filters: Option<Filters>,
                                   input: FrameInput, o: Orchestrators)
    ensures var pressed := input.(spacePressed := true);
      var released := input.(spacePressed := false);
      && Update(p, c, filters, pressed, o).(angleControlEnabled := c.angleControlEnabled)
         == Update(p, c, filters, released, o)
      && Update(p, c, filters, pressed, o).angleControlEnabled == !c.angleControlEnabled
  {
  }

  /** The more active either side is, the slower autonomous mode drives (for
      non-negative strengths and ordered bounds). */
  lemma AutonomousSpeedAntitone(p: ControllerParams, o1: Orchestrators, o2: Orchestrators)
    requires p.avoidanceStrength >= 0.0 && p.followerStrength >= 0.0
    requires p.minSpeedRos <= p.maxSpeedRos
    requires Abs(o1.avoidancePotential) <= Abs(o2.avoidancePotential)
    requires Abs(o1.followerActivityTotal) <= Abs(o2.followerActivityTotal)
    ensures AutonomousSpeed(p, o1) >= AutonomousSpeed(p, o2)
  {
    var a1, a2 := Abs(o1.avoidancePotential), Abs(o2.avoidancePotential);
    var f1, f2 := Abs(o1.followerActivityTotal), Abs(o2.followerActivityTotal);
    MulMonotone(p.avoidanceStrength, a1, a2);
    MulMonotone(p.followerStrength, f1, f2);
    assert RawSpeed(p, o1) == p.baseVelocity - a1 * p.avoidanceStrength - f1 * p.followerStrength;
    assert RawSpeed(p, o2) == p.baseVelocity - a2 * p.avoidanceStrength - f2 * p.followerStrength;
    ClampMonotone(RawSpeed(p, o2), RawSpeed(p, o1), p.minSpeedRos, p.maxSpeedRos);
  }

  lemma MulMonotone(k: real, a: real, b: real)
    requires k >= 0.0 && a <= b
    ensures a * k <= b * k
  {
    assert b * k - a * k == (b - a) * k;
  }

  /** Unity's Clamp is monotone in its value for ordered bounds. (With lo > hi
      it is not: a value below lo maps to lo, one above maps to hi < lo.) */
  lemma ClampMonotone(a: real, b: real, lo: real, hi: real)
    requires a <= b && lo <= hi
    ensures Clamp(a, lo, hi) <= Clamp(b, lo, hi)
  {
  }

  /** With the shipped ROS bounds (both 2) autonomous mode always asks for speed
      2, whatever the neurons do. */
  lemma DefaultAutonomousSpeedIsConstant(o: Orchestrators)
    ensures AutonomousSpeed(DefaultParams, o) == 2.0
  {
  }

  /** A worked clamp: base 0.5 and a combined activity term of 0.6 fall below
      any lower bound above -0.1, which is then what is asked for. */
  lemma AutonomousSpeedExample(p: ControllerParams)
    requires p.baseVelocity == 0.5 && p.avoidanceStrength == 0.1 && p.followerStrength == 0.1
    requires -0.1 < p.minSpeedRos <= p.maxSpeedRos
    ensures AutonomousSpeed(p, Orchestrators(0.0, -4.0, 0.0, 2.0)) == p.minSpeedRos
  {
  }
}
