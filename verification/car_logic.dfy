/** The per-frame decisions of the car controller as functions over `real`:
    brake selection and split, steering target, motor torque and launch
    assist, the counter-drift torque, the visual spin phase and the smoke
    threshold.  Everything the engine or geometry supplies (speed, dot
    products, angles, curve values, wheel slips) is an argument. */
module CarLogic {
  import opened Mathf
  import opened Engine

  datatype Option<T> = None | Some(value: T)

  /** The controller's tunable fields.  The two animation curves are total
      functions from their input to their value. */
  datatype Settings = Settings(
    visualMaxSteeringAngle: real,
    steeringCurve: real -> real,
    steerLerpSpeed: real,
    normalWheelFriction: real,
    maxDriftAngleStart: real,
    maxDriftAngleStop: real,
    counterDriftStartSpeed: real,
    counterDriftStopSpeed: real,
    maxCounterDriftAngularAccel: real,
    driftWheelFriction: real,
    brakePower: real,
    torqueCurve: real -> real,
    maxTorque: real,
    initialAccelleration: real,
    initialAccellerationMaxSpeed: real,
    maxSpeed: real)
  {
    /** The divisors in the controller's formulas are non-zero. */
    predicate WellFormed() {
      maxSpeed != 0.0 && counterDriftStopSpeed != 0.0 && maxDriftAngleStop != maxDriftAngleStart
    }
  }

  // ---------------------------------------------------------------- units

  function MetPerSecToKilPerHour(input: real): (r: real)
    ensures r / 3.6 == input
  {
    input * 3.6
  }

  function KilPerHourToMetPerSec(input: real): (r: real)
    ensures r * 3.6 == input
  {
    input / 3.6
  }

  // ---------------------------------------------------------------- brake

  /** The throttle points against the direction of travel. */
  predicate OpposesMotion(gas: real, movingDirection: real) {
    (movingDirection < -0.5 && gas > 0.0) || (movingDirection > 0.5 && gas < 0.0)
  }

  /** Nearly stationary with no meaningful throttle. */
  predicate HoldAtRest(speed: real, gas: real) {
    Abs(speed) < 1.0 && Abs(gas) < 0.25
  }

  /** The brake input chosen each frame from the throttle, the forward
      component of the velocity and the speed. */
  function BrakeCommand(gas: real, movingDirection: real, speed: real): (r: real)
    ensures r >= 0.0
    ensures r > 0.0 <==> OpposesMotion(gas, movingDirection) || HoldAtRest(speed, gas)
    ensures OpposesMotion(gas, movingDirection) ==> r == Abs(gas)
    ensures !OpposesMotion(gas, movingDirection) ==> (r == 1.0 <==> HoldAtRest(speed, gas))
    ensures -1.0 <= gas <= 1.0 ==> r <= 1.0
  {
    if movingDirection < -0.5 && gas > 0.0 then Abs(gas)
    else if movingDirection > 0.5 && gas < 0.0 then Abs(gas)
    else if Abs(speed) < 1.0 && Abs(gas) < 0.25 then 1.0
    else 0.0
  }

  datatype AxleTorque = AxleTorque(front: real, rear: real)

  /** The brake torque of one front and one rear wheel. */
  function BrakeSplit(brakeInput: real, brakePower: real): (r: AxleTorque)
    ensures r.front + r.rear == brakeInput * brakePower
    ensures 3.0 * r.front == 7.0 * r.rear
  {
    AxleTorque(brakeInput * brakePower * 0.7, brakeInput * brakePower * 0.3)
  }

  // ---------------------------------------------------------------- steering

  /** The steering target: input times the speed-dependent curve value, plus
      the heading correction unless the car slides at 120 degrees or more,
      clamped to a quarter turn either way. */
  function TargetSteeringAngle(steeringInput: real, curveAtSpeed: real, slipAngle: real, headingCorrection: real): (r: real)
    ensures -90.0 <= r <= 90.0
    ensures var raw := if slipAngle < 120.0 then steeringInput * curveAtSpeed + headingCorrection
                       else steeringInput * curveAtSpeed;
      && (-90.0 <= raw <= 90.0 ==> r == raw)
      && (raw > 90.0 ==> r == 90.0)
      && (raw < -90.0 ==> r == -90.0)
  {
    var target := steeringInput * curveAtSpeed;
    var corrected := if slipAngle < 120.0 then target + headingCorrection else target;
    Clamp(corrected, -90.0, 90.0)
  }

  /** The smoothed steering angle moves from the previous angle toward the
      target without overshooting, so a quarter-turn bound is kept. */
  lemma SmoothedSteeringInRange(previous: real, target: real, t: real)
    requires -90.0 <= previous <= 90.0 && -90.0 <= target <= 90.0
    ensures -90.0 <= Lerp(previous, target, t) <= 90.0
  {}

  /** Opposite steering inputs give mirrored targets when there is no
      heading correction. */
  lemma TargetSteeringSymmetric(steeringInput: real, curveAtSpeed: real, slipAngle: real)
    ensures TargetSteeringAngle(-steeringInput, curveAtSpeed, slipAngle, 0.0)
         == -TargetSteeringAngle(steeringInput, curveAtSpeed, slipAngle, 0.0)
  {
    assert (-steeringInput) * curveAtSpeed == -(steeringInput * curveAtSpeed);
  }

  // ---------------------------------------------------------------- motor

  /** The motor torque of each rear wheel. */
  function MotorTorque(s: Settings, speed: real, gas: real): (r: real)
    requires s.maxSpeed != 0.0
    ensures gas == 0.0 ==> r == 0.0
    ensures s.torqueCurve(speed / s.maxSpeed) * s.maxTorque >= 0.0 ==> r * gas >= 0.0
  {
    var k := s.torqueCurve(speed / s.maxSpeed) * s.maxTorque;
    SameSignProduct(k, gas);
    k * gas
  }

  lemma SameSignProduct(k: real, g: real)
    ensures k >= 0.0 ==> (k * g) * g >= 0.0
  {
    if k >= 0.0 {
      var gg := g * g;
      assert gg >= 0.0;
      assert (k * g) * g == k * gg;
      MulLeftMono(k, 0.0, gg);
    }
  }

  /** The share of `initialAccelleration` the launch assist still gives at
      `speed`: all of it at rest, none of it from the cutoff speed on. */
  function LaunchAssistFactor(initialAccelleration: real, cutoffSpeed: real, speed: real): (a: real)
    ensures Between(initialAccelleration, 0.0, a)
    ensures speed == 0.0 ==> a == initialAccelleration
  {
    Lerp(initialAccelleration, 0.0, InverseLerp(0.0, cutoffSpeed, speed))
  }

  /** The low-speed forward assist applied at each rear wheel: the fading
      share of `initialAccelleration`, scaled by the throttle and halved
      between the wheels. */
  function LaunchAssist(initialAccelleration: real, cutoffSpeed: real, speed: real, gas: real): (r: real)
    ensures speed == 0.0 ==> r == initialAccelleration * gas * 0.5
    ensures gas == 0.0 ==> r == 0.0
  {
    LaunchAssistFactor(initialAccelleration, cutoffSpeed, speed) * gas * 0.5
  }

  /** The assist never exceeds what it gives at rest, in either direction. */
  lemma LaunchAssistBounded(initialAccelleration: real, cutoffSpeed: real, speed: real, gas: real)
    ensures Abs(LaunchAssist(initialAccelleration, cutoffSpeed, speed, gas)) <= Abs(initialAccelleration * gas * 0.5)
  {
    var a := LaunchAssistFactor(initialAccelleration, cutoffSpeed, speed);
    var g := gas * 0.5;
    AbsMulMono(a, initialAccelleration, g);
    var r, full := a * g, initialAccelleration * g;
    assert Abs(r) <= Abs(full);
    assert LaunchAssist(initialAccelleration, cutoffSpeed, speed, gas) == r;
    assert initialAccelleration * gas * 0.5 == full;
  }

  lemma AbsMulMono(a: real, b: real, g: real)
    requires Abs(a) <= Abs(b)
    ensures Abs(a * g) <= Abs(b * g)
  {
    calc {
      Abs(a * g);
    == { AbsMul(a, g); }
      Abs(a) * Abs(g);
    <= { MulRightMono(Abs(a), Abs(b), Abs(g)); }
      Abs(b) * Abs(g);
    == { AbsMul(b, g); }
      Abs(b * g);
    }
  }

  lemma AbsMul(a: real, g: real)
    ensures Abs(a * g) == Abs(a) * Abs(g)
  {
    if a >= 0.0 && g >= 0.0 {
      MulLeftMono(a, 0.0, g);
    } else if a >= 0.0 {
      MulLeftMono(a, g, 0.0);
      assert a * g == -(a * -g);
    } else if g >= 0.0 {
      MulRightMono(a, 0.0, g);
      assert a * g == -(-a * g);
    } else {
      MulLeftMono(-a, 0.0, -g);
      assert a * g == -a * -g;
    }
  }

  /** Past the cutoff speed the assist has faded out completely. */
  lemma LaunchAssistVanishesAtCutoff(initialAccelleration: real, cutoffSpeed: real, speed: real, gas: real)
    requires 0.0 < cutoffSpeed <= speed
    ensures LaunchAssist(initialAccelleration, cutoffSpeed, speed, gas) == 0.0
  {
    DivMono(cutoffSpeed, speed, cutoffSpeed);
    assert LaunchAssistFactor(initialAccelleration, cutoffSpeed, speed) == 0.0;
  }

  /** A positive assist share shrinks as the car speeds up. */
  lemma LaunchAssistFactorFades(initialAccelleration: real, cutoffSpeed: real, speed1: real, speed2: real)
    requires 0.0 < cutoffSpeed && speed1 <= speed2 && initialAccelleration >= 0.0
    ensures LaunchAssistFactor(initialAccelleration, cutoffSpeed, speed2)
         <= LaunchAssistFactor(initialAccelleration, cutoffSpeed, speed1)
  {
    var i1, i2 := InverseLerp(0.0, cutoffSpeed, speed1), InverseLerp(0.0, cutoffSpeed, speed2);
    InverseLerpMonotone(0.0, cutoffSpeed, speed1, speed2);
    LerpAntitone(initialAccelleration, 0.0, i1, i2);
  }

  /** For forward throttle and a positive assist, the assist never grows as
      the car speeds up. */
  lemma LaunchAssistFades(initialAccelleration: real, cutoffSpeed: real, speed1: real, speed2: real, gas: real)
    requires 0.0 < cutoffSpeed && speed1 <= speed2
    requires initialAccelleration >= 0.0 && gas >= 0.0
    ensures LaunchAssist(initialAccelleration, cutoffSpeed, speed2, gas)
         <= LaunchAssist(initialAccelleration, cutoffSpeed, speed1, gas)
  {
    LaunchAssistFactorFades(initialAccelleration, cutoffSpeed, speed1, speed2);
    var a1 := LaunchAssistFactor(initialAccelleration, cutoffSpeed, speed1);
    var a2 := LaunchAssistFactor(initialAccelleration, cutoffSpeed, speed2);
    ThrottleScaleMono(a2, a1, gas);
    var f1, f2 := a1 * gas * 0.5, a2 * gas * 0.5;
    assert f2 <= f1;
    assert LaunchAssist(initialAccelleration, cutoffSpeed, speed1, gas) == f1;
    assert LaunchAssist(initialAccelleration, cutoffSpeed, speed2, gas) == f2;
  }

  lemma ThrottleScaleMono(x: real, y: real, gas: real)
    requires x <= y && gas >= 0.0
    ensures x * gas * 0.5 <= y * gas * 0.5
  {
    MulRightMono(x, y, gas);
  }

  // ---------------------------------------------------------------- counter-drift

  /** How far the speed has ramped the counter-drift in, as the source writes
      it: the argument is `speed - start / stop - start`, which, by operator
      precedence, is not `(speed - start) / (stop - start)`. */
  function SpeedModifier(s: Settings, speed: real): (r: real)
    requires s.counterDriftStopSpeed != 0.0
    ensures 0.0 <= r <= 1.0
    ensures var rampStart := s.counterDriftStartSpeed + s.counterDriftStartSpeed / s.counterDriftStopSpeed;
      && (speed <= rampStart ==> r == 0.0)
      && (rampStart <= speed <= rampStart + 1.0 ==> r == speed - rampStart)
      && (speed >= rampStart + 1.0 ==> r == 1.0)
  {
    Lerp(0.0, 1.0, speed - s.counterDriftStartSpeed / s.counterDriftStopSpeed - s.counterDriftStartSpeed)
  }

  /** How far the slip angle has moved through the start..stop band, in
      [0, 1]. */
  function DriftProgress(s: Settings, slipAngle: real): (r: real)
    requires s.maxDriftAngleStop != s.maxDriftAngleStart
    ensures 0.0 <= r <= 1.0
    ensures s.maxDriftAngleStart < s.maxDriftAngleStop && slipAngle <= s.maxDriftAngleStart ==> r == 0.0
    ensures s.maxDriftAngleStart < s.maxDriftAngleStop && slipAngle >= s.maxDriftAngleStop ==> r == 1.0
  {
    BandFraction(slipAngle, s.maxDriftAngleStart, s.maxDriftAngleStop);
    Lerp(0.0, 1.0, (slipAngle - s.maxDriftAngleStart) / (s.maxDriftAngleStop - s.maxDriftAngleStart))
  }

  lemma BandFraction(x: real, start: real, stop: real)
    requires start != stop
    ensures start < stop && x <= start ==> (x - start) / (stop - start) <= 0.0
    ensures start < stop && x >= stop ==> (x - start) / (stop - start) >= 1.0
  {
    var d := stop - start;
    if d > 0.0 && x <= start {
      DivMono(x - start, 0.0, d);
    }
    if d > 0.0 && x >= stop {
      DivMono(d, x - start, d);
    }
  }

  /** The magnitude of the counter-drift torque: the squared drift progress
      times the maximum angular acceleration times the speed modifier. */
  function CounterDriftMagnitude(s: Settings, slipAngle: real, speed: real): (r: real)
    requires s.counterDriftStopSpeed != 0.0 && s.maxDriftAngleStop != s.maxDriftAngleStart
    ensures s.maxCounterDriftAngularAccel >= 0.0 ==> 0.0 <= r <= s.maxCounterDriftAngularAccel
  {
    var p := Square(DriftProgress(s, slipAngle));
    var m := SpeedModifier(s, speed);
    var a := s.maxCounterDriftAngularAccel;
    SquareMonotone(DriftProgress(s, slipAngle), 1.0);
    FractionOfFraction(a, p, m);
    p * a * m
  }

  lemma FractionOfFraction(a: real, p: real, m: real)
    requires 0.0 <= p <= 1.0 && 0.0 <= m <= 1.0
    ensures a >= 0.0 ==> 0.0 <= p * a * m <= a
  {
    if a >= 0.0 {
      FractionOf(a, p);
      FractionOf(p * a, m);
      assert m * (p * a) == p * a * m;
    }
  }

  /** The drift progress grows with the slip angle. */
  lemma DriftProgressMonotone(s: Settings, slip1: real, slip2: real)
    requires s.maxDriftAngleStart < s.maxDriftAngleStop && slip1 <= slip2
    ensures DriftProgress(s, slip1) <= DriftProgress(s, slip2)
  {
    var d := s.maxDriftAngleStop - s.maxDriftAngleStart;
    DivMono(slip1 - s.maxDriftAngleStart, slip2 - s.maxDriftAngleStart, d);
    LerpMonotone(0.0, 1.0, (slip1 - s.maxDriftAngleStart) / d, (slip2 - s.maxDriftAngleStart) / d);
  }

  /** A wider slip never yields a smaller counter-drift torque. */
  lemma CounterDriftMonotoneInSlip(s: Settings, slip1: real, slip2: real, speed: real)
    requires s.counterDriftStopSpeed != 0.0 && s.maxDriftAngleStart < s.maxDriftAngleStop
    requires s.maxCounterDriftAngularAccel >= 0.0 && slip1 <= slip2
    ensures CounterDriftMagnitude(s, slip1, speed) <= CounterDriftMagnitude(s, slip2, speed)
  {
    var p1, p2 := DriftProgress(s, slip1), DriftProgress(s, slip2);
    var q1, q2 := Square(p1), Square(p2);
    var a, m := s.maxCounterDriftAngularAccel, SpeedModifier(s, speed);
    assert q1 <= q2 by {
      DriftProgressMonotone(s, slip1, slip2);
      SquareMonotone(p1, p2);
    }
    calc {
      CounterDriftMagnitude(s, slip1, speed);
    == { CounterDriftMagnitudeFactors(s, slip1, speed); }
      q1 * a * m;
    <= { ScaledProductMono(q1, q2, a, m); }
      q2 * a * m;
    == { CounterDriftMagnitudeFactors(s, slip2, speed); }
      CounterDriftMagnitude(s, slip2, speed);
    }
  }

  lemma CounterDriftMagnitudeFactors(s: Settings, slipAngle: real, speed: real)
    requires s.counterDriftStopSpeed != 0.0 && s.maxDriftAngleStop != s.maxDriftAngleStart
    ensures CounterDriftMagnitude(s, slipAngle, speed)
         == Square(DriftProgress(s, slipAngle)) * s.maxCounterDriftAngularAccel * SpeedModifier(s, speed)
  {}

  lemma ScaledProductMono(x1: real, x2: real, a: real, m: real)
    requires x1 <= x2 && a >= 0.0 && m >= 0.0
    ensures x1 * a * m <= x2 * a * m
  {
    var y1, y2 := x1 * a, x2 * a;
    MulRightMono(x1, x2, a);
    assert y1 <= y2;
    MulRightMono(y1, y2, m);
  }

  /** Beyond the stop angle the counter-drift torque is saturated. */
  lemma CounterDriftSaturates(s: Settings, slipAngle: real, speed: real)
    requires s.counterDriftStopSpeed != 0.0 && s.maxDriftAngleStart < s.maxDriftAngleStop
    requires slipAngle >= s.maxDriftAngleStop
    ensures CounterDriftMagnitude(s, slipAngle, speed) == s.maxCounterDriftAngularAccel * SpeedModifier(s, speed)
  {
    assert DriftProgress(s, slipAngle) == 1.0;
    assert Square(1.0) == 1.0;
  }

  /** At or below the start angle there is no counter-drift torque. */
  lemma CounterDriftZeroBelowStart(s: Settings, slipAngle: real, speed: real)
    requires s.counterDriftStopSpeed != 0.0 && s.maxDriftAngleStart < s.maxDriftAngleStop
    requires slipAngle <= s.maxDriftAngleStart
    ensures CounterDriftMagnitude(s, slipAngle, speed) == 0.0
  {
    assert DriftProgress(s, slipAngle) == 0.0;
    assert Square(0.0) == 0.0;
  }

  /** With the default speeds (start 5, stop 10) the modifier is already 1 at
      6.5, where the linear ramp from 5 to 10 would stand at 0.3. */
  lemma SpeedModifierPrecedence(s: Settings)
    requires s.counterDriftStartSpeed == 5.0 && s.counterDriftStopSpeed == 10.0
    ensures SpeedModifier(s, 6.5) == 1.0
    ensures Lerp(0.0, 1.0, (6.5 - 5.0) / (10.0 - 5.0)) == 0.3
  {}

  /** Math.Round sends -0.5 up to 0 (its even neighbour), so a value rounds to
      a non-negative integer exactly when it is at least -0.5. */
  lemma RoundsToNonNegative(f: real)
    ensures RoundToInt(f) >= 0 <==> f >= -0.5
  {
    var below := f.Floor;
    if f >= -0.5 {
      if below == -1 {
        assert f - below as real >= 0.5;
      }
    } else {
      assert below <= -1;
      if below == -1 {
        assert f - below as real < 0.5;
      }
    }
  }

  /** The rigid-body motion the fixed step reads, already reduced to scalars:
      the velocity along the car's right and forward axes and the yaw rate. */
  datatype BodyMotion = BodyMotion(lateralVelocity: real, forwardVelocity: real, angularVelocityY: real)

  /** The sign the counter-drift torque is applied with: toward the side the
      car slides to (only when the sideways speed exceeds 1; otherwise the
      other way), and 0 when the car already yaws that way while not rolling
      backwards. */
  function CounterDriftDirection(motion: BodyMotion): (d: int)
    ensures d == -1 || d == 0 || d == 1
    ensures d != 0 ==> d == (if motion.lateralVelocity > 1.0 then 1 else -1)
    ensures d == 0 <==>
      (Sign(motion.angularVelocityY) == (if motion.lateralVelocity > 1.0 then 1.0 else -1.0)
       && motion.forwardVelocity >= -0.5)
  {
    var direction := if motion.lateralVelocity > 1.0 then 1 else -1;
    RoundsToNonNegative(motion.forwardVelocity);
    if RoundToInt(Sign(motion.angularVelocityY)) == direction
       && Sign(RoundToInt(motion.forwardVelocity) as real) != -1.0
    then 0
    else direction
  }

  /** All conditions under which the fixed step applies the counter-drift
      torque. */
  predicate CounterDriftActive(s: Settings, slipAngle: real, driftInput: bool, gasInput: real,
                               fullyGrounded: bool, speed: real)
    ensures !driftInput || gasInput == 0.0 || !fullyGrounded
            ==> !CounterDriftActive(s, slipAngle, driftInput, gasInput, fullyGrounded, speed)
    ensures CounterDriftActive(s, slipAngle, driftInput, gasInput, fullyGrounded, speed)
            ==> slipAngle > s.maxDriftAngleStart && speed > s.counterDriftStartSpeed
  {
    slipAngle > s.maxDriftAngleStart && driftInput && gasInput != 0.0 && fullyGrounded
    && speed > s.counterDriftStartSpeed
  }

  /** The yaw acceleration the fixed step applies about the car's up axis,
      or None when it applies nothing. */
  function CounterDriftTorque(s: Settings, slipAngle: real, driftInput: bool, gasInput: real,
                              fullyGrounded: bool, speed: real, motion: BodyMotion): (r: Option<real>)
    requires s.counterDriftStopSpeed != 0.0 && s.maxDriftAngleStop != s.maxDriftAngleStart
    ensures r.Some? <==> CounterDriftActive(s, slipAngle, driftInput, gasInput, fullyGrounded, speed)
    ensures r.Some? ==> r.value == CounterDriftMagnitude(s, slipAngle, speed) * CounterDriftDirection(motion) as real
    ensures r.Some? && s.maxCounterDriftAngularAccel >= 0.0 ==> Abs(r.value) <= s.maxCounterDriftAngularAccel
    ensures r.Some? && CounterDriftDirection(motion) == 0 ==> r.value == 0.0
  {
    if CounterDriftActive(s, slipAngle, driftInput, gasInput, fullyGrounded, speed) then
      var magnitude := CounterDriftMagnitude(s, slipAngle, speed);
      var direction := CounterDriftDirection(motion);
      Some(magnitude * direction as real)
    else
      None
  }

  /** While active, the yaw acceleration is any value equal to the magnitude
      signed by any value equal to the direction. */
  lemma CounterDriftTorqueValue(s: Settings, slipAngle: real, driftInput: bool, gasInput: real,
                                fullyGrounded: bool, speed: real, motion: BodyMotion,
                                magnitude: real, direction: int)
    requires s.counterDriftStopSpeed != 0.0 && s.maxDriftAngleStop != s.maxDriftAngleStart
    requires CounterDriftActive(s, slipAngle, driftInput, gasInput, fullyGrounded, speed)
    requires magnitude == CounterDriftMagnitude(s, slipAngle, speed)
    requires direction == CounterDriftDirection(motion)
    ensures CounterDriftTorque(s, slipAngle, driftInput, gasInput, fullyGrounded, speed, motion)
         == Some(magnitude * direction as real)
  {}

  // ---------------------------------------------------------------- wheel visuals

  /** The degrees a wheel turning at `rpm` revolutions per minute rolls
      through in `deltaTime` seconds, with the source's 0.016666 for 1/60. */
  function SpinAdvance(rpm: real, deltaTime: real): (r: real)
    ensures rpm == 0.0 || deltaTime == 0.0 ==> r == 0.0
    ensures rpm >= 0.0 && deltaTime >= 0.0 ==> r >= 0.0
    ensures rpm <= 0.0 && deltaTime >= 0.0 ==> r <= 0.0
  {
    var perSecond := rpm * 0.016666 * 360.0;
    ProductSign(perSecond, deltaTime);
    perSecond * deltaTime
  }

  lemma ProductSign(x: real, m: real)
    ensures m >= 0.0 && x >= 0.0 ==> x * m >= 0.0
    ensures m >= 0.0 && x <= 0.0 ==> x * m <= 0.0
  {
    if m >= 0.0 && x >= 0.0 {
      MulRightMono(0.0, x, m);
    }
    if m >= 0.0 && x <= 0.0 {
      MulRightMono(x, 0.0, m);
    }
  }

  /** Because 0.016666 is short of 1/60, a turning wheel always rolls a
      little less than the 6 degrees per rpm and second it should: one
      revolution per second for one second comes 0.0144 short of a turn. */
  lemma SpinAdvanceShortOfFullTurn(rpm: real, deltaTime: real)
    ensures SpinAdvance(rpm, deltaTime) == 6.0 * rpm * deltaTime - 0.00024 * rpm * deltaTime
    ensures rpm * deltaTime > 0.0 ==> SpinAdvance(rpm, deltaTime) < 6.0 * rpm * deltaTime
    ensures SpinAdvance(60.0, 1.0) == 359.98560
  {
    var p := rpm * deltaTime;
    calc {
      SpinAdvance(rpm, deltaTime);
    ==
      rpm * 0.016666 * 360.0 * deltaTime;
    ==
      5.99976 * p;
    ==
      6.0 * p - 0.00024 * p;
    }
    if p > 0.0 {
      MulRightStrict(0.0, 0.00024, p);
    }
  }

  /** The rolling phase of a visual wheel after one frame: the previous phase
      advanced by the frame's roll and reduced by C#'s `% 360`. */
  function NextSpinPhase(previous: real, rpm: real, deltaTime: real): (r: real)
    ensures -360.0 < r < 360.0
    ensures var advanced := previous + SpinAdvance(rpm, deltaTime);
      (advanced >= 0.0 ==> r >= 0.0) && (advanced <= 0.0 ==> r <= 0.0)
      && (-360.0 < advanced < 360.0 ==> r == advanced)
      && WholeTurns(advanced - r)
  {
    FloatRem360(previous + SpinAdvance(rpm, deltaTime))
  }

  /** Whole turns are dropped: on non-negative angles the reduction is
      periodic with period 360. */
  lemma FloatRem360Periodic(x: real)
    requires x >= 0.0
    ensures FloatRem360(x + 360.0) == FloatRem360(x)
  {
    var q := x / 360.0;
    assert (x + 360.0) / 360.0 == q + 1.0;
    assert Truncate(q + 1.0) == Truncate(q) + 1 by {
      assert (q + 1.0).Floor == q.Floor + 1;
    }
  }

  /** A wheel's smoke plays when its combined slip exceeds the allowance. */
  predicate SmokeOn(hit: WheelHit)
    ensures Abs(hit.sidewaysSlip) > 0.5 || Abs(hit.forwardSlip) > 0.5 ==> SmokeOn(hit)
    ensures Abs(hit.sidewaysSlip) <= 0.25 && Abs(hit.forwardSlip) <= 0.25 ==> !SmokeOn(hit)
  {
    Abs(hit.sidewaysSlip) + Abs(hit.forwardSlip) > 0.5
  }

  /** More slip in both directions never switches the smoke off. */
  lemma SmokeMonotone(h1: WheelHit, h2: WheelHit)
    requires Abs(h1.sidewaysSlip) <= Abs(h2.sidewaysSlip) && Abs(h1.forwardSlip) <= Abs(h2.forwardSlip)
    ensures SmokeOn(h1) ==> SmokeOn(h2)
  {}
}
