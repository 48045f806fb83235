/** The car controller as the object the engine drives: its per-frame state,
    the wheel and particle handles it writes to, the visual-rate `Update` and
    the physics-rate `FixedUpdate`.  Each step writes the same fields and
    command slots as the source, in the same order, and is proved against the
    functions of CarLogic. */
module Controller {
  import opened Mathf
  import opened Engine
  import opened CarLogic

  /** The four physics wheels, by position. */
  class WheelColliders {
    const FL: WheelCollider
    const FR: WheelCollider
    const RL: WheelCollider
    const RR: WheelCollider

    constructor (fl: WheelCollider, fr: WheelCollider, rl: WheelCollider, rr: WheelCollider)
      ensures FL == fl && FR == fr && RL == rl && RR == rr
    {
      FL, FR, RL, RR := fl, fr, rl, rr;
    }

    /** Four different colliders. */
    predicate Distinct() {
      FL != FR && FL != RL && FL != RR && FR != RL && FR != RR && RL != RR
    }

    function All(): set<WheelCollider> {
      {FL, FR, RL, RR}
    }
  }

  /** The four smoke emitters, by position; any of them may be missing. */
  class WheelParticles {
    const FL: ParticleSystem?
    const FR: ParticleSystem?
    const RL: ParticleSystem?
    const RR: ParticleSystem?

    constructor (fl: ParticleSystem?, fr: ParticleSystem?, rl: ParticleSystem?, rr: ParticleSystem?)
      ensures FL == fl && FR == fr && RL == rl && RR == rr
    {
      FL, FR, RL, RR := fl, fr, rl, rr;
    }

    /** All four emitters are present. */
    predicate ParticlesExist()
      ensures ParticlesExist() <==> null !in Slots()
    {
      FL != null && FR != null && RL != null && RR != null
    }

    /** The emitters that are present are four different objects (the smoke
        set-up instantiates one per wheel). */
    predicate Distinct() {
      ParticlesExist() ==> FL != FR && FL != RL && FL != RR && FR != RL && FR != RR && RL != RR
    }

    /** The four emitter slots; a missing emitter adds only `null`, which no
        frame ever touches. */
    function Slots(): set<ParticleSystem?> {
      {FL, FR, RL, RR}
    }
  }

  /** One frame of driver input. */
  datatype InputSample = InputSample(gas: real, steering: real, drift: bool, boost: bool)

  /** What the visual step reads from the rigid body, already reduced to
      scalars: the speed (velocity magnitude), the slip angle (angle between
      forward and velocity minus forward), the forward component of the
      velocity, and the signed angle about the up axis between forward and
      velocity plus forward. */
  datatype FrameSample = FrameSample(speed: real, slipAngle: real, movingDirection: real, headingCorrection: real)

  /** A visual wheel's rotation relative to the car body, as Euler angles:
      the rolling phase about the axle and the steer angle about the up axis. */
  datatype WheelPose = WheelPose(spin: real, steer: real)

  /** The launch-assist force amounts at the two rear force points. */
  datatype RearForces = RearForces(left: real, right: real)

  /** The rolling phase recorded for a wheel, 0 for a wheel not seen yet. */
  function PhaseOf(rotations: map<WheelCollider, real>, w: WheelCollider): (r: real)
    ensures w !in rotations ==> r == 0.0
    ensures (forall v :: v in rotations ==> -360.0 < rotations[v] < 360.0) ==> -360.0 < r < 360.0
  {
    if w in rotations then rotations[w] else 0.0
  }

  class CarController {
    const settings: Settings
    const wheelColliders: WheelColliders
    const wheelParticles: WheelParticles

    var slipAngle: real
    var gasInput: real
    var brakeInput: real
    var steeringInput: real
    var boostInput: bool
    var driftInput: bool
    var targetSteeringAngle: real
    var steeringAngle: real
    /** Rolling phase of each visual wheel, keyed by its collider. */
    var visualWheelRotations: map<WheelCollider, real>
    var speed: real

    ghost predicate Valid()
      reads this`targetSteeringAngle, this`steeringAngle, this`visualWheelRotations
    {
      && settings.WellFormed()
      && wheelColliders.Distinct()
      && wheelParticles.Distinct()
      && -90.0 <= targetSteeringAngle <= 90.0
      && -90.0 <= steeringAngle <= 90.0
      && forall w :: w in visualWheelRotations ==> -360.0 < visualWheelRotations[w] < 360.0
    }

    constructor (settings: Settings, wheelColliders: WheelColliders, wheelParticles: WheelParticles)
      requires settings.WellFormed()
      requires wheelColliders.Distinct() && wheelParticles.Distinct()
      ensures Valid()
      ensures this.settings == settings && this.wheelColliders == wheelColliders
      ensures this.wheelParticles == wheelParticles
      ensures steeringAngle == 0.0 && targetSteeringAngle == 0.0 && brakeInput == 0.0
      ensures visualWheelRotations == map[]
      ensures speed == 0.0 && slipAngle == 0.0 && gasInput == 0.0 && steeringInput == 0.0
      ensures !driftInput && !boostInput
    {
      this.settings := settings;
      this.wheelColliders := wheelColliders;
      this.wheelParticles := wheelParticles;
      slipAngle, gasInput, brakeInput, steeringInput := 0.0, 0.0, 0.0, 0.0;
      boostInput, driftInput := false, false;
      targetSteeringAngle, steeringAngle := 0.0, 0.0;
      visualWheelRotations := map[];
      speed := 0.0;
    }

    /** Each emitter plays exactly when its own wheel slips past the
        allowance. */
    predicate SmokeFollowsSlip()
      requires wheelParticles.ParticlesExist()
      reads wheelParticles.Slots(), wheelColliders.All()
    {
      && wheelParticles.FR.isPlaying == SmokeOn(wheelColliders.FR.groundHit)
      && wheelParticles.FL.isPlaying == SmokeOn(wheelColliders.FL.groundHit)
      && wheelParticles.RR.isPlaying == SmokeOn(wheelColliders.RR.groundHit)
      && wheelParticles.RL.isPlaying == SmokeOn(wheelColliders.RL.groundHit)
    }

    /** All four wheels touch the ground. */
    predicate FullyGrounded()
      reads wheelColliders.All()
      ensures FullyGrounded() <==> forall w :: w in wheelColliders.All() ==> w.isGrounded
    {
      wheelColliders.FL.isGrounded && wheelColliders.FR.isGrounded
      && wheelColliders.RL.isGrounded && wheelColliders.RR.isGrounded
    }

    // ------------------------------------------------------------ visual step

    /** One rendered frame: apply the driver's controls to the wheels, switch
        the smoke if all four emitters exist, and place the visual wheels. */
    method Update(input: InputSample, frame: FrameSample, deltaTime: real) returns (fr: WheelPose, fl: WheelPose, rr: WheelPose, rl: WheelPose)
      requires Valid()
      modifies this, wheelColliders.FR`steerAngle, wheelColliders.FL`steerAngle, wheelColliders.All()`brakeTorque
      modifies wheelColliders.RR`sidewaysFriction, wheelColliders.RL`sidewaysFriction, wheelParticles.Slots()`isPlaying
      ensures Valid()
      ensures Controlled(input, frame, deltaTime, old(steeringAngle),
                         old(wheelColliders.RR.sidewaysFriction), old(wheelColliders.RL.sidewaysFriction))
      ensures Between(old(steeringAngle), targetSteeringAngle, steeringAngle)
      ensures wheelColliders.FR.sidewaysFriction == old(wheelColliders.FR.sidewaysFriction)
      ensures wheelColliders.FL.sidewaysFriction == old(wheelColliders.FL.sidewaysFriction)
      ensures wheelParticles.ParticlesExist() ==> SmokeFollowsSlip()
      ensures !wheelParticles.ParticlesExist() ==> forall p :: p in wheelParticles.Slots() && p != null ==> unchanged(p)
      ensures WheelsPlaced(old(visualWheelRotations), deltaTime, fr, fl, rr, rl)
      ensures forall w :: w in wheelColliders.All() ==> w in visualWheelRotations
      ensures fr.steer == fl.steer == steeringAngle
    {
      ApplyControls(input, frame, deltaTime);
      if wheelParticles.ParticlesExist() {
        CheckParticles();
      }
      fr, fl, rr, rl := ApplyWheelPositions(deltaTime);
    }

    /** The state the control half of a frame leaves behind: the frame's
        speed, slip angle and input latched, the brake input chosen from
        them, the steering aimed, the angle eased from `steeringBefore` toward
        the target over `deltaTime`, both front wheels steered by it, the
        brake torque split, and the rear friction curves `rrBefore` and `rlBefore` given
        the drift or the grip stiffness with their other parameters kept. */
    ghost predicate Controlled(input: InputSample, frame: FrameSample, deltaTime: real, steeringBefore: real,
                               rrBefore: WheelFrictionCurve, rlBefore: WheelFrictionCurve)
      reads this, wheelColliders.All()
    {
      && speed == frame.speed && slipAngle == frame.slipAngle
      && gasInput == input.gas && steeringInput == input.steering
      && driftInput == input.drift && boostInput == input.boost
      && brakeInput == BrakeCommand(input.gas, frame.movingDirection, frame.speed)
      && targetSteeringAngle
         == TargetSteeringAngle(input.steering, settings.steeringCurve(frame.speed), frame.slipAngle, frame.headingCorrection)
      && steeringAngle == Lerp(steeringBefore, targetSteeringAngle, deltaTime * settings.steerLerpSpeed)
      && wheelColliders.FR.steerAngle == steeringAngle && wheelColliders.FL.steerAngle == steeringAngle
      && wheelColliders.FR.brakeTorque == wheelColliders.FL.brakeTorque == BrakeSplit(brakeInput, settings.brakePower).front
      && wheelColliders.RR.brakeTorque == wheelColliders.RL.brakeTorque == BrakeSplit(brakeInput, settings.brakePower).rear
      && wheelColliders.RR.sidewaysFriction
         == rrBefore.(stiffness := if input.drift then settings.driftWheelFriction else settings.normalWheelFriction)
      && wheelColliders.RL.sidewaysFriction
         == rlBefore.(stiffness := if input.drift then settings.driftWheelFriction else settings.normalWheelFriction)
    }

    /** The control half of a frame: take the speed, read the input, then set
        the rear friction, the steering and the brakes. */
    method ApplyControls(input: InputSample, frame: FrameSample, deltaTime: real)
      requires Valid()
      modifies this, wheelColliders.FR`steerAngle, wheelColliders.FL`steerAngle, wheelColliders.All()`brakeTorque
      modifies wheelColliders.RR`sidewaysFriction, wheelColliders.RL`sidewaysFriction
      ensures Valid()
      ensures Controlled(input, frame, deltaTime, old(steeringAngle),
                         old(wheelColliders.RR.sidewaysFriction), old(wheelColliders.RL.sidewaysFriction))
      ensures Between(old(steeringAngle), targetSteeringAngle, steeringAngle)
      ensures wheelColliders.FR.sidewaysFriction == old(wheelColliders.FR.sidewaysFriction)
      ensures wheelColliders.FL.sidewaysFriction == old(wheelColliders.FL.sidewaysFriction)
      ensures unchanged(this`visualWheelRotations)
    {
      speed := frame.speed;
      CheckInput(input, frame);
      ApplyDrift();
      ApplySteering(deltaTime, frame.headingCorrection);
      ApplyBrake();
    }

    /** Latch the frame's input and slip angle and choose the brake input. */
    method CheckInput(input: InputSample, frame: FrameSample)
      modifies this`gasInput, this`steeringInput, this`slipAngle, this`driftInput, this`boostInput, this`brakeInput
      ensures gasInput == input.gas && steeringInput == input.steering
      ensures driftInput == input.drift && boostInput == input.boost
      ensures slipAngle == frame.slipAngle
      ensures brakeInput == BrakeCommand(input.gas, frame.movingDirection, speed)
    {
      gasInput := input.gas;
      steeringInput := input.steering;
      slipAngle := frame.slipAngle;
      driftInput := input.drift;
      boostInput := input.boost;
      var movingDirection := frame.movingDirection;
      if movingDirection < -0.5 && gasInput > 0.0 {
        brakeInput := Abs(gasInput);
      } else if movingDirection > 0.5 && gasInput < 0.0 {
        brakeInput := Abs(gasInput);
      } else if Abs(speed) < 1.0 && Abs(gasInput) < 0.25 {
        brakeInput := 1.0;
      } else {
        brakeInput := 0.0;
      }
    }

    /** Split the brake input 70/30 between the front and rear axles. */
    method ApplyBrake()
      requires wheelColliders.Distinct()
      modifies wheelColliders.FR`brakeTorque, wheelColliders.FL`brakeTorque
      modifies wheelColliders.RR`brakeTorque, wheelColliders.RL`brakeTorque
      ensures wheelColliders.FR.brakeTorque == wheelColliders.FL.brakeTorque == BrakeSplit(brakeInput, settings.brakePower).front
      ensures wheelColliders.RR.brakeTorque == wheelColliders.RL.brakeTorque == BrakeSplit(brakeInput, settings.brakePower).rear
    {
      wheelColliders.FR.brakeTorque := brakeInput * settings.brakePower * 0.7;
      wheelColliders.FL.brakeTorque := brakeInput * settings.brakePower * 0.7;
      wheelColliders.RR.brakeTorque := brakeInput * settings.brakePower * 0.3;
      wheelColliders.RL.brakeTorque := brakeInput * settings.brakePower * 0.3;
    }

    /** Give both rear wheels the drift or the normal sideways stiffness,
        keeping the rest of their friction curves. */
    method ApplyDrift()
      modifies wheelColliders.RR`sidewaysFriction, wheelColliders.RL`sidewaysFriction
      ensures wheelColliders.RR.sidewaysFriction == old(wheelColliders.RR.sidewaysFriction).(
        stiffness := if driftInput then settings.driftWheelFriction else settings.normalWheelFriction)
      ensures wheelColliders.RL.sidewaysFriction == old(wheelColliders.RL.sidewaysFriction).(
        stiffness := if driftInput then settings.driftWheelFriction else settings.normalWheelFriction)
    {
      var rrFriction := wheelColliders.RR.sidewaysFriction;
      var rlFriction := wheelColliders.RL.sidewaysFriction;
      if driftInput {
        rrFriction := rrFriction.(stiffness := settings.driftWheelFriction);
        rlFriction := rlFriction.(stiffness := settings.driftWheelFriction);
        wheelColliders.RR.sidewaysFriction := rrFriction;
        wheelColliders.RL.sidewaysFriction := rlFriction;
      } else {
        rrFriction := rrFriction.(stiffness := settings.normalWheelFriction);
        rlFriction := rlFriction.(stiffness := settings.normalWheelFriction);
        wheelColliders.RR.sidewaysFriction := rrFriction;
        wheelColliders.RL.sidewaysFriction := rlFriction;
      }
    }

    /** Aim the steering, ease the steering angle toward the aim and steer
        both front wheels by it. */
    method ApplySteering(deltaTime: real, headingCorrection: real)
      requires Valid()
      modifies this`targetSteeringAngle, this`steeringAngle
      modifies wheelColliders.FR`steerAngle, wheelColliders.FL`steerAngle
      ensures Valid()
      ensures targetSteeringAngle
           == TargetSteeringAngle(steeringInput, settings.steeringCurve(speed), slipAngle, headingCorrection)
      ensures steeringAngle == Lerp(old(steeringAngle), targetSteeringAngle, deltaTime * settings.steerLerpSpeed)
      ensures Between(old(steeringAngle), targetSteeringAngle, steeringAngle)
      ensures wheelColliders.FR.steerAngle == steeringAngle && wheelColliders.FL.steerAngle == steeringAngle
    {
      targetSteeringAngle := steeringInput * settings.steeringCurve(speed);
      if slipAngle < 120.0 {
        targetSteeringAngle := targetSteeringAngle + headingCorrection;
      }
      targetSteeringAngle := Clamp(targetSteeringAngle, -90.0, 90.0);
      assert targetSteeringAngle
          == TargetSteeringAngle(steeringInput, settings.steeringCurve(speed), slipAngle, headingCorrection);
      SmoothedSteeringInRange(steeringAngle, targetSteeringAngle, deltaTime * settings.steerLerpSpeed);
      steeringAngle := Lerp(steeringAngle, targetSteeringAngle, deltaTime * settings.steerLerpSpeed);
      wheelColliders.FR.steerAngle := steeringAngle;
      wheelColliders.FL.steerAngle := steeringAngle;
    }

    /** Switch each wheel's smoke on or off by its own slip. */
    method CheckParticles()
      requires wheelParticles.ParticlesExist() && wheelParticles.Distinct()
      modifies wheelParticles.FR`isPlaying, wheelParticles.FL`isPlaying
      modifies wheelParticles.RR`isPlaying, wheelParticles.RL`isPlaying
      ensures wheelParticles.FR.isPlaying == SmokeOn(wheelColliders.FR.groundHit)
      ensures wheelParticles.FL.isPlaying == SmokeOn(wheelColliders.FL.groundHit)
      ensures wheelParticles.RR.isPlaying == SmokeOn(wheelColliders.RR.groundHit)
      ensures wheelParticles.RL.isPlaying == SmokeOn(wheelColliders.RL.groundHit)
    {
      var hits := [wheelColliders.FR.groundHit, wheelColliders.FL.groundHit,
                   wheelColliders.RR.groundHit, wheelColliders.RL.groundHit];
      var slipAllowance := 0.5;
      if Abs(hits[0].sidewaysSlip) + Abs(hits[0].forwardSlip) > slipAllowance {
        wheelParticles.FR.isPlaying := true;
      } else {
        wheelParticles.FR.isPlaying := false;
      }
      if Abs(hits[1].sidewaysSlip) + Abs(hits[1].forwardSlip) > slipAllowance {
        wheelParticles.FL.isPlaying := true;
      } else {
        wheelParticles.FL.isPlaying := false;
      }
      if Abs(hits[2].sidewaysSlip) + Abs(hits[2].forwardSlip) > slipAllowance {
        wheelParticles.RR.isPlaying := true;
      } else {
        wheelParticles.RR.isPlaying := false;
      }
      if Abs(hits[3].sidewaysSlip) + Abs(hits[3].forwardSlip) > slipAllowance {
        wheelParticles.RL.isPlaying := true;
      } else {
        wheelParticles.RL.isPlaying := false;
      }
    }

    /** The state wheel placement leaves behind, from the phases `before`:
        each wheel's phase advanced by its own rpm, every other entry kept,
        and each pose made of the wheel's new phase and its collider's steer
        angle. */
    ghost predicate WheelsPlaced(before: map<WheelCollider, real>, deltaTime: real,
                                 fr: WheelPose, fl: WheelPose, rr: WheelPose, rl: WheelPose)
      reads this`visualWheelRotations, wheelColliders.All()`rpm, wheelColliders.All()`steerAngle
    {
      && visualWheelRotations == before
        [wheelColliders.FR := NextSpinPhase(PhaseOf(before, wheelColliders.FR), wheelColliders.FR.rpm, deltaTime)]
        [wheelColliders.FL := NextSpinPhase(PhaseOf(before, wheelColliders.FL), wheelColliders.FL.rpm, deltaTime)]
        [wheelColliders.RR := NextSpinPhase(PhaseOf(before, wheelColliders.RR), wheelColliders.RR.rpm, deltaTime)]
        [wheelColliders.RL := NextSpinPhase(PhaseOf(before, wheelColliders.RL), wheelColliders.RL.rpm, deltaTime)]
      && fr == WheelPose(visualWheelRotations[wheelColliders.FR], wheelColliders.FR.steerAngle)
      && fl == WheelPose(visualWheelRotations[wheelColliders.FL], wheelColliders.FL.steerAngle)
      && rr == WheelPose(visualWheelRotations[wheelColliders.RR], wheelColliders.RR.steerAngle)
      && rl == WheelPose(visualWheelRotations[wheelColliders.RL], wheelColliders.RL.steerAngle)
    }

    /** Place the four visual wheels.  The clamped visual steering angle is
        handed to each front wheel but not used there. */
    method ApplyWheelPositions(deltaTime: real) returns (fr: WheelPose, fl: WheelPose, rr: WheelPose, rl: WheelPose)
      requires Valid()
      modifies this`visualWheelRotations
      ensures Valid()
      ensures WheelsPlaced(old(visualWheelRotations), deltaTime, fr, fl, rr, rl)
      ensures forall w :: w in wheelColliders.All() ==> w in visualWheelRotations
    {
      var visualSteeringAngle := Clamp(targetSteeringAngle, -settings.visualMaxSteeringAngle, settings.visualMaxSteeringAngle);
      fr := UpdateWheel(wheelColliders.FR, visualSteeringAngle, deltaTime);
      fl := UpdateWheel(wheelColliders.FL, visualSteeringAngle, deltaTime);
      rr := UpdateWheel(wheelColliders.RR, 0.0, deltaTime);
      rl := UpdateWheel(wheelColliders.RL, 0.0, deltaTime);
    }

    /** Advance one wheel's rolling phase (starting it at 0 the first time the
        wheel is seen) and give its pose: the phase about the axle and the
        collider's own steer angle, whatever `steeringAngle` is passed. */
    method UpdateWheel(wheelCollider: WheelCollider, steeringAngle: real, deltaTime: real) returns (pose: WheelPose)
      requires Valid()
      modifies this`visualWheelRotations
      ensures Valid()
      ensures visualWheelRotations == old(visualWheelRotations)[wheelCollider :=
        NextSpinPhase(PhaseOf(old(visualWheelRotations), wheelCollider), wheelCollider.rpm, deltaTime)]
      ensures pose == WheelPose(visualWheelRotations[wheelCollider], wheelCollider.steerAngle)
    {
      var angle := wheelCollider.steerAngle;
      if wheelCollider !in visualWheelRotations {
        visualWheelRotations := visualWheelRotations[wheelCollider := 0.0];
      }
      visualWheelRotations := visualWheelRotations[wheelCollider :=
        FloatRem360(visualWheelRotations[wheelCollider] + SpinAdvance(wheelCollider.rpm, deltaTime))];
      pose := WheelPose(visualWheelRotations[wheelCollider], angle);
    }

    // ------------------------------------------------------------ physics step

    /** One physics tick: drive the rear wheels, then, when the car slides
        past the drift angle with drift held, throttle applied, all wheels
        down and enough speed, return the counter-drift yaw acceleration. */
    method FixedUpdate(motion: BodyMotion) returns (assist: Option<RearForces>, yawAcceleration: Option<real>)
      requires Valid()
      modifies wheelColliders.RR`motorTorque, wheelColliders.RL`motorTorque
      ensures wheelColliders.RR.motorTorque == wheelColliders.RL.motorTorque == MotorTorque(settings, speed, gasInput)
      ensures assist.Some? <==> FullyGrounded() && speed < settings.initialAccellerationMaxSpeed
      ensures assist.Some? ==>
                assist.value.left == assist.value.right
                == LaunchAssist(settings.initialAccelleration, settings.initialAccellerationMaxSpeed, speed, gasInput)
      ensures yawAcceleration == CounterDriftTorque(settings, slipAngle, driftInput, gasInput, FullyGrounded(), speed, motion)
    {
      assist := ApplyMotor();
      yawAcceleration := CounterDrift(motion);
    }

    /** The counter-drift part of the fixed step: while drifting on the
        throttle with all four wheels down, past the drift start angle and the
        counter-drift start speed, the yaw acceleration that steers the car
        back, scaled by how far the drift and the speed have progressed and
        signed against the yaw. */
    method CounterDrift(motion: BodyMotion) returns (yawAcceleration: Option<real>)
      requires Valid()
      ensures yawAcceleration == CounterDriftTorque(settings, slipAngle, driftInput, gasInput, FullyGrounded(), speed, motion)
    {
      yawAcceleration := None;
      if slipAngle > settings.maxDriftAngleStart && driftInput && gasInput != 0.0 && FullyGrounded()
         && speed > settings.counterDriftStartSpeed
      {
        var speedModifier := Lerp(0.0, 1.0, speed - settings.counterDriftStartSpeed / settings.counterDriftStopSpeed
                                              - settings.counterDriftStartSpeed);
        assert speedModifier == SpeedModifier(settings, speed);
        var driftProgress := Lerp(0.0, 1.0, (slipAngle - settings.maxDriftAngleStart)
                                            / (settings.maxDriftAngleStop - settings.maxDriftAngleStart));
        assert driftProgress == DriftProgress(settings, slipAngle);
        var counterDriftTorque := Square(driftProgress) * settings.maxCounterDriftAngularAccel * speedModifier;
        assert counterDriftTorque == CounterDriftMagnitude(settings, slipAngle, speed) by {
          CounterDriftMagnitudeFactors(settings, slipAngle, speed);
        }
        var direction := if motion.lateralVelocity > 1.0 then 1 else -1;
        if RoundToInt(Sign(motion.angularVelocityY)) == direction
           && Sign(RoundToInt(motion.forwardVelocity) as real) != -1.0
        {
          direction := 0;
        }
        assert direction == CounterDriftDirection(motion);
        yawAcceleration := Some(counterDriftTorque * direction as real);
        CounterDriftTorqueValue(settings, slipAngle, driftInput, gasInput, FullyGrounded(), speed, motion,
                                counterDriftTorque, direction);
      }
    }

    /** Set both rear motor torques from the torque curve and, while all four
        wheels are down and the car is slow, return the launch assist for the
        two rear force points. */
    method ApplyMotor() returns (assist: Option<RearForces>)
      requires Valid()
      modifies wheelColliders.RR`motorTorque, wheelColliders.RL`motorTorque
      ensures wheelColliders.RR.motorTorque == wheelColliders.RL.motorTorque == MotorTorque(settings, speed, gasInput)
      ensures assist.Some? <==> FullyGrounded() && speed < settings.initialAccellerationMaxSpeed
      ensures assist.Some? ==>
                assist.value.left == assist.value.right
                == LaunchAssist(settings.initialAccelleration, settings.initialAccellerationMaxSpeed, speed, gasInput)
    {
      wheelColliders.RR.motorTorque := settings.torqueCurve(speed / settings.maxSpeed) * settings.maxTorque * gasInput;
      wheelColliders.RL.motorTorque := settings.torqueCurve(speed / settings.maxSpeed) * settings.maxTorque * gasInput;
      assist := None;
      if FullyGrounded() && speed < settings.initialAccellerationMaxSpeed {
        var forceAmount := Lerp(settings.initialAccelleration, 0.0,
                                InverseLerp(0.0, settings.initialAccellerationMaxSpeed, speed)) * gasInput * 0.5;
        assist := Some(RearForces(forceAmount, forceAmount));
      }
    }
  }
}
