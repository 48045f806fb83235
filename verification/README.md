# Rogue Racer car controller, modelled in Dafny

This project models the car controller of the Rogue Racer Unity game
(`Assets/RogueRacer/Scripts/CarController.cs`): the behaviour that turns the
driver's throttle, steering and drift inputs into wheel commands each frame.

- **`mathf.dfy`** (module `Mathf`) holds the Unity `Mathf` helpers the
  controller calls, over `real`:
  - `Lerp` clamps its parameter;
  - `InverseLerp` gives 0 on an empty interval;
  - `Sign(0)` is 1;
  - `RoundToInt` rounds halves to even;
  - C#'s float `%` keeps the dividend's sign (`FloatRem360`).
- **`engine.dfy`** (module `Engine`) holds the engine objects the controller
  writes to. A `WheelCollider` has command slots (steer angle, motor and brake
  torque, sideways friction) and contact state (grounded flag, rpm, ground
  hit). A `ParticleSystem` is reduced to whether it is playing.
- **`car_logic.dfy`** (module `CarLogic`) holds the decisions as pure
  functions, with lemmas about them. These cover:
  - the brake choice and its 70/30 axle split;
  - the steering target;
  - the rear motor torque and the low-speed launch assist;
  - the counter-drift yaw acceleration;
  - the rolling phase of a visual wheel;
  - the smoke threshold.
- **`car_controller.dfy`** (module `Controller`) models the controller as a
  class. Its fields are those the source updates. `Update` is the visual frame
  and `FixedUpdate` the physics tick. Each step writes the same fields and
  command slots as the source, in the same order, and its `ensures` ties the
  new state to the `CarLogic` functions.
  - `FullyGrounded` requires all four wheels to be on the ground.
  - `WheelParticles.ParticlesExist` requires all four smoke emitters to be
    present. It gates the smoke update in `Update`.
  - `ApplyControls` groups lines 95-99 of `Update` so they can be proved as
    one step. Its postcondition is the `Controlled` predicate.
  - `CounterDrift` groups the counter-drift block of `FixedUpdate` (lines
    113-126) the same way.

What the engine or the scene supplies becomes an argument:
- the speed, the slip angle and the forward component of the velocity;
- the heading correction (a signed angle);
- the body's lateral and forward velocity and yaw rate;
- the frame time;
- the values of the two animation curves, which are total `real -> real`
  fields of `Settings`.

The source does several unusual things, and the model reproduces each one
exactly:
- The counter-drift speed modifier is computed as
  `speed - start / stop - start`. By operator precedence this is not
  `(speed - start) / (stop - start)`; `SpeedModifierPrecedence` shows the
  difference at the default settings.
- The counter-drift direction is 1 only when the sideways speed exceeds 1.
- A stationary car with little throttle gets a brake input of exactly 1.
- The launch assist needs all four wheels on the ground.
- Each visual wheel's steer angle comes from its collider's `steerAngle`.
  The clamped visual steering angle passed to `UpdateWheel` is not used.

Some consequences of the code that are easy to miss:
- The launch assist checks `FullyGrounded` once, not each rear wheel.
- Every visual wheel takes its collider's steer angle, whether or not the
  wheel is grounded.
- There is no boost: `ApplyBoost` and its call are commented out, and the
  boost fields are never updated.

## Model

| member | source | states |
|---|---|---|
| Mathf.Abs | Assets/RogueRacer/Scripts/CarController.cs:143 | the result is non-negative and is the argument or its negation |
| Mathf.Sign | Assets/RogueRacer/Scripts/CarController.cs:121 | the result is ±1; it is 1 exactly when the argument is at least 0 (so the sign of 0 is 1), and multiplying it by the argument gives the argument's absolute value |
| Mathf.Clamp | Assets/RogueRacer/Scripts/CarController.cs:226 | the result lies in [min, max]; a value inside is kept; a value below min gives min; on a proper range a value above max gives max |
| Mathf.Clamp01 | Assets/RogueRacer/Scripts/CarController.cs:227 | the result lies in [0, 1], keeps values inside, and sends values below to 0 and above to 1 |
| Mathf.Lerp | Assets/RogueRacer/Scripts/CarController.cs:227 | the result lies between the two ends; a parameter ≤ 0 gives the first end and ≥ 1 gives the second (the parameter is clamped) |
| Mathf.InverseLerp | Assets/RogueRacer/Scripts/CarController.cs:211 | the result lies in [0, 1] and is 0 when the two ends coincide |
| Mathf.Square | Assets/RogueRacer/Scripts/CarController.cs:117 | the square is non-negative |
| Mathf.RoundToInt | Assets/RogueRacer/Scripts/CarController.cs:121 | the result is within 0.5 of the argument, and an exact half goes to the even neighbour |
| Mathf.Truncate | Assets/RogueRacer/Scripts/CarController.cs:291 | the quotient is cut toward zero: the result is within one of the argument, on the side toward zero |
| Mathf.FloatRem360 | Assets/RogueRacer/Scripts/CarController.cs:291 | the C# float remainder by 360 lies strictly between -360 and 360, has the dividend's sign, leaves values already in range unchanged, and differs from the dividend by a whole number of turns |
| Mathf.LerpMonotone | Assets/RogueRacer/Scripts/CarController.cs:227 | with the first end the smaller, Lerp grows with its parameter |
| Mathf.LerpAntitone | Assets/RogueRacer/Scripts/CarController.cs:211 | with the second end the smaller, Lerp shrinks as its parameter grows |
| Mathf.InverseLerpMonotone | Assets/RogueRacer/Scripts/CarController.cs:211 | on a proper interval InverseLerp grows with its value |
| Mathf.LerpInverseLerp | Assets/RogueRacer/Scripts/CarController.cs:211 | InverseLerp is undone by Lerp for values inside the interval |
| Mathf.SquareMonotone | Assets/RogueRacer/Scripts/CarController.cs:117 | squaring preserves order on non-negative numbers |
| Mathf.FloatRem360Unique | Assets/RogueRacer/Scripts/CarController.cs:291 | any value within ±360, with the dividend's sign and a whole number of turns away from it, is the C# remainder: the remainder is the only such value |
| CarLogic.MetPerSecToKilPerHour | Assets/RogueRacer/Scripts/CarController.cs:68 | dividing the result by 3.6 gives back the input |
| CarLogic.KilPerHourToMetPerSec | Assets/RogueRacer/Scripts/CarController.cs:69 | multiplying the result by 3.6 gives back the input, so it inverts the other conversion |
| CarLogic.BrakeCommand | Assets/RogueRacer/Scripts/CarController.cs:140-156 | the brake input is non-negative. It is positive exactly when the throttle opposes the motion or the car is held at rest. Against the motion it equals the absolute throttle. Otherwise it is 1 exactly when the car is held at rest. It is at most 1 for throttle in [-1, 1] |
| CarLogic.BrakeSplit | Assets/RogueRacer/Scripts/CarController.cs:161-165 | one front and one rear wheel together get the full brake input times the brake power, in the ratio 7:3 |
| CarLogic.TargetSteeringAngle | Assets/RogueRacer/Scripts/CarController.cs:221-226 | the target stays within ±90. The raw target is the input times the curve value, plus the heading correction only while the slip angle is below 120. A raw target inside ±90 is kept, one above 90 gives 90 and one below -90 gives -90 |
| CarLogic.SmoothedSteeringInRange | Assets/RogueRacer/Scripts/CarController.cs:227 | easing the steering angle toward a target in ±90 keeps it in ±90 |
| CarLogic.TargetSteeringSymmetric | Assets/RogueRacer/Scripts/CarController.cs:221-226 | opposite steering inputs give mirrored targets when there is no heading correction |
| CarLogic.MotorTorque | Assets/RogueRacer/Scripts/CarController.cs:203-204 | no throttle gives no torque; with a non-negative curve value the torque has the throttle's sign |
| CarLogic.LaunchAssistFactor | Assets/RogueRacer/Scripts/CarController.cs:211 | the remaining share of the initial acceleration lies between that acceleration and 0, and at rest is all of it |
| CarLogic.LaunchAssist | Assets/RogueRacer/Scripts/CarController.cs:211 | at rest the assist is half the initial acceleration times the throttle; with no throttle it is 0 |
| CarLogic.LaunchAssistBounded | Assets/RogueRacer/Scripts/CarController.cs:211 | the assist's magnitude never exceeds its value at rest |
| CarLogic.LaunchAssistVanishesAtCutoff | Assets/RogueRacer/Scripts/CarController.cs:207-211 | at and past the cutoff speed the assist is 0 |
| CarLogic.LaunchAssistFactorFades | Assets/RogueRacer/Scripts/CarController.cs:211 | a non-negative assist share never grows with speed |
| CarLogic.LaunchAssistFades | Assets/RogueRacer/Scripts/CarController.cs:211 | for forward throttle and a non-negative initial acceleration, the assist never grows with speed |
| CarLogic.SpeedModifier | Assets/RogueRacer/Scripts/CarController.cs:116 | the modifier lies in [0, 1]. With the ramp start at start + start/stop, it is 0 up to the ramp start, grows one for one with the speed over the next unit, and is 1 from there on |
| CarLogic.DriftProgress | Assets/RogueRacer/Scripts/CarController.cs:117 | the progress lies in [0, 1]. On an increasing band it is 0 at or below the start angle and 1 at or beyond the stop angle |
| CarLogic.CounterDriftMagnitude | Assets/RogueRacer/Scripts/CarController.cs:117 | with a non-negative maximum, the magnitude lies between 0 and the maximum angular acceleration |
| CarLogic.DriftProgressMonotone | Assets/RogueRacer/Scripts/CarController.cs:117 | the progress grows with the slip angle |
| CarLogic.CounterDriftMonotoneInSlip | Assets/RogueRacer/Scripts/CarController.cs:117 | a wider slip never gives a smaller counter-drift magnitude |
| CarLogic.CounterDriftSaturates | Assets/RogueRacer/Scripts/CarController.cs:117 | beyond the stop angle the magnitude is the maximum times the speed modifier |
| CarLogic.CounterDriftZeroBelowStart | Assets/RogueRacer/Scripts/CarController.cs:117 | at or below the start angle the magnitude is 0 |
| CarLogic.SpeedModifierPrecedence | Assets/RogueRacer/Scripts/CarController.cs:116 | with the default start 5 and stop 10 speeds, the modifier is already 1 at 6.5, where the ramp the names suggest would give 0.3 |
| CarLogic.RoundsToNonNegative | Assets/RogueRacer/Scripts/CarController.cs:121 | a value rounds to a non-negative integer exactly when it is at least -0.5 |
| CarLogic.CounterDriftDirection | Assets/RogueRacer/Scripts/CarController.cs:118-124 | the direction is -1, 0 or 1. When it is not 0 it is 1 if the sideways speed exceeds 1 and -1 otherwise. It is 0 exactly when the yaw rate's sign matches that side and the forward velocity is at least -0.5 |
| CarLogic.CounterDriftActive | Assets/RogueRacer/Scripts/CarController.cs:114 | the counter-drift is off without drift input, without throttle, or with a wheel in the air; when on, the slip angle is past the start angle and the speed past the start speed |
| CarLogic.CounterDriftTorque | Assets/RogueRacer/Scripts/CarController.cs:113-126 | a yaw acceleration is applied exactly under the five conditions of the guard, and then equals the magnitude times the direction. Its size stays within the maximum, and it is 0 when the direction is 0 |
| CarLogic.SpinAdvance | Assets/RogueRacer/Scripts/CarController.cs:291 | the advance is 0 with no rpm or no elapsed time, and has the rpm's sign for a non-negative frame time |
| CarLogic.SpinAdvanceShortOfFullTurn | Assets/RogueRacer/Scripts/CarController.cs:291 | because 0.016666 stands for 1/60, the advance is 6 degrees per rpm and second minus 0.00024 of the same product, so a turning wheel always rolls a little less than it should; at 60 rpm for one second it rolls 359.9856 degrees |
| CarLogic.NextSpinPhase | Assets/RogueRacer/Scripts/CarController.cs:291 | the new phase lies strictly within ±360, has the sign of the advanced phase, and differs from it by a whole number of turns. An advanced phase already within ±360 is kept |
| CarLogic.FloatRem360Periodic | Assets/RogueRacer/Scripts/CarController.cs:291 | on non-negative angles, whole turns are dropped: adding 360 does not change the reduced phase |
| CarLogic.SmokeOn | Assets/RogueRacer/Scripts/CarController.cs:249-250 | a wheel smokes whenever either slip exceeds 0.5 in size, and never while both are at most 0.25 |
| CarLogic.SmokeMonotone | Assets/RogueRacer/Scripts/CarController.cs:249-250 | more slip in both directions never turns the smoke off |
| Controller.WheelColliders.constructor | Assets/RogueRacer/Scripts/CarController.cs:302-308 | the four colliders are stored by position |
| Controller.WheelParticles.constructor | Assets/RogueRacer/Scripts/CarController.cs:318-322 | the four emitters, each possibly missing, are stored by position |
| Controller.WheelParticles.ParticlesExist | Assets/RogueRacer/Scripts/CarController.cs:324 | the emitters exist exactly when no slot is empty |
| Controller.PhaseOf | Assets/RogueRacer/Scripts/CarController.cs:289-290 | a wheel not seen yet has phase 0; when every recorded phase is within ±360, so is the one returned |
| Controller.CarController.constructor | Assets/RogueRacer/Scripts/CarController.cs:53-66 | a new controller satisfies the invariant and starts at rest with no input: speed, slip angle, throttle, steering input, steering angle, target and brake input are 0, drift and boost are off, and no wheel phase is recorded (so a physics tick before the first frame applies no counter-drift) |
| Controller.CarController.FullyGrounded | Assets/RogueRacer/Scripts/CarController.cs:40 | the car is fully grounded exactly when every one of its four colliders is grounded |
| Controller.CarController.Update | Assets/RogueRacer/Scripts/CarController.cs:93-105 | one frame keeps the invariant and leaves the state `Controlled` describes (the frame and the input latched, the brakes split, the steering angle eased by `Lerp` toward its target at `deltaTime` times the steer speed and both front wheels steered by it, the rear stiffness set with the other curve parameters kept); the wheels' other slots, such as the motor torque and the contact state, cannot change. The steering moves toward its target without overshooting, and the front sideways friction is untouched. With all four emitters, each plays exactly when its wheel slips past 0.5; otherwise no emitter changes. Every wheel gets its advanced phase, and the front poses carry the steering angle |
| Controller.CarController.ApplyControls | Assets/RogueRacer/Scripts/CarController.cs:95-99 | the frame's speed and slip angle and all four inputs are latched, and the brake input is chosen by `BrakeCommand`. The target follows `TargetSteeringAngle`, the steering angle becomes `Lerp` of the old angle toward the target at `deltaTime` times the steer speed, and both front wheels steer by it. The brakes are split 70/30. Each rear friction curve keeps its other parameters and takes the drift or the normal stiffness. Only these command slots of the wheels change; the invariant is kept and the wheel phases are untouched |
| Controller.CarController.CheckInput | Assets/RogueRacer/Scripts/CarController.cs:129-157 | throttle, steering, drift, boost and slip angle are latched, and the brake input is `BrakeCommand` of the throttle, the forward velocity and the speed |
| Controller.CarController.ApplyBrake | Assets/RogueRacer/Scripts/CarController.cs:159-166 | both front wheels get the front share and both rear wheels the rear share of `BrakeSplit` |
| Controller.CarController.ApplyDrift | Assets/RogueRacer/Scripts/CarController.cs:168-191 | both rear friction curves keep all their parameters except the stiffness, which becomes the drift or the normal stiffness by the drift input |
| Controller.CarController.ApplySteering | Assets/RogueRacer/Scripts/CarController.cs:219-230 | the target is `TargetSteeringAngle`, and the steering angle is eased toward it without overshooting. Both front wheels steer by the new angle, and both angles stay in ±90 |
| Controller.CarController.CheckParticles | Assets/RogueRacer/Scripts/CarController.cs:241-278 | each of the four emitters plays exactly when its own wheel's combined slip exceeds 0.5 |
| Controller.CarController.ApplyWheelPositions | Assets/RogueRacer/Scripts/CarController.cs:232-239 | each of the four wheels gets its phase advanced by its own rpm (from 0 the first time), and every other entry is kept. Each pose is the new phase and the collider's own steer angle |
| Controller.CarController.UpdateWheel | Assets/RogueRacer/Scripts/CarController.cs:280-293 | exactly the wheel's entry changes, to `NextSpinPhase` of its old phase (0 when the wheel is new). The pose's steer is the collider's steer angle, not the angle passed in |
| Controller.CarController.FixedUpdate | Assets/RogueRacer/Scripts/CarController.cs:108-127 | both rear motor torques equal `MotorTorque`. The launch assist is given exactly when the car is fully grounded and below the cutoff speed, and both force points get the same `LaunchAssist`. The yaw acceleration is `CounterDriftTorque` |
| Controller.CarController.CounterDrift | Assets/RogueRacer/Scripts/CarController.cs:113-126 | the yaw acceleration is `CounterDriftTorque` of the latched state and the body motion; nothing changes |
| Controller.CarController.ApplyMotor | Assets/RogueRacer/Scripts/CarController.cs:201-217 | both rear motor torques equal `MotorTorque`. The assist is given exactly when fully grounded and below the cutoff speed, and equals `LaunchAssist` at both rear force points |

## Left out

- Engine calls are not modelled: `AddTorque`, `AddForceAtPosition`,
  `GetWorldPose`, `Quaternion` and transform updates. The model returns the
  amounts (`RearForces`, the yaw acceleration, `WheelPose`) instead of
  applying them. The visual wheel's world position is not modelled.
- Vector geometry is not modelled: velocity magnitude, `Vector3.Angle`,
  `Vector3.SignedAngle` and the dot products. Their scalar results are
  inputs (`FrameSample`, `BodyMotion`).
- `AnimationCurve.Evaluate` is not modelled. The two curves are arbitrary
  total functions, so nothing is proved that depends on their shape.
- Input polling (`Input.GetAxisRaw`, `GetAxis`, `GetButton`) becomes the
  `InputSample` argument.
- `CarPlayer.cs` is not part of this model. The `SetInput` method it calls
  does not exist in the controller.
- `Start` and `InstantiateSmoke` are not modelled: setting the centre of mass
  and creating the smoke emitters are engine calls. Emitters are given to
  the constructor, present or missing.
- `OnDrawGizmos` is not modelled; it is a debugging draw call.
- `BaseCarSettings.cs` and `CarSettings.cs` are not part of this model. The
  controller's tunable fields are the `Settings` datatype.
- Boost is not modelled. `ApplyBoost` and its call are commented out, and
  the boost fields are never updated.
- Float precision, overflow, infinities and NaN are not modelled; all
  arithmetic is on `real`. The source's `0.016666` is kept as written.
- Division by zero is not modelled. `Settings.WellFormed` requires a
  non-zero `maxSpeed`, a non-zero `counterDriftStopSpeed` and distinct drift
  start and stop angles. In C# these divisions give an infinity or NaN, and
  the default `maxSpeed` is 0.
- Aliasing is not modelled. The constructor requires four different
  colliders and, when all are present, four different emitters; the source
  does not check this. With shared objects, one wheel's brake, phase and
  smoke writes would overwrite another's.
- Timing is not modelled. `Time.deltaTime` is an argument, and which of
  `Update` and `FixedUpdate` runs when is left to the caller.
- CarLogic.MotorTorque: states only the zero and sign behaviour. The torque
  curve is arbitrary, so no magnitude bound follows.
- CarLogic.LaunchAssistFactor: states the share at rest only for speed 0. For
  a negative speed with a negative cutoff speed, `InverseLerp` does not give
  0.
