/** The engine-side objects the car controller talks to.  Their command slots
    (steer angle, motor and brake torque, sideways friction, particle play
    state) are written by the controller; their contact state (grounded flag,
    rpm, ground hit) is maintained by the physics engine and only read here. */
module Engine {

  /** A wheel's tyre friction curve; `stiffness` scales the whole curve. */
  datatype WheelFrictionCurve = WheelFrictionCurve(
    extremumSlip: real,
    extremumValue: real,
    asymptoteSlip: real,
    asymptoteValue: real,
    stiffness: real)

  /** The contact report of a wheel, reduced to the two slips the controller
      reads. */
  datatype WheelHit = WheelHit(forwardSlip: real, sidewaysSlip: real)

  /** A physics wheel. */
  class WheelCollider {
    // command slots written by the controller
    var steerAngle: real
    var motorTorque: real
    var brakeTorque: real
    var sidewaysFriction: WheelFrictionCurve
    // contact state maintained by the physics engine
    var isGrounded: bool
    var rpm: real
    var groundHit: WheelHit
  }

  /** A smoke emitter, reduced to whether it is playing. */
  class ParticleSystem {
    var isPlaying: bool
  }
}
