/**
  A heading PID controller seen from outside: what `calculate` returns and what
  `getVelocityError` reports are functions of the measurements received since the last `reset`,
  which this model does not fix.
 */
module Pid {

  class PidController {
    /** Output of `calculate` given the measurements since the last reset, newest last. */
    const outputLaw: seq<real> -> real
    /** `getVelocityError` given the measurements since the last reset. */
    const velocityLaw: seq<real> -> real
    /** Measurements passed to `calculate` since the last reset. */
    var history: seq<real>

    /** A freshly reset controller reports no velocity error. */
    predicate Valid() {
      velocityLaw([]) == 0.0
    }

    constructor (outputLaw: seq<real> -> real, velocityLaw: seq<real> -> real)
      requires velocityLaw([]) == 0.0
      ensures Valid()
      ensures this.outputLaw == outputLaw && this.velocityLaw == velocityLaw
      ensures history == []
    {
      this.outputLaw := outputLaw;
      this.velocityLaw := velocityLaw;
      history := [];
    }

    /** `calculate(measurement)` towards setpoint 0. */
    method Calculate(measurement: real) returns (output: real)
      modifies this
      ensures history == old(history) + [measurement]
      ensures output == outputLaw(history)
    {
      history := history + [measurement];
      output := outputLaw(history);
    }

    /** `getVelocityError()`. */
    function VelocityError(): (r: real)
      reads this
      requires Valid()
      ensures history == [] ==> r == 0.0
    {
      velocityLaw(history)
    }

    /** `reset()`: forget every measurement. */
    method Reset()
      modifies this
      ensures history == []
    {
      history := [];
    }
  }
}

/**
  An odometry or pose estimator seen from outside: it holds the current pose, is reset to a
  given pose, and is advanced by a gyro reading and the four module positions through an
  update rule this model does not fix.
 */
module Odometry {
  import opened Geometry

  class PoseStore {
    /**
      The update rule: the new pose from the current pose, the module positions of the last
      update or reset, the gyro offset fixed at the last reset, the gyro reading and the new
      module positions.
     */
    const step: (Pose, seq<ModulePosition>, real, real, seq<ModulePosition>) -> Pose
    /** The current estimate. */
    var pose: Pose
    /** Module positions of the last update or reset. */
    var positions: seq<ModulePosition>
    /** The estimate's heading minus the gyro reading as a `Rotation2d.minus`, fixed at the last reset. */
    var gyroOffset: real

    constructor (step: (Pose, seq<ModulePosition>, real, real, seq<ModulePosition>) -> Pose,
                 gyro: real, positions: seq<ModulePosition>, initial: Pose)
      ensures this.step == step
      ensures pose == initial && this.positions == positions && gyroOffset == RotationMinus(initial.heading, gyro)
    {
      this.step := step;
      pose := initial;
      this.positions := positions;
      gyroOffset := RotationMinus(initial.heading, gyro);
    }

    /** `resetPosition(gyro, positions, pose)`: reseed from the given pose and readings. */
    method ResetPosition(gyro: real, positions: seq<ModulePosition>, newPose: Pose)
      modifies this
      ensures pose == newPose
      ensures this.positions == positions
      ensures gyroOffset == RotationMinus(newPose.heading, gyro)
    {
      pose := newPose;
      this.positions := positions;
      gyroOffset := RotationMinus(newPose.heading, gyro);
    }

    /** `update(gyro, positions)`: advance the estimate by one cycle. */
    method Update(gyro: real, positions: seq<ModulePosition>)
      modifies this
      ensures pose == step(old(pose), old(this.positions), gyroOffset, gyro, positions)
      ensures this.positions == positions
      ensures gyroOffset == old(gyroOffset)
    {
      pose := step(pose, this.positions, gyroOffset, gyro, positions);
      this.positions := positions;
    }
  }
}
