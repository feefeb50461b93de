/**
  The heading-alignment decisions shared by the drivetrain and the pose subsystem: the
  clamped angular-speed command built from a controller output, and the two-part "aligned"
  gate on heading error and controller velocity error.
 */
module Alignment {
  import opened Geometry

  /** `MathUtil.clamp`: `max(low, min(value, high))`. */
  function Clamp(value: real, low: real, high: real): (r: real)
    requires low <= high
    ensures low <= r <= high
    ensures low <= value <= high ==> r == value
    ensures value < low ==> r == low
    ensures value > high ==> r == high
  {
    var m := if value < high then value else high;
    if low > m then low else m
  }

  /** `Math.signum` on exact reals. */
  function Signum(x: real): (r: real)
    ensures r * x == Abs(x)
    ensures r == 0.0 <==> x == 0.0
    ensures r == 1.0 || r == 0.0 || r == -1.0
  {
    if x > 0.0 then 1.0 else if x < 0.0 then -1.0 else 0.0
  }

  /**
    The drivetrain's angular-speed command for a heading error of `errorDeg` degrees, given the
    controller's output `pidOutput` for that error and the static-friction feed-forward `kS`:
    the negated controller output plus `kS` in the direction of the error, clamped to [-1, 1].
   */
  function AngularCommand(pidOutput: real, errorDeg: real, kS: real): (r: real)
    ensures -1.0 <= r <= 1.0
  {
    Clamp(-pidOutput + kS * Signum(errorDeg), -1.0, 1.0)
  }

  /** With no error there is no feed-forward: the command is the clamped negated controller output. */
  lemma AngularCommandAtZeroError(pidOutput: real, kS: real)
    ensures AngularCommand(pidOutput, 0.0, kS) == Clamp(-pidOutput, -1.0, 1.0)
  {
  }

  /** With an error, `kS` is added with the error's sign before clamping. */
  lemma AngularCommandFeedForward(pidOutput: real, errorDeg: real, kS: real)
    requires errorDeg != 0.0
    ensures errorDeg > 0.0 ==> AngularCommand(pidOutput, errorDeg, kS) == Clamp(-pidOutput + kS, -1.0, 1.0)
    ensures errorDeg < 0.0 ==> AngularCommand(pidOutput, errorDeg, kS) == Clamp(-pidOutput - kS, -1.0, 1.0)
  {
  }

  /** Inside the saturation limits the command is passed through unchanged. */
  lemma AngularCommandUnsaturated(pidOutput: real, errorDeg: real, kS: real)
    requires -1.0 <= -pidOutput + kS * Signum(errorDeg) <= 1.0
    ensures AngularCommand(pidOutput, errorDeg, kS) == -pidOutput + kS * Signum(errorDeg)
  {
  }

  /**
    With a non-negative feed-forward and a controller that pushes against the error (as a
    proportional controller towards setpoint 0 does), the command never turns away from
    the error: it is zero or has the error's sign.
   */
  lemma AngularCommandTurnsTowardError(pidOutput: real, errorDeg: real, kS: real)
    requires kS >= 0.0
    requires errorDeg > 0.0 ==> pidOutput <= 0.0
    requires errorDeg < 0.0 ==> pidOutput >= 0.0
    ensures errorDeg > 0.0 ==> AngularCommand(pidOutput, errorDeg, kS) >= 0.0
    ensures errorDeg < 0.0 ==> AngularCommand(pidOutput, errorDeg, kS) <= 0.0
  {
    if errorDeg > 0.0 {
      assert Signum(errorDeg) == 1.0;
      assert -pidOutput + kS * Signum(errorDeg) >= 0.0;
    } else if errorDeg < 0.0 {
      assert Signum(errorDeg) == -1.0;
      assert -pidOutput + kS * Signum(errorDeg) <= 0.0;
    }
  }

  /**
    The angular-speed command has the same ordering as the controller's negated output: a
    larger controller output never gives a larger command.
   */
  lemma AngularCommandMonotone(p: real, q: real, errorDeg: real, kS: real)
    requires p <= q
    ensures AngularCommand(q, errorDeg, kS) <= AngularCommand(p, errorDeg, kS)
  {
  }

  /** The pose subsystem's command: the negated controller output clamped, with no feed-forward. */
  function TrackingCommand(pidOutput: real): (r: real)
    ensures -1.0 <= r <= 1.0
    ensures -1.0 <= pidOutput <= 1.0 ==> r == -pidOutput
  {
    Clamp(-pidOutput, -1.0, 1.0)
  }

  /** The tracking command is the drivetrain command with no feed-forward, or at zero error whatever its gain. */
  lemma TrackingCommandHasNoFeedForward(pidOutput: real, errorDeg: real, kS: real)
    ensures TrackingCommand(pidOutput) == AngularCommand(pidOutput, errorDeg, 0.0)
    ensures TrackingCommand(pidOutput) == AngularCommand(pidOutput, 0.0, kS)
  {
  }

  /**
    The two-part gate: aligned when the heading error is inside its tolerance and, only then,
    when the controller's velocity error is inside its tolerance as well.
   */
  function Aligned(errorDeg: real, velocityError: real, maxError: real, maxVelocityError: real): (r: bool)
    ensures r <==> Abs(errorDeg) < maxError && Abs(velocityError) < maxVelocityError
  {
    if Abs(errorDeg) < maxError then
      if Abs(velocityError) < maxVelocityError then true else false
    else
      false
  }

  /** Loosening either tolerance never un-aligns. */
  lemma AlignedMonotone(errorDeg: real, velocityError: real, maxError: real, maxVelocityError: real,
                        maxError': real, maxVelocityError': real)
    requires maxError <= maxError' && maxVelocityError <= maxVelocityError'
    requires Aligned(errorDeg, velocityError, maxError, maxVelocityError)
    ensures Aligned(errorDeg, velocityError, maxError', maxVelocityError')
  {
  }

  /** When the heading matches the target up to whole turns, the gate depends on the velocity error alone. */
  lemma AlignedAtTarget(target: real, heading: real, velocityError: real, maxError: real, maxVelocityError: real)
    requires maxError > 0.0
    requires WholeTurns(target - heading)
    ensures Aligned(RotationMinus(target, heading), velocityError, maxError, maxVelocityError)
        <==> Abs(velocityError) < maxVelocityError
  {
    WrapWholeTurns(target - heading);
    assert RotationMinus(target, heading) == 0.0;
    assert Abs(RotationMinus(target, heading)) < maxError;
  }
}
