# Swerve drivetrain, pose and index logic — a Dafny model

This project models the decision and state logic of a four-module swerve robot:

- the fixed configuration: module layout, unit conversions, speaker locations, duty-cycle and
  voltage constants (`Constants`);
- the drivetrain: module dispatch and state/position assembly by module number, odometry resets,
  fixed-heading dump and slide shot alignment, the clamped angular-speed command with its
  static-friction feed-forward, and the speed-limit mode (`Drivetrain`);
- the pose subsystem: the fused pose estimate and its resets, alliance speaker selection,
  distance and bearing to the speaker, its own shot gates, the tracking command, and the gate
  that decides whether vision may correct the estimate (`PoseTracking`);
- the index subsystem: the active-low note sensor, the edge-triggered latch that notifies the
  LEDs only on change, and the fixed motor duty cycles (`Indexer`).

Angles are exact reals in degrees. `Rotation2d.minus` is modelled as the difference wrapped into
(-180, 180] (`Geometry.WrapDegrees`), since the library rebuilds the angle from its cosine and
sine; other headings are kept unwrapped, as the library keeps them. Lengths are exact reals in
metres.

Things the model takes as inputs rather than computing:

- the alliance (`Robot.isRed()`) and the match mode (`DriverStation.isTeleop()`,
  `isAutonomous()`) are boolean parameters; the dashboard is a `map<string, bool>`;
- the gyro yaw and the module encoder readings are fields that the hardware sets;
- the library's kinematics (`toSwerveModuleStates`, `desaturateWheelSpeeds`, `toChassisSpeeds`,
  `fromFieldRelativeSpeeds`), its odometry/estimator update, and `atan2`/`hypot` are
  function-valued parameters or constants whose behaviour is not fixed;
- a PID controller is an object whose `calculate` output and `getVelocityError` are fixed but
  unknown functions of the measurements since its last `reset` (a reset controller reports zero
  velocity error);
- the constants the logic reads that are not in `Constants.java` (`rotationKS`, `speedLimitRot`,
  the dump/slide angles, `maxDumpError`, `maxSlideError`, the velocity-error maxima) are fields of
  `Constants.Tuning`.

The static `Constants.Swerve.rotationPID` becomes one `PidController` object owned by the
drivetrain (`Swerve.rotationPid`) and referenced by the pose subsystem (`sharedPid`); the pose
subsystem's private static `rotationPID` is a second, distinct object (`speedPid`). The pose
subsystem singleton becomes an explicit object; `distanceToSpeaker` uses its own speaker location.

`driveRobotRelative` calls `ChassisSpeeds.discretize` and discards its result, so the modules
receive the undiscretized speeds; the model does the same.

## Model

| member | source | states |
|---|---|---|
| Constants.DrivetrainDimensions | src/main/java/frc/robot/Constants.java:30-32 | track width is 21.75 in and wheel base 15.75 in, in metres; both positive, track width larger |
| Constants.UnitRoundTrip | src/main/java/frc/robot/Constants.java:104-109 | metres-to-inches undoes inches-to-metres and the other way round |
| Constants.ModuleLayout | src/main/java/frc/robot/Constants.java:38-42 | module i's offset is (±wb/2, ±tw/2) with positive x exactly for the front modules and positive y exactly for the left ones; module 0 front-left, 3 back-right |
| Constants.ModuleOffsetsBalanced | src/main/java/frc/robot/Constants.java:38-42 | the four offsets sum to the zero vector |
| Constants.ModulesEquidistant | src/main/java/frc/robot/Constants.java:38-42 | every module has squared distance (wb/2)² + (tw/2)² from the centre |
| Constants.MaxAngularVelocity | src/main/java/frc/robot/Constants.java:104-109 | given the hypotenuse in inches, the result times the module radius in metres is the maximum speed, and that radius squares to the module radius squared |
| Constants.SpeakersMirrored | src/main/java/frc/robot/Constants.java:226-228 | the two speakers share y = 5.548 and have x = 16.579 (red) and 0.0 (blue); the reference offset is positive |
| Constants.DutyCyclesInRange | src/main/java/frc/robot/Constants.java:167-214 | every intake and index speed lies in [-1, 1] |
| Constants.PeakVoltagesSymmetric | src/main/java/frc/robot/Constants.java:171-219 | intake, shooter and index each have reverse peak voltage equal to minus the forward one |
| Geometry.WrapDegrees | src/main/java/frc/robot/subsystems/Swerve.java:165 | the wrapped angle lies in (-180, 180] and differs from the input by whole turns |
| Geometry.WrapUnique | src/main/java/frc/robot/subsystems/Swerve.java:165 | any angle in (-180, 180] differing from d by whole turns equals the wrap of d |
| Geometry.WrapCanonical | src/main/java/frc/robot/subsystems/Swerve.java:165 | angles already in (-180, 180] are unchanged by the wrap |
| Geometry.WrapIdempotent | src/main/java/frc/robot/subsystems/Swerve.java:165 | wrapping twice equals wrapping once |
| Geometry.WrapPeriodic | src/main/java/frc/robot/subsystems/Swerve.java:165 | adding whole turns does not change the wrapped angle |
| Geometry.WrapWholeTurns | src/main/java/frc/robot/subsystems/Swerve.java:165 | a whole number of turns wraps to exactly 0 |
| Geometry.RotationMinus | src/main/java/frc/robot/subsystems/PoseSubsystem.java:174 | a rotation difference lies in (-180, 180] and equals a − b up to whole turns |
| Alignment.Clamp | src/main/java/frc/robot/subsystems/Swerve.java:210 | the result lies in [low, high], equals the value inside the bounds and the nearer bound outside |
| Alignment.Signum | src/main/java/frc/robot/subsystems/Swerve.java:210 | the sign is -1, 0 or 1, is zero exactly for zero, and times x gives abs(x) |
| Alignment.AngularCommand | src/main/java/frc/robot/subsystems/Swerve.java:206-211 | the drivetrain's angular command lies in [-1, 1] whatever the controller output |
| Alignment.AngularCommandAtZeroError | src/main/java/frc/robot/subsystems/Swerve.java:210 | at zero error the feed-forward vanishes: the command is clamp(-pid, -1, 1) |
| Alignment.AngularCommandFeedForward | src/main/java/frc/robot/subsystems/Swerve.java:210 | for positive error kS is added, for negative error subtracted, before clamping |
| Alignment.AngularCommandUnsaturated | src/main/java/frc/robot/subsystems/Swerve.java:210 | inside [-1, 1] the unclamped sum is passed through |
| Alignment.AngularCommandTurnsTowardError | src/main/java/frc/robot/subsystems/Swerve.java:206-211 | with kS ≥ 0 and a controller opposing the error, the command is zero or has the error's sign |
| Alignment.AngularCommandMonotone | src/main/java/frc/robot/subsystems/Swerve.java:210 | a larger controller output never gives a larger command |
| Alignment.TrackingCommand | src/main/java/frc/robot/subsystems/PoseSubsystem.java:177-181 | the pose subsystem's command lies in [-1, 1] and is -pid whenever pid is in [-1, 1] |
| Alignment.TrackingCommandHasNoFeedForward | src/main/java/frc/robot/subsystems/PoseSubsystem.java:177-181 | the tracking command is the drivetrain command with kS = 0, for any error, and the drivetrain command at zero error |
| Alignment.Aligned | src/main/java/frc/robot/subsystems/Swerve.java:171-180 | aligned exactly when abs(heading error) < its tolerance and abs(velocity error) < its tolerance |
| Alignment.AlignedMonotone | src/main/java/frc/robot/subsystems/Swerve.java:171-180 | loosening either tolerance keeps an aligned result aligned |
| Alignment.AlignedAtTarget | src/main/java/frc/robot/subsystems/Swerve.java:171-180 | facing the target up to whole turns, the gate reduces to the velocity-error test |
| Pid.PidController.constructor | src/main/java/frc/robot/subsystems/PoseSubsystem.java:34 | a new controller has an empty history and reports zero velocity error |
| Pid.PidController.Calculate | src/main/java/frc/robot/subsystems/PoseSubsystem.java:180 | the measurement is appended to the history and the output is the output law of the new history |
| Pid.PidController.VelocityError | src/main/java/frc/robot/subsystems/PoseSubsystem.java:134 | with an empty history the velocity error is zero |
| Pid.PidController.Reset | src/main/java/frc/robot/subsystems/PoseSubsystem.java:158-160 | after a reset the history is empty |
| Odometry.PoseStore.constructor | src/main/java/frc/robot/subsystems/Swerve.java:54 | a new odometry starts at the given pose with the given module positions and gyro offset pose heading minus gyro, wrapped |
| Odometry.PoseStore.ResetPosition | src/main/java/frc/robot/subsystems/Swerve.java:124-126 | the pose becomes the given pose; the module positions are reseeded and the gyro offset becomes the new heading minus the gyro, wrapped |
| Odometry.PoseStore.Update | src/main/java/frc/robot/subsystems/Swerve.java:239 | the pose advances by the update rule from the previous pose and readings; the new positions are stored and the gyro offset is kept |
| Drivetrain.SwerveModule.SetDesiredState | src/main/java/frc/robot/subsystems/Swerve.java:100 | the module's command becomes the given state and open-loop flag; its readings are unchanged |
| Drivetrain.Swerve.constructor | src/main/java/frc/robot/subsystems/Swerve.java:36-54 | four fresh modules numbered 0..3 in slots 0..3, speed limit off, gyro zeroed, shared controller reset, odometry at the origin seeded with the module positions and gyro offset 0 |
| Drivetrain.Swerve.Commanded | src/main/java/frc/robot/subsystems/Swerve.java:96-97 | the kinematics and desaturation give exactly four module states |
| Drivetrain.Swerve.DriveRobotRelative | src/main/java/frc/robot/subsystems/Swerve.java:93-102 | module i receives commanded state i with the given open-loop flag; module readings are unchanged |
| Drivetrain.Swerve.DriveRobotRelativeAuto | src/main/java/frc/robot/subsystems/Swerve.java:89-91 | module i receives commanded state i, closed-loop; module readings are unchanged |
| Drivetrain.Swerve.Drive | src/main/java/frc/robot/subsystems/Swerve.java:74-83 | module i receives state i of the speeds obtained by turning the field-relative request robot-relative by the pose heading; module readings are unchanged |
| Drivetrain.Swerve.GetModuleStates | src/main/java/frc/robot/subsystems/Swerve.java:104-110 | four slots, every one filled, slot n holding the state of module n |
| Drivetrain.Swerve.GetModulePositions | src/main/java/frc/robot/subsystems/Swerve.java:112-118 | four slots, every one filled, slot n holding the position of module n |
| Drivetrain.Swerve.GetSpeeds | src/main/java/frc/robot/subsystems/Swerve.java:85-87 | the chassis speeds of the four module states in module order |
| Drivetrain.Swerve.SetPose | src/main/java/frc/robot/subsystems/Swerve.java:124-126 | the odometry pose becomes the given pose, the positions are reseeded with all four module positions and the gyro offset becomes the heading minus the gyro, wrapped |
| Drivetrain.Swerve.SetHeading | src/main/java/frc/robot/subsystems/Swerve.java:132-134 | the translation is preserved and the heading becomes h; the odometry is reseeded with the four module positions and gyro offset h minus the gyro |
| Drivetrain.Swerve.ZeroHeading | src/main/java/frc/robot/subsystems/Swerve.java:136-138 | the translation is preserved and the heading becomes 0; the odometry is reseeded with the four module positions and gyro offset 0 minus the gyro |
| Drivetrain.Swerve.ResetHeading | src/main/java/frc/robot/subsystems/Swerve.java:140-146 | the translation is preserved and the heading becomes 180 on red and 0 otherwise; the odometry is reseeded with the four module positions and gyro offset that heading minus the gyro |
| Drivetrain.Swerve.Periodic | src/main/java/frc/robot/subsystems/Swerve.java:238-239 | the odometry advances with the gyro and the four module positions in module order, stores those positions and keeps its gyro offset |
| Drivetrain.Swerve.DumpShotError | src/main/java/frc/robot/subsystems/Swerve.java:162-169 | the red dump angle on red, the blue one otherwise, minus the heading, wrapped into (-180, 180] |
| Drivetrain.Swerve.SlideShotError | src/main/java/frc/robot/subsystems/Swerve.java:182-189 | the red slide angle on red, the blue one otherwise, minus the heading, wrapped into (-180, 180] |
| Drivetrain.Swerve.DumpShotAligned | src/main/java/frc/robot/subsystems/Swerve.java:171-180 | true exactly when abs(dump error) < maxDumpError and abs(shared controller velocity error) < the dump maximum |
| Drivetrain.Swerve.SlideShotAligned | src/main/java/frc/robot/subsystems/Swerve.java:191-200 | true exactly when abs(slide error) < maxSlideError and abs(shared controller velocity error) < the slide maximum |
| Drivetrain.Swerve.AngleErrorReset | src/main/java/frc/robot/subsystems/Swerve.java:202-204 | the shared controller's history is cleared |
| Drivetrain.Swerve.AngleErrorToSpeed | src/main/java/frc/robot/subsystems/Swerve.java:206-211 | the shared controller receives the error, and the result is the angular command of its output, in [-1, 1] |
| Drivetrain.Swerve.EnableSpeedLimit | src/main/java/frc/robot/subsystems/Swerve.java:213-215 | afterwards the rotation scale is speedLimitRot (idempotent) |
| Drivetrain.Swerve.DisableSpeedLimit | src/main/java/frc/robot/subsystems/Swerve.java:217-219 | afterwards the rotation scale is 1.0 (idempotent) |
| Drivetrain.Swerve.GetSpeedLimitRot | src/main/java/frc/robot/subsystems/Swerve.java:221-223 | speedLimitRot while the limit is on, 1.0 while it is off |
| PoseTracking.DashboardBoolean | src/main/java/frc/robot/subsystems/PoseSubsystem.java:186 | the published value when the key is present, the default otherwise |
| PoseTracking.VisionEnabled | src/main/java/frc/robot/subsystems/PoseSubsystem.java:186-190 | vision gets the estimator exactly in teleop, or in autonomous with the dashboard flag published true |
| PoseTracking.VisionOffByDefaultOutsideTeleop | src/main/java/frc/robot/subsystems/PoseSubsystem.java:186 | outside teleop, with the flag absent (default false) or false, vision is off |
| PoseTracking.SpeakerLocation | src/main/java/frc/robot/subsystems/PoseSubsystem.java:112-114 | the red speaker exactly when red, the blue one exactly when not; y is 5.548 either way |
| PoseTracking.SpeakerDistance | src/main/java/frc/robot/subsystems/PoseSubsystem.java:116-121 | the distance plus the centre-to-reference offset is the hypotenuse of the robot-to-speaker displacement |
| PoseTracking.SpeakerDistanceSquared | src/main/java/frc/robot/subsystems/PoseSubsystem.java:116-121 | with a true hypotenuse, distance plus the reference offset is non-negative and squares to the squared centre-to-speaker distance |
| PoseTracking.BearingError | src/main/java/frc/robot/subsystems/PoseSubsystem.java:162-175 | the bearing of speaker − robot minus the heading, in (-180, 180], up to whole turns |
| PoseTracking.RedSpeakerFromOrigin | src/main/java/frc/robot/subsystems/PoseSubsystem.java:162-175 | at the origin facing 0 on red, the error is the bearing of (16.579, 5.548) |
| PoseTracking.PoseSubsystem.constructor | src/main/java/frc/robot/subsystems/PoseSubsystem.java:37-52 | the shared controller is reset, the gyro zeroed, and a fresh estimator starts at the origin, seeded with the drivetrain's four module positions and gyro offset 0 |
| PoseTracking.PoseSubsystem.GetPose | src/main/java/frc/robot/subsystems/PoseSubsystem.java:92-94 | the estimator's current pose |
| PoseTracking.PoseSubsystem.SetPose | src/main/java/frc/robot/subsystems/PoseSubsystem.java:96-98 | the estimate becomes the given pose, reseeded with the drivetrain's four module positions and gyro offset pose heading minus this gyro, wrapped |
| PoseTracking.PoseSubsystem.SetHeading | src/main/java/frc/robot/subsystems/PoseSubsystem.java:104-106 | the estimated translation is preserved and the heading becomes h; the estimator is reseeded with the drivetrain's four module positions and gyro offset h minus this gyro |
| PoseTracking.PoseSubsystem.ZeroHeading | src/main/java/frc/robot/subsystems/PoseSubsystem.java:108-110 | the estimated translation is preserved and the heading becomes 0; the estimator is reseeded with the drivetrain's four module positions and gyro offset 0 minus this gyro |
| PoseTracking.PoseSubsystem.DumpShotError | src/main/java/frc/robot/subsystems/PoseSubsystem.java:123-130 | the red dump angle on red and `dumpAngle` otherwise, minus the heading, wrapped |
| PoseTracking.PoseSubsystem.DumpShotAligned | src/main/java/frc/robot/subsystems/PoseSubsystem.java:132-141 | true exactly when both the dump error and the shared controller's velocity error are under tolerance |
| PoseTracking.PoseSubsystem.SlideShotError | src/main/java/frc/robot/subsystems/PoseSubsystem.java:143-145 | one slide angle for both alliances, minus the heading, wrapped |
| PoseTracking.PoseSubsystem.SlideShotAligned | src/main/java/frc/robot/subsystems/PoseSubsystem.java:147-156 | true exactly when both the slide error and the shared controller's velocity error are under tolerance |
| PoseTracking.PoseSubsystem.AngleErrorReset | src/main/java/frc/robot/subsystems/PoseSubsystem.java:158-160 | the shared controller is reset; the speed-command controller's history is untouched |
| PoseTracking.PoseSubsystem.AngleError | src/main/java/frc/robot/subsystems/PoseSubsystem.java:170-175 | the bearing to the alliance speaker minus the heading, in (-180, 180], up to whole turns |
| PoseTracking.PoseSubsystem.AngleErrorToSpeed | src/main/java/frc/robot/subsystems/PoseSubsystem.java:177-181 | its own controller receives the error, the result is the clamped negated output in [-1, 1], and the shared controller is untouched |
| PoseTracking.PoseSubsystem.Periodic | src/main/java/frc/robot/subsystems/PoseSubsystem.java:183-190 | when vision is handed null, the estimator has advanced with this gyro and the module positions, stored those positions and kept its gyro offset; vision is given the estimator exactly when the vision gate holds and null otherwise |
| Indexer.HaveNote | src/main/java/frc/robot/subsystems/IndexSubsystem.java:29-31 | a note is present exactly when the raw sensor reads false |
| Indexer.Step | src/main/java/frc/robot/subsystems/IndexSubsystem.java:68-74 | the latch takes the current note state; a request is sent exactly when it changed, NOTE for true and EMPTY for false |
| Indexer.StepIdempotent | src/main/java/frc/robot/subsystems/IndexSubsystem.java:68-74 | repeating a step with the same reading changes nothing and sends no request |
| Indexer.LatchedFollowsLastReading | src/main/java/frc/robot/subsystems/IndexSubsystem.java:68-74 | after any non-empty run of steps the latch holds the last reading's note state |
| Indexer.RequestsAlternate | src/main/java/frc/robot/subsystems/IndexSubsystem.java:68-74 | over any run the LED requests alternate, the first differs from the starting state, the last matches the final latch, at most one per step |
| Indexer.SteadyReadingRequestsOnce | src/main/java/frc/robot/subsystems/IndexSubsystem.java:68-74 | n steps with one reading send a request exactly once if it differs from the latch, never otherwise |
| Indexer.SteadyAfterFirst | src/main/java/frc/robot/subsystems/IndexSubsystem.java:71-74 | once the latch matches a steady reading no request is ever sent |
| Indexer.IndexSubsystem.constructor | src/main/java/frc/robot/subsystems/IndexSubsystem.java:20-24 | the latch starts false, the requested duty cycle at 0 and no LED request sent |
| Indexer.IndexSubsystem.Periodic | src/main/java/frc/robot/subsystems/IndexSubsystem.java:67-76 | the latch and the LED requests advance exactly as one step |
| Indexer.IndexSubsystem.Index | src/main/java/frc/robot/subsystems/IndexSubsystem.java:47-49 | the duty cycle becomes 0.80, in [-1, 1]; nothing else changes |
| Indexer.IndexSubsystem.Feed | src/main/java/frc/robot/subsystems/IndexSubsystem.java:51-53 | the duty cycle becomes 1.00; nothing else changes |
| Indexer.IndexSubsystem.SoftFeed | src/main/java/frc/robot/subsystems/IndexSubsystem.java:55-57 | the duty cycle becomes 0.25; nothing else changes |
| Indexer.IndexSubsystem.Stop | src/main/java/frc/robot/subsystems/IndexSubsystem.java:59-61 | the duty cycle becomes 0.00; nothing else changes |
| Indexer.IndexSubsystem.Eject | src/main/java/frc/robot/subsystems/IndexSubsystem.java:63-65 | the duty cycle becomes -1.00; nothing else changes |
| Indexer.RunPeriodic | src/main/java/frc/robot/subsystems/IndexSubsystem.java:67-76 | repeated `periodic` calls leave the latch and the LED requests that `LatchedAfter` and `RequestsAfter` predict, and do not touch the motor |

## Left out

- Swerve kinematics, wheel-speed desaturation, chassis-speed conversion, odometry and
  pose-estimator fusion, and PID arithmetic (including continuous input and the integral zone):
  library code not part of this model; they are function-valued parameters whose behaviour is
  not fixed.
- `ChassisSpeeds.discretize`: its result is discarded, so it has no effect on the modules.
- What the vision subsystem does with the estimator it is handed (`VisionSubsystem` is not part
  of this model); `Periodic` records only whether it was handed the estimator or null.
- PoseTracking.PoseSubsystem.Periodic: promises nothing about the estimator's pose, positions or
  gyro offset when vision is handed the estimator, because a vision measurement may reset and
  replay it; its state is stated only on the path where vision is handed null.
- The singleton accessor `getInstance()` and its assertion: the subsystem is an explicit object.
- Gyro hardware (`getGyroYaw` beyond a yaw field, `zeroGyro`, `hack()`), `resetModulesToAbsolute`,
  `setMotorsToCoast`/`setMotorsToBrake`, motor configuration (`applyConfigs`), TalonFX, CANcoder
  and CANdle calls: hardware, not decision logic.
- The LED subsystem: the LED requests are recorded as a sequence in `IndexSubsystem`.
- Dashboard telemetry, `Field2d`, and the `AutoBuilder` path-follower configuration.
- Floating point: all quantities are exact reals; `sqrt`/`hypot` and `atan2` are parameters.
- Swerve modules' own hardware reading updates: `SwerveModule.java` is not part of this model; its
  readings are fields set by `Sense`.
- Module gear ratios, current limits, ramp and motor PID values, CAN IDs and angle offsets in
  `Constants.java`: consumed only by the module driver and hardware code.
- PoseTracking.PoseSubsystem.DistanceToSpeaker: carries no contract of its own; its property is
  stated by `PoseTracking.SpeakerDistance` and `PoseTracking.SpeakerDistanceSquared` on the value
  it computes.
- The two `Pigeon2` objects of the drivetrain and the pose subsystem use the same device ID and
  bus, so they are one gyro; the model keeps them as two independent fields (`Swerve.gyroYaw`,
  `PoseSubsystem.gyroYaw`) and does not model that the pose subsystem's `setYaw(0)` also zeroes
  the yaw the drivetrain reads. Nothing proved here depends on the two being equal.
