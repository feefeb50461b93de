/**
  The pose subsystem: the fused pose estimate and its resets, speaker selection, distance and
  bearing to the speaker, the dump and slide shot alignment, the tracking command, and the gate
  deciding whether vision may correct the estimate.
 */
module PoseTracking {
  import opened Geometry
  import opened Constants
  import opened Alignment
  import opened Pid
  import opened Odometry
  import opened Drivetrain

  /** What `periodic` last handed to the vision subsystem. */
  datatype VisionInput = NothingYet | EstimatorGiven | NullGiven

  const UseVisionInAutoKey: string := "Use Vision Pose in Auto"

  /** `SmartDashboard.getBoolean(key, default)`: the published value, or the default when absent. */
  function DashboardBoolean(dashboard: map<string, bool>, key: string, default: bool): (r: bool)
    ensures key in dashboard ==> r == dashboard[key]
    ensures key !in dashboard ==> r == default
  {
    if key in dashboard then dashboard[key] else default
  }

  /** Whether `periodic` passes the estimator to vision: in teleop, or in autonomous when the dashboard allows it. */
  function VisionEnabled(isTeleop: bool, isAutonomous: bool, dashboard: map<string, bool>): (r: bool)
    ensures r <==> isTeleop || (isAutonomous && UseVisionInAutoKey in dashboard && dashboard[UseVisionInAutoKey])
  {
    isTeleop || (isAutonomous && DashboardBoolean(dashboard, UseVisionInAutoKey, false))
  }

  /** Outside teleop, vision is off unless the dashboard flag has been published as true. */
  lemma VisionOffByDefaultOutsideTeleop(isAutonomous: bool, dashboard: map<string, bool>)
    requires UseVisionInAutoKey !in dashboard || !dashboard[UseVisionInAutoKey]
    ensures !VisionEnabled(false, isAutonomous, dashboard)
  {
  }

  /** `speakerLocation()`: the red speaker exactly when the alliance is red. */
  function SpeakerLocation(isRed: bool): (r: Translation)
    ensures r == RedSpeakerLocation <==> isRed
    ensures r == BlueSpeakerLocation <==> !isRed
    ensures r.y == 5.548
  {
    if isRed then RedSpeakerLocation else BlueSpeakerLocation
  }

  /**
    Distance from the shot reference point to `speaker`: the centre-to-speaker distance, as
    computed by `hypot`, less the centre-to-reference offset.
   */
  function SpeakerDistance(robot: Translation, speaker: Translation, hypot: (real, real) -> real): (r: real)
    ensures r + CenterToReferenceOffset == hypot(speaker.x - robot.x, speaker.y - robot.y)
  {
    var offset := speaker.Minus(robot);
    hypot(offset.x, offset.y) - CenterToReferenceOffset
  }

  /**
    When `hypot` is a true hypotenuse at the robot's offset, the speaker distance plus the
    reference offset is non-negative and squares to the squared centre-to-speaker distance.
   */
  lemma SpeakerDistanceSquared(robot: Translation, speaker: Translation, hypot: (real, real) -> real)
    requires hypot(speaker.x - robot.x, speaker.y - robot.y) >= 0.0
    requires hypot(speaker.x - robot.x, speaker.y - robot.y) * hypot(speaker.x - robot.x, speaker.y - robot.y)
          == speaker.Minus(robot).SquaredNorm()
    ensures SpeakerDistance(robot, speaker, hypot) + CenterToReferenceOffset >= 0.0
    ensures (SpeakerDistance(robot, speaker, hypot) + CenterToReferenceOffset)
          * (SpeakerDistance(robot, speaker, hypot) + CenterToReferenceOffset)
         == speaker.Minus(robot).SquaredNorm()
  {
  }

  /**
    The heading error to a target point: the bearing of the displacement from the robot to the
    target, as computed by `bearing` (the angle of a vector, in degrees), minus the robot heading,
    wrapped into (-180, 180].
   */
  function BearingError(robot: Pose, target: Translation, bearing: (real, real) -> real): (r: real)
    ensures -180.0 < r <= 180.0
    ensures WholeTurns(r - (bearing(target.x - robot.translation.x, target.y - robot.translation.y) - robot.heading))
  {
    var offset := target.Minus(robot.translation);
    RotationMinus(bearing(offset.x, offset.y), robot.heading)
  }

  /**
    A robot at the field origin facing 0 degrees on the red alliance: the error to the speaker is
    the bearing of (16.579, 5.548) itself, whenever that bearing lies in the first quadrant.
   */
  lemma RedSpeakerFromOrigin(bearing: (real, real) -> real)
    requires 0.0 < bearing(16.579, 5.548) < 90.0
    ensures BearingError(StartPose, SpeakerLocation(true), bearing) == bearing(16.579, 5.548)
  {
    WrapCanonical(bearing(16.579, 5.548));
  }

  class PoseSubsystem {
    /** The drivetrain whose module positions feed the estimator. */
    const swerve: Swerve
    /** The fused pose estimator. */
    const estimator: PoseStore
    /** The subsystem's own heading controller (the private static `rotationPID`). */
    const speedPid: PidController
    /** `Constants.Swerve.rotationPID`, the controller shared with the drivetrain. */
    const sharedPid: PidController
    const tuning: Tuning
    /** This subsystem's gyro yaw reading, degrees. */
    var gyroYaw: real
    var visionInput: VisionInput

    ghost predicate Valid()
      reads this, swerve, swerve.mods
    {
      && swerve.Valid()
      && sharedPid == swerve.rotationPid
      && speedPid != sharedPid
      && estimator != swerve.odometry
      && speedPid.Valid()
    }

    constructor (swerve: Swerve, speedPid: PidController, tuning: Tuning,
                 step: (Pose, seq<ModulePosition>, real, real, seq<ModulePosition>) -> Pose)
      requires swerve.Valid() && speedPid.Valid() && speedPid != swerve.rotationPid
      modifies swerve.rotationPid
      ensures Valid() && fresh(estimator)
      ensures this.swerve == swerve && this.speedPid == speedPid && this.tuning == tuning
      ensures sharedPid.history == [] && speedPid.history == old(speedPid.history)
      ensures gyroYaw == 0.0 && visionInput == NothingYet
      ensures estimator.step == step && estimator.pose == StartPose
      ensures estimator.gyroOffset == 0.0
      ensures estimator.positions == [swerve.mods[0].position, swerve.mods[1].position,
                                      swerve.mods[2].position, swerve.mods[3].position]
    {
      this.swerve := swerve;
      this.speedPid := speedPid;
      this.sharedPid := swerve.rotationPid;
      this.tuning := tuning;
      gyroYaw := 0.0;
      visionInput := NothingYet;
      swerve.rotationPid.Reset();
      var positions := swerve.GetModulePositions();
      estimator := new PoseStore(step, 0.0, positions, StartPose);
      WrapCanonical(0.0);
    }

    /** `getPose()`. */
    function GetPose(): (r: Pose)
      reads this, estimator
      ensures r == estimator.pose
    {
      estimator.pose
    }

    /** `setPose(pose)`: reset the estimator to `pose` with the current gyro and module readings. */
    method SetPose(pose: Pose)
      requires Valid()
      modifies estimator
      ensures GetPose() == pose
      ensures estimator.gyroOffset == RotationMinus(pose.heading, gyroYaw)
      ensures estimator.positions == [swerve.mods[0].position, swerve.mods[1].position,
                                      swerve.mods[2].position, swerve.mods[3].position]
    {
      var positions := swerve.GetModulePositions();
      estimator.ResetPosition(gyroYaw, positions, pose);
    }

    /** `setHeading(heading)`: keep the estimated translation, replace the heading. */
    method SetHeading(heading: real)
      requires Valid()
      modifies estimator
      ensures GetPose() == Pose(old(GetPose().translation), heading)
      ensures estimator.gyroOffset == RotationMinus(heading, gyroYaw)
      ensures estimator.positions == [swerve.mods[0].position, swerve.mods[1].position,
                                      swerve.mods[2].position, swerve.mods[3].position]
    {
      SetPose(Pose(GetPose().translation, heading));
    }

    /** `zeroHeading()`. */
    method ZeroHeading()
      requires Valid()
      modifies estimator
      ensures GetPose() == Pose(old(GetPose().translation), 0.0)
      ensures estimator.gyroOffset == RotationMinus(0.0, gyroYaw)
      ensures estimator.positions == [swerve.mods[0].position, swerve.mods[1].position,
                                      swerve.mods[2].position, swerve.mods[3].position]
    {
      SetHeading(0.0);
    }

    /** `distanceToSpeaker()`: from the shot reference point to the alliance's speaker. */
    function DistanceToSpeaker(isRed: bool, hypot: (real, real) -> real): (r: real)
      reads this, estimator
    {
      SpeakerDistance(GetPose().translation, SpeakerLocation(isRed), hypot)
    }

    /** `dumpShotError()`: the red dump heading on red, `dumpAngle` otherwise, minus the pose heading. */
    function DumpShotError(isRed: bool): (r: real)
      reads this, estimator
      ensures -180.0 < r <= 180.0
      ensures WholeTurns(r - ((if isRed then tuning.redDumpAngle else tuning.dumpAngle) - GetPose().heading))
    {
      RotationMinus(if isRed then tuning.redDumpAngle else tuning.dumpAngle, GetPose().heading)
    }

    /** `dumpShotAligned()`, gated on the shared controller's velocity error. */
    function DumpShotAligned(isRed: bool): (r: bool)
      reads this, estimator, sharedPid
      requires sharedPid.Valid()
      ensures r <==> (Abs(DumpShotError(isRed)) < tuning.maxDumpError
                      && Abs(sharedPid.VelocityError()) < tuning.dumpShotVelocityErrorMax)
    {
      Aligned(DumpShotError(isRed), sharedPid.VelocityError(), tuning.maxDumpError, tuning.dumpShotVelocityErrorMax)
    }

    /** `slideShotError()`: one slide heading for both alliances, minus the pose heading. */
    function SlideShotError(): (r: real)
      reads this, estimator
      ensures -180.0 < r <= 180.0
      ensures WholeTurns(r - (tuning.slideAngle - GetPose().heading))
    {
      RotationMinus(tuning.slideAngle, GetPose().heading)
    }

    /** `slideShotAligned()`, gated on the shared controller's velocity error. */
    function SlideShotAligned(): (r: bool)
      reads this, estimator, sharedPid
      requires sharedPid.Valid()
      ensures r <==> (Abs(SlideShotError()) < tuning.maxSlideError
                      && Abs(sharedPid.VelocityError()) < tuning.slideShotVelocityErrorMax)
    {
      Aligned(SlideShotError(), sharedPid.VelocityError(), tuning.maxSlideError, tuning.slideShotVelocityErrorMax)
    }

    /** `angleErrorReset()`: resets the shared controller and leaves the tracking controller alone. */
    method AngleErrorReset()
      requires Valid()
      modifies sharedPid
      ensures sharedPid.history == []
      ensures speedPid.history == old(speedPid.history)
    {
      sharedPid.Reset();
    }

    /** `angleError()`: bearing from the robot to the alliance's speaker, minus the heading. */
    function AngleError(isRed: bool, bearing: (real, real) -> real): (r: real)
      reads this, estimator
      ensures -180.0 < r <= 180.0
      ensures WholeTurns(r - (bearing(SpeakerLocation(isRed).x - GetPose().translation.x,
                                      SpeakerLocation(isRed).y - GetPose().translation.y) - GetPose().heading))
    {
      BearingError(GetPose(), SpeakerLocation(isRed), bearing)
    }

    /**
      `angleErrorToSpeed(error)`: feed the error to the subsystem's own controller and clamp its
      negated output; the shared controller is not touched.
     */
    method AngleErrorToSpeed(errorDeg: real) returns (speed: real)
      requires Valid()
      modifies speedPid
      ensures speedPid.history == old(speedPid.history) + [errorDeg]
      ensures speed == TrackingCommand(speedPid.outputLaw(speedPid.history))
      ensures -1.0 <= speed <= 1.0
      ensures sharedPid.history == old(sharedPid.history)
    {
      var output := speedPid.Calculate(errorDeg);
      speed := TrackingCommand(output);
    }

    /**
      `periodic()`: advance the estimator by the gyro and the module positions, then hand vision
      the estimator when `VisionEnabled` holds and null otherwise. Vision may correct an estimator
      it is handed, so the estimator's new state is stated only when it is handed null.
     */
    method Periodic(isTeleop: bool, isAutonomous: bool, dashboard: map<string, bool>)
      requires Valid()
      modifies this`visionInput, estimator
      ensures Valid()
      ensures !VisionEnabled(isTeleop, isAutonomous, dashboard) ==>
        estimator.pose == estimator.step(old(estimator.pose), old(estimator.positions), old(estimator.gyroOffset), gyroYaw,
                                         [swerve.mods[0].position, swerve.mods[1].position,
                                          swerve.mods[2].position, swerve.mods[3].position])
      ensures !VisionEnabled(isTeleop, isAutonomous, dashboard) ==>
        estimator.positions == [swerve.mods[0].position, swerve.mods[1].position,
                                swerve.mods[2].position, swerve.mods[3].position]
      ensures !VisionEnabled(isTeleop, isAutonomous, dashboard) ==> estimator.gyroOffset == old(estimator.gyroOffset)
      ensures visionInput == if VisionEnabled(isTeleop, isAutonomous, dashboard) then EstimatorGiven else NullGiven
    {
      var positions := swerve.GetModulePositions();
      assert positions == [swerve.mods[0].position, swerve.mods[1].position, swerve.mods[2].position, swerve.mods[3].position];
      estimator.Update(gyroYaw, positions);
      if isTeleop || (isAutonomous && DashboardBoolean(dashboard, UseVisionInAutoKey, false)) {
        visionInput := EstimatorGiven;
      } else {
        visionInput := NullGiven;
      }
    }
  }
}
