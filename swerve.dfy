/**
  The swerve drivetrain: four wheel modules addressed by module number, the robot-relative and
  field-relative drive commands, module state and position assembly, the odometry pose and its
  resets, the fixed-heading shot alignment, and the speed-limit mode.
 */
module Drivetrain {
  import opened Wrappers
  import opened Geometry
  import opened Constants
  import opened Alignment
  import opened Pid
  import opened Odometry

  /** One wheel module as the drivetrain sees it: its hardware readings and its last command. */
  class SwerveModule {
    const moduleNumber: nat
    /** What `getState()` reads from the hardware. */
    var state: ModuleState
    /** What `getPosition()` reads from the hardware. */
    var position: ModulePosition
    /** The last state passed to `setDesiredState`, if any. */
    var desired: Option<ModuleState>
    /** The open-loop flag of that call. */
    var openLoop: bool

    constructor (moduleNumber: nat)
      ensures this.moduleNumber == moduleNumber && desired == None
      ensures state == ModuleState(0.0, 0.0) && position == ModulePosition(0.0, 0.0)
    {
      this.moduleNumber := moduleNumber;
      state := ModuleState(0.0, 0.0);
      position := ModulePosition(0.0, 0.0);
      desired := None;
      openLoop := false;
    }

    /** New readings arrive from the encoders. */
    method Sense(state: ModuleState, position: ModulePosition)
      modifies this
      ensures this.state == state && this.position == position
      ensures desired == old(desired) && openLoop == old(openLoop)
    {
      this.state := state;
      this.position := position;
    }

    /** `setDesiredState(state, isOpenLoop)`. */
    method SetDesiredState(s: ModuleState, isOpenLoop: bool)
      modifies this
      ensures desired == Some(s) && openLoop == isOpenLoop
      ensures state == old(state) && position == old(position)
    {
      desired := Some(s);
      openLoop := isOpenLoop;
    }
  }

  class Swerve {
    /** Constants not defined in this model (alliance angles, tolerances, speed-limit factor, kS). */
    const tuning: Tuning
    /** `swerveKinematics.toSwerveModuleStates`. */
    const toModuleStates: ChassisSpeeds -> seq<ModuleState>
    /** `desaturateWheelSpeeds(states, maxSpeed)`, as a value. */
    const desaturate: (seq<ModuleState>, real) -> seq<ModuleState>
    /** `swerveKinematics.toChassisSpeeds`. */
    const toChassisSpeeds: seq<ModuleState> -> ChassisSpeeds
    /** `ChassisSpeeds.fromFieldRelativeSpeeds(vx, vy, omega, heading)`. */
    const fromFieldRelative: (ChassisSpeeds, real) -> ChassisSpeeds
    /** The modules, in construction order. */
    const mods: array<SwerveModule>
    /** The drivetrain's own odometry. */
    const odometry: PoseStore
    /** The shared heading controller `Constants.Swerve.rotationPID`. */
    const rotationPid: PidController
    /** The gyro's yaw reading, degrees. */
    var gyroYaw: real
    var speedLimit: bool

    /** Module `i` sits in slot `i`, and the kinematics always yield four module states. */
    ghost predicate Valid()
      reads this, mods
    {
      && mods.Length == 4
      && (forall i :: 0 <= i < 4 ==> mods[i].moduleNumber == i)
      && (forall c :: |toModuleStates(c)| == 4)
      && (forall s, m :: |s| == 4 ==> |desaturate(s, m)| == 4)
      && rotationPid.Valid()
    }

    ghost function Modules(): set<SwerveModule>
      reads this, mods
    {
      set i | 0 <= i < mods.Length :: mods[i]
    }

    constructor (tuning: Tuning,
                 toModuleStates: ChassisSpeeds -> seq<ModuleState>,
                 desaturate: (seq<ModuleState>, real) -> seq<ModuleState>,
                 toChassisSpeeds: seq<ModuleState> -> ChassisSpeeds,
                 fromFieldRelative: (ChassisSpeeds, real) -> ChassisSpeeds,
                 step: (Pose, seq<ModulePosition>, real, real, seq<ModulePosition>) -> Pose,
                 rotationPid: PidController)
      requires forall c :: |toModuleStates(c)| == 4
      requires forall s, m :: |s| == 4 ==> |desaturate(s, m)| == 4
      requires rotationPid.Valid()
      modifies rotationPid
      ensures Valid() && fresh(mods) && fresh(odometry) && fresh(Modules())
      ensures this.tuning == tuning && this.rotationPid == rotationPid && rotationPid.history == []
      ensures this.toModuleStates == toModuleStates && this.desaturate == desaturate
      ensures this.toChassisSpeeds == toChassisSpeeds && this.fromFieldRelative == fromFieldRelative
      ensures gyroYaw == 0.0 && !speedLimit
      ensures forall i :: 0 <= i < 4 ==> mods[i].desired == None
      ensures odometry.step == step && odometry.pose == StartPose
      ensures odometry.gyroOffset == 0.0
      ensures odometry.positions == [mods[0].position, mods[1].position, mods[2].position, mods[3].position]
    {
      this.tuning := tuning;
      this.toModuleStates := toModuleStates;
      this.desaturate := desaturate;
      this.toChassisSpeeds := toChassisSpeeds;
      this.fromFieldRelative := fromFieldRelative;
      this.rotationPid := rotationPid;
      speedLimit := false;
      gyroYaw := 0.0;
      rotationPid.Reset();
      var m0 := new SwerveModule(0);
      var m1 := new SwerveModule(1);
      var m2 := new SwerveModule(2);
      var m3 := new SwerveModule(3);
      mods := new SwerveModule[4] [m0, m1, m2, m3];
      odometry := new PoseStore(step, 0.0, [m0.position, m1.position, m2.position, m3.position], StartPose);
      WrapCanonical(0.0);
    }

    /** The module states `desaturate(toSwerveModuleStates(speeds), maxSpeed)` would send. */
    function Commanded(speeds: ChassisSpeeds): (r: seq<ModuleState>)
      requires Valid()
      reads this, mods
      ensures |r| == 4
    {
      desaturate(toModuleStates(speeds), MaxSpeed)
    }

    /**
      `driveRobotRelative(speeds, isOpenLoop)`: each module receives the commanded state whose
      index is its own module number. The discretized speeds are not used, because the source
      discards them.
     */
    method DriveRobotRelative(speeds: ChassisSpeeds, isOpenLoop: bool)
      requires Valid()
      modifies Modules()
      ensures Valid()
      ensures forall i :: 0 <= i < 4 ==> mods[i].desired == Some(Commanded(speeds)[i]) && mods[i].openLoop == isOpenLoop
      ensures forall i :: 0 <= i < 4 ==> mods[i].state == old(mods[i].state) && mods[i].position == old(mods[i].position)
    {
      var states := desaturate(toModuleStates(speeds), MaxSpeed);
      var i := 0;
      while i < mods.Length
        invariant 0 <= i <= 4
        invariant forall k :: 0 <= k < i ==> mods[k].desired == Some(states[k]) && mods[k].openLoop == isOpenLoop
        invariant forall k :: i <= k < 4 ==> mods[k].desired == old(mods[k].desired)
        invariant forall k :: 0 <= k < 4 ==> mods[k].state == old(mods[k].state) && mods[k].position == old(mods[k].position)
      {
        var mod := mods[i];
        mod.SetDesiredState(states[mod.moduleNumber], isOpenLoop);
        i := i + 1;
      }
    }

    /** `driveRobotRelativeAuto(speeds)`: the path follower drives closed-loop. */
    method DriveRobotRelativeAuto(speeds: ChassisSpeeds)
      requires Valid()
      modifies Modules()
      ensures Valid()
      ensures forall i :: 0 <= i < 4 ==> mods[i].desired == Some(Commanded(speeds)[i]) && !mods[i].openLoop
      ensures forall i :: 0 <= i < 4 ==> mods[i].state == old(mods[i].state) && mods[i].position == old(mods[i].position)
    {
      DriveRobotRelative(speeds, false);
    }

    /** `drive(translation, rotation, isOpenLoop)`: field-relative speeds turned robot-relative by the heading. */
    method Drive(translation: Translation, rotation: real, isOpenLoop: bool)
      requires Valid()
      modifies Modules()
      ensures Valid()
      ensures forall i :: 0 <= i < 4 ==>
        mods[i].desired == Some(Commanded(fromFieldRelative(ChassisSpeeds(translation.x, translation.y, rotation), odometry.pose.heading))[i])
        && mods[i].openLoop == isOpenLoop
      ensures forall i :: 0 <= i < 4 ==> mods[i].state == old(mods[i].state) && mods[i].position == old(mods[i].position)
    {
      var speeds := fromFieldRelative(ChassisSpeeds(translation.x, translation.y, rotation), odometry.pose.heading);
      DriveRobotRelative(speeds, isOpenLoop);
    }

    /** `getModuleStates()`: slot `n` holds the state of the module numbered `n`; every slot is filled. */
    method GetModuleStates() returns (states: seq<ModuleState>)
      requires Valid()
      ensures |states| == 4
      ensures forall i :: 0 <= i < 4 ==> states[i] == mods[i].state
    {
      var slots := new Option<ModuleState>[4](_ => None);
      var i := 0;
      while i < mods.Length
        invariant 0 <= i <= 4
        invariant forall k :: 0 <= k < 4 ==> slots[k] == if k < i then Some(mods[k].state) else None
      {
        var mod := mods[i];
        slots[mod.moduleNumber] := Some(mod.state);
        i := i + 1;
      }
      states := [slots[0].value, slots[1].value, slots[2].value, slots[3].value];
    }

    /** `getModulePositions()`: slot `n` holds the position of the module numbered `n`; every slot is filled. */
    method GetModulePositions() returns (positions: seq<ModulePosition>)
      requires Valid()
      ensures |positions| == 4
      ensures forall i :: 0 <= i < 4 ==> positions[i] == mods[i].position
    {
      var slots := new Option<ModulePosition>[4](_ => None);
      var i := 0;
      while i < mods.Length
        invariant 0 <= i <= 4
        invariant forall k :: 0 <= k < 4 ==> slots[k] == if k < i then Some(mods[k].position) else None
      {
        var mod := mods[i];
        slots[mod.moduleNumber] := Some(mod.position);
        i := i + 1;
      }
      positions := [slots[0].value, slots[1].value, slots[2].value, slots[3].value];
    }

    /** `getSpeeds()`: the chassis speeds the current module states amount to. */
    method GetSpeeds() returns (speeds: ChassisSpeeds)
      requires Valid()
      ensures speeds == toChassisSpeeds([mods[0].state, mods[1].state, mods[2].state, mods[3].state])
    {
      var states := GetModuleStates();
      assert states == [mods[0].state, mods[1].state, mods[2].state, mods[3].state];
      speeds := toChassisSpeeds(states);
    }

    /** `setPose(pose)`: reset the odometry to `pose` with the current gyro and module readings. */
    method SetPose(pose: Pose)
      requires Valid()
      modifies odometry
      ensures odometry.pose == pose
      ensures odometry.gyroOffset == RotationMinus(pose.heading, gyroYaw)
      ensures odometry.positions == [mods[0].position, mods[1].position, mods[2].position, mods[3].position]
    {
      var positions := GetModulePositions();
      odometry.ResetPosition(gyroYaw, positions, pose);
    }

    /** `setHeading(heading)`: keep the translation, replace the heading. */
    method SetHeading(heading: real)
      requires Valid()
      modifies odometry
      ensures odometry.pose == Pose(old(odometry.pose.translation), heading)
      ensures odometry.gyroOffset == RotationMinus(heading, gyroYaw)
      ensures odometry.positions == [mods[0].position, mods[1].position, mods[2].position, mods[3].position]
    {
      SetPose(Pose(odometry.pose.translation, heading));
    }

    /** `zeroHeading()`: heading 0, translation kept. */
    method ZeroHeading()
      requires Valid()
      modifies odometry
      ensures odometry.pose == Pose(old(odometry.pose.translation), 0.0)
      ensures odometry.gyroOffset == RotationMinus(0.0, gyroYaw)
      ensures odometry.positions == [mods[0].position, mods[1].position, mods[2].position, mods[3].position]
    {
      SetHeading(0.0);
    }

    /** `resetHeading()`: face 180 degrees on the red alliance, 0 otherwise; translation kept. */
    method ResetHeading(isRed: bool)
      requires Valid()
      modifies odometry
      ensures odometry.pose == Pose(old(odometry.pose.translation), if isRed then 180.0 else 0.0)
      ensures odometry.gyroOffset == RotationMinus(if isRed then 180.0 else 0.0, gyroYaw)
      ensures odometry.positions == [mods[0].position, mods[1].position, mods[2].position, mods[3].position]
    {
      if isRed {
        SetHeading(180.0);
      } else {
        SetHeading(0.0);
      }
    }

    /** `periodic()`: advance the odometry by the gyro and the module positions. */
    method Periodic()
      requires Valid()
      modifies odometry
      ensures odometry.pose == odometry.step(old(odometry.pose), old(odometry.positions), old(odometry.gyroOffset),
                                             gyroYaw, [mods[0].position, mods[1].position, mods[2].position, mods[3].position])
      ensures odometry.positions == [mods[0].position, mods[1].position, mods[2].position, mods[3].position]
      ensures odometry.gyroOffset == old(odometry.gyroOffset)
    {
      var positions := GetModulePositions();
      assert positions == [mods[0].position, mods[1].position, mods[2].position, mods[3].position];
      odometry.Update(gyroYaw, positions);
    }

    /** The fixed dump-shot heading for the alliance. */
    function DumpTarget(isRed: bool): real
    {
      if isRed then tuning.redDumpAngle else tuning.blueDumpAngle
    }

    /** The fixed slide-shot heading for the alliance. */
    function SlideTarget(isRed: bool): real
    {
      if isRed then tuning.redSlideAngle else tuning.blueSlideAngle
    }

    /** `dumpShotError()`: the alliance's dump heading minus the pose heading, in (-180, 180]. */
    function DumpShotError(isRed: bool): (r: real)
      reads this, odometry
      ensures -180.0 < r <= 180.0
      ensures WholeTurns(r - ((if isRed then tuning.redDumpAngle else tuning.blueDumpAngle) - odometry.pose.heading))
    {
      RotationMinus(DumpTarget(isRed), odometry.pose.heading)
    }

    /** `slideShotError()`: the alliance's slide heading minus the pose heading, in (-180, 180]. */
    function SlideShotError(isRed: bool): (r: real)
      reads this, odometry
      ensures -180.0 < r <= 180.0
      ensures WholeTurns(r - ((if isRed then tuning.redSlideAngle else tuning.blueSlideAngle) - odometry.pose.heading))
    {
      RotationMinus(SlideTarget(isRed), odometry.pose.heading)
    }

    /** `dumpShotAligned()`: heading error and controller velocity error both under their dump tolerances. */
    function DumpShotAligned(isRed: bool): (r: bool)
      reads this, odometry, rotationPid
      requires rotationPid.Valid()
      ensures r <==> (Abs(DumpShotError(isRed)) < tuning.maxDumpError
                      && Abs(rotationPid.VelocityError()) < tuning.dumpShotVelocityErrorMax)
    {
      Aligned(DumpShotError(isRed), rotationPid.VelocityError(), tuning.maxDumpError, tuning.dumpShotVelocityErrorMax)
    }

    /** `slideShotAligned()`: heading error and controller velocity error both under their slide tolerances. */
    function SlideShotAligned(isRed: bool): (r: bool)
      reads this, odometry, rotationPid
      requires rotationPid.Valid()
      ensures r <==> (Abs(SlideShotError(isRed)) < tuning.maxSlideError
                      && Abs(rotationPid.VelocityError()) < tuning.slideShotVelocityErrorMax)
    {
      Aligned(SlideShotError(isRed), rotationPid.VelocityError(), tuning.maxSlideError, tuning.slideShotVelocityErrorMax)
    }

    /** `angleErrorReset()`: reset the shared heading controller. */
    method AngleErrorReset()
      modifies rotationPid
      ensures rotationPid.history == []
    {
      rotationPid.Reset();
    }

    /**
      `angleErrorToSpeed(error)`: feed the error to the shared controller and turn its output into
      a clamped angular-speed command with the static-friction feed-forward.
     */
    method AngleErrorToSpeed(errorDeg: real) returns (speed: real)
      modifies rotationPid
      ensures rotationPid.history == old(rotationPid.history) + [errorDeg]
      ensures speed == AngularCommand(rotationPid.outputLaw(rotationPid.history), errorDeg, tuning.rotationKS)
      ensures -1.0 <= speed <= 1.0
    {
      var output := rotationPid.Calculate(errorDeg);
      speed := AngularCommand(output, errorDeg, tuning.rotationKS);
    }

    method EnableSpeedLimit()
      modifies this`speedLimit
      ensures speedLimit
      ensures GetSpeedLimitRot() == tuning.speedLimitRot
    {
      speedLimit := true;
    }

    method DisableSpeedLimit()
      modifies this`speedLimit
      ensures !speedLimit
      ensures GetSpeedLimitRot() == 1.0
    {
      speedLimit := false;
    }

    /** `getSpeedLimitRot()`: the rotation scale, reduced only while the speed limit is on. */
    function GetSpeedLimitRot(): (r: real)
      reads this
      ensures speedLimit ==> r == tuning.speedLimitRot
      ensures !speedLimit ==> r == 1.0
    {
      if speedLimit then tuning.speedLimitRot else 1.0
    }
  }
}
