/**
  The robot's fixed configuration: drivetrain dimensions and module layout, speaker locations,
  and the duty-cycle and voltage constants of the intake, shooter and index mechanisms.
 */
module Constants {
  import opened Geometry

  const MetersPerInch: real := 0.0254

  /** `Units.inchesToMeters`. */
  function InchesToMeters(inches: real): real {
    inches * MetersPerInch
  }

  /** `Units.metersToInches`. */
  function MetersToInches(meters: real): real {
    meters / MetersPerInch
  }

  /** The two unit conversions are inverse to each other. */
  lemma UnitRoundTrip(x: real)
    ensures MetersToInches(InchesToMeters(x)) == x
    ensures InchesToMeters(MetersToInches(x)) == x
  {
  }

  /* Drivetrain */

  /** Centre-to-centre distance of the left and right modules, in metres. */
  const TrackWidth: real := InchesToMeters(21.75)
  /** Centre-to-centre distance of the front and rear modules, in metres. */
  const WheelBase: real := InchesToMeters(15.75)
  /** Maximum module speed, m/s. */
  const MaxSpeed: real := 4.5

  /** Both dimensions are the stated inch figures converted to metres; the robot is wider than long. */
  lemma DrivetrainDimensions()
    ensures TrackWidth == 21.75 * 0.0254 && WheelBase == 15.75 * 0.0254
    ensures 0.0 < WheelBase < TrackWidth
  {
  }

  /** Wheel-module offsets from the robot centre, indexed by module number. */
  const ModuleOffsets: seq<Translation> := [
    Translation(WheelBase / 2.0, TrackWidth / 2.0),
    Translation(WheelBase / 2.0, -TrackWidth / 2.0),
    Translation(-WheelBase / 2.0, TrackWidth / 2.0),
    Translation(-WheelBase / 2.0, -TrackWidth / 2.0)
  ]

  /** Names of the modules, indexed the same way. */
  datatype Corner = FrontLeft | FrontRight | BackLeft | BackRight

  const ModuleCorners: seq<Corner> := [FrontLeft, FrontRight, BackLeft, BackRight]

  /** Squared distance of each module from the robot centre. */
  const ModuleRadiusSquared: real := (WheelBase / 2.0) * (WheelBase / 2.0) + (TrackWidth / 2.0) * (TrackWidth / 2.0)

  /** Front modules have positive x, left modules positive y; module 0 is front-left, 3 back-right. */
  lemma ModuleLayout(i: nat)
    requires i < 4
    ensures |ModuleOffsets| == 4
    ensures ModuleOffsets[i].x > 0.0 <==> ModuleCorners[i] in {FrontLeft, FrontRight}
    ensures ModuleOffsets[i].y > 0.0 <==> ModuleCorners[i] in {FrontLeft, BackLeft}
    ensures Abs(ModuleOffsets[i].x) == WheelBase / 2.0 && Abs(ModuleOffsets[i].y) == TrackWidth / 2.0
  {
  }

  /** The offsets sum to zero: the layout is symmetric about both robot axes. */
  lemma ModuleOffsetsBalanced()
    ensures ModuleOffsets[0].Plus(ModuleOffsets[1]).Plus(ModuleOffsets[2]).Plus(ModuleOffsets[3]) == Origin
  {
  }

  /** Every module is the same distance from the robot centre. */
  lemma ModulesEquidistant(i: nat)
    requires i < 4
    ensures ModuleOffsets[i].SquaredNorm() == ModuleRadiusSquared
  {
  }

  /**
    Maximum angular velocity (rad/s): the maximum speed divided by the module radius, the radius
    being computed as a hypotenuse in inches and converted back to metres. `hypotInches` is the
    value of that hypotenuse (a square root, supplied by the caller).
   */
  function MaxAngularVelocity(hypotInches: real): (r: real)
    requires hypotInches > 0.0
    requires hypotInches * hypotInches
          == (MetersToInches(WheelBase) / 2.0) * (MetersToInches(WheelBase) / 2.0)
           + (MetersToInches(TrackWidth) / 2.0) * (MetersToInches(TrackWidth) / 2.0)
    ensures r > 0.0
    ensures r * InchesToMeters(hypotInches) == MaxSpeed
    ensures InchesToMeters(hypotInches) * InchesToMeters(hypotInches) == ModuleRadiusSquared
  {
    UnitRoundTrip(15.75);
    UnitRoundTrip(21.75);
    var m := InchesToMeters(hypotInches);
    assert m * m == hypotInches * hypotInches * (MetersPerInch * MetersPerInch);
    MaxSpeed / m
  }

  /* Vision targets */

  const BlueSpeakerLocation := Translation(0.0, 5.548)
  const RedSpeakerLocation := Translation(16.579, 5.548)
  /** Distance from the robot centre to the shot reference point, in metres. */
  const CenterToReferenceOffset: real := InchesToMeters(13.5)
  /** Degrees. */
  const MaxAngleError: real := 0.5

  /** The two speakers lie on one line across the field and differ only in x. */
  lemma SpeakersMirrored()
    ensures RedSpeakerLocation.y == BlueSpeakerLocation.y == 5.548
    ensures RedSpeakerLocation.x == 16.579 && BlueSpeakerLocation.x == 0.0
    ensures CenterToReferenceOffset > 0.0
  {
  }

  /* Intake */

  const IntakingSpeed: real := 0.30
  const IntakeEjectingSpeed: real := -0.50
  const IntakeStoppingSpeed: real := 0.00
  const IntakePeakForwardVoltage: real := 12.0
  const IntakePeakReverseVoltage: real := -12.0

  /* Shooter */

  const ShooterPeakForwardVoltage: real := 12.0
  const ShooterPeakReverseVoltage: real := -12.0

  /* Index */

  const IndexSpeed: real := 0.80
  const FeedSpeed: real := 1.00
  const SoftFeedSpeed: real := 0.25
  const EjectSpeed: real := -1.00
  const IndexStopSpeed: real := 0.00
  const IndexPeakForwardVoltage: real := 12.0
  const IndexPeakReverseVoltage: real := -12.0

  /** A duty cycle a motor controller accepts. */
  predicate DutyCycle(v: real) {
    -1.0 <= v <= 1.0
  }

  /** Every intake and index speed is a valid duty cycle. */
  lemma DutyCyclesInRange()
    ensures DutyCycle(IntakingSpeed) && DutyCycle(IntakeEjectingSpeed) && DutyCycle(IntakeStoppingSpeed)
    ensures DutyCycle(IndexSpeed) && DutyCycle(FeedSpeed) && DutyCycle(SoftFeedSpeed)
    ensures DutyCycle(EjectSpeed) && DutyCycle(IndexStopSpeed)
  {
  }

  /** Each mechanism's reverse voltage limit mirrors its forward one. */
  lemma PeakVoltagesSymmetric()
    ensures IntakePeakReverseVoltage == -IntakePeakForwardVoltage
    ensures ShooterPeakReverseVoltage == -ShooterPeakForwardVoltage
    ensures IndexPeakReverseVoltage == -IndexPeakForwardVoltage
  {
  }

  /**
    Constants the alignment and speed-limit logic reads whose values are not part of this
    model; angles in degrees.
   */
  datatype Tuning = Tuning(
    rotationKS: real,
    speedLimitRot: real,
    redDumpAngle: real,
    blueDumpAngle: real,
    dumpAngle: real,
    redSlideAngle: real,
    blueSlideAngle: real,
    slideAngle: real,
    maxDumpError: real,
    maxSlideError: real,
    dumpShotVelocityErrorMax: real,
    slideShotVelocityErrorMax: real)
}
