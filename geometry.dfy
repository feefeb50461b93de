/** Optional values, used where the source has a nullable reference or an unfilled array slot. */
module Wrappers {
  datatype Option<T> = None | Some(value: T)
}

/**
  Planar geometry used by the drivetrain and the alignment logic: translations in metres,
  poses whose heading is a real number of degrees, module states and positions, and the
  wrap of angle differences into (-180, 180].
 */
module Geometry {

  /** A point or displacement in the field or robot frame, in metres. */
  datatype Translation = Translation(x: real, y: real) {
    function Plus(other: Translation): Translation {
      Translation(x + other.x, y + other.y)
    }

    /** Displacement from `other` to this point. */
    function Minus(other: Translation): Translation {
      Translation(x - other.x, y - other.y)
    }

    function SquaredNorm(): real {
      x * x + y * y
    }
  }

  const Origin := Translation(0.0, 0.0)

  /** A robot pose on the field: translation and heading in degrees. */
  datatype Pose = Pose(translation: Translation, heading: real)

  /** The pose a fresh odometry or estimator starts from. */
  const StartPose := Pose(Origin, 0.0)

  /** Commanded or measured state of one wheel module: drive speed (m/s), steering angle (degrees). */
  datatype ModuleState = ModuleState(speed: real, angle: real)

  /** Accumulated drive distance (m) and steering angle (degrees) of one wheel module. */
  datatype ModulePosition = ModulePosition(distance: real, angle: real)

  /** A chassis velocity: vx, vy in m/s and omega in rad/s. */
  datatype ChassisSpeeds = ChassisSpeeds(vx: real, vy: real, omega: real)

  function Abs(x: real): (r: real)
    ensures r >= 0.0 && (r == x || r == -x)
  {
    if x < 0.0 then -x else x
  }

  /** True when `x` degrees is a whole number of full turns. */
  predicate WholeTurns(x: real) {
    (x / 360.0).Floor as real == x / 360.0
  }

  /**
    The canonical representative of an angle in (-180, 180]: what a rotation rebuilt from its
    cosine and sine reports in degrees.
   */
  function WrapDegrees(d: real): (r: real)
    ensures -180.0 < r <= 180.0
    ensures WholeTurns(r - d)
  {
    var k := ((180.0 - d) / 360.0).Floor;
    assert (k as real) <= (180.0 - d) / 360.0 < (k as real) + 1.0;
    var r := d + 360.0 * (k as real);
    assert (r - d) / 360.0 == k as real;
    r
  }

  /** Any angle in (-180, 180] that differs from `d` by whole turns IS the wrap of `d`. */
  lemma WrapUnique(d: real, r: real)
    requires -180.0 < r <= 180.0
    requires WholeTurns(r - d)
    ensures r == WrapDegrees(d)
  {
    var w := WrapDegrees(d);
    var m := ((r - d) / 360.0).Floor;
    var n := ((w - d) / 360.0).Floor;
    assert r - w == 360.0 * ((m - n) as real);
    assert -1.0 < (m - n) as real < 1.0;
    assert m == n;
  }

  /** Angles already in (-180, 180] are left alone. */
  lemma WrapCanonical(d: real)
    requires -180.0 < d <= 180.0
    ensures WrapDegrees(d) == d
  {
    assert (0.0 / 360.0).Floor == 0;
    WrapUnique(d, d);
  }

  /** Wrapping twice is wrapping once. */
  lemma WrapIdempotent(d: real)
    ensures WrapDegrees(WrapDegrees(d)) == WrapDegrees(d)
  {
    WrapCanonical(WrapDegrees(d));
  }

  /** Adding a full turn does not change the wrapped angle. */
  lemma WrapPeriodic(d: real, k: int)
    ensures WrapDegrees(d + 360.0 * (k as real)) == WrapDegrees(d)
  {
    var w := WrapDegrees(d);
    var m := ((w - d) / 360.0).Floor;
    assert (w - (d + 360.0 * (k as real))) / 360.0 == (m - k) as real;
    WrapUnique(d + 360.0 * (k as real), w);
  }

  /** Turning back by whole turns is whole turns too. */
  lemma WholeTurnsNegate(x: real)
    requires WholeTurns(x)
    ensures WholeTurns(0.0 - x)
  {
    var k := (x / 360.0).Floor;
    var q := (0.0 - x) / 360.0;
    assert q == 0.0 - x / 360.0;
    assert q == (-k) as real;
    assert q.Floor == -k;
  }

  /** A whole number of turns wraps to zero. */
  lemma WrapWholeTurns(d: real)
    requires WholeTurns(d)
    ensures WrapDegrees(d) == 0.0
  {
    WholeTurnsNegate(d);
    WrapUnique(d, 0.0);
  }

  /**
    `a.minus(b)` of two rotations, in degrees: the difference wrapped into (-180, 180].
   */
  function RotationMinus(a: real, b: real): (r: real)
    ensures -180.0 < r <= 180.0
    ensures WholeTurns(r - (a - b))
  {
    WrapDegrees(a - b)
  }
}
