/** Two-pod dead-wheel kinematics: one pod measuring x at lateral offset `xWheelYPos`, one
    measuring y at longitudinal offset `yWheelXPos`, and a gyro for heading. */
module TwoPodKinematics {
  import opened Geometry

  datatype Kinematics = Kinematics(xWheelYPos: real, yWheelXPos: real)

  datatype WheelSpeeds = WheelSpeeds(xVel: real, yVel: real, omega: real)

  datatype WheelPositions = WheelPositions(x: real, y: real, yaw: Rotation2d)

  /** toChassisSpeeds: remove each pod's rotational component. */
  function ToChassisSpeeds(k: Kinematics, w: WheelSpeeds): (r: ChassisSpeeds)
    ensures r.omega == w.omega
    ensures r.vx - k.xWheelYPos * r.omega == w.xVel
    ensures r.vy + k.yWheelXPos * r.omega == w.yVel
  {
    ChassisSpeeds(w.xVel + k.xWheelYPos * w.omega, w.yVel - k.yWheelXPos * w.omega, w.omega)
  }

  /** toWheelSpeeds: what each pod reads while the chassis moves at `c`. */
  function ToWheelSpeeds(k: Kinematics, c: ChassisSpeeds): (r: WheelSpeeds)
    ensures r.omega == c.omega
    ensures r.xVel + k.xWheelYPos * r.omega == c.vx
    ensures r.yVel - k.yWheelXPos * r.omega == c.vy
  {
    WheelSpeeds(c.vx - k.xWheelYPos * c.omega, c.vy + k.yWheelXPos * c.omega, c.omega)
  }

  lemma ChassisRoundTrip(k: Kinematics, c: ChassisSpeeds)
    ensures ToChassisSpeeds(k, ToWheelSpeeds(k, c)) == c
  {
  }

  lemma WheelRoundTrip(k: Kinematics, w: WheelSpeeds)
    ensures ToWheelSpeeds(k, ToChassisSpeeds(k, w)) == w
  {
  }

  /** toTwist2d: the toChassisSpeeds formula applied to the position deltas, with the
      heading delta `end.yaw.minus(start.yaw).getRadians()` supplied by `headingDelta`
      (Rotation2d arithmetic is not part of this model). */
  function ToTwist2d(k: Kinematics, start: WheelPositions, end: WheelPositions, headingDelta: (Rotation2d, Rotation2d) -> real): (r: Twist2d)
    ensures var c := ToChassisSpeeds(k, WheelSpeeds(end.x - start.x, end.y - start.y, headingDelta(end.yaw, start.yaw)));
            r == Twist2d(c.vx, c.vy, c.omega)
    ensures r.dtheta == headingDelta(end.yaw, start.yaw)
  {
    var d := headingDelta(end.yaw, start.yaw);
    Twist2d((end.x - start.x) + k.xWheelYPos * d, (end.y - start.y) - k.yWheelXPos * d, d)
  }

  /** Equal readings give a zero twist when the heading delta of equal angles is zero. */
  lemma NoMotionNoTwist(k: Kinematics, p: WheelPositions, headingDelta: (Rotation2d, Rotation2d) -> real)
    requires headingDelta(p.yaw, p.yaw) == 0.0
    ensures ToTwist2d(k, p, p, headingDelta) == Twist2d(0.0, 0.0, 0.0)
  {
  }

  /** copy: a record with equal fields. */
  function Copy(k: Kinematics, p: WheelPositions): (r: WheelPositions)
    ensures r == p
  {
    WheelPositions(p.x, p.y, p.yaw)
  }

  /** copyInto: the output's three fields are overwritten with the source's; the source,
      a value, cannot change. */
  function CopyInto(k: Kinematics, source: WheelPositions, output: WheelPositions): (r: WheelPositions)
    ensures r == source
  {
    output.(x := source.x, y := source.y, yaw := source.yaw)
  }
}

/** Three-pod dead-wheel kinematics: two pods measuring x at lateral offsets `x0WheelYPos`
    and `x1WheelYPos`, one measuring y at longitudinal offset `yWheelXPos`. */
module ThreePodKinematics {
  import opened Geometry

  datatype Kinematics = Kinematics(x0WheelYPos: real, x1WheelYPos: real, yWheelXPos: real)

  datatype WheelSpeeds = WheelSpeeds(x0Vel: real, x1Vel: real, yVel: real)

  datatype WheelPositions = WheelPositions(x0: real, x1: real, y: real)

  /** The inverse formulas divide by the pods' lateral separation. */
  predicate Valid(k: Kinematics) {
    k.x1WheelYPos != k.x0WheelYPos
  }

  /** toWheelSpeeds: each x pod reads vx - podY * omega, the y pod vy + yWheelXPos * omega. */
  function ToWheelSpeeds(k: Kinematics, c: ChassisSpeeds): (r: WheelSpeeds)
    ensures r.x0Vel - r.x1Vel == (k.x1WheelYPos - k.x0WheelYPos) * c.omega
    ensures r.x0Vel + k.x0WheelYPos * c.omega == c.vx && r.x1Vel + k.x1WheelYPos * c.omega == c.vx
    ensures r.yVel - k.yWheelXPos * c.omega == c.vy
  {
    WheelSpeeds(c.vx - k.x0WheelYPos * c.omega, c.vx - k.x1WheelYPos * c.omega, c.vy + k.yWheelXPos * c.omega)
  }

  /** toChassisSpeeds: solve the three pod equations for (vx, vy, omega). */
  function ToChassisSpeeds(k: Kinematics, w: WheelSpeeds): (r: ChassisSpeeds)
    requires Valid(k)
    ensures w.x0Vel == r.vx - k.x0WheelYPos * r.omega
    ensures w.x1Vel == r.vx - k.x1WheelYPos * r.omega
    ensures w.yVel == r.vy + k.yWheelXPos * r.omega
  {
    var d := k.x1WheelYPos - k.x0WheelYPos;
    var r := ChassisSpeeds(
      (w.x0Vel * k.x1WheelYPos - w.x1Vel * k.x0WheelYPos) / d,
      w.yVel - k.yWheelXPos * (w.x0Vel - w.x1Vel) / d,
      (w.x0Vel - w.x1Vel) / d);
    assert r.omega * d == w.x0Vel - w.x1Vel;
    assert r.vx * d == w.x0Vel * k.x1WheelYPos - w.x1Vel * k.x0WheelYPos;
    assert (r.vx - k.x0WheelYPos * r.omega) * d == w.x0Vel * d;
    assert (r.vx - k.x1WheelYPos * r.omega) * d == w.x1Vel * d;
    r
  }

  /** Wheel speeds to chassis speeds and back is the identity. */
  lemma WheelRoundTrip(k: Kinematics, w: WheelSpeeds)
    requires Valid(k)
    ensures ToWheelSpeeds(k, ToChassisSpeeds(k, w)) == w
  {
  }

  /** Chassis speeds to wheel speeds and back is the identity. */
  lemma ChassisRoundTrip(k: Kinematics, c: ChassisSpeeds)
    requires Valid(k)
    ensures ToChassisSpeeds(k, ToWheelSpeeds(k, c)) == c
  {
    var w := ToWheelSpeeds(k, c);
    var r := ToChassisSpeeds(k, w);
    var d := k.x1WheelYPos - k.x0WheelYPos;
    assert (r.omega - c.omega) * d == 0.0;
    assert r.omega == c.omega;
    assert (r.vx - c.vx) == 0.0;
  }

  /** toTwist2d: the toChassisSpeeds formula applied to the position deltas. */
  function ToTwist2d(k: Kinematics, start: WheelPositions, end: WheelPositions): (r: Twist2d)
    requires Valid(k)
    ensures var c := ToChassisSpeeds(k, WheelSpeeds(end.x0 - start.x0, end.x1 - start.x1, end.y - start.y));
            r == Twist2d(c.vx, c.vy, c.omega)
  {
    var dx0 := end.x0 - start.x0;
    var dx1 := end.x1 - start.x1;
    var dy := end.y - start.y;
    var d := k.x1WheelYPos - k.x0WheelYPos;
    Twist2d((dx0 * k.x1WheelYPos - dx1 * k.x0WheelYPos) / d, dy - k.yWheelXPos * (dx0 - dx1) / d, (dx0 - dx1) / d)
  }

  /** Equal readings give a zero twist. */
  lemma NoMotionNoTwist(k: Kinematics, p: WheelPositions)
    requires Valid(k)
    ensures ToTwist2d(k, p, p) == Twist2d(0.0, 0.0, 0.0)
  {
  }

  /** copy: a record with equal fields. */
  function Copy(k: Kinematics, p: WheelPositions): (r: WheelPositions)
    ensures r == p
  {
    WheelPositions(p.x0, p.x1, p.y)
  }

  /** copyInto: the output's three fields are overwritten with the source's. */
  function CopyInto(k: Kinematics, source: WheelPositions, output: WheelPositions): (r: WheelPositions)
    ensures r == source
  {
    output.(x0 := source.x0, x1 := source.x1, y := source.y)
  }

  /** interpolate: delegated to the start reading's own interpolate, which interpolates
      each field with MathUtil.interpolate, supplied here as `lerp`. */
  function Interpolate(k: Kinematics, start: WheelPositions, end: WheelPositions, t: real, lerp: (real, real, real) -> real): (r: WheelPositions)
    ensures r.x0 == lerp(start.x0, end.x0, t) && r.x1 == lerp(start.x1, end.x1, t) && r.y == lerp(start.y, end.y, t)
  {
    WheelPositions(lerp(start.x0, end.x0, t), lerp(start.x1, end.x1, t), lerp(start.y, end.y, t))
  }
}
