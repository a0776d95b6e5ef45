/** CoordinateSystems: conversions between WPILib's coordinate systems and the FTC SDK's
    field and robot coordinate systems, over the reals. */
module CoordinateSystems {
  import opened Wrappers
  import opened Geometry

  datatype DistanceUnit = METER | CM | MM | INCH

  datatype AngleUnit = DEGREES | RADIANS

  /** The SDK's Position; a null unit is `None`. */
  datatype Position = Position(unit: Option<DistanceUnit>, x: real, y: real, z: real, acquisitionTime: int)

  datatype YawPitchRollAngles = YawPitchRollAngles(unit: AngleUnit, yaw: real, pitch: real, roll: real, acquisitionTime: int)

  const MetersPerInch: real := 0.0254

  /** Units.inchesToMeters. */
  function InchesToMeters(inches: real): real {
    inches * MetersPerInch
  }

  /** Six inches: the offset between the two field origins along each axis. */
  const FieldOffset: real := InchesToMeters(6.0)

  /** The factor the unit switch applies to each coordinate, as written: 1 for metres, 100
      for centimetres, 1000 for millimetres and 0.0254 for inches. */
  function AsWrittenFactor(u: DistanceUnit): real {
    match u
    case METER => 1.0
    case CM => 100.0
    case MM => 1000.0
    case INCH => MetersPerInch
  }

  /** The unit switch shared by both position conversions, as written: the CM and MM
      branches multiply by 100 and 1000. A null unit fails (Java's switch on a null enum
      throws before reaching the default branch, which the four units make unreachable). */
  function ToMetersAsWritten(p: Position): (r: Result<Translation3d>)
    ensures r.Err? <==> p.unit.None?
    ensures p.unit == Some(METER) ==> r == Ok(Translation3d(p.x, p.y, p.z))
    ensures p.unit == Some(CM) ==> r == Ok(Translation3d(p.x * 100.0, p.y * 100.0, p.z * 100.0))
    ensures p.unit == Some(MM) ==> r == Ok(Translation3d(p.x * 1000.0, p.y * 1000.0, p.z * 1000.0))
    ensures p.unit == Some(INCH) ==> r == Ok(Translation3d(p.x * MetersPerInch, p.y * MetersPerInch, p.z * MetersPerInch))
  {
    match p.unit
    case None => Err(UnitMissing)
    case Some(METER) => Ok(Translation3d(p.x, p.y, p.z))
    case Some(CM) => Ok(Translation3d(p.x * 100.0, p.y * 100.0, p.z * 100.0))
    case Some(MM) => Ok(Translation3d(p.x * 1000.0, p.y * 1000.0, p.z * 1000.0))
    case Some(INCH) => Ok(Translation3d(InchesToMeters(p.x), InchesToMeters(p.y), InchesToMeters(p.z)))
  }

  /** WPILibToFieldCoordinates: a METER position, acquired at time 0. */
  function WPILibToFieldCoordinates(t: Translation3d): (r: Position)
    ensures r.unit == Some(METER) && r.acquisitionTime == 0
    ensures r.z == t.z
    ensures r.x - FieldOffset == t.y && FieldOffset - r.y == t.x
  {
    Position(Some(METER), FieldOffset + t.y, FieldOffset - t.x, t.z, 0)
  }

  /** fieldCoordinatesToWPILib. */
  function FieldCoordinatesToWPILib(p: Position): (r: Result<Translation3d>)
    ensures r.Err? <==> p.unit.None?
    ensures p.unit == Some(METER) ==> r == Ok(Translation3d(FieldOffset - p.y, p.x - FieldOffset, p.z))
    ensures p.unit.Some? ==>
      var k := AsWrittenFactor(p.unit.value);
      r == Ok(Translation3d(FieldOffset - p.y * k, p.x * k - FieldOffset, p.z * k))
  {
    var m :- ToMetersAsWritten(p);
    Ok(Translation3d(FieldOffset - m.y, m.x - FieldOffset, m.z))
  }

  /** WPILibToRobotCoordinates: a METER position, acquired at time 0. */
  function WPILibToRobotCoordinates(t: Translation3d): (r: Position)
    ensures r.unit == Some(METER) && r.acquisitionTime == 0
    ensures r.z == t.z
    ensures r.y == t.x && -r.x == t.y
  {
    Position(Some(METER), -t.y, t.x, t.z, 0)
  }

  /** robotCoordinatesToWPILib. */
  function RobotCoordinatesToWPILib(p: Position): (r: Result<Translation3d>)
    ensures r.Err? <==> p.unit.None?
    ensures p.unit == Some(METER) ==> r == Ok(Translation3d(p.y, -p.x, p.z))
    ensures p.unit.Some? ==>
      var k := AsWrittenFactor(p.unit.value);
      r == Ok(Translation3d(p.y * k, -(p.x * k), p.z * k))
  {
    var m :- ToMetersAsWritten(p);
    Ok(Translation3d(m.y, -m.x, m.z))
  }

  /** WPILibToSDKRotation: yaw from Z, pitch from -Y, roll from X, in radians, time 0. */
  function WPILibToSDKRotation(rot: EulerRotation3d): (r: YawPitchRollAngles)
    ensures r.unit == RADIANS && r.acquisitionTime == 0
    ensures r.yaw == rot.z && r.pitch == -rot.y && r.roll == rot.x
  {
    YawPitchRollAngles(RADIANS, rot.z, -rot.y, rot.x, 0)
  }

  /** SDKRotationToWPILib: (roll, -pitch, yaw), each read in radians through the SDK's
      angle-unit conversion `inRadians(unit, value)`, which is not part of this model. */
  function SDKRotationToWPILib(a: YawPitchRollAngles, inRadians: (AngleUnit, real) -> real): (r: EulerRotation3d)
    ensures r.x == inRadians(a.unit, a.roll)
    ensures r.y == -inRadians(a.unit, a.pitch)
    ensures r.z == inRadians(a.unit, a.yaw)
  {
    EulerRotation3d(inRadians(a.unit, a.roll), -inRadians(a.unit, a.pitch), inRadians(a.unit, a.yaw))
  }

  /** Field coordinates and back is the identity. */
  lemma FieldRoundTrip(t: Translation3d)
    ensures FieldCoordinatesToWPILib(WPILibToFieldCoordinates(t)) == Ok(t)
  {
  }

  /** A METER field position read at time 0 survives the trip through WPILib coordinates. */
  lemma FieldRoundTripFromSDK(p: Position)
    requires p.unit == Some(METER) && p.acquisitionTime == 0
    ensures FieldCoordinatesToWPILib(p).Ok?
    ensures WPILibToFieldCoordinates(FieldCoordinatesToWPILib(p).value) == p
  {
  }

  /** Robot coordinates and back is the identity. */
  lemma RobotRoundTrip(t: Translation3d)
    ensures RobotCoordinatesToWPILib(WPILibToRobotCoordinates(t)) == Ok(t)
  {
  }

  /** A METER robot position read at time 0 survives the trip through WPILib coordinates. */
  lemma RobotRoundTripFromSDK(p: Position)
    requires p.unit == Some(METER) && p.acquisitionTime == 0
    ensures RobotCoordinatesToWPILib(p).Ok?
    ensures WPILibToRobotCoordinates(RobotCoordinatesToWPILib(p).value) == p
  {
  }

  /** z is the one axis no conversion swaps or offsets: the forward maps copy it, and the
      reverse maps only apply the unit switch's factor to it, which leaves metres as they are. */
  lemma ZPassesThrough(t: Translation3d, p: Position)
    ensures WPILibToFieldCoordinates(t).z == t.z && WPILibToRobotCoordinates(t).z == t.z
    ensures p.unit.Some? ==>
      && FieldCoordinatesToWPILib(p).value.z == p.z * AsWrittenFactor(p.unit.value)
      && RobotCoordinatesToWPILib(p).value.z == p.z * AsWrittenFactor(p.unit.value)
    ensures p.unit == Some(METER) ==>
      FieldCoordinatesToWPILib(p).value.z == p.z && RobotCoordinatesToWPILib(p).value.z == p.z
  {
  }

  /** WPILib rotation to SDK angles and back is the identity whenever the SDK's conversion
      leaves radian values as they are. */
  lemma RotationRoundTrip(rot: EulerRotation3d, inRadians: (AngleUnit, real) -> real)
    requires inRadians(RADIANS, rot.x) == rot.x
    requires inRadians(RADIANS, -rot.y) == -rot.y
    requires inRadians(RADIANS, rot.z) == rot.z
    ensures SDKRotationToWPILib(WPILibToSDKRotation(rot), inRadians) == rot
  {
  }

  // ---------------------------------------------------------------------------------------
  // The CM and MM branches scale the wrong way

  /** One metre given in centimetres converts to a point 10000 m off the same metre given
      in metres. */
  lemma CentimetresDisagreeWithMetres()
    ensures ToMetersAsWritten(Position(Some(CM), 100.0, 0.0, 0.0, 0)) == Ok(Translation3d(10000.0, 0.0, 0.0))
    ensures FieldCoordinatesToWPILib(Position(Some(CM), 100.0, 0.0, 0.0, 0))
            != FieldCoordinatesToWPILib(Position(Some(METER), 1.0, 0.0, 0.0, 0))
    ensures RobotCoordinatesToWPILib(Position(Some(MM), 1000.0, 0.0, 0.0, 0))
            != RobotCoordinatesToWPILib(Position(Some(METER), 1.0, 0.0, 0.0, 0))
  {
  }

  /** The unit switch as evidently intended: centimetres and millimetres are divided down
      to metres. */
  function ToMeters(p: Position): (r: Result<Translation3d>)
    ensures r.Err? <==> p.unit.None?
    ensures p.unit == Some(METER) ==> r == Ok(Translation3d(p.x, p.y, p.z))
    ensures p.unit == Some(CM) ==> r.Ok? && r.value.x * 100.0 == p.x && r.value.y * 100.0 == p.y && r.value.z * 100.0 == p.z
    ensures p.unit == Some(MM) ==> r.Ok? && r.value.x * 1000.0 == p.x && r.value.y * 1000.0 == p.y && r.value.z * 1000.0 == p.z
    ensures p.unit == Some(INCH) ==> r.Ok? && r.value == Translation3d(InchesToMeters(p.x), InchesToMeters(p.y), InchesToMeters(p.z))
  {
    match p.unit
    case None => Err(UnitMissing)
    case Some(METER) => Ok(Translation3d(p.x, p.y, p.z))
    case Some(CM) => Ok(Translation3d(p.x / 100.0, p.y / 100.0, p.z / 100.0))
    case Some(MM) => Ok(Translation3d(p.x / 1000.0, p.y / 1000.0, p.z / 1000.0))
    case Some(INCH) => Ok(Translation3d(InchesToMeters(p.x), InchesToMeters(p.y), InchesToMeters(p.z)))
  }

  /** fieldCoordinatesToWPILib with the corrected unit switch: the metres are swapped into
      WPILib axes exactly as before. Where the written factor was already right (metres and
      inches) it agrees with the code as written. */
  function FieldCoordinatesToWPILibCorrected(p: Position): (r: Result<Translation3d>)
    ensures r.Ok? <==> p.unit.Some?
    ensures r.Ok? ==> var m := ToMeters(p).value;
                      r.value == Translation3d(FieldOffset - m.y, m.x - FieldOffset, m.z)
    ensures r.Ok? ==> var m := ToMeters(p).value;
                      WPILibToFieldCoordinates(r.value) == Position(Some(METER), m.x, m.y, m.z, 0)
    ensures p.unit == Some(METER) || p.unit == Some(INCH) ==> r == FieldCoordinatesToWPILib(p)
  {
    var m :- ToMeters(p);
    Ok(Translation3d(FieldOffset - m.y, m.x - FieldOffset, m.z))
  }

  /** robotCoordinatesToWPILib with the corrected unit switch; it too agrees with the code
      as written for metres and inches. */
  function RobotCoordinatesToWPILibCorrected(p: Position): (r: Result<Translation3d>)
    ensures r.Ok? <==> p.unit.Some?
    ensures r.Ok? ==> var m := ToMeters(p).value;
                      r.value == Translation3d(m.y, -m.x, m.z)
    ensures r.Ok? ==> var m := ToMeters(p).value;
                      WPILibToRobotCoordinates(r.value) == Position(Some(METER), m.x, m.y, m.z, 0)
    ensures p.unit == Some(METER) || p.unit == Some(INCH) ==> r == RobotCoordinatesToWPILib(p)
  {
    var m :- ToMeters(p);
    Ok(Translation3d(m.y, -m.x, m.z))
  }

  /** The same physical point expressed in any unit converts to the same WPILib point. */
  lemma CorrectedConversionIsUnitInvariant(x: real, y: real, z: real, time: int)
    ensures var m := Position(Some(METER), x, y, z, time);
            && FieldCoordinatesToWPILibCorrected(Position(Some(CM), x * 100.0, y * 100.0, z * 100.0, time)) == FieldCoordinatesToWPILibCorrected(m)
            && FieldCoordinatesToWPILibCorrected(Position(Some(MM), x * 1000.0, y * 1000.0, z * 1000.0, time)) == FieldCoordinatesToWPILibCorrected(m)
            && FieldCoordinatesToWPILibCorrected(Position(Some(INCH), x / MetersPerInch, y / MetersPerInch, z / MetersPerInch, time)) == FieldCoordinatesToWPILibCorrected(m)
            && RobotCoordinatesToWPILibCorrected(Position(Some(CM), x * 100.0, y * 100.0, z * 100.0, time)) == RobotCoordinatesToWPILibCorrected(m)
            && RobotCoordinatesToWPILibCorrected(Position(Some(MM), x * 1000.0, y * 1000.0, z * 1000.0, time)) == RobotCoordinatesToWPILibCorrected(m)
            && RobotCoordinatesToWPILibCorrected(Position(Some(INCH), x / MetersPerInch, y / MetersPerInch, z / MetersPerInch, time)) == RobotCoordinatesToWPILibCorrected(m)
  {
    ScaledPositionsToMeters(x, y, z, time);
  }

  /** A point given in centimetres, millimetres or inches is read back as the same metres. */
  lemma ScaledPositionsToMeters(x: real, y: real, z: real, time: int)
    ensures ToMeters(Position(Some(CM), x * 100.0, y * 100.0, z * 100.0, time)) == Ok(Translation3d(x, y, z))
    ensures ToMeters(Position(Some(MM), x * 1000.0, y * 1000.0, z * 1000.0, time)) == Ok(Translation3d(x, y, z))
    ensures ToMeters(Position(Some(INCH), x / MetersPerInch, y / MetersPerInch, z / MetersPerInch, time)) == Ok(Translation3d(x, y, z))
  {
    assert InchesToMeters(x / MetersPerInch) == x;
    assert InchesToMeters(y / MetersPerInch) == y;
    assert InchesToMeters(z / MetersPerInch) == z;
  }

  /** The corrected conversions still invert WPILibToFieldCoordinates and
      WPILibToRobotCoordinates. */
  lemma CorrectedRoundTrips(t: Translation3d)
    ensures FieldCoordinatesToWPILibCorrected(WPILibToFieldCoordinates(t)) == Ok(t)
    ensures RobotCoordinatesToWPILibCorrected(WPILibToRobotCoordinates(t)) == Ok(t)
  {
  }
}
