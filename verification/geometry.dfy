/** The geometry and kinematics value types the modelled code passes around, as plain
    immutable records over the reals. */
module Geometry {

  datatype Translation2d = Translation2d(x: real, y: real)

  /** A planar rotation, identified with its angle in radians. */
  datatype Rotation2d = Rotation2d(radians: real)

  datatype Pose2d = Pose2d(translation: Translation2d, rotation: Rotation2d)

  datatype ChassisSpeeds = ChassisSpeeds(vx: real, vy: real, omega: real)

  datatype Twist2d = Twist2d(dx: real, dy: real, dtheta: real)

  datatype Translation3d = Translation3d(x: real, y: real, z: real)

  datatype Quaternion = Quaternion(w: real, x: real, y: real, z: real)

  /** A spatial rotation as the struct serialisers see it: its quaternion. */
  datatype Rotation3d = Rotation3d(q: Quaternion)

  /** A spatial rotation as the coordinate conversions see it: its getX/getY/getZ angles
      (roll, pitch, yaw) in radians. */
  datatype EulerRotation3d = EulerRotation3d(x: real, y: real, z: real)

  datatype Pose3d = Pose3d(translation: Translation3d, rotation: Rotation3d)

  datatype Transform3d = Transform3d(translation: Translation3d, rotation: Rotation3d)
}
