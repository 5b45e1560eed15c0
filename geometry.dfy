/** The vector types of the javax vecmath library as the renderables use them. */
module Geometry {

  /** A `Point3f`: a position or a scale, with float components taken as reals. */
  datatype Vec3 = Vec3(x: real, y: real, z: real)

  /** A `Point3i`: a rotation in whole degrees about each axis. */
  datatype Rot3 = Rot3(x: int, y: int, z: int)

  const Origin := Vec3(0.0, 0.0, 0.0)
  const UnitScale := Vec3(1.0, 1.0, 1.0)
  const NoRotation := Rot3(0, 0, 0)
}
