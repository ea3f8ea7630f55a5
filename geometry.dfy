/**
 * The value types the statistics engine works on: WPILib's Translation3d,
 * Rotation3d, Pose3d and Transform3d, and PhotonVision's TargetCorner and
 * PhotonTrackedTarget, reduced to the components the engine reads.
 */
module Geometry {

  /** A triple of per-axis values (x, y, z). */
  datatype Vec3<T> = Vec3(x: T, y: T, z: T)

  /** A pair of per-axis values (x, y). */
  datatype Vec2<T> = Vec2(x: T, y: T)

  /** A 3-D translation in metres. `new Translation3d()` is `Vec3(0.0, 0.0, 0.0)`. */
  type Translation3d = Vec3<real>

  /** An image-plane corner point in pixels. */
  type TargetCorner = Vec2<real>

  /**
   * A 3-D rotation, seen through its Euler angles in radians
   * (`getX()`, `getY()`, `getZ()`); `new Rotation3d()` is all zeros.
   */
  datatype Rotation3d = Rotation3d(x: real, y: real, z: real)

  const IdentityRotation: Rotation3d := Rotation3d(0.0, 0.0, 0.0)

  datatype Pose3d = Pose3d(translation: Translation3d, rotation: Rotation3d)

  datatype Transform3d = Transform3d(translation: Translation3d, rotation: Rotation3d)

  /** A tracked target: its fiducial ID and its detected corners in detection order. */
  datatype TrackedTarget = TrackedTarget(fiducialId: int, detectedCorners: seq<TargetCorner>)

  /**
   * `Math.sqrt(radicand)`, kept symbolic: the reals of the model are not
   * closed under square roots, so a standard deviation is represented by
   * the quantity whose non-negative square root it is.
   */
  datatype Sqrt = Sqrt(radicand: real)

  const ZeroSqrt: Sqrt := Sqrt(0.0)
}
