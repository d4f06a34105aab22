/** The engine services the fusion calls but does not define: device origins,
    the positional Gaussian, angles and cosines, distances, quaternion
    operations and the palm-local joint list. They are passed in as functions;
    `Sound` states the facts about them that the proofs rely on. */
module EngineMaths {
  import opened Geometry
  import opened Tracking

  datatype Maths = Maths(
    /** GetSourceDeviceOrigin(FrameIdx).GetLocation(). */
    sourceDeviceOrigin: nat -> Vec3,
    /** The positional score of ConfidenceRelativeHandPos before its clamp:
        amplitude times the 2D Gaussian, for a device and a world position. */
    handPositionGauss: (nat, Vec3) -> real,
    /** AngleBetweenVectors, in degrees. */
    angleBetweenVectors: (Vec3, Vec3) -> real,
    /** FMath::Cos(FMath::DegreesToRadians(x)). */
    cosDegrees: real -> real,
    /** FVector::Distance. */
    distance: (Vec3, Vec3) -> real,
    /** `q.Quaternion() * v`: v rotated by q. */
    rotateVector: (Quat, Vec3) -> Vec3,
    /** FQuat::FastLerp(A, B, Alpha). */
    fastLerp: (Quat, Quat, real) -> Quat,
    /** CreateLocalLinearJointList: the hand's joints in palm-local space. */
    localLinearJoints: Hand -> seq<Vec3>)

  /** Cosine lies in [-1, 1], is 1 at 0 degrees and -1 at 180 degrees, and
      cos(x) == cos(360 - x); distances are non-negative; the local joint list
      has one entry per joint position. */
  ghost predicate Sound(m: Maths)
  {
    && (forall x :: -1.0 <= m.cosDegrees(x) <= 1.0)
    && m.cosDegrees(0.0) == 1.0
    && m.cosDegrees(180.0) == -1.0
    && (forall x, y :: x + y == 360.0 ==> m.cosDegrees(x) == m.cosDegrees(y))
    && (forall a, b :: m.distance(a, b) >= 0.0)
    && (forall h :: |m.localLinearJoints(h)| == NumJointPositions)
  }
}
