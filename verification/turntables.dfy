/**
 * Value types shared by the motion planner, the scheduler and the link session:
 * the limiter box of one turntable axis and the four-real turntable pointing.
 */
module Turntables {

  /**
   * The limiter of one axis. As in the controller, x is the position (angle),
   * y the velocity (angular rate) and z the acceleration.
   */
  datatype Box = Box(xMin: real, xMax: real, yMin: real, yMax: real, zMin: real, zMax: real)

  /** A turntable pointing: azimuth, azimuth rate, pitch, pitch rate (radians, radians/second). */
  datatype CoordTurntable = CoordTurntable(azimuth: real, azimuthRate: real, pitch: real, pitchRate: real)

  /** The two limiters of a turntable. */
  datatype Limits = Limits(azimuth: Box, pitch: Box)

  /** The pointing of a turntable at rest at the origin (the default constructor). */
  const Origin := CoordTurntable(0.0, 0.0, 0.0, 0.0)

  /** A square-root oracle; floating-point sqrt is not modelled, only its defining property. */
  type Sqrt = real -> real

  ghost predicate IsSqrt(sqrt: Sqrt) {
    forall y: real :: 0.0 <= y ==> 0.0 <= sqrt(y) && sqrt(y) * sqrt(y) == y
  }

  /** What the closed-form swing solver needs of a limiter: it reads only yMax and zMax. */
  predicate SolverReady(b: Box) {
    b.yMax > 0.0 && b.zMax > 0.0
  }

  /** A limiter that brackets rest: every interval is non-empty and the accelerations straddle zero. */
  predicate Admissible(b: Box) {
    && b.xMin <= b.xMax
    && b.yMin < 0.0 < b.yMax
    && b.zMin < 0.0 < b.zMax
  }

  predicate LimitsReady(l: Limits) {
    SolverReady(l.azimuth) && SolverReady(l.pitch)
  }
}
