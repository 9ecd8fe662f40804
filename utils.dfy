/**
 * Degree/radian unit conversion (the `VectorUtils` helper of the vector package).
 *
 * The source multiplies by `Math.PI / 180` and `180 / Math.PI`. Here `Pi` is an
 * abstract positive real: nothing is assumed about it except that it is
 * positive, and the arithmetic is exact, so the round trips below hold exactly
 * instead of up to floating-point rounding.
 */
module VectorUtils {

  type Positive = r: real | 0.0 < r witness 1.0

  /** The circle constant, known only to be positive. */
  const Pi: Positive

  /** `degreesToRadians`: scales an angle in degrees by Pi/180. */
  function DegreesToRadians(degrees: real): (radians: real)
    ensures radians * 180.0 == degrees * Pi
  {
    degrees * (Pi / 180.0)
  }

  /** `radiansToDegrees`: scales an angle in radians by 180/Pi. */
  function RadiansToDegrees(radians: real): (degrees: real)
    ensures degrees * Pi == radians * 180.0
  {
    radians * (180.0 / Pi)
  }

  /** Converting to radians and back gives the original angle. */
  lemma DegreesRoundTrip(degrees: real)
    ensures RadiansToDegrees(DegreesToRadians(degrees)) == degrees
  {
  }

  /** Converting to degrees and back gives the original angle. */
  lemma RadiansRoundTrip(radians: real)
    ensures DegreesToRadians(RadiansToDegrees(radians)) == radians
  {
  }

  /** A straight angle is Pi radians; zero stays zero. */
  lemma Landmarks()
    ensures DegreesToRadians(0.0) == 0.0
    ensures DegreesToRadians(180.0) == Pi
    ensures DegreesToRadians(360.0) == 2.0 * Pi
    ensures RadiansToDegrees(Pi) == 180.0
  {
  }

  /** Both conversions are linear: additive and homogeneous. */
  lemma ConversionsAreLinear(a: real, b: real, k: real)
    ensures DegreesToRadians(a + b) == DegreesToRadians(a) + DegreesToRadians(b)
    ensures DegreesToRadians(k * a) == k * DegreesToRadians(a)
    ensures RadiansToDegrees(a + b) == RadiansToDegrees(a) + RadiansToDegrees(b)
    ensures RadiansToDegrees(k * a) == k * RadiansToDegrees(a)
  {
  }

  /** Both conversions are injective, so distinct angles stay distinct. */
  lemma ConversionsAreInjective(a: real, b: real)
    ensures DegreesToRadians(a) == DegreesToRadians(b) <==> a == b
    ensures RadiansToDegrees(a) == RadiansToDegrees(b) <==> a == b
  {
  }
}
