/**
 * Vector values of the engine (glm::vec2 / glm::vec3 over exact reals) and the
 * non-algebraic maths it calls (sin, cos, atan2, asin, length, normalize).
 *
 * The transcendental functions are not modelled: every operation that needs
 * them receives a `Maths` value holding them as plain function values, so a
 * proof can only use what its own `requires` says about them.
 */
module Vectors {

  datatype Vec3 = Vec3(x: real, y: real, z: real)

  datatype Vec2 = Vec2(u: real, v: real)

  const Origin: Vec3 := Vec3(0.0, 0.0, 0.0)

  function Add(a: Vec3, b: Vec3): Vec3 { Vec3(a.x + b.x, a.y + b.y, a.z + b.z) }

  function Sub(a: Vec3, b: Vec3): Vec3 { Vec3(a.x - b.x, a.y - b.y, a.z - b.z) }

  function Neg(a: Vec3): Vec3 { Vec3(-a.x, -a.y, -a.z) }

  function Scale(k: real, a: Vec3): Vec3 { Vec3(k * a.x, k * a.y, k * a.z) }

  function Cross(a: Vec3, b: Vec3): Vec3 {
    Vec3(a.y * b.z - a.z * b.y, a.z * b.x - a.x * b.z, a.x * b.y - a.y * b.x)
  }

  function Dot(a: Vec3, b: Vec3): real { a.x * b.x + a.y * b.y + a.z * b.z }

  /** Weighted sum w0·p0 + w1·p1 + w2·p2 + w3·p3 (one row of a 4x4 matrix times four points). */
  function Combine(w0: real, w1: real, w2: real, w3: real, p0: Vec3, p1: Vec3, p2: Vec3, p3: Vec3): Vec3 {
    Vec3(w0 * p0.x + w1 * p1.x + w2 * p2.x + w3 * p3.x,
         w0 * p0.y + w1 * p1.y + w2 * p2.y + w3 * p3.y,
         w0 * p0.z + w1 * p1.z + w2 * p2.z + w3 * p3.z)
  }

  /** The transcendental functions the engine takes from <cmath> and glm. */
  datatype Maths = Maths(
    sin: real -> real,
    cos: real -> real,
    atan2: (real, real) -> real,
    asin: real -> real,
    length: Vec3 -> real,
    normalize: Vec3 -> Vec3)

  /** glm::normalize divides its argument by its length, so the result is
      the argument scaled by a non-negative factor. (For the zero vector
      glm returns NaN; a factor of 0 stands in for it here.) */
  ghost predicate NormalizeScales(maths: Maths) {
    forall v :: exists k: real :: k >= 0.0 && maths.normalize(v) == Scale(k, v)
  }

  /** glm::length of a non-zero vector's direction scaled by k >= 0 is k. */
  ghost predicate LengthOfScaledUnit(maths: Maths) {
    forall k: real, v :: k >= 0.0 && v != Origin ==> maths.length(Scale(k, maths.normalize(v))) == k
  }

  lemma DotScale(k: real, a: Vec3, b: Vec3)
    ensures Dot(Scale(k, a), b) == k * Dot(a, b)
  {
  }

  /** a × b is perpendicular to both a and b. */
  lemma CrossPerpendicular(a: Vec3, b: Vec3)
    ensures Dot(Cross(a, b), a) == 0.0 && Dot(Cross(a, b), b) == 0.0
  {
  }

  /** Normalising a cross product keeps it perpendicular to both factors. */
  lemma NormalizedCrossPerpendicular(maths: Maths, a: Vec3, b: Vec3)
    requires NormalizeScales(maths)
    ensures Dot(maths.normalize(Cross(a, b)), a) == 0.0
    ensures Dot(maths.normalize(Cross(a, b)), b) == 0.0
  {
    var c := Cross(a, b);
    var k :| k >= 0.0 && maths.normalize(c) == Scale(k, c);
    CrossPerpendicular(a, b);
    DotScale(k, c, a);
    DotScale(k, c, b);
  }

  /** A non-zero vector's direction has length 1. */
  lemma NormalizedUnit(maths: Maths, v: Vec3)
    requires LengthOfScaledUnit(maths) && v != Origin
    ensures maths.length(maths.normalize(v)) == 1.0
  {
    assert Scale(1.0, maths.normalize(v)) == maths.normalize(v);
  }

  /** glm::radians; pi is the double closest to the circle constant. */
  const Pi: real := 3.141592653589793

  function Radians(degrees: real): real { degrees * Pi / 180.0 }

  /** glm::degrees */
  function Degrees(radians: real): real { radians * 180.0 / Pi }

  /** glm::clamp */
  function Clamp(v: real, lo: real, hi: real): real {
    if v < lo then lo else if v > hi then hi else v
  }

  /** std::max on reals */
  function Max(a: real, b: real): real { if a < b then b else a }
}
