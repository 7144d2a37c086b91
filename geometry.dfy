/**
 * Positions and the distance comparisons the simulation makes on them.
 * Unity's Vector3 becomes a triple of reals; every comparison of a
 * magnitude against a constant is done on squared magnitudes, which the
 * lemmas at the end justify for any non-negative magnitude.
 */
module Geometry {

  datatype Vec3 = Vec3(x: real, y: real, z: real)

  const Zero := Vec3(0.0, 0.0, 0.0)

  function Add(a: Vec3, b: Vec3): Vec3 { Vec3(a.x + b.x, a.y + b.y, a.z + b.z) }

  function Sub(a: Vec3, b: Vec3): Vec3 { Vec3(a.x - b.x, a.y - b.y, a.z - b.z) }

  function Scale(a: Vec3, k: real): Vec3 { Vec3(a.x * k, a.y * k, a.z * k) }

  function Neg(a: Vec3): Vec3 { Vec3(-a.x, -a.y, -a.z) }

  /** The vector with its vertical component zeroed. */
  function Flat(a: Vec3): Vec3 { Vec3(a.x, 0.0, a.z) }

  function SqMag(a: Vec3): real { a.x * a.x + a.y * a.y + a.z * a.z }

  /** Squared Euclidean distance (Vector3.Distance squared). */
  function SqDist(a: Vec3, b: Vec3): real { SqMag(Sub(b, a)) }

  /** Mathf.Clamp on one axis. */
  function Clamp(v: real, lo: real, hi: real): (r: real)
    requires lo <= hi
    ensures lo <= r <= hi
    ensures lo <= v <= hi ==> r == v
    ensures v < lo ==> r == lo
    ensures hi < v ==> r == hi
  {
    if v < lo then lo else if v > hi then hi else v
  }

  /** "a magnitude whose square is sq is greater than limit" */
  predicate Exceeds(sq: real, limit: real)
  {
    limit < 0.0 || sq > limit * limit
  }

  /** "a magnitude whose square is sq is less than limit" */
  predicate Below(sq: real, limit: real)
  {
    limit > 0.0 && sq < limit * limit
  }

  /** Squaring is strictly increasing on the non-negative reals. */
  lemma SquareStrict(a: real, b: real)
    requires 0.0 <= a < b
    ensures a * a < b * b
  {
    var d := b - a;
    assert b * b == (a + d) * (a + d) == a * a + 2.0 * a * d + d * d;
    assert d * d > 0.0;
    assert a * d >= 0.0;
  }

  /** The squared test `Exceeds` agrees with `m > limit` for every magnitude m. */
  lemma ExceedsIff(m: real, limit: real)
    requires m >= 0.0
    ensures Exceeds(m * m, limit) <==> m > limit
  {
    if limit >= 0.0 {
      if m > limit {
        SquareStrict(limit, m);
      } else if m < limit {
        SquareStrict(m, limit);
      }
    }
  }

  /** The squared test `Below` agrees with `m < limit` for every magnitude m. */
  lemma BelowIff(m: real, limit: real)
    requires m >= 0.0
    ensures Below(m * m, limit) <==> m < limit
  {
    if limit > 0.0 {
      if m < limit {
        SquareStrict(m, limit);
      } else if m > limit {
        SquareStrict(limit, m);
      }
    }
  }

  /** Comparing two distances by their squares keeps the strict order. */
  lemma CloserIff(a: real, b: real)
    requires a >= 0.0 && b >= 0.0
    ensures a * a < b * b <==> a < b
  {
    if a < b {
      SquareStrict(a, b);
    } else if b < a {
      SquareStrict(b, a);
    }
  }
}
