/**
 * Vector and rotation values, treated abstractly.
 *
 * The game's 3D math (normalisation, spherical interpolation, angle-axis
 * rotation, Euler rotation) is floating-point engine code. Here a vector is a
 * symbolic term: a literal `Vector(x, y, z)` or the application of one of the
 * engine's operations to other terms. The operations are written as smart
 * constructors that apply a small number of laws the engine's operations
 * satisfy (for example `Slerp(a, b, 1) == b`) and otherwise build the term
 * unevaluated. Every law applied is true of the engine's operations, so an
 * equality between two terms proved here holds of the vectors they denote;
 * a disequality between terms says nothing about the vectors.
 */
module Vectors {

  /** A rotation: the identity, `Quaternion.AngleAxis(degrees, axis)` or `Quaternion.Euler(x, y, z)`. */
  datatype Quat =
    | Identity
    | AngleAxis(degrees: real, axis: Vec)
    | Euler(x: real, y: real, z: real)

  datatype Vec =
    | Vector(x: real, y: real, z: real)
    | Normalized(v: Vec)
    | Negated(v: Vec)
    | Scaled(v: Vec, s: real)
    | Added(a: Vec, b: Vec)
    | Slerped(from: Vec, to: Vec, t: real)
    | Rotated(q: Quat, v: Vec)

  const Zero: Vec := Vector(0.0, 0.0, 0.0)
  const Down: Vec := Vector(0.0, -1.0, 0.0)
  const Up: Vec := Vector(0.0, 1.0, 0.0)

  /** A literal whose length is 0 or 1: normalising it gives it back. */
  predicate IsUnitOrZeroLiteral(v: Vec) {
    v.Vector? && (v.x * v.x + v.y * v.y + v.z * v.z == 1.0 || v == Zero)
  }

  /** Terms that `.normalized` gives back unchanged. */
  predicate IsNormal(v: Vec) {
    v.Normalized? || IsUnitOrZeroLiteral(v)
  }

  /** `v.normalized`; a vector of positive scale normalises to the same direction. */
  function Normalize(v: Vec): (r: Vec)
    ensures IsNormal(r)
    ensures IsNormal(v) ==> r == v
  {
    match v
    case Normalized(_) => v
    case Scaled(w, s) => if s > 0.0 then Normalize(w) else Normalized(v)
    case Vector(_, _, _) => if IsUnitOrZeroLiteral(v) then v else Normalized(v)
    case _ => Normalized(v)
  }

  /** Unary minus on vectors. */
  function Neg(v: Vec): (r: Vec)
  {
    match v
    case Negated(w) => w
    case Vector(x, y, z) => Vector(-x, -y, -z)
    case _ => Negated(v)
  }

  /** `v * s` */
  function Scale(v: Vec, s: real): (r: Vec)
    ensures s == 1.0 ==> r == v
  {
    if s == 1.0 then v else Scaled(v, s)
  }

  /** `a + b` */
  function Add(a: Vec, b: Vec): Vec
  {
    Added(a, b)
  }

  /** `Vector3.Slerp(a, b, t)`, which clamps `t` to [0, 1]. */
  function Slerp(a: Vec, b: Vec, t: real): (r: Vec)
    ensures t <= 0.0 ==> r == a
    ensures t >= 1.0 ==> r == b
  {
    if t <= 0.0 then a else if t >= 1.0 then b else Slerped(a, b, t)
  }

  /** `q * v` */
  function Rotate(q: Quat, v: Vec): (r: Vec)
    ensures q == Identity ==> r == v
  {
    if q == Identity then v else Rotated(q, v)
  }

  /** Negation is its own inverse on normalised terms. */
  lemma NegInvolutive(v: Vec)
    requires IsNormal(v)
    ensures Neg(Neg(v)) == v
  {
  }

  /** Normalising a positively scaled vector forgets the scale. */
  lemma {:induction false} NormalizeScaled(v: Vec, s: real)
    requires s > 0.0
    ensures Normalize(Scale(v, s)) == Normalize(v)
  {
    if s != 1.0 {
      assert Scale(v, s) == Scaled(v, s);
    }
  }

  /** Normalisation is idempotent. */
  lemma NormalizeIdempotent(v: Vec)
    ensures Normalize(Normalize(v)) == Normalize(v)
  {
  }
}
