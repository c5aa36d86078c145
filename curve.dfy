/**
 * The secp256k1 group as the protocol engine sees it.
 *
 * A point is represented by its discrete logarithm with respect to the
 * generator G, so the group is the integers modulo the curve order N with
 * G = 1, point addition = addition mod N and scalar multiplication =
 * multiplication mod N. Nothing here depends on coordinates: only the group
 * laws are used, which is all the key bookkeeping relies on.
 */
module Curve {

  /** Order of the secp256k1 base point (a prime). */
  const N: nat := 0xFFFF_FFFF_FFFF_FFFF_FFFF_FFFF_FFFF_FFFE_BAAE_DCE6_AF48_A03B_BFD2_5E8C_D036_4141

  /** A field element (curv's FE): an integer reduced modulo N. */
  type Scalar = x: int | 0 <= x < N

  /** A group element (curv's GE), written as log_G of the point. */
  datatype Point = Point(log: Scalar)

  /** The generator G. */
  function Generator(): Point
  {
    Point(1)
  }

  function Add(p: Point, q: Point): Point
  {
    var s := p.log + q.log;
    Point(if s < N then s else s - N)
  }

  function Neg(p: Point): Point
  {
    Point(if p.log == 0 then 0 else N - p.log)
  }

  /** p·k */
  function Mul(p: Point, k: Scalar): Point
  {
    Point((p.log * k) % N)
  }

  /** p + q == s has exactly one solution q for given p and s. */
  lemma AddSolvedBy(p: Point, q: Point, s: Point)
    ensures Add(p, q) == s <==> q == Add(s, Neg(p))
  {
  }
}
