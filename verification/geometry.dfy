/**
 * Points of the view's coordinate space and the three point operators
 * the library adds to them (prefix `-`, infix `+` and `-`).
 * Coordinates are exact reals: the floating-point behaviour of the
 * platform's coordinate type is not modelled.
 */
module Geometry {

  datatype Point = Point(x: real, y: real)

  const Origin := Point(0.0, 0.0)

  /** Prefix `-`: the additive inverse of a point. */
  function Neg(p: Point): (r: Point)
    ensures Add(p, r) == Origin
  {
    Point(-p.x, -p.y)
  }

  /** Infix `+`: componentwise sum, so that taking `b` away again gives back `a`. */
  function Add(a: Point, b: Point): (r: Point)
    ensures r.x - b.x == a.x && r.y - b.y == a.y
  {
    Point(a.x + b.x, a.y + b.y)
  }

  /** Infix `-`: defined as `a + (-b)`, which is the componentwise difference. */
  function Sub(a: Point, b: Point): (r: Point)
    ensures r.x == a.x - b.x && r.y == a.y - b.y
  {
    Add(a, Neg(b))
  }

  lemma NegInvolutive(p: Point)
    ensures Neg(Neg(p)) == p
  {
  }

  lemma AddCommutative(a: Point, b: Point)
    ensures Add(a, b) == Add(b, a)
  {
  }

  lemma AddAssociative(a: Point, b: Point, c: Point)
    ensures Add(Add(a, b), c) == Add(a, Add(b, c))
  {
  }

  /** Subtraction undoes addition, and a point minus itself is the origin. */
  lemma SubCancels(a: Point, b: Point)
    ensures Add(Sub(a, b), b) == a
    ensures Sub(a, a) == Origin
  {
  }
}
