/**
 * Points of the plane (src/two-d.ts), with coordinates as exact reals.
 * Only `equals` and `minus` belong to the model; `norm` and lines are left out.
 */
module TwoD {
  datatype Point = Point(x: real, y: real)

  const Origin: Point := Point(0.0, 0.0)

  /** `p.equals(q)`: both coordinates agree, which is exactly value equality. */
  function Equals(p: Point, q: Point): (r: bool)
    ensures r <==> p == q
  {
    p.x == q.x && p.y == q.y
  }

  /** `p.minus(q)`: the componentwise difference; it is the origin exactly when p equals q. */
  function Minus(p: Point, q: Point): (r: Point)
    ensures Equals(r, Origin) <==> Equals(p, q)
  {
    Point(p.x - q.x, p.y - q.y)
  }

  /** `equals` is an equivalence relation. */
  lemma EqualsIsEquivalence(p: Point, q: Point, s: Point)
    ensures Equals(p, p)
    ensures Equals(p, q) ==> Equals(q, p)
    ensures Equals(p, q) && Equals(q, s) ==> Equals(p, s)
  {
  }

  /** `p.minus(p)` is the origin, `p.minus(origin)` is `p`, and subtracting is undone by
      subtracting the negation. */
  lemma MinusIdentities(p: Point, q: Point)
    ensures Minus(p, p) == Origin
    ensures Minus(p, Origin) == p
    ensures Minus(Minus(p, q), Minus(Origin, q)) == p
  {
  }
}
