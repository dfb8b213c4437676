/**
 * The exact geometric predicates of src/math.ts: a 3x3 determinant, the orientation
 * test `ccw` and the lifted in-circle test, over exact reals. The y axis points down, so
 * `ccw` holds when the signed area is at most zero (collinear triples included).
 */
module GeoMath {
  import opened TwoD

  datatype Row3 = Row3(c0: real, c1: real, c2: real)
  datatype Matrix3x3 = Matrix3x3(r0: Row3, r1: Row3, r2: Row3)

  /** `determinant3x3`, written as the six-term rule of Sarrus; it agrees with the
      cofactor expansion along the first row. */
  function Determinant3x3(m: Matrix3x3): (r: real)
    ensures r == m.r0.c0 * (m.r1.c1 * m.r2.c2 - m.r1.c2 * m.r2.c1)
               - m.r0.c1 * (m.r1.c0 * m.r2.c2 - m.r1.c2 * m.r2.c0)
               + m.r0.c2 * (m.r1.c0 * m.r2.c1 - m.r1.c1 * m.r2.c0)
  {
    var a, b, c := m.r0.c0, m.r0.c1, m.r0.c2;
    var d, e, f := m.r1.c0, m.r1.c1, m.r1.c2;
    var g, h, i := m.r2.c0, m.r2.c1, m.r2.c2;
    a * e * i + b * f * g + c * d * h - g * e * c - h * f * a - i * d * b
  }

  /** Exchanging two rows negates the determinant. */
  lemma DeterminantRowSwap(m: Matrix3x3)
    ensures Determinant3x3(Matrix3x3(m.r0, m.r2, m.r1)) == -Determinant3x3(m)
    ensures Determinant3x3(Matrix3x3(m.r1, m.r0, m.r2)) == -Determinant3x3(m)
  {
  }

  /** The matrix of homogeneous coordinates of three points. */
  function Homogeneous(a: Point, b: Point, c: Point): Matrix3x3 {
    Matrix3x3(Row3(a.x, a.y, 1.0), Row3(b.x, b.y, 1.0), Row3(c.x, c.y, 1.0))
  }

  /** Twice the signed area of triangle (a, b, c), as the cross product of b - a and c - a. */
  function Cross(u: Point, v: Point): real {
    u.x * v.y - u.y * v.x
  }

  /** `ccw(a, b, c)`: the homogeneous determinant is at most zero. */
  function Ccw(a: Point, b: Point, c: Point): (r: bool)
    ensures r <==> Cross(Minus(b, a), Minus(c, a)) <= 0.0
  {
    Determinant3x3(Homogeneous(a, b, c)) <= 0.0
  }

  /** The three points lie on one line. */
  predicate Collinear(a: Point, b: Point, c: Point) {
    Determinant3x3(Homogeneous(a, b, c)) == 0.0
  }

  /** Swapping the last two arguments reverses the orientation: both orders are `ccw`
      exactly for collinear points, and otherwise exactly one of them is. */
  lemma CcwSwap(a: Point, b: Point, c: Point)
    ensures Ccw(a, b, c) && Ccw(a, c, b) <==> Collinear(a, b, c)
    ensures Ccw(a, b, c) || Ccw(a, c, b)
  {
    DeterminantRowSwap(Homogeneous(a, b, c));
    assert Homogeneous(a, c, b) == Matrix3x3(Homogeneous(a, b, c).r0, Homogeneous(a, b, c).r2, Homogeneous(a, b, c).r1);
  }

  /** `ccw` does not depend on which of the three points is named first. */
  lemma CcwRotation(a: Point, b: Point, c: Point)
    ensures Ccw(a, b, c) == Ccw(b, c, a)
    ensures Collinear(a, b, c) == Collinear(b, c, a)
  {
    assert Determinant3x3(Homogeneous(a, b, c)) == Determinant3x3(Homogeneous(b, c, a));
  }

  /** The orientation of the three points is unchanged by a common translation. */
  lemma CcwTranslation(a: Point, b: Point, c: Point, t: Point)
    ensures Ccw(Minus(a, t), Minus(b, t), Minus(c, t)) == Ccw(a, b, c)
  {
  }

  /** The two triples of tst/math.test.ts: one order is `ccw`, the other is not. */
  lemma CcwExamples()
    ensures Ccw(Point(0.0, 0.0), Point(0.0, 1.0), Point(1.0, 0.0))
    ensures !Ccw(Point(0.0, 0.0), Point(1.0, 0.0), Point(0.0, 1.0))
  {
  }

  /** The in-circle determinant: a sum of lifted 2x2 determinants of a - d, b - d, c - d. */
  function InCircleDet(a: Point, b: Point, c: Point, d: Point): real {
    var adx := a.x - d.x;
    var ady := a.y - d.y;
    var bdx := b.x - d.x;
    var bdy := b.y - d.y;
    var cdx := c.x - d.x;
    var cdy := c.y - d.y;
    var abdet := adx * bdy - bdx * ady;
    var bcdet := bdx * cdy - cdx * bdy;
    var cadet := cdx * ady - adx * cdy;
    var alift := adx * adx + ady * ady;
    var blift := bdx * bdx + bdy * bdy;
    var clift := cdx * cdx + cdy * cdy;
    alift * bcdet + blift * cadet + clift * abdet
  }

  /** `inCircle(a, b, c, d)`: the lifted determinant is at most zero. It depends on the
      differences a - d, b - d and c - d alone: d lies on or inside the circle through a, b
      and c exactly when the lifted determinant of those differences is at most zero. */
  function InCircle(a: Point, b: Point, c: Point, d: Point): (r: bool)
    ensures r <==> LiftedDet(Minus(a, d), Minus(b, d), Minus(c, d)) <= 0.0
  {
    InCircleDetIsLifted(a, b, c, d);
    InCircleDet(a, b, c, d) <= 0.0
  }

  /** The in-circle determinant as a function of the three differences alone. */
  function LiftedDet(u: Point, v: Point, w: Point): real {
    (u.x * u.x + u.y * u.y) * Cross(v, w)
      + (v.x * v.x + v.y * v.y) * Cross(w, u)
      + (w.x * w.x + w.y * w.y) * Cross(u, v)
  }

  lemma InCircleDetIsLifted(a: Point, b: Point, c: Point, d: Point)
    ensures InCircleDet(a, b, c, d) == LiftedDet(Minus(a, d), Minus(b, d), Minus(c, d))
  {
  }

  /** `inCircle` only sees the differences a - d, b - d, c - d, so a common translation of
      all four points does not change it. */
  lemma InCircleTranslation(a: Point, b: Point, c: Point, d: Point, t: Point)
    ensures InCircle(a, b, c, d) == InCircle(Minus(a, d), Minus(b, d), Minus(c, d), Origin)
    ensures InCircle(Minus(a, t), Minus(b, t), Minus(c, t), Minus(d, t)) == InCircle(a, b, c, d)
  {
    InCircleDetIsLifted(a, b, c, d);
    InCircleDetIsLifted(Minus(a, d), Minus(b, d), Minus(c, d), Origin);
    InCircleDetIsLifted(Minus(a, t), Minus(b, t), Minus(c, t), Minus(d, t));
    assert Minus(Minus(a, d), Origin) == Minus(a, d);
    assert Minus(Minus(b, d), Origin) == Minus(b, d);
    assert Minus(Minus(c, d), Origin) == Minus(c, d);
    assert Minus(Minus(a, t), Minus(d, t)) == Minus(a, d);
    assert Minus(Minus(b, t), Minus(d, t)) == Minus(b, d);
    assert Minus(Minus(c, t), Minus(d, t)) == Minus(c, d);
  }

  /** A cyclic rotation of the triangle leaves `inCircle` unchanged; exchanging two of its
      corners negates the determinant. */
  lemma InCircleRotation(a: Point, b: Point, c: Point, d: Point)
    ensures InCircle(b, c, a, d) == InCircle(a, b, c, d)
    ensures InCircleDet(a, c, b, d) == -InCircleDet(a, b, c, d)
  {
    InCircleDetIsLifted(a, b, c, d);
    InCircleDetIsLifted(b, c, a, d);
    InCircleDetIsLifted(a, c, b, d);
  }

  /** A corner of the triangle counts as inside: every term vanishes and the test is `<= 0`. */
  lemma InCircleAtCorner(a: Point, b: Point, c: Point, d: Point)
    requires d == a || d == b || d == c
    ensures InCircle(a, b, c, d)
  {
  }

  /** The lifted determinant of the unit right triangle (0,0), (1,0), (0,1) and its centre
      (0.5, 0.5) is 0.5. */
  lemma UnitTriangleDet()
    ensures InCircleDet(Point(0.0, 0.0), Point(1.0, 0.0), Point(0.0, 1.0), Point(0.5, 0.5)) == 0.5
  {
  }

  /** Listing two corners of the unit triangle the other way round gives -0.5. */
  lemma UnitTriangleDetSwapped()
    ensures InCircleDet(Point(0.0, 0.0), Point(0.0, 1.0), Point(1.0, 0.0), Point(0.5, 0.5)) == -0.5
  {
  }

  /** Listed as (0,0), (1,0), (0,1), which is not `ccw` (see CcwExamples), the unit
      triangle's centre tests outside; listed in `ccw` order it tests inside. */
  lemma InCircleUnitTriangle()
    ensures !InCircle(Point(0.0, 0.0), Point(1.0, 0.0), Point(0.0, 1.0), Point(0.5, 0.5))
    ensures InCircle(Point(0.0, 0.0), Point(0.0, 1.0), Point(1.0, 0.0), Point(0.5, 0.5))
  {
    UnitTriangleDet();
    UnitTriangleDetSwapped();
  }
}
