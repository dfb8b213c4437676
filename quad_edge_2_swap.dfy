/**
 * The test of `swap` in tst/quad-edge-2.test.ts: a square a, b, c, d from `addPolygon(4)`,
 * its diagonal e = `connect(a, d)`, and `swap(e)`, which turns the diagonal to join the
 * other two corners. The link tables of every step are proved, then the orbits of e
 * that the test checks before and after the swap.
 */
module SwapScenario {
  import opened EdgeRecords
  import opened Edges
  import opened QuadLinks
  import opened QuadTables
  import opened QuadEdgePolygons

  /** q's origin-next links are the four ids of o. */
  ghost predicate Has(g: Links, q: Quad, o: Quad) {
    Onexts(g, q, o.e0, o.e1, o.e2, o.e3)
  }

  /** Five quads with four distinct ids each and no id in common. */
  predicate FiveApart(a: Quad, b: Quad, c: Quad, d: Quad, e: Quad) {
    && Own(a) && Own(b) && Own(c) && Own(d) && Own(e)
    && Apart(a, b) && Apart(a, c) && Apart(a, d) && Apart(a, e)
    && Apart(b, c) && Apart(b, d) && Apart(b, e)
    && Apart(c, d) && Apart(c, e) && Apart(d, e)
  }

  /** Five quads are apart exactly when their sequence is separate. */
  lemma FiveApartSeparate(a: Quad, b: Quad, c: Quad, d: Quad, e: Quad)
    ensures FiveApart(a, b, c, d, e) <==> Separate([a, b, c, d, e])
  {
    var qs := [a, b, c, d, e];
    if FiveApart(a, b, c, d, e) {
      forall i, j | 0 <= i < j < |qs| ensures Apart(qs[i], qs[j]) {
      }
    }
    if Separate(qs) {
      assert Apart(qs[0], qs[1]) && Apart(qs[0], qs[2]) && Apart(qs[0], qs[3]) && Apart(qs[0], qs[4]);
      assert Apart(qs[1], qs[2]) && Apart(qs[1], qs[3]) && Apart(qs[1], qs[4]);
      assert Apart(qs[2], qs[3]) && Apart(qs[2], qs[4]) && Apart(qs[3], qs[4]);
      assert Own(qs[0]) && Own(qs[1]) && Own(qs[2]) && Own(qs[3]) && Own(qs[4]);
    }
  }

  /** The square a, b, c, d (each edge's origin ring holds the previous edge's sym) and a
      lone edge e. */
  ghost predicate SquareAndLone(g: Links, a: Quad, b: Quad, c: Quad, d: Quad, e: Quad) {
    && Has(g, a, Quad(d.e2, d.e1, b.e0, b.e3))
    && Has(g, b, Quad(a.e2, a.e1, c.e0, c.e3))
    && Has(g, c, Quad(b.e2, b.e1, d.e0, d.e3))
    && Has(g, d, Quad(c.e2, c.e1, a.e0, a.e3))
    && Lone(g, e)
  }

  /** After `splice(a.lnext, e)`: e starts where b does, inside the square. */
  ghost predicate HalfConnected(g: Links, a: Quad, b: Quad, c: Quad, d: Quad, e: Quad) {
    && Has(g, a, Quad(d.e2, d.e1, b.e0, e.e3))
    && Has(g, b, Quad(e.e0, a.e1, c.e0, c.e3))
    && Has(g, c, Quad(b.e2, b.e1, d.e0, d.e3))
    && Has(g, d, Quad(c.e2, c.e1, a.e0, a.e3))
    && Has(g, e, Quad(a.e2, b.e3, e.e2, e.e1))
  }

  /** The square with the diagonal e from b's origin (a's destination) to d's origin. */
  ghost predicate Diagonal(g: Links, a: Quad, b: Quad, c: Quad, d: Quad, e: Quad) {
    && Has(g, a, Quad(d.e2, d.e1, b.e0, e.e3))
    && Has(g, b, Quad(e.e0, a.e1, c.e0, c.e3))
    && Has(g, c, Quad(b.e2, b.e1, d.e0, e.e1))
    && Has(g, d, Quad(e.e2, c.e1, a.e0, a.e3))
    && Has(g, e, Quad(a.e2, b.e3, c.e2, d.e3))
  }

  /** After `splice(e, e.oprev)`: e's origin is out of the square. */
  ghost predicate HalfOpened(g: Links, a: Quad, b: Quad, c: Quad, d: Quad, e: Quad) {
    && Has(g, a, Quad(d.e2, d.e1, b.e0, b.e3))
    && Has(g, b, Quad(a.e2, a.e1, c.e0, c.e3))
    && Has(g, c, Quad(b.e2, b.e1, d.e0, e.e1))
    && Has(g, d, Quad(e.e2, c.e1, a.e0, a.e3))
    && Has(g, e, Quad(e.e0, e.e3, c.e2, d.e3))
  }

  /** After `splice(e, b.lnext)`: e starts where c does. */
  ghost predicate HalfSwapped(g: Links, a: Quad, b: Quad, c: Quad, d: Quad, e: Quad) {
    && Has(g, a, Quad(d.e2, d.e1, b.e0, b.e3))
    && Has(g, b, Quad(a.e2, a.e1, c.e0, e.e3))
    && Has(g, c, Quad(e.e0, b.e1, d.e0, d.e3))
    && Has(g, d, Quad(c.e2, c.e1, a.e0, a.e3))
    && Has(g, e, Quad(b.e2, c.e3, e.e2, e.e1))
  }

  /** The square with the other diagonal: e from c's origin to a's origin. */
  ghost predicate OtherDiagonal(g: Links, a: Quad, b: Quad, c: Quad, d: Quad, e: Quad) {
    && Has(g, a, Quad(e.e2, d.e1, b.e0, b.e3))
    && Has(g, b, Quad(a.e2, a.e1, c.e0, e.e3))
    && Has(g, c, Quad(e.e0, b.e1, d.e0, d.e3))
    && Has(g, d, Quad(c.e2, c.e1, a.e0, e.e1))
    && Has(g, e, Quad(b.e2, c.e3, d.e2, a.e3))
  }

  /** A ring of four edges is a square. */
  lemma RingSquareTable(g: Links, qs: seq<Quad>)
    requires Ring(g, qs) && |qs| == 4
    ensures Has(g, qs[0], Quad(qs[3].e2, qs[3].e1, qs[1].e0, qs[1].e3))
    ensures Has(g, qs[1], Quad(qs[0].e2, qs[0].e1, qs[2].e0, qs[2].e3))
    ensures Has(g, qs[2], Quad(qs[1].e2, qs[1].e1, qs[3].e0, qs[3].e3))
    ensures Has(g, qs[3], Quad(qs[2].e2, qs[2].e1, qs[0].e0, qs[0].e3))
  {
    assert RingAt(g, qs, 0) && RingAt(g, qs, 1) && RingAt(g, qs, 2) && RingAt(g, qs, 3);
  }

  /** The new quad of `connect` is lone and leaves the square as it was. */
  lemma SquareNewQuad(g: Links, a: Quad, b: Quad, c: Quad, d: Quad, e: Quad)
    requires FiveApart(a, b, c, d, e)
    requires Has(g, a, Quad(d.e2, d.e1, b.e0, b.e3)) && Has(g, b, Quad(a.e2, a.e1, c.e0, c.e3))
    requires Has(g, c, Quad(b.e2, b.e1, d.e0, d.e3)) && Has(g, d, Quad(c.e2, c.e1, a.e0, a.e3))
    ensures SquareAndLone(NewQuadLinks(g, e.e0, e.e1, e.e2, e.e3), a, b, c, d, e)
  {
    NewQuadLone(g, e);
  }

  /** The first splice of `connect(a, d)`: `splice(a.lnext, e)`, with a.lnext = b. */
  lemma ConnectFirstSplice(g: Links, a: Quad, b: Quad, c: Quad, d: Quad, e: Quad)
    requires SquareAndLone(g, a, b, c, d, e) && FiveApart(a, b, c, d, e)
    ensures Lnext(g, a.e0) == b.e0
    ensures HalfConnected(SpliceLinks(g, b.e0, e.e0), a, b, c, d, e)
  {
    SpliceEntries(g, b.e0, e.e0);
  }

  /** The second splice of `connect(a, d)`: `splice(d, e.sym)`. */
  lemma ConnectSecondSplice(g: Links, a: Quad, b: Quad, c: Quad, d: Quad, e: Quad)
    requires HalfConnected(g, a, b, c, d, e) && FiveApart(a, b, c, d, e)
    ensures Sym(g, e.e0) == e.e2
    ensures Diagonal(SpliceLinks(g, d.e0, e.e2), a, b, c, d, e)
  {
    SpliceEntries(g, d.e0, e.e2);
  }

  /** `connect(a, d)` on the square adds the diagonal e. */
  lemma SquareConnected(g: Links, a: Quad, b: Quad, c: Quad, d: Quad, e: Quad)
    requires FiveApart(a, b, c, d, e)
    requires Has(g, a, Quad(d.e2, d.e1, b.e0, b.e3)) && Has(g, b, Quad(a.e2, a.e1, c.e0, c.e3))
    requires Has(g, c, Quad(b.e2, b.e1, d.e0, d.e3)) && Has(g, d, Quad(c.e2, c.e1, a.e0, a.e3))
    ensures Diagonal(ConnectLinks(g, a.e0, d.e0, e.e0, e.e1, e.e2, e.e3), a, b, c, d, e)
  {
    var h := NewQuadLinks(g, e.e0, e.e1, e.e2, e.e3);
    SquareNewQuad(g, a, b, c, d, e);
    ConnectFirstSplice(h, a, b, c, d, e);
    ConnectSecondSplice(SpliceLinks(h, b.e0, e.e0), a, b, c, d, e);
  }

  /** The first splice of `swap(e)`: `splice(e, e.oprev)`, with e.oprev = b. */
  lemma SwapFirstSplice(g: Links, a: Quad, b: Quad, c: Quad, d: Quad, e: Quad)
    requires Diagonal(g, a, b, c, d, e) && FiveApart(a, b, c, d, e)
    ensures Oprev(g, e.e0) == b.e0 && Oprev(g, Sym(g, e.e0)) == d.e0
    ensures HalfOpened(SpliceLinks(g, e.e0, b.e0), a, b, c, d, e)
  {
    SpliceEntries(g, e.e0, b.e0);
  }

  /** The second splice of `swap(e)`: `splice(e.sym, d)`, which leaves e lone and the
      square as it was before `connect`. */
  lemma SwapSecondSplice(g: Links, a: Quad, b: Quad, c: Quad, d: Quad, e: Quad)
    requires HalfOpened(g, a, b, c, d, e) && FiveApart(a, b, c, d, e)
    ensures Sym(g, e.e0) == e.e2
    ensures SquareAndLone(SpliceLinks(g, e.e2, d.e0), a, b, c, d, e)
  {
    SpliceEntries(g, e.e2, d.e0);
  }

  /** The third splice of `swap(e)`: `splice(e, b.lnext)`, with b.lnext = c. */
  lemma SwapThirdSplice(g: Links, a: Quad, b: Quad, c: Quad, d: Quad, e: Quad)
    requires SquareAndLone(g, a, b, c, d, e) && FiveApart(a, b, c, d, e)
    ensures Lnext(g, b.e0) == c.e0
    ensures HalfSwapped(SpliceLinks(g, e.e0, c.e0), a, b, c, d, e)
  {
    SpliceEntries(g, e.e0, c.e0);
  }

  /** The last splice of `swap(e)`: `splice(e.sym, d.lnext)`, with d.lnext = a. */
  lemma SwapFourthSplice(g: Links, a: Quad, b: Quad, c: Quad, d: Quad, e: Quad)
    requires HalfSwapped(g, a, b, c, d, e) && FiveApart(a, b, c, d, e)
    ensures Sym(g, e.e0) == e.e2 && Lnext(g, d.e0) == a.e0
    ensures OtherDiagonal(SpliceLinks(g, e.e2, a.e0), a, b, c, d, e)
  {
    SpliceEntries(g, e.e2, a.e0);
  }

  /** The first half of `swap(e)` takes the diagonal out of the square. */
  lemma DiagonalOpened(g: Links, a: Quad, b: Quad, c: Quad, d: Quad, e: Quad)
    requires Diagonal(g, a, b, c, d, e) && FiveApart(a, b, c, d, e)
    ensures Oprev(g, e.e0) == b.e0 && Oprev(g, Sym(g, e.e0)) == d.e0
    ensures SquareAndLone(SwapOpenedLinks(g, e.e0, b.e0, d.e0), a, b, c, d, e)
  {
    SwapFirstSplice(g, a, b, c, d, e);
    SwapSecondSplice(SpliceLinks(g, e.e0, b.e0), a, b, c, d, e);
  }

  /** The second half of `swap(e)` puts the lone edge e back as the other diagonal. */
  lemma OtherDiagonalClosed(g: Links, a: Quad, b: Quad, c: Quad, d: Quad, e: Quad)
    requires SquareAndLone(g, a, b, c, d, e) && FiveApart(a, b, c, d, e)
    ensures OtherDiagonal(SwapClosedLinks(g, e.e0, b.e0, d.e0), a, b, c, d, e)
  {
    SwapThirdSplice(g, a, b, c, d, e);
    SwapFourthSplice(SpliceLinks(g, e.e0, c.e0), a, b, c, d, e);
  }

  /** `swap(e)` turns the diagonal of the square from b-d to c-a. */
  lemma DiagonalSwapped(g: Links, a: Quad, b: Quad, c: Quad, d: Quad, e: Quad)
    requires Diagonal(g, a, b, c, d, e) && FiveApart(a, b, c, d, e)
    ensures OtherDiagonal(SwapLinks(g, e.e0), a, b, c, d, e)
  {
    DiagonalOpened(g, a, b, c, d, e);
    OtherDiagonalClosed(SwapOpenedLinks(g, e.e0, b.e0, d.e0), a, b, c, d, e);
  }

  /** An orbit of three distinct edges, each stepping to the next and the last back to
      the first. */
  lemma ThreeOrbit(g: Links, s: Step, x: Id, y: Id, z: Id)
    requires Linked(g) && x in g && y in g && z in g && x != y && x != z && y != z
    requires Next(g, s, x) == y && Next(g, s, y) == z && Next(g, s, z) == x
    ensures Orbit(g, s, x) == [x, y, z]
  {
    assert IsWalk(g, s, x, [x, y, z]);
    WalkIsOrbit(g, s, x, [x, y, z]);
  }

  /** The origin and destination orbits of the diagonal e before the swap. */
  lemma DiagonalEndOrbits(g: Links, a: Quad, b: Quad, c: Quad, d: Quad, e: Quad)
    requires Diagonal(g, a, b, c, d, e) && FiveApart(a, b, c, d, e)
    ensures Orbit(g, Origin, e.e0) == [e.e0, a.e2, b.e0]
    ensures Orbit(g, Destination, e.e0) == [e.e0, c.e0, d.e2]
  {
    ThreeOrbit(g, Origin, e.e0, a.e2, b.e0);
    ThreeOrbit(g, Destination, e.e0, c.e0, d.e2);
  }

  /** The face orbits of the diagonal e before the swap. */
  lemma DiagonalFaceOrbits(g: Links, a: Quad, b: Quad, c: Quad, d: Quad, e: Quad)
    requires Diagonal(g, a, b, c, d, e) && FiveApart(a, b, c, d, e)
    ensures Orbit(g, Left, e.e0) == [e.e0, d.e0, a.e0]
    ensures Orbit(g, Right, e.e0) == [e.e0, b.e2, c.e2]
  {
    ThreeOrbit(g, Left, e.e0, d.e0, a.e0);
    ThreeOrbit(g, Right, e.e0, b.e2, c.e2);
  }

  /** The origin and destination orbits of e after the swap. */
  lemma OtherDiagonalEndOrbits(g: Links, a: Quad, b: Quad, c: Quad, d: Quad, e: Quad)
    requires OtherDiagonal(g, a, b, c, d, e) && FiveApart(a, b, c, d, e)
    ensures Orbit(g, Origin, e.e0) == [e.e0, b.e2, c.e0]
    ensures Orbit(g, Destination, e.e0) == [e.e0, d.e0, a.e2]
  {
    ThreeOrbit(g, Origin, e.e0, b.e2, c.e0);
    ThreeOrbit(g, Destination, e.e0, d.e0, a.e2);
  }

  /** The face orbits of e after the swap. */
  lemma OtherDiagonalFaceOrbits(g: Links, a: Quad, b: Quad, c: Quad, d: Quad, e: Quad)
    requires OtherDiagonal(g, a, b, c, d, e) && FiveApart(a, b, c, d, e)
    ensures Orbit(g, Left, e.e0) == [e.e0, a.e0, b.e0]
    ensures Orbit(g, Right, e.e0) == [e.e0, c.e2, d.e2]
  {
    ThreeOrbit(g, Left, e.e0, a.e0, b.e0);
    ThreeOrbit(g, Right, e.e0, c.e2, d.e2);
  }

  /** `addPolygon(4)` with the ids of a, b, c and d, then `connect(a, d)` with those of
      e: the square with the diagonal e, where b = a.lnext, c = b.lnext and
      d = c.lnext. */
  lemma PolygonDiagonal(g: Links, a: Quad, b: Quad, c: Quad, d: Quad, e: Quad)
    requires Linked(g) && FiveApart(a, b, c, d, e)
    ensures var sq := PolygonLinks(g, [a, b, c, d]);
      && Has(sq, a, Quad(d.e2, d.e1, b.e0, b.e3)) && Has(sq, b, Quad(a.e2, a.e1, c.e0, c.e3))
      && Has(sq, c, Quad(b.e2, b.e1, d.e0, d.e3)) && Has(sq, d, Quad(c.e2, c.e1, a.e0, a.e3))
      && Lnext(sq, a.e0) == b.e0 && Lnext(sq, b.e0) == c.e0 && Lnext(sq, c.e0) == d.e0
      && Diagonal(ConnectLinks(sq, a.e0, d.e0, e.e0, e.e1, e.e2, e.e3), a, b, c, d, e)
  {
    var qs := [a, b, c, d];
    assert Separate(qs) by {
      assert forall i, j :: 0 <= i < j < 4 ==> Apart(qs[i], qs[j]);
    }
    PolygonRing(g, qs);
    var sq := PolygonLinks(g, qs);
    RingSquareTable(sq, qs);
    SquareConnected(sq, a, b, c, d, e);
  }

  /** "rotates an edge within its quadrilateral", before the swap: the diagonal
      e = `connect(a, d)` of the square has the orbits [e, a.sym, b], [e, c, d.sym],
      [e, d, a] and [e, b.sym, c.sym]. */
  lemma DiagonalBeforeSwap(g: Links, a: Quad, b: Quad, c: Quad, d: Quad, e: Quad)
    requires Diagonal(g, a, b, c, d, e) && FiveApart(a, b, c, d, e)
    ensures Orbit(g, Origin, e.e0) == [e.e0, Sym(g, a.e0), b.e0]
    ensures Orbit(g, Destination, e.e0) == [e.e0, c.e0, Sym(g, d.e0)]
    ensures Orbit(g, Left, e.e0) == [e.e0, d.e0, a.e0]
    ensures Orbit(g, Right, e.e0) == [e.e0, Sym(g, b.e0), Sym(g, c.e0)]
  {
    DiagonalEndOrbits(g, a, b, c, d, e);
    DiagonalFaceOrbits(g, a, b, c, d, e);
  }

  /** "rotates an edge within its quadrilateral", after the swap: `swap(e)` gives e the
      orbits [e, b.sym, c], [e, d, a.sym], [e, a, b] and [e, c.sym, d.sym]. */
  lemma DiagonalAfterSwap(g: Links, a: Quad, b: Quad, c: Quad, d: Quad, e: Quad)
    requires Diagonal(g, a, b, c, d, e) && FiveApart(a, b, c, d, e)
    ensures var t := SwapLinks(g, e.e0);
      && Orbit(t, Origin, e.e0) == [e.e0, Sym(t, b.e0), c.e0]
      && Orbit(t, Destination, e.e0) == [e.e0, d.e0, Sym(t, a.e0)]
      && Orbit(t, Left, e.e0) == [e.e0, a.e0, b.e0]
      && Orbit(t, Right, e.e0) == [e.e0, Sym(t, c.e0), Sym(t, d.e0)]
  {
    DiagonalSwapped(g, a, b, c, d, e);
    var t := SwapLinks(g, e.e0);
    OtherDiagonalEndOrbits(t, a, b, c, d, e);
    OtherDiagonalFaceOrbits(t, a, b, c, d, e);
  }
}
