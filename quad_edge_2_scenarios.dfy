/**
 * The outcomes the edge bag's own tests pin down (tst/quad-edge-2.test.ts, with the checks
 * of tst/quad-edge-test-verifies.ts), proved on the link maps for edges that start out
 * as lone edges with records of their own.
 */
module QuadEdgeScenarios {
  import opened EdgeRecords
  import opened Edges
  import opened QuadLinks
  import opened QuadTables
  import opened QuadEdgePolygons

  /** What verifySpliced checks of a and b. */
  ghost predicate SplicedPair(g: Links, a: Id, b: Id)
    requires Linked(g) && a in g && b in g
  {
    && Onext(g, a) == b && Onext(g, b) == a
    && Oprev(g, a) == b && Oprev(g, b) == a
    && Dnext(g, a) == a && Dnext(g, b) == b
    && Dprev(g, a) == a && Dprev(g, b) == b
    && Lnext(g, a) == Sym(g, a) && Lnext(g, b) == Sym(g, b)
    && Lprev(g, a) == Sym(g, b) && Lprev(g, b) == Sym(g, a)
    && Rnext(g, a) == Sym(g, b) && Rnext(g, b) == Sym(g, a)
    && Rprev(g, a) == Sym(g, a) && Rprev(g, b) == Sym(g, b)
  }

  /** Splicing two lone edges puts them in one origin ring and leaves their destinations
      alone ("merges two origin orbits"). */
  lemma SpliceLoneEdges(g: Links, a: Quad, b: Quad)
    requires Lone(g, a) && Lone(g, b) && Own(a) && Own(b) && Apart(a, b)
    ensures var r := SpliceLinks(g, a.e0, b.e0);
      && Onexts(r, a, b.e0, b.e3, a.e2, a.e1)
      && Onexts(r, b, a.e0, a.e3, b.e2, b.e1)
      && SplicedPair(r, a.e0, b.e0)
  {
    SpliceExchange(g, a.e0, b.e0);
    SpliceFrame(g, a.e0, b.e0);
    SpliceKeepsRot(g, a.e0, b.e0);
  }

  /** Splicing two lone edges twice leaves both lone again ("isolates two merged origin
      orbits"). */
  lemma SpliceLoneEdgesTwice(g: Links, a: Quad, b: Quad)
    requires Lone(g, a) && Lone(g, b) && Own(a) && Own(b) && Apart(a, b)
    ensures var r := SpliceLinks(SpliceLinks(g, a.e0, b.e0), a.e0, b.e0);
      && Lone(r, a) && Lone(r, b) && IsolatedQuad(r, a.e0) && IsolatedQuad(r, b.e0)
  {
    SpliceInvolution(g, a.e0, b.e0);
    LoneIsolated(g, a);
    LoneIsolated(g, b);
  }

  /** What verifyPyramidTop checks of a, b and c. */
  ghost predicate PyramidTop(g: Links, a: Id, b: Id, c: Id)
    requires Linked(g) && a in g && b in g && c in g
  {
    && Onext(g, a) == b && Onext(g, b) == c && Onext(g, c) == a
    && Oprev(g, a) == c && Oprev(g, b) == a && Oprev(g, c) == b
    && Dnext(g, a) == a && Dnext(g, b) == b && Dnext(g, c) == c
    && Dprev(g, a) == a && Dprev(g, b) == b && Dprev(g, c) == c
    && Lnext(g, a) == Sym(g, a) && Lnext(g, b) == Sym(g, b) && Lnext(g, c) == Sym(g, c)
    && Lprev(g, a) == Sym(g, b) && Lprev(g, b) == Sym(g, c) && Lprev(g, c) == Sym(g, a)
    && Rnext(g, a) == Sym(g, c) && Rnext(g, b) == Sym(g, a) && Rnext(g, c) == Sym(g, b)
    && Rprev(g, a) == Sym(g, a) && Rprev(g, b) == Sym(g, b) && Rprev(g, c) == Sym(g, c)
  }

  /** Three lone edges with no id in common. */
  predicate ThreeApart(a: Quad, b: Quad, c: Quad) {
    Own(a) && Own(b) && Own(c) && Apart(a, b) && Apart(a, c) && Apart(b, c)
  }

  /** Three quads are apart exactly when their sequence is separate. */
  lemma ThreeApartSeparate(a: Quad, b: Quad, c: Quad)
    ensures ThreeApart(a, b, c) <==> Separate([a, b, c])
  {
    var qs := [a, b, c];
    if ThreeApart(a, b, c) {
      forall i, j | 0 <= i < j < |qs| ensures Apart(qs[i], qs[j]) {
      }
    }
    if Separate(qs) {
      assert Apart(qs[0], qs[1]) && Apart(qs[0], qs[2]) && Apart(qs[1], qs[2]);
      assert Own(qs[0]) && Own(qs[1]) && Own(qs[2]);
    }
  }

  /** `splice(a, b)` then `splice(b, c)` on three lone edges puts all three in one origin
      ring a -> b -> c ("can make a pyramid top"). */
  lemma SplicePyramidTop(g: Links, a: Quad, b: Quad, c: Quad)
    requires Lone(g, a) && Lone(g, b) && Lone(g, c) && ThreeApart(a, b, c)
    ensures var r := SpliceLinks(SpliceLinks(g, a.e0, b.e0), b.e0, c.e0);
      && Onexts(r, a, b.e0, c.e3, a.e2, a.e1)
      && Onexts(r, b, c.e0, a.e3, b.e2, b.e1)
      && Onexts(r, c, a.e0, b.e3, c.e2, c.e1)
      && PyramidTop(r, a.e0, b.e0, c.e0)
  {
    var g1 := SpliceLinks(g, a.e0, b.e0);
    SpliceLoneEdges(g, a, b);
    SpliceElsewhere(g, a.e0, b.e0, c, c.e0, c.e3, c.e2, c.e1);
    var r := SpliceLinks(g1, b.e0, c.e0);
    SpliceEntries(g1, b.e0, c.e0);
    assert Onexts(r, a, b.e0, c.e3, a.e2, a.e1);
    PyramidTopTable(r, a, b, c);
  }

  /** The link table a splice of three lone edges leaves is what verifyPyramidTop
      checks. */
  lemma PyramidTopTable(r: Links, a: Quad, b: Quad, c: Quad)
    requires Onexts(r, a, b.e0, c.e3, a.e2, a.e1)
    requires Onexts(r, b, c.e0, a.e3, b.e2, b.e1)
    requires Onexts(r, c, a.e0, b.e3, c.e2, c.e1)
    ensures PyramidTop(r, a.e0, b.e0, c.e0)
  {
  }

  /** What verifyLine checks of a and b: b hangs off a's destination. */
  ghost predicate Line(g: Links, a: Id, b: Id)
    requires Linked(g) && a in g && b in g
  {
    && Onext(g, a) == a && Onext(g, b) == Sym(g, a)
    && Oprev(g, a) == a && Oprev(g, b) == Sym(g, a)
    && Dnext(g, a) == Sym(g, b) && Dnext(g, b) == b
    && Dprev(g, a) == Sym(g, b) && Dprev(g, b) == b
    && Lnext(g, a) == b && Lnext(g, b) == Sym(g, b)
    && Lprev(g, a) == Sym(g, a) && Lprev(g, b) == a
    && Rnext(g, a) == Sym(g, a) && Rnext(g, b) == a
    && Rprev(g, a) == b && Rprev(g, b) == Sym(g, b)
  }

  /** `concat(a, b)` on two lone edges makes the line a, b ("concats two edges"). */
  lemma ConcatLoneEdges(g: Links, a: Quad, b: Quad)
    requires Lone(g, a) && Lone(g, b) && Own(a) && Own(b) && Apart(a, b)
    ensures var r := ConcatLinks(g, a.e0, b.e0);
      && Onexts(r, a, a.e0, a.e3, b.e0, b.e3)
      && Onexts(r, b, a.e2, a.e1, b.e2, b.e1)
      && Line(r, a.e0, b.e0)
  {
    SpliceEntries(g, a.e2, b.e0);
  }

  /** `addEdge(a)` on a lone edge, with the new quad's ids b, makes the line a, b ("adds
      an edge to the given edge"). */
  lemma AddEdgeToLoneEdge(g: Links, a: Quad, b: Quad)
    requires Lone(g, a) && Own(a) && Own(b) && Apart(a, b)
    ensures var r := AddEdgeLinks(g, a.e0, b.e0, b.e1, b.e2, b.e3);
      && Onexts(r, a, a.e0, a.e3, b.e0, b.e3)
      && Onexts(r, b, a.e2, a.e1, b.e2, b.e1)
      && Line(r, a.e0, b.e0)
  {
    var h := NewQuadLinks(g, b.e0, b.e1, b.e2, b.e3);
    NewQuadLone(g, b);
    assert Lone(h, a);
    ConcatLoneEdges(h, a, b);
  }

  /** What the polygon checks (verifyLoop, verifyTriangle, verifySquare) say of one
      corner e of a polygon whose previous edge is p and next edge q: e's origin ring
      holds p.sym, its destination ring q.sym, and its left and right faces are the
      given walks. */
  ghost predicate Corner(g: Links, e: Id, p: Id, q: Id, left: seq<Id>, right: seq<Id>)
    requires Linked(g) && e in g && p in g && q in g
  {
    && Onext(g, e) == Sym(g, p) && Oprev(g, e) == Sym(g, p)
    && Dnext(g, e) == Sym(g, q) && Dprev(g, e) == Sym(g, q)
    && Lnext(g, e) == q && Lprev(g, e) == p
    && Rnext(g, e) == p && Rprev(g, e) == q
    && Orbit(g, Origin, e) == [e, Sym(g, p)] && Orbit(g, Destination, e) == [e, Sym(g, q)]
    && Orbit(g, Left, e) == left && Orbit(g, Right, e) == right
  }

  /** Every edge of a ring is a corner of the polygon it bounds. */
  lemma RingCorner(g: Links, qs: seq<Quad>, i: nat)
    requires Ring(g, qs) && Separate(qs) && i < |qs|
    ensures RingAt(g, qs, i) && RingAt(g, qs, Prev(|qs|, i)) && RingAt(g, qs, Succ(|qs|, i))
    ensures Corner(g, qs[i].e0, qs[Prev(|qs|, i)].e0, qs[Succ(|qs|, i)].e0,
      Firsts(Rotated(qs, i)), FirstsBackwards(Rotated(qs, i)))
  {
    RingNavigation(g, qs, i);
    RingNavigation(g, qs, Prev(|qs|, i));
    RingNavigation(g, qs, Succ(|qs|, i));
    RingOriginOrbit(g, qs, i);
    RingDestinationOrbit(g, qs, i);
    RingLeftOrbitAt(g, qs, i);
    RingRightOrbitAt(g, qs, i);
  }

  /** What verifyLoop checks of a and b. */
  ghost predicate Loop(g: Links, a: Id, b: Id)
    requires Linked(g) && a in g && b in g
  {
    Corner(g, a, b, b, [a, b], [a, b]) && Corner(g, b, a, a, [b, a], [b, a])
  }

  /** What verifyTriangle checks of a, b and c. */
  ghost predicate Triangle(g: Links, a: Id, b: Id, c: Id)
    requires Linked(g) && a in g && b in g && c in g
  {
    && Corner(g, a, c, b, [a, b, c], [a, c, b])
    && Corner(g, b, a, c, [b, c, a], [b, a, c])
    && Corner(g, c, b, a, [c, a, b], [c, b, a])
  }

  /** What verifySquare checks of a, b, c and d. */
  ghost predicate Square(g: Links, a: Id, b: Id, c: Id, d: Id)
    requires Linked(g) && a in g && b in g && c in g && d in g
  {
    && Corner(g, a, d, b, [a, b, c, d], [a, d, c, b])
    && Corner(g, b, a, c, [b, c, d, a], [b, a, d, c])
    && Corner(g, c, b, d, [c, d, a, b], [c, b, a, d])
    && Corner(g, d, c, a, [d, a, b, c], [d, c, b, a])
  }

  /** The walks around a polygon of two edges, from each edge. */
  lemma Walks2(qs: seq<Quad>)
    requires |qs| == 2
    ensures Firsts(Rotated(qs, 0)) == [qs[0].e0, qs[1].e0] && FirstsBackwards(Rotated(qs, 0)) == [qs[0].e0, qs[1].e0]
    ensures Firsts(Rotated(qs, 1)) == [qs[1].e0, qs[0].e0] && FirstsBackwards(Rotated(qs, 1)) == [qs[1].e0, qs[0].e0]
  {
    assert Rotated(qs, 0) == qs;
    assert Rotated(qs, 1) == [qs[1], qs[0]];
  }

  /** The walks around a polygon of three edges, from each edge. */
  lemma Walks3(qs: seq<Quad>)
    requires |qs| == 3
    ensures var a, b, c := qs[0].e0, qs[1].e0, qs[2].e0;
      && Firsts(Rotated(qs, 0)) == [a, b, c] && FirstsBackwards(Rotated(qs, 0)) == [a, c, b]
      && Firsts(Rotated(qs, 1)) == [b, c, a] && FirstsBackwards(Rotated(qs, 1)) == [b, a, c]
      && Firsts(Rotated(qs, 2)) == [c, a, b] && FirstsBackwards(Rotated(qs, 2)) == [c, b, a]
  {
    assert Rotated(qs, 0) == qs;
    assert Rotated(qs, 1) == [qs[1], qs[2], qs[0]];
    assert Rotated(qs, 2) == [qs[2], qs[0], qs[1]];
  }

  /** The walks around a polygon of four edges, from each edge. */
  lemma Walks4(qs: seq<Quad>)
    requires |qs| == 4
    ensures var a, b, c, d := qs[0].e0, qs[1].e0, qs[2].e0, qs[3].e0;
      && Firsts(Rotated(qs, 0)) == [a, b, c, d] && FirstsBackwards(Rotated(qs, 0)) == [a, d, c, b]
      && Firsts(Rotated(qs, 1)) == [b, c, d, a] && FirstsBackwards(Rotated(qs, 1)) == [b, a, d, c]
      && Firsts(Rotated(qs, 2)) == [c, d, a, b] && FirstsBackwards(Rotated(qs, 2)) == [c, b, a, d]
      && Firsts(Rotated(qs, 3)) == [d, a, b, c] && FirstsBackwards(Rotated(qs, 3)) == [d, c, b, a]
  {
    assert Rotated(qs, 0) == qs;
    assert Rotated(qs, 1) == [qs[1], qs[2], qs[3], qs[0]];
    assert Rotated(qs, 2) == [qs[2], qs[3], qs[0], qs[1]];
    assert Rotated(qs, 3) == [qs[3], qs[0], qs[1], qs[2]];
  }

  /** A ring of two edges is what verifyLoop checks. */
  lemma RingLoop(g: Links, qs: seq<Quad>)
    requires Ring(g, qs) && Separate(qs) && |qs| == 2
    ensures RingAt(g, qs, 0) && RingAt(g, qs, 1)
    ensures Loop(g, qs[0].e0, qs[1].e0)
  {
    Walks2(qs);
    RingCorner(g, qs, 0);
    RingCorner(g, qs, 1);
  }

  /** A ring of three edges is what verifyTriangle checks. */
  lemma RingTriangle(g: Links, qs: seq<Quad>)
    requires Ring(g, qs) && Separate(qs) && |qs| == 3
    ensures RingAt(g, qs, 0) && RingAt(g, qs, 1) && RingAt(g, qs, 2)
    ensures Triangle(g, qs[0].e0, qs[1].e0, qs[2].e0)
  {
    Walks3(qs);
    RingCorner(g, qs, 0);
    RingCorner(g, qs, 1);
    RingCorner(g, qs, 2);
  }

  /** A ring of four edges is what verifySquare checks. */
  lemma RingSquare(g: Links, qs: seq<Quad>)
    requires Ring(g, qs) && Separate(qs) && |qs| == 4
    ensures RingAt(g, qs, 0) && RingAt(g, qs, 1) && RingAt(g, qs, 2) && RingAt(g, qs, 3)
    ensures Square(g, qs[0].e0, qs[1].e0, qs[2].e0, qs[3].e0)
  {
    Walks4(qs);
    RingCorner(g, qs, 0);
    RingCorner(g, qs, 1);
    RingCorner(g, qs, 2);
    RingCorner(g, qs, 3);
  }

  /** `addPolygon(2)` makes a loop e, e.lnext ("can make a loop"). */
  lemma PolygonLoop(g: Links, qs: seq<Quad>)
    requires Linked(g) && |qs| == 2 && Separate(qs)
    ensures var r := PolygonLinks(g, qs);
      && Ring(r, qs) && RingAt(r, qs, 0) && RingAt(r, qs, 1)
      && Lnext(r, qs[0].e0) == qs[1].e0
      && Loop(r, qs[0].e0, qs[1].e0)
  {
    PolygonRing(g, qs);
    RingLoop(PolygonLinks(g, qs), qs);
  }

  /** `addPolygon(3)` makes a triangle e, e.lnext, e.lnext.lnext ("can make a triangle"). */
  lemma PolygonTriangle(g: Links, qs: seq<Quad>)
    requires Linked(g) && |qs| == 3 && Separate(qs)
    ensures var r := PolygonLinks(g, qs);
      && Ring(r, qs) && RingAt(r, qs, 0) && RingAt(r, qs, 1) && RingAt(r, qs, 2)
      && Lnext(r, qs[0].e0) == qs[1].e0 && Lnext(r, qs[1].e0) == qs[2].e0
      && Triangle(r, qs[0].e0, qs[1].e0, qs[2].e0)
  {
    PolygonRing(g, qs);
    RingTriangle(PolygonLinks(g, qs), qs);
  }

  /** `addPolygon(4)` makes a square e, e.lnext, e.lnext.lnext, e.lnext.lnext.lnext ("can
      make a square"). */
  lemma PolygonSquare(g: Links, qs: seq<Quad>)
    requires Linked(g) && |qs| == 4 && Separate(qs)
    ensures var r := PolygonLinks(g, qs);
      && Ring(r, qs) && RingAt(r, qs, 0) && RingAt(r, qs, 1) && RingAt(r, qs, 2) && RingAt(r, qs, 3)
      && Lnext(r, qs[0].e0) == qs[1].e0 && Lnext(r, qs[1].e0) == qs[2].e0 && Lnext(r, qs[2].e0) == qs[3].e0
      && Square(r, qs[0].e0, qs[1].e0, qs[2].e0, qs[3].e0)
  {
    PolygonRing(g, qs);
    RingSquare(PolygonLinks(g, qs), qs);
  }

  /** `addEdge(a)` on a lone edge a, then `connect(b, a)`, with new quads b and c, makes
      the triangle a, b, c ("connects two edges"). */
  lemma ConnectTriangle(g: Links, a: Quad, b: Quad, c: Quad)
    requires Lone(g, a) && Separate([a, b, c])
    ensures var g1 := AddEdgeLinks(g, a.e0, b.e0, b.e1, b.e2, b.e3);
      && b.e0 in g1
      && var r := ConnectLinks(g1, b.e0, a.e0, c.e0, c.e1, c.e2, c.e3);
      && Ring(r, [a, b, c]) && RingAt(r, [a, b, c], 0) && RingAt(r, [a, b, c], 1) && RingAt(r, [a, b, c], 2)
      && Triangle(r, a.e0, b.e0, c.e0)
  {
    assert PathAt(g, [a], 0);
    assert [a, b] == [a, b, c][..2] && [a] + [b] == [a, b] && [a, b] + [c] == [a, b, c];
    SeparatePrefix([a, b, c], 2);
    ExtendPath(g, [a], b);
    var g1 := AddEdgeLinks(g, a.e0, b.e0, b.e1, b.e2, b.e3);
    assert PathAt(g1, [a, b], 0) && PathAt(g1, [a, b], 1);
    ClosePath(g1, [a, b], c);
    RingTriangle(ConnectLinks(g1, b.e0, a.e0, c.e0, c.e1, c.e2, c.e3), [a, b, c]);
  }
}
