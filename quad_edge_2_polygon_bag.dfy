/**
 * `addPolygon(n)` of src/quad-edge-2.ts on the bag itself. Each edge the bag makes is a
 * quad of four ids drawn from the counter, none of them live before; the links the bag
 * is left with are those of `PolygonLinks` over that sequence of quads, and the quads
 * are separate, so the ring theory of module QuadEdgePolygons applies: the new edges
 * form a ring whose left face is the polygon, n edges long.
 */
module QuadEdgePolygonBag {
  import opened Wrappers
  import opened EdgeRecords
  import opened Edges
  import opened QuadLinks
  import opened QuadTables
  import opened AlphaIds
  import opened QuadEdgeBag
  import opened QuadEdgePolygons
  import opened QuadEdgeScenarios
  import opened QuadEdgePolygonSteps

  /** `addPolygon(n)` on a good bag, when it succeeds: there are n separate quads, the
      first of which carries the edge returned, and the bag's links are those of
      `PolygonLinks` over them on the links before. */
  lemma PolygonAddedQuads<T>(s: Bag<T>, n: int, t: Bag<T>, e: Id) returns (qs: seq<Quad>)
    requires Good(s) && PolygonAdded(s, n) == Some((t, e))
    ensures |qs| == n && n >= 2 && |qs| >= 2
    ensures Separate(qs)
    ensures Leads(qs, e)
    ensures LinksOf(t.records) == PolygonLinks(LinksOf(s.records), qs)
  {
    PolygonAddedFails(s, n);
    PolygonAddedUnfold(s, n, t, e);
    qs := CreatedThenClosed(s, n, t, e);
  }

  /** The quads of a polygon of n sides drawn by `createEdge` and closed by the
      `addEdge` calls and `connect` after it. */
  lemma CreatedThenClosed<T>(s: Bag<T>, n: int, t: Bag<T>, e: Id) returns (qs: seq<Quad>)
    requires Good(s) && n >= 2
    requires var r := EdgeCreated(s);
      Good(r.0) && r.1 in r.0.records && t == PolygonClosed(r.0, r.1, InnerEdges(n)) && e == r.1
    ensures |qs| == n && n >= 2 && |qs| >= 2
    ensures Separate(qs)
    ensures Leads(qs, e)
    ensures LinksOf(t.records) == PolygonLinks(LinksOf(s.records), qs)
  {
    var k := InnerEdges(n);
    var g := LinksOf(s.records);
    var r := EdgeCreated(s);
    var q0 := CreatedQuad(s);
    var mids, z := ClosedAfterCreated(g, r.0, q0, k, t);
    qs := [q0] + mids + [z];
    PolygonLength(q0, mids, z, k, n);
  }

  /** `addPolygon(n)` on a good bag, when it succeeds, builds a ring of n new edges whose
      left face is the polygon: going round the left face of the edge returned passes
      through the first edge of every quad drawn, in order, and through nothing else. */
  lemma PolygonAddedRing<T>(s: Bag<T>, n: int, t: Bag<T>, e: Id) returns (qs: seq<Quad>)
    requires Good(s) && PolygonAdded(s, n) == Some((t, e))
    ensures |qs| == n && Separate(qs) && Leads(qs, e)
    ensures Ring(LinksOf(t.records), qs)
    ensures e in LinksOf(t.records) && Orbit(LinksOf(t.records), Left, e) == Firsts(qs)
    ensures |Orbit(LinksOf(t.records), Left, e)| == n
  {
    qs := PolygonAddedQuads(s, n, t, e);
    PolygonRing(LinksOf(s.records), qs);
    RingLeftOrbit(LinksOf(t.records), qs);
  }

  /** "can make a loop": `addPolygon(2)` on any good bag returns e, and verifyLoop holds
      of e and e.lnext. */
  lemma PolygonAddedLoop<T>(s: Bag<T>, t: Bag<T>, e: Id)
    requires Good(s) && PolygonAdded(s, 2) == Some((t, e))
    ensures var g := LinksOf(t.records);
      && e in g && Lnext(g, e) in g && Loop(g, e, Lnext(g, e))
  {
    var qs := PolygonAddedQuads(s, 2, t, e);
    PolygonLoop(LinksOf(s.records), qs);
  }

  /** "can make a triangle": `addPolygon(3)` on any good bag returns e, and verifyTriangle
      holds of e, e.lnext and e.lnext.lnext. */
  lemma PolygonAddedTriangle<T>(s: Bag<T>, t: Bag<T>, e: Id)
    requires Good(s) && PolygonAdded(s, 3) == Some((t, e))
    ensures var g := LinksOf(t.records);
      && e in g && Lnext(g, e) in g && Lnext(g, Lnext(g, e)) in g
      && Triangle(g, e, Lnext(g, e), Lnext(g, Lnext(g, e)))
  {
    var qs := PolygonAddedQuads(s, 3, t, e);
    PolygonTriangle(LinksOf(s.records), qs);
  }

  /** "can make a square": `addPolygon(4)` on any good bag returns e, and verifySquare
      holds of e and the next three edges b, c and d of its left face. */
  lemma PolygonAddedSquare<T>(s: Bag<T>, t: Bag<T>, e: Id) returns (b: Id, c: Id, d: Id)
    requires Good(s) && PolygonAdded(s, 4) == Some((t, e))
    ensures var g := LinksOf(t.records);
      && e in g && b in g && c in g && d in g
      && Lnext(g, e) == b && Lnext(g, b) == c && Lnext(g, c) == d
      && Square(g, e, b, c, d)
  {
    var qs := PolygonAddedQuads(s, 4, t, e);
    PolygonSquare(LinksOf(s.records), qs);
    b, c, d := qs[1].e0, qs[2].e0, qs[3].e0;
  }
}
