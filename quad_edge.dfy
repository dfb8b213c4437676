/**
 * The object-based engine of src/quad-edge.ts, on values. Every edge is an object of its
 * own with an id, a data slot and a mutable origin-next pointer; its rotation, sym and
 * inverse rotation are the objects at the next indices of the array of four `makeEdge`
 * filled. The objects made so far are modelled by their links (the rotation, which the
 * index fixes, and the origin-next pointer) and their data slots, both keyed by id, so
 * navigation is that of module Edges. Class QuadEdgeObjects.EdgeObjects performs these
 * steps in place.
 */
module QuadEdgeHeap {
  import opened Wrappers
  import opened EdgeRecords
  import opened Edges
  import opened QuadLinks
  import opened QuadTables
  import opened QuadEdgePolygons
  import opened QuadEdgePolygonSteps
  import opened QuadEdgeScenarios
  import opened QuadEdgeDeletion

  /** The edge objects made so far: their links and their data slots (None while unset). */
  datatype Heap<T> = Heap(links: Links, data: map<Id, Option<T>>)

  /** Every link leads to an object made so far, and every object has a data slot. */
  ghost predicate Sound<T>(h: Heap<T>) {
    Linked(h.links) && h.data.Keys == h.links.Keys
  }

  /** The `org` getter (and the `data` slot it reads). */
  function Org<T>(h: Heap<T>, e: Id): Option<T>
    requires e in h.data
  {
    h.data[e]
  }

  /** The `dest` getter: the org of the sym. */
  function Dest<T>(h: Heap<T>, e: Id): Option<T>
    requires Sound(h) && e in h.links
  {
    h.data[Sym(h.links, e)]
  }

  /** The quad array `makeEdge` fills, in index order. */
  function Slots(q: Quad): (s: seq<Id>)
    ensures |s| == 4 && s[0] == q.e0 && s[1] == q.e1 && s[2] == q.e2 && s[3] == q.e3
  {
    [q.e0, q.e1, q.e2, q.e3]
  }

  /** The index rule of `edge(quad, index)`: the rotation of quad[i] is quad[(i + 1) % 4],
      its sym quad[(i + 2) % 4] and its inverse rotation quad[(i + 3) % 4]. A quad whose
      rotations cycle e0 -> e1 -> e2 -> e3 -> e0 obeys it. */
  lemma IndexRule(g: Links, q: Quad, i: nat)
    requires Rots(g, q) && i < 4
    ensures Slots(q)[i] in g
    ensures Rot(g, Slots(q)[i]) == Slots(q)[(i + 1) % 4]
    ensures Sym(g, Slots(q)[i]) == Slots(q)[(i + 2) % 4]
    ensures InvRot(g, Slots(q)[i]) == Slots(q)[(i + 3) % 4]
  {
    var s := Slots(q);
    if i == 0 {
      assert Rot(g, s[0]) == s[1] && Rot(g, s[1]) == s[2] && Rot(g, s[2]) == s[3];
    } else if i == 1 {
      assert Rot(g, s[1]) == s[2] && Rot(g, s[2]) == s[3] && Rot(g, s[3]) == s[0];
    } else if i == 2 {
      assert Rot(g, s[2]) == s[3] && Rot(g, s[3]) == s[0] && Rot(g, s[0]) == s[1];
    } else {
      assert Rot(g, s[3]) == s[0] && Rot(g, s[0]) == s[1] && Rot(g, s[1]) == s[2];
    }
  }

  /** The four objects of q, none of them made before and no two the same. */
  predicate Fresh<T>(h: Heap<T>, q: Quad) {
    Own(q) && QuadOut(q, h.links.Keys)
  }

  /** `makeEdge(org, dest)` with the objects of q: quad[0..3] are q.e0..q.e3, their
      origin-next pointers those of a lone edge, quad[0]'s data org and quad[0].sym's
      (quad[2]) data dest; the data of quad[1] and quad[3] stays unset. */
  function EdgeMade<T>(h: Heap<T>, org: Option<T>, dest: Option<T>, q: Quad): (r: Heap<T>)
    requires Sound(h)
    ensures Sound(r) && r.links.Keys == h.links.Keys + {q.e0, q.e1, q.e2, q.e3}
  {
    NewQuadLinked(h.links, q.e0, q.e1, q.e2, q.e3);
    Heap(NewQuadLinks(h.links, q.e0, q.e1, q.e2, q.e3),
      h.data[q.e1 := None][q.e3 := None][q.e0 := org][q.e2 := dest])
  }

  /** A new edge is a lone edge from org to dest, and every object made before keeps its
      links and its data. */
  lemma EdgeMadeLone<T>(h: Heap<T>, org: Option<T>, dest: Option<T>, q: Quad)
    requires Sound(h) && Fresh(h, q)
    ensures var r := EdgeMade(h, org, dest, q);
      && Lone(r.links, q) && IsolatedQuad(r.links, q.e0)
      && Sym(r.links, q.e0) == q.e2
      && Org(r, q.e0) == org && Dest(r, q.e0) == dest
      && Org(r, q.e1) == None && Org(r, q.e3) == None
      && (forall k :: k in h.links ==> r.links[k] == h.links[k] && r.data[k] == h.data[k])
  {
    NewQuadLone(h.links, q);
    LoneIsolated(EdgeMade(h, org, dest, q).links, q);
  }

  /** `splice(a, b)`: the four pointer writes on the links; no data slot changes. */
  function Spliced<T>(h: Heap<T>, a: Id, b: Id): (r: Heap<T>)
    requires Sound(h) && a in h.links && b in h.links
    ensures Sound(r) && r.links.Keys == h.links.Keys
  {
    Heap(SpliceLinks(h.links, a, b), h.data)
  }

  /** Splicing the same two edges again undoes a splice whose four edges are distinct,
      and the order of the two edges does not matter. */
  lemma SplicedTwice<T>(h: Heap<T>, a: Id, b: Id)
    requires Sound(h) && a in h.links && b in h.links
    requires Distinct4(a, b, Alpha(h.links, a), Alpha(h.links, b))
    ensures Spliced(h, a, b) == Spliced(h, b, a)
    ensures Spliced(Spliced(h, a, b), a, b) == h
  {
    SpliceSymmetric(h.links, a, b);
    SpliceInvolution(h.links, a, b);
  }

  /** `deleteEdge(e)`: `splice(e, e.oprev)`, then `splice(e.sym, e.sym.oprev)` with both
      navigators read after the first splice. The objects stay. */
  function Deleted<T>(h: Heap<T>, e: Id): (r: Heap<T>)
    requires Sound(h) && e in h.links
    ensures Sound(r) && r.links.Keys == h.links.Keys
  {
    var h1 := Spliced(h, e, Oprev(h.links, e));
    var s := Sym(h1.links, e);
    Spliced(h1, s, Oprev(h1.links, s))
  }

  /** `addEdge(e0, t)`: a new edge from e0's destination to t, then `splice(e0.sym, e1)`;
      e1 is q.e0. */
  function EdgeAdded<T>(h: Heap<T>, e0: Id, t: T, q: Quad): (r: Heap<T>)
    requires Sound(h) && e0 in h.links
    ensures Sound(r) && r.links.Keys == h.links.Keys + {q.e0, q.e1, q.e2, q.e3}
  {
    var m := EdgeMade(h, Dest(h, e0), Some(t), q);
    Spliced(m, Sym(m.links, e0), q.e0)
  }

  /** `connect(a, b)`: a new edge from a's destination to b's origin, then
      `splice(e, a.lnext)` and `splice(e.sym, b)`; e is q.e0. */
  function Connected<T>(h: Heap<T>, a: Id, b: Id, q: Quad): (r: Heap<T>)
    requires Sound(h) && a in h.links && b in h.links
    ensures Sound(r) && r.links.Keys == h.links.Keys + {q.e0, q.e1, q.e2, q.e3}
  {
    var m := EdgeMade(h, Dest(h, a), Org(h, b), q);
    var m1 := Spliced(m, q.e0, Lnext(m.links, a));
    Spliced(m1, Sym(m1.links, q.e0), b)
  }

  /** `addEdge` draws the links of the bag's `addEdge` in src/quad-edge-2.ts. */
  lemma EdgeAddedIsAddEdge<T>(h: Heap<T>, e0: Id, t: T, q: Quad)
    requires Sound(h) && e0 in h.links
    ensures EdgeAdded(h, e0, t, q).links == AddEdgeLinks(h.links, e0, q.e0, q.e1, q.e2, q.e3)
  {
  }

  /** The new edge of `addEdge` runs from e0's destination to t, and no other data slot
      changes. */
  lemma EdgeAddedData<T>(h: Heap<T>, e0: Id, t: T, q: Quad)
    requires Sound(h) && e0 in h.links && Own(q)
    ensures var r := EdgeAdded(h, e0, t, q);
      && Rots(r.links, q) && Sym(r.links, q.e0) == q.e2
      && r.data[q.e0] == Dest(h, e0) && r.data[q.e2] == Some(t)
      && Org(r, q.e0) == Dest(h, e0) && Dest(r, q.e0) == Some(t)
      && forall k :: k in h.links && k !in Ids(q) ==> r.data[k] == h.data[k]
  {
    var m := EdgeMade(h, Dest(h, e0), Some(t), q);
    NewQuadLone(h.links, q);
    SpliceKeepsRot(m.links, Sym(m.links, e0), q.e0);
  }

  /** `addEdge` with fresh objects: the links of the bag's `addEdge`, a new edge from
      e0's destination to t, and every object made before keeps its data. */
  lemma EdgeAddedLinks<T>(h: Heap<T>, e0: Id, t: T, q: Quad)
    requires Sound(h) && e0 in h.links && Fresh(h, q)
    ensures var r := EdgeAdded(h, e0, t, q);
      && r.links == AddEdgeLinks(h.links, e0, q.e0, q.e1, q.e2, q.e3)
      && Org(r, q.e0) == Dest(h, e0) && Dest(r, q.e0) == Some(t)
      && forall k :: k in h.links ==> r.data[k] == h.data[k]
  {
    EdgeAddedIsAddEdge(h, e0, t, q);
    EdgeAddedData(h, e0, t, q);
  }

  /** `connect` draws the same links as the bag's `connect` in src/quad-edge-2.ts, whose
      two splices name their edges the other way round, and the new edge runs from a's
      destination to b's origin. */
  lemma ConnectedLinks<T>(h: Heap<T>, a: Id, b: Id, q: Quad)
    requires Sound(h) && a in h.links && b in h.links && Own(q)
    ensures var r := Connected(h, a, b, q);
      && r.links == ConnectLinks(h.links, a, b, q.e0, q.e1, q.e2, q.e3)
      && Org(r, q.e0) == Dest(h, a) && Dest(r, q.e0) == Org(h, b)
  {
    var m := EdgeMade(h, Dest(h, a), Org(h, b), q);
    NewQuadLone(h.links, q);
    var l := Lnext(m.links, a);
    SpliceSymmetric(m.links, q.e0, l);
    var g1 := SpliceLinks(m.links, l, q.e0);
    SpliceKeepsRot(m.links, l, q.e0);
    SpliceSymmetric(g1, Sym(g1, q.e0), b);
    SpliceKeepsRot(g1, Sym(g1, q.e0), b);
  }

  /** A lone quad already in the links is what a new quad would write. */
  lemma NewQuadAgain(g: Links, q: Quad)
    requires Lone(g, q)
    ensures NewQuadLinks(g, q.e0, q.e1, q.e2, q.e3) == g
  {
  }

  /** `subdivision(a, b, c)`: three new edges a -> b, b -> c, c -> a with the objects of
      qa, qb and qc, then `splice(e_a.sym, e_b)`, `splice(e_b.sym, e_c)` and
      `splice(e_c.sym, e_a)`; e_a is qa.e0. */
  function Subdivided<T>(h: Heap<T>, a: T, b: T, c: T, qa: Quad, qb: Quad, qc: Quad): (r: Heap<T>)
    requires Sound(h)
    ensures Sound(r) && r.links.Keys == h.links.Keys + {qa.e0, qa.e1, qa.e2, qa.e3}
      + {qb.e0, qb.e1, qb.e2, qb.e3} + {qc.e0, qc.e1, qc.e2, qc.e3}
  {
    var m := EdgeMade(EdgeMade(EdgeMade(h, Some(a), Some(b), qa), Some(b), Some(c), qb), Some(c), Some(a), qc);
    var m1 := Spliced(m, Sym(m.links, qa.e0), qb.e0);
    var m2 := Spliced(m1, Sym(m1.links, qb.e0), qc.e0);
    Spliced(m2, Sym(m2.links, qc.e0), qa.e0)
  }

  /** A new quad apart from a lone edge p leaves p lone, and the data of p's objects as
      it was. */
  lemma EdgeMadeKeeps<T>(h: Heap<T>, org: Option<T>, dest: Option<T>, q: Quad, p: Quad)
    requires Sound(h) && Lone(h.links, p) && Own(q) && Apart(p, q)
    ensures var r := EdgeMade(h, org, dest, q);
      && Lone(r.links, p) && Lone(r.links, q)
      && Org(r, q.e0) == org && Org(r, q.e2) == dest
      && r.data[p.e0] == h.data[p.e0] && r.data[p.e2] == h.data[p.e2]
  {
    NewQuadLone(h.links, q);
  }

  /** The three new quads of `subdivision`, before any splice: three lone edges, and
      qa alone is a path. */
  lemma SubdivisionMade<T>(h: Heap<T>, a: T, b: T, c: T, qa: Quad, qb: Quad, qc: Quad)
    requires Sound(h) && Separate([qa, qb, qc])
    ensures var m := EdgeMade(EdgeMade(EdgeMade(h, Some(a), Some(b), qa), Some(b), Some(c), qb), Some(c), Some(a), qc);
      && Lone(m.links, qa) && Lone(m.links, qb) && Lone(m.links, qc)
      && Path(m.links, [qa])
      && Org(m, qa.e0) == Some(a) && Org(m, qa.e2) == Some(b)
      && Org(m, qb.e0) == Some(b) && Org(m, qb.e2) == Some(c)
      && Org(m, qc.e0) == Some(c) && Org(m, qc.e2) == Some(a)
  {
    SeparateApart([qa, qb, qc], 0, 1);
    SeparateApart([qa, qb, qc], 0, 2);
    SeparateApart([qa, qb, qc], 1, 2);
    var m1 := EdgeMade(h, Some(a), Some(b), qa);
    var m2 := EdgeMade(m1, Some(b), Some(c), qb);
    var m := EdgeMade(m2, Some(c), Some(a), qc);
    NewQuadLone(h.links, qa);
    EdgeMadeKeeps(m1, Some(b), Some(c), qb, qa);
    EdgeMadeKeeps(m2, Some(c), Some(a), qc, qa);
    EdgeMadeKeeps(m2, Some(c), Some(a), qc, qb);
    assert PathAt(m.links, [qa], 0);
  }

  /** The three splices of `subdivision` on three lone edges join them into a ring. */
  lemma SubdivisionRing(g: Links, qa: Quad, qb: Quad, qc: Quad)
    requires Lone(g, qa) && Lone(g, qb) && Lone(g, qc) && Separate([qa, qb, qc])
    ensures Sym(g, qa.e0) == qa.e2
    ensures var g1 := SpliceLinks(g, qa.e2, qb.e0);
      && Sym(g1, qb.e0) == qb.e2
      && var g2 := SpliceLinks(g1, qb.e2, qc.e0);
      && Sym(g2, qc.e0) == qc.e2
      && Ring(SpliceLinks(g2, qc.e2, qa.e0), [qa, qb, qc])
  {
    var qs := [qa, qb, qc];
    assert PathAt(g, [qa], 0);
    assert [qa] + [qb] == [qa, qb] && [qa, qb] + [qc] == qs && [qa, qb] == qs[..2];
    SeparatePrefix(qs, 2);
    SeparateApart(qs, 0, 2);
    SeparateApart(qs, 1, 2);
    // The first splice extends the path qa by qb, whose quad was already lone.
    NewQuadAgain(g, qb);
    ExtendPath(g, [qa], qb);
    var g1 := SpliceLinks(g, qa.e2, qb.e0);
    assert Alpha(g, qa.e2) == qa.e3 && Alpha(g, qb.e0) == qb.e1;
    SpliceElsewhere(g, qa.e2, qb.e0, qc, qc.e0, qc.e3, qc.e2, qc.e1);
    // The second extends it by qc.
    NewQuadAgain(g1, qc);
    ExtendPath(g1, [qa, qb], qc);
    var g2 := SpliceLinks(g1, qb.e2, qc.e0);
    // The third closes the ring.
    CloseRing(g2, qs);
    SpliceSymmetric(g2, qc.e2, qa.e0);
  }

  /** `subdivision(a, b, c)` makes the triangle e_a, e_b, e_c ("can make a triangle"):
      a ring whose left face is walked e_a, e_b, e_c, with every navigator and orbit
      verifyTriangle checks, e_a from a to b, e_b from b to c and e_c from c to a. */
  lemma SubdivisionTriangle<T>(h: Heap<T>, a: T, b: T, c: T, qa: Quad, qb: Quad, qc: Quad)
    requires Sound(h) && Separate([qa, qb, qc])
    ensures var r := Subdivided(h, a, b, c, qa, qb, qc);
      && Ring(r.links, [qa, qb, qc])
      && Triangle(r.links, qa.e0, qb.e0, qc.e0)
      && Org(r, qa.e0) == Some(a) && Dest(r, qa.e0) == Some(b)
      && Org(r, qb.e0) == Some(b) && Dest(r, qb.e0) == Some(c)
      && Org(r, qc.e0) == Some(c) && Dest(r, qc.e0) == Some(a)
  {
    var qs := [qa, qb, qc];
    var r := Subdivided(h, a, b, c, qa, qb, qc);
    SubdividedRing(h, a, b, c, qa, qb, qc);
    RingTriangle(r.links, qs);
  }

  /** The links `subdivision` leaves are the ring of `SubdivisionRing`, and its data
      slots those the three `makeEdge` calls wrote. */
  lemma SubdividedRing<T>(h: Heap<T>, a: T, b: T, c: T, qa: Quad, qb: Quad, qc: Quad)
    requires Sound(h) && Separate([qa, qb, qc])
    ensures var r := Subdivided(h, a, b, c, qa, qb, qc);
      && Ring(r.links, [qa, qb, qc])
      && Org(r, qa.e0) == Some(a) && Org(r, qa.e2) == Some(b)
      && Org(r, qb.e0) == Some(b) && Org(r, qb.e2) == Some(c)
      && Org(r, qc.e0) == Some(c) && Org(r, qc.e2) == Some(a)
  {
    var m := EdgeMade(EdgeMade(EdgeMade(h, Some(a), Some(b), qa), Some(b), Some(c), qb), Some(c), Some(a), qc);
    SubdivisionMade(h, a, b, c, qa, qb, qc);
    SubdivisionRing(m.links, qa, qb, qc);
    var m1 := Spliced(m, Sym(m.links, qa.e0), qb.e0);
    var m2 := Spliced(m1, Sym(m1.links, qb.e0), qc.e0);
    var r := Spliced(m2, Sym(m2.links, qc.e0), qa.e0);
    assert r == Subdivided(h, a, b, c, qa, qb, qc);
  }

  /** `deleteEdge(b)` right after `splice(a, b)` of two lone edges undoes the splice: a
      and b are lone edges again and every data slot is as it was. */
  lemma DeleteUndoesSplice<T>(h: Heap<T>, a: Quad, b: Quad)
    requires Sound(h) && Lone(h.links, a) && Lone(h.links, b) && Own(a) && Own(b) && Apart(a, b)
    ensures Deleted(Spliced(h, a.e0, b.e0), b.e0) == h
  {
    SplicedPartnerIsolated(h.links, a, b);
  }

  /** `deleteEdge(q)` on a ring of two edges p and q leaves two lone edges; every data
      slot is as it was. */
  lemma DeletedLoop<T>(h: Heap<T>, p: Quad, q: Quad)
    requires Sound(h) && Ring(h.links, [p, q]) && Separate([p, q])
    ensures q.e0 in h.links
    ensures Lone(Deleted(h, q.e0).links, p) && Lone(Deleted(h, q.e0).links, q)
    ensures Deleted(h, q.e0).data == h.data
  {
    LoopIsolated(h.links, p, q);
  }

  /** `deleteEdge(e1)` right after `e1 = addEdge(e0, t)` at the end of a chain qs of edges
      (e0 the last) leaves the chain as it was and e1 a lone edge, as `makeEdge` alone
      would have; only the data of the new edge's objects remains. */
  lemma DeleteUndoesAddEdge<T>(h: Heap<T>, qs: seq<Quad>, t: T, z: Quad)
    requires Sound(h) && |qs| >= 1 && Path(h.links, qs) && Separate(qs + [z])
    ensures qs[|qs| - 1].e0 in h.links
    ensures var e0 := qs[|qs| - 1].e0;
      Deleted(EdgeAdded(h, e0, t, z), z.e0) == EdgeMade(h, Dest(h, e0), Some(t), z)
  {
    DeleteUndoesAddEdgeLinks(h.links, qs, z);
  }

  /** `DeleteUndoesAddEdge` on the links. */
  lemma DeleteUndoesAddEdgeLinks(g: Links, qs: seq<Quad>, z: Quad)
    requires |qs| >= 1 && Path(g, qs) && Separate(qs + [z])
    ensures Linked(g) && qs[|qs| - 1].e0 in g
    ensures var m := NewQuadLinks(g, z.e0, z.e1, z.e2, z.e3);
      && Linked(m) && z.e0 in m
      && var a := SpliceLinks(m, Sym(m, qs[|qs| - 1].e0), z.e0);
      && var a1 := SpliceLinks(a, z.e0, Oprev(a, z.e0));
      && SpliceLinks(a1, Sym(a1, z.e0), Oprev(a1, Sym(a1, z.e0))) == m
  {
    var n := |qs|;
    var last := qs[n - 1];
    assert PathAt(g, qs, n - 1);
    SeparateLast(qs, z);
    NewQuadPath(g, qs, z);
    var m := NewQuadLinks(g, z.e0, z.e1, z.e2, z.e3);
    assert PathAt(m, qs, n - 1);
    var o0 := if n - 1 == 0 then last.e0 else qs[n - 2].e2;
    var o1 := if n - 1 == 0 then last.e3 else qs[n - 2].e1;
    UndoJoin(m, last, z, o0, o1);
  }

  /** deleteEdge(z.e0) after `splice(p.sym, z.e0)` joined a lone edge z to the end of p:
      its first splice is `splice(z.e0, p.sym)`, which undoes the join, and its second
      splices z.sym with itself. */
  lemma UndoJoin(m: Links, p: Quad, z: Quad, o0: Id, o1: Id)
    requires Onexts(m, p, o0, o1, p.e2, p.e1) && Lone(m, z) && Own(p) && Own(z) && Apart(p, z)
    ensures Sym(m, p.e0) == p.e2
    ensures var a := SpliceLinks(m, p.e2, z.e0);
      && var a1 := SpliceLinks(a, z.e0, Oprev(a, z.e0));
      && SpliceLinks(a1, Sym(a1, z.e0), Oprev(a1, Sym(a1, z.e0))) == m
  {
    JoinEnds(m, p, z, o0, o1);
    var a := SpliceLinks(m, p.e2, z.e0);
    assert Oprev(a, z.e0) == p.e2;
    SpliceSymmetric(a, z.e0, p.e2);
    SpliceInvolution(m, p.e2, z.e0);
    assert Sym(m, z.e0) == z.e2 && Oprev(m, z.e2) == z.e2;
    SpliceSelf(m, z.e2);
  }

  /** `connect(b, a)` after `b = addEdge(a, t)` on a lone edge a closes the triangle
      a, b, c ("connects two edges"); c runs from t to a's origin. */
  lemma ConnectCloses<T>(h: Heap<T>, a: Quad, t: T, b: Quad, c: Quad)
    requires Sound(h) && Lone(h.links, a) && Separate([a, b, c])
    requires QuadOut(b, h.links.Keys)
    ensures var h1 := EdgeAdded(h, a.e0, t, b);
      && b.e0 in h1.links
      && var r := Connected(h1, b.e0, a.e0, c);
      && Ring(r.links, [a, b, c]) && Triangle(r.links, a.e0, b.e0, c.e0)
      && Org(r, c.e0) == Some(t) && Dest(r, c.e0) == Org(h, a.e0)
  {
    SeparateApart([a, b, c], 0, 1);
    SeparateApart([a, b, c], 0, 2);
    AddedThenConnected(h, a.e0, t, b, c);
    ConnectTriangle(h.links, a, b, c);
  }

  /** `addEdge` then `connect` on the heap draw the links of the bag's `addEdge` then
      `connect`. */
  lemma AddedThenConnected<T>(h: Heap<T>, a: Id, t: T, b: Quad, c: Quad)
    requires Sound(h) && a in h.links && Fresh(h, b) && Own(c)
    ensures var h1 := EdgeAdded(h, a, t, b);
      && var g1 := AddEdgeLinks(h.links, a, b.e0, b.e1, b.e2, b.e3);
      && h1.links == g1 && b.e0 in g1
      && var r := Connected(h1, b.e0, a, c);
      && r.links == ConnectLinks(g1, b.e0, a, c.e0, c.e1, c.e2, c.e3)
      && Org(r, c.e0) == Some(t) && Dest(r, c.e0) == Org(h, a)
  {
    EdgeAddedLinks(h, a, t, b);
    var h1 := EdgeAdded(h, a, t, b);
    ConnectedLinks(h1, b.e0, a, c);
  }
}
