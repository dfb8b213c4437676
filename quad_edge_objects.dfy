/**
 * The edge objects of src/quad-edge.ts, updated in place. `EdgeObjects` holds every edge
 * object made so far: its origin-next pointer (with the rotation its index in the quad
 * array fixes) and its data slot. Each operation of the engine is a method that rewrites
 * those two fields step by step the way the source writes its objects, composed from the
 * other methods the way the source composes its functions, and each is proved to leave
 * the state that the matching function of `QuadEdgeHeap` computes from the state before
 * it; the properties of those functions are proved beside them.
 */
module QuadEdgeObjects {
  import opened Wrappers
  import opened EdgeRecords
  import opened Edges
  import opened QuadLinks
  import opened QuadEdgeHeap
  import opened QuadEdgeHeapPolygon

  class EdgeObjects<T> {
    /** The rotation and origin-next pointer of every object made so far. */
    var links: Links
    /** The data slot of every object made so far. */
    var data: map<Id, Option<T>>

    /** The objects as a value. */
    function State(): Heap<T>
      reads this
    {
      Heap(links, data)
    }

    /** Every pointer leads to an object made so far, and every object has a slot. */
    ghost predicate Valid()
      reads this
    {
      Sound(State())
    }

    /** No object made yet. */
    constructor ()
      ensures Valid() && State() == Heap(map[], map[])
    {
      links := map[];
      data := map[];
    }

    /** `makeEdge(org, dest)` with the objects of q; returns quad[0]. */
    method MakeEdge(org: Option<T>, dest: Option<T>, q: Quad) returns (e: Id)
      requires Valid()
      modifies this
      ensures Valid() && State() == EdgeMade(old(State()), org, dest, q) && e == q.e0
    {
      NewQuadLinked(links, q.e0, q.e1, q.e2, q.e3);
      links := NewQuadLinks(links, q.e0, q.e1, q.e2, q.e3);
      data := data[q.e1 := None][q.e3 := None][q.e0 := org][q.e2 := dest];
      e := q.e0;
    }

    /** `splice(a, b)`: the four reads, then the four pointer writes in source order. */
    method Splice(a: Id, b: Id)
      requires Valid() && a in links && b in links
      modifies this
      ensures Valid() && State() == Spliced(old(State()), a, b)
    {
      ghost var g := links;
      var alpha, beta := Alpha(links, a), Alpha(links, b);
      var t1, t2, t3, t4 := Onext(links, b), Onext(links, a), Onext(links, beta), Onext(links, alpha);
      links := WithOnext(links, a, t1);
      links := WithOnext(links, b, t2);
      links := WithOnext(links, alpha, t3);
      links := WithOnext(links, beta, t4);
      assert links == SpliceLinks(g, a, b);
    }

    /** `deleteEdge(e)`: `splice(e, e.oprev)`, then `splice(e.sym, e.sym.oprev)`. */
    method DeleteEdge(e: Id)
      requires Valid() && e in links
      modifies this
      ensures Valid() && State() == QuadEdgeHeap.Deleted(old(State()), e)
    {
      Splice(e, Oprev(links, e));
      var s := Sym(links, e);
      Splice(s, Oprev(links, s));
    }

    /** `addEdge(e0, t)`: a new edge from e0's destination to t spliced at e0.sym;
        returns the new edge q.e0. */
    method AddEdge(e0: Id, t: T, q: Quad) returns (e1: Id)
      requires Valid() && e0 in links
      modifies this
      ensures Valid() && State() == EdgeAdded(old(State()), e0, t, q) && e1 == q.e0
    {
      e1 := MakeEdge(Dest(State(), e0), Some(t), q);
      Splice(Sym(links, e0), e1);
    }

    /** `connect(a, b)`: a new edge from a's destination to b's origin, spliced at
        a.lnext and at b; returns the new edge q.e0. */
    method Connect(a: Id, b: Id, q: Quad) returns (e: Id)
      requires Valid() && a in links && b in links
      modifies this
      ensures Valid() && State() == Connected(old(State()), a, b, q) && e == q.e0
    {
      e := MakeEdge(Dest(State(), a), Org(State(), b), q);
      Splice(e, Lnext(links, a));
      Splice(Sym(links, e), b);
    }

    /** `subdivision(a, b, c)`: three new edges joined into a triangle; returns e_a. */
    method Subdivision(a: T, b: T, c: T, qa: Quad, qb: Quad, qc: Quad) returns (ea: Id)
      requires Valid()
      modifies this
      ensures Valid() && State() == Subdivided(old(State()), a, b, c, qa, qb, qc) && ea == qa.e0
    {
      ea := MakeEdge(Some(a), Some(b), qa);
      var eb := MakeEdge(Some(b), Some(c), qb);
      var ec := MakeEdge(Some(c), Some(a), qc);
      Splice(Sym(links, ea), eb);
      Splice(Sym(links, eb), ec);
      Splice(Sym(links, ec), ea);
    }

    /** `polygon(ts)` as written: the first edge, `ts.slice(1).reduce(addEdge, first)`
        with the objects of qs[i] for the i-th edge, and `splice(last.sym, first)`.
        Fewer than two vertices is the thrown error, None here, with nothing made. */
    method Polygon(ts: seq<T>, qs: seq<Quad>) returns (r: Option<Id>)
      requires Valid() && |qs| == |ts|
      modifies this
      ensures Valid()
      ensures |ts| < 2 ==> r.None? && State() == old(State())
      ensures |ts| >= 2 ==>
        && PolygonAsWritten(old(State()), ts, qs).Some?
        && State() == PolygonAsWritten(old(State()), ts, qs).value.0
        && r == Some(PolygonAsWritten(old(State()), ts, qs).value.1)
    {
      if |ts| < 2 {
        return None;
      }
      var first := MakeEdge(Some(ts[0]), Some(ts[1]), qs[0]);
      ghost var m := State();
      var last := first;
      var i := 1;
      while i < |ts|
        invariant 1 <= i <= |ts| && Valid() && first in links
        invariant (State(), last) == AddedAll(m, first, ts[1..i], qs[1..i])
      {
        AddedAllSnoc(m, first, ts[1..i], qs[1..i], ts[i], qs[i]);
        SliceSnoc(ts, 1, i);
        SliceSnoc(qs, 1, i);
        last := AddEdge(last, ts[i], qs[i]);
        i := i + 1;
      }
      SliceAll(ts, 1);
      SliceAll(qs, 1);
      Splice(Sym(links, last), first);
      r := Some(first);
    }

    /** `polygon(ts)` as corrected: the first edge, the fold of `addEdge` over
        `ts.slice(2)` with the objects of qs[1..n - 2], and `connect(last, first)` with
        the objects of qs[n - 1]. */
    method PolygonCorrected(ts: seq<T>, qs: seq<Quad>) returns (r: Option<Id>)
      requires Valid() && |qs| == |ts|
      modifies this
      ensures Valid()
      ensures |ts| < 2 ==> r.None? && State() == old(State())
      ensures |ts| >= 2 ==>
        && PolygonMade(old(State()), ts, qs).Some?
        && State() == PolygonMade(old(State()), ts, qs).value.0
        && r == Some(PolygonMade(old(State()), ts, qs).value.1)
    {
      if |ts| < 2 {
        return None;
      }
      var n := |ts|;
      var first := MakeEdge(Some(ts[0]), Some(ts[1]), qs[0]);
      ghost var m := State();
      var last := first;
      var i := 2;
      while i < n
        invariant 2 <= i <= n && Valid() && first in links
        invariant (State(), last) == AddedAll(m, first, ts[2..i], qs[1..i - 1])
      {
        AddedAllSnoc(m, first, ts[2..i], qs[1..i - 1], ts[i], qs[i - 1]);
        SliceSnoc(ts, 2, i);
        SliceSnoc(qs, 1, i - 1);
        last := AddEdge(last, ts[i], qs[i - 1]);
        i := i + 1;
      }
      SliceAll(ts, 2);
      var e := Connect(last, first, qs[n - 1]);
      r := Some(first);
    }
  }

  /** One more step of the fold: `addEdge` of u with the objects of p after the fold
      over us. */
  lemma AddedAllSnoc<T>(h: Heap<T>, cur: Id, us: seq<T>, ps: seq<Quad>, u: T, p: Quad)
    requires Sound(h) && cur in h.links && |us| == |ps|
    ensures AddedAll(h, cur, us + [u], ps + [p]) == (EdgeAdded(AddedAll(h, cur, us, ps).0,
      AddedAll(h, cur, us, ps).1, u, p), p.e0)
  {
    assert (us + [u])[..|us|] == us && (ps + [p])[..|ps|] == ps;
  }

  /** A slice one element longer is the slice with that element appended. */
  lemma SliceSnoc<X>(s: seq<X>, lo: nat, i: nat)
    requires lo <= i < |s|
    ensures s[lo..i + 1] == s[lo..i] + [s[i]]
  {
  }

  /** The slice up to the end is the suffix. */
  lemma SliceAll<X>(s: seq<X>, lo: nat)
    requires lo <= |s|
    ensures s[lo..] == s[lo..|s|]
  {
  }
}
