/**
 * The steps of `addPolygon(n)` of src/quad-edge-2.ts on the bag: each `createEdge`,
 * `addEdge` and `connect` draws a quad of four ids from the counter, none of them live
 * before, and leaves the links of the matching function of module QuadEdgeBag.
 */
module QuadEdgePolygonSteps {
  import opened Wrappers
  import opened EdgeRecords
  import opened Edges
  import opened QuadLinks
  import opened QuadTables
  import opened AlphaIds
  import opened QuadEdgeBag
  import opened QuadEdgePolygons
  import opened QuadEdgeScenarios

  /** Every id of q is a key. */
  predicate QuadIn(q: Quad, keys: set<Id>) {
    q.e0 in keys && q.e1 in keys && q.e2 in keys && q.e3 in keys
  }

  /** No id of q is a key. */
  predicate QuadOut(q: Quad, keys: set<Id>) {
    q.e0 !in keys && q.e1 !in keys && q.e2 !in keys && q.e3 !in keys
  }

  /** Every id of every quad of qs is a key. */
  predicate AllIn(qs: seq<Quad>, keys: set<Id>) {
    forall i :: 0 <= i < |qs| ==> QuadIn(qs[i], keys)
  }

  /** A quad of four distinct ids, none of which any quad of a separate sequence uses,
      keeps the sequence separate when it is appended. */
  lemma SeparateSnoc(qs: seq<Quad>, q: Quad, keys: set<Id>)
    requires Separate(qs) && AllIn(qs, keys) && QuadOut(q, keys) && Own(q)
    ensures Separate(qs + [q])
  {
    var r := qs + [q];
    forall i, j | 0 <= i < j < |r| ensures Apart(r[i], r[j]) {
      if j == |qs| {
        assert QuadIn(qs[i], keys);
      } else {
        assert Apart(qs[i], qs[j]);
      }
    }
    forall i | 0 <= i < |r| ensures Own(r[i]) {
      if i < |qs| {
        assert Own(qs[i]);
      }
    }
  }

  /** Appending a quad whose ids are keys of a larger key set keeps every id a key. */
  lemma AllInSnoc(qs: seq<Quad>, q: Quad, keys: set<Id>, more: set<Id>)
    requires AllIn(qs, keys) && keys <= more && QuadIn(q, more)
    ensures AllIn(qs + [q], more)
  {
    var r := qs + [q];
    forall i | 0 <= i < |r| ensures QuadIn(r[i], more) {
      if i < |qs| {
        assert QuadIn(qs[i], keys);
      }
    }
  }

  /** The quad the counter of a good bag stands at: four distinct ids, none of them live. */
  lemma QuadAtFresh<T>(b: Bag<T>)
    requires Good(b)
    ensures Own(QuadAt(b.next)) && QuadOut(QuadAt(b.next), b.records.Keys)
  {
    var n := b.next;
    QuadIdsDistinct(n);
    assert ToAlpha(n) !in b.records && ToAlpha(n + 1) !in b.records;
    assert ToAlpha(n + 2) !in b.records && ToAlpha(n + 3) !in b.records;
  }

  /** Appending one quad after a concatenation. */
  lemma SnocAssoc(made: seq<Quad>, mids: seq<Quad>, q: Quad)
    ensures made + (mids + [q]) == (made + mids) + [q]
  {
  }

  /** Adding one more edge at the end of the fold is one more `addEdge` after it. */
  lemma {:induction false} AddEdgesSnoc(g: Links, cur: Id, qs: seq<Quad>, q: Quad)
    requires Linked(g) && cur in g
    ensures var r := AddEdgesLinks(g, cur, qs);
      AddEdgesLinks(g, cur, qs + [q]) == (AddEdgeLinks(r.0, r.1, q.e0, q.e1, q.e2, q.e3), q.e0)
    decreases |qs|
  {
    if |qs| == 0 {
      assert qs + [q] == [q];
    } else {
      var h := AddEdgeLinks(g, cur, qs[0].e0, qs[0].e1, qs[0].e2, qs[0].e3);
      assert (qs + [q])[0] == qs[0] && (qs + [q])[1..] == qs[1..] + [q];
      AddEdgesSnoc(h, qs[0].e0, qs[1..], q);
    }
  }

  /** One `addEdge` on a good bag: the links of `AddEdgeLinks` with the quad drawn at the
      counter, whose first id is returned, and every id of that quad now live. */
  lemma EdgeAddedAt<T>(b: Bag<T>, c: Id)
    requires Good(b) && c in b.records
    ensures var r, q := EdgeAdded(b, c), QuadAt(b.next);
      && LinksOf(r.0.records) == AddEdgeLinks(LinksOf(b.records), c, q.e0, q.e1, q.e2, q.e3)
      && r.1 == q.e0 && QuadIn(q, r.0.records.Keys)
  {
    var q := QuadAt(b.next);
    EdgeAddedLinks(b, c, q.e0, q.e1, q.e2, q.e3);
    EdgeAddedIds(b, c);
  }

  /** One `addEdge` extends the fold by the quad drawn at the counter. */
  lemma EdgeAddedFold<T>(b: Bag<T>, c: Id, h: Links, first: Id, mids: seq<Quad>)
    requires Good(b) && c in b.records && Linked(h) && first in h
    requires (LinksOf(b.records), c) == AddEdgesLinks(h, first, mids)
    ensures var r := EdgeAdded(b, c);
      (LinksOf(r.0.records), r.1) == AddEdgesLinks(h, first, mids + [QuadAt(b.next)])
  {
    EdgeAddedAt(b, c);
    AddEdgesSnoc(h, first, mids, QuadAt(b.next));
  }

  /** One `addEdge` keeps the quads made so far separate, with the new one appended, and
      all of their ids live. */
  lemma EdgeAddedSeparate<T>(b: Bag<T>, c: Id, all: seq<Quad>)
    requires Good(b) && c in b.records && Separate(all) && AllIn(all, b.records.Keys)
    ensures var r := EdgeAdded(b, c);
      Separate(all + [QuadAt(b.next)]) && AllIn(all + [QuadAt(b.next)], r.0.records.Keys)
  {
    var q := QuadAt(b.next);
    EdgeAddedAt(b, c);
    QuadAtFresh(b);
    SeparateSnoc(all, q, b.records.Keys);
    AllInSnoc(all, q, b.records.Keys, EdgeAdded(b, c).0.records.Keys);
  }

  /** One `addEdge` in the fold of `addPolygon`: the quad q it draws extends both the
      fold and the separate, live quads made so far. */
  lemma EdgeAddedStep<T>(b: Bag<T>, c: Id, h: Links, first: Id, mids: seq<Quad>, all: seq<Quad>)
    returns (q: Quad)
    requires Good(b) && c in b.records && Linked(h) && first in h
    requires (LinksOf(b.records), c) == AddEdgesLinks(h, first, mids)
    requires Separate(all) && AllIn(all, b.records.Keys)
    ensures var r := EdgeAdded(b, c);
      && (LinksOf(r.0.records), r.1) == AddEdgesLinks(h, first, mids + [q])
      && Separate(all + [q]) && AllIn(all + [q], r.0.records.Keys)
  {
    q := QuadAt(b.next);
    EdgeAddedFold(b, c, h, first, mids);
    EdgeAddedSeparate(b, c, all);
  }

  /** After some of the `addEdge` calls of `addPolygon` from `first` in c: b is where
      the bag has got to and `mids` the quads drawn so far; the links are those of the
      fold over them, and `made` followed by them is separate and live. */
  ghost predicate FoldedQuads<T>(g: Links, first: Id, made: seq<Quad>, mids: seq<Quad>, b: (Bag<T>, Id))
    requires Linked(g) && first in g
  {
    && (LinksOf(b.0.records), b.1) == AddEdgesLinks(g, first, mids)
    && Separate(made + mids) && AllIn(made + mids, b.0.records.Keys)
  }

  /** One `addEdge` in the fold of `addPolygon` draws a quad that extends it. */
  lemma FoldedStep<T>(g: Links, first: Id, made: seq<Quad>, mids: seq<Quad>, b: (Bag<T>, Id))
    returns (q: Quad)
    requires Linked(g) && first in g && Good(b.0) && b.1 in b.0.records
    requires FoldedQuads(g, first, made, mids, b)
    ensures FoldedQuads(g, first, made, mids + [q], EdgeAdded(b.0, b.1))
  {
    q := EdgeAddedStep(b.0, b.1, g, first, mids, made + mids);
    SnocAssoc(made, mids, q);
  }

  /** Appending one quad adds one to the length. */
  lemma SnocLength(mids: seq<Quad>, q: Quad, k: nat)
    requires 1 <= k && |mids| == k - 1
    ensures |mids + [q]| == k
  {
  }

  /** The k `addEdge` calls of `addPolygon`, from `first` in a good bag c whose quads
      `made` are separate and live: there are k quads, `mids`, such that the bag's links
      and the edge returned are those of the fold `AddEdgesLinks` over them, and `made`
      followed by them is separate and live. */
  lemma {:induction false} EdgesAddedQuads<T>(c: Bag<T>, first: Id, k: nat, made: seq<Quad>)
    returns (mids: seq<Quad>)
    requires Good(c) && first in c.records && Separate(made) && AllIn(made, c.records.Keys)
    ensures |mids| == k
    ensures FoldedQuads(LinksOf(c.records), first, made, mids, EdgesAdded(c, first, k))
    decreases k
  {
    if k == 0 {
      mids := [];
      assert made + mids == made;
    } else {
      var pre := EdgesAddedQuads(c, first, k - 1, made);
      var q := FoldedStep(LinksOf(c.records), first, made, pre, EdgesAdded(c, first, k - 1));
      mids := pre + [q];
      SnocLength(pre, q, k);
    }
  }

  /** `connect(a, first)` on a good bag draws a quad z of four distinct ids, none of
      them live before, and leaves the links of `ConnectLinks` with it. */
  lemma ConnectedAt<T>(b: Bag<T>, a: Id, first: Id) returns (z: Quad)
    requires Good(b) && a in b.records && first in b.records
    ensures LinksOf(Connected(b, a, first).0.records) == ConnectLinks(LinksOf(b.records), a, first, z.e0, z.e1, z.e2, z.e3)
    ensures Own(z) && QuadOut(z, b.records.Keys)
  {
    z := QuadAt(b.next);
    ConnectedLinks(b, a, first, z.e0, z.e1, z.e2, z.e3);
    QuadAtFresh(b);
  }

  /** The rest of `addPolygon` after its first edge, whose quad q0 is live: k quads for
      the `addEdge` calls and a last one, z, for the closing `connect`, all separate from
      q0 and from each other, and the links are the fold over the k quads closed by
      `ConnectLinks` with z. */
  lemma PolygonClosedQuads<T>(c: Bag<T>, first: Id, k: nat, q0: Quad) returns (mids: seq<Quad>, z: Quad)
    requires Good(c) && first in c.records && Own(q0) && QuadIn(q0, c.records.Keys)
    ensures |mids| == k && Separate([q0] + mids + [z])
    ensures var a := AddEdgesLinks(LinksOf(c.records), first, mids);
      LinksOf(PolygonClosed(c, first, k).records) == ConnectLinks(a.0, a.1, first, z.e0, z.e1, z.e2, z.e3)
  {
    assert Separate([q0]) && AllIn([q0], c.records.Keys);
    mids := EdgesAddedQuads(c, first, k, [q0]);
    var u := EdgesAdded(c, first, k);
    z := ConnectedAt(u.0, u.1, first);
    SeparateSnoc([q0] + mids, z, u.0.records.Keys);
  }

  /** `createEdge` on a good bag draws a quad q0 of four distinct ids, now live, adds it
      as `NewQuadLinks` does, and returns its first id. */
  lemma CreatedQuad<T>(s: Bag<T>) returns (q0: Quad)
    requires Good(s)
    ensures var r := EdgeCreated(s);
      && Good(r.0) && r.1 == q0.e0 && r.1 in r.0.records
      && Own(q0) && QuadIn(q0, r.0.records.Keys)
      && LinksOf(r.0.records) == NewQuadLinks(LinksOf(s.records), q0.e0, q0.e1, q0.e2, q0.e3)
  {
    q0 := QuadAt(s.next);
    EdgeCreatedGood(s);
    EdgeCreatedKeys(s);
    EdgeCreatedLinks(s);
    QuadIdsDistinct(s.next);
  }

  /** `PolygonLinks` over q0, the quads between and z: the new quad q0 as h, the fold
      from q0's first id over the quads between, and `ConnectLinks` with z back to it. */
  lemma PolygonLinksSplit(g: Links, q0: Quad, mids: seq<Quad>, z: Quad, h: Links, first: Id, l: Links)
    requires Linked(g) && h == NewQuadLinks(g, q0.e0, q0.e1, q0.e2, q0.e3) && Linked(h)
    requires first == q0.e0 && first in h
    requires var a := AddEdgesLinks(h, first, mids); l == ConnectLinks(a.0, a.1, first, z.e0, z.e1, z.e2, z.e3)
    ensures |[q0] + mids + [z]| >= 2 && l == PolygonLinks(g, [q0] + mids + [z])
  {
    var qs := [q0] + mids + [z];
    assert qs[0] == q0 && qs[|qs| - 1] == z && qs[1..|qs| - 1] == mids;
  }

  /** The rest of `addPolygon` after `createEdge` drew q0 on links g: t has the links of
      `PolygonLinks` over q0, the k quads of the `addEdge` calls and the quad of the
      closing `connect`, all separate. */
  lemma ClosedAfterCreated<T>(g: Links, c: Bag<T>, q0: Quad, k: nat, t: Bag<T>) returns (mids: seq<Quad>, z: Quad)
    requires Linked(g) && Good(c) && q0.e0 in c.records && Own(q0) && QuadIn(q0, c.records.Keys)
    requires LinksOf(c.records) == NewQuadLinks(g, q0.e0, q0.e1, q0.e2, q0.e3)
    requires t == PolygonClosed(c, q0.e0, k)
    ensures |mids| == k && Separate([q0] + mids + [z])
    ensures LinksOf(t.records) == PolygonLinks(g, [q0] + mids + [z])
  {
    mids, z := PolygonClosedQuads(c, q0.e0, k, q0);
    PolygonLinksSplit(g, q0, mids, z, LinksOf(c.records), q0.e0, LinksOf(t.records));
  }

  /** What `addPolygon(n)` returns, when it succeeds: the first edge `createEdge` made,
      and the bag after the k = n - 2 `addEdge` calls and the closing `connect`. */
  lemma PolygonAddedUnfold<T>(s: Bag<T>, n: int, t: Bag<T>, e: Id)
    requires Good(s) && n >= 2 && PolygonAdded(s, n) == Some((t, e))
    ensures var r := EdgeCreated(s);
      Good(r.0) && r.1 in r.0.records && t == PolygonClosed(r.0, r.1, InnerEdges(n)) && e == r.1
  {
    EdgeCreatedGood(s);
    EdgeCreatedKeys(s);
  }

  /** The first quad of qs carries the edge e. */
  predicate Leads(qs: seq<Quad>, e: Id) {
    |qs| > 0 && qs[0].e0 == e
  }

  /** The first quad, k between and the last make n. */
  lemma PolygonLength(q0: Quad, mids: seq<Quad>, z: Quad, k: nat, n: int)
    requires n >= 2 && |mids| == k && k == InnerEdges(n)
    ensures |[q0] + mids + [z]| == n && n >= 2 && |[q0] + mids + [z]| >= 2
    ensures Leads([q0] + mids + [z], q0.e0)
  {
  }
}
