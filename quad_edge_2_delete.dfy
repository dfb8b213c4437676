/**
 * `deleteEdge` of src/quad-edge-2.ts: what its guard decides, which ids it removes from
 * the insertion order, the outcomes of the bag's deletion tests, and the configuration
 * its guard as written misses.
 */
module QuadEdgeDeletion {
  import opened EdgeRecords
  import opened Edges
  import opened QuadLinks
  import opened QuadTables
  import opened QuadEdgePolygons
  import opened QuadEdgeScenarios
  import opened QuadEdgeBag
  import opened AlphaIds

  /** The four ids of q. */
  function Ids(q: Quad): set<Id> {
    {q.e0, q.e1, q.e2, q.e3}
  }

  /** s with every id of q removed, the other ids in their original order. */
  function Except(s: seq<Id>, q: set<Id>): (r: seq<Id>)
    ensures forall y :: y in r <==> y in s && y !in q
    ensures |r| <= |s|
  {
    if |s| == 0 then []
    else
      var p, last := s[..|s| - 1], s[|s| - 1];
      assert s == p + [last];
      if last in q then Except(p, q) else Except(p, q) + [last]
  }

  /** Removing one id is removing the set holding just that id. */
  lemma {:induction false} WithoutIsExcept(s: seq<Id>, x: Id)
    ensures Without(s, x) == Except(s, {x})
  {
    if |s| > 0 {
      WithoutIsExcept(s[..|s| - 1], x);
    }
  }

  /** Removing p and then q is removing p + q. */
  lemma {:induction false} ExceptExcept(s: seq<Id>, p: set<Id>, q: set<Id>)
    ensures Except(Except(s, p), q) == Except(s, p + q)
  {
    if |s| > 0 {
      var init, last := s[..|s| - 1], s[|s| - 1];
      ExceptExcept(init, p, q);
      if last !in p {
        var x := Except(init, p);
        assert (x + [last])[..|x + [last]| - 1] == x;
      }
    }
  }

  /** Removal from a sequence with one more id at its end. */
  lemma ExceptSnoc(p: seq<Id>, x: Id, q: set<Id>)
    ensures Except(p + [x], q) == if x in q then Except(p, q) else Except(p, q) + [x]
  {
    var s := p + [x];
    assert s[..|s| - 1] == p && s[|s| - 1] == x;
  }

  /** Appending after a concatenation is appending to its second part. */
  lemma ConcatSnoc(x: seq<Id>, y: seq<Id>, z: Id)
    ensures x + (y + [z]) == (x + y) + [z]
  {
  }

  /** Removal distributes over concatenation. */
  lemma {:induction false} ExceptConcat(s: seq<Id>, t: seq<Id>, q: set<Id>)
    ensures Except(s + t, q) == Except(s, q) + Except(t, q)
  {
    if |t| == 0 {
      assert s + t == s;
    } else {
      var init, last := t[..|t| - 1], t[|t| - 1];
      assert t == init + [last];
      assert s + t == (s + init) + [last];
      ExceptConcat(s, init, q);
      ExceptSnoc(s + init, last, q);
      ExceptSnoc(init, last, q);
      ConcatSnoc(Except(s, q), Except(init, q), last);
    }
  }

  /** Removing ids that do not occur changes nothing. */
  lemma {:induction false} ExceptNone(s: seq<Id>, q: set<Id>)
    requires forall y :: y in s ==> y !in q
    ensures Except(s, q) == s
  {
    if |s| > 0 {
      var init := s[..|s| - 1];
      ExceptNone(init, q);
      assert s == init + [s[|s| - 1]];
    }
  }

  /** Removing every id that occurs leaves nothing. */
  lemma ExceptAll(s: seq<Id>, q: set<Id>)
    requires forall y :: y in s ==> y in q
    ensures Except(s, q) == []
  {
  }

  /** Removing one more id from what is left after removing p. */
  lemma WithoutExcept(o: seq<Id>, p: set<Id>, x: Id)
    ensures Without(Except(o, p), x) == Except(o, p + {x})
  {
    WithoutIsExcept(Except(o, p), x);
    ExceptExcept(o, p, {x});
  }

  /** The four `deleteEdgeRecord` calls take the quad's ids out of the order one by one,
      which is removing the four at once. */
  lemma WithoutFour(o: seq<Id>, e0: Id, e1: Id, e2: Id, e3: Id)
    ensures Without(Without(Without(Without(o, e0), e1), e2), e3) == Except(o, {e0, e1, e2, e3})
  {
    WithoutIsExcept(o, e0);
    WithoutExcept(o, {e0}, e1);
    WithoutExcept(o, {e0} + {e1}, e2);
    WithoutExcept(o, {e0} + {e1} + {e2}, e3);
    assert {e0} + {e1} + {e2} + {e3} == {e0, e1, e2, e3};
  }

  /** Removing ids appended to an order that does not hold them gives the order back. */
  lemma ExceptAppended(o: seq<Id>, e0: Id, e1: Id, e2: Id, e3: Id)
    requires e0 !in o && e1 !in o && e2 !in o && e3 !in o
    ensures Except(o + [e0, e1, e2, e3], {e0, e1, e2, e3}) == o
  {
    var q := {e0, e1, e2, e3};
    ExceptConcat(o, [e0, e1, e2, e3], q);
    ExceptNone(o, q);
    ExceptAll([e0, e1, e2, e3], q);
  }

  /** `deleteEdge(e)` takes the four ids of e's quad, as it stands after the guard, out of
      the insertion order and keeps every other id in its place, so `edges` lists the
      remaining records in the order they were created. */
  lemma EdgeDeletedOrder<T>(s: Bag<T>, e: Id, guard: Guard)
    requires Good(s) && e in s.records
    ensures EdgeDeleted(s, e, guard).0.order == Except(s.order, QuadOf(GuardedLinks(LinksOf(s.records), e, guard), e))
  {
    var t := Guarded(s, e, guard);
    var g := LinksOf(t.records);
    WithoutFour(t.order, e, Rot(g, e), Sym(g, e), InvRot(g, e));
  }

  /** The quad of q's first edge is q's four ids. */
  lemma RotsQuadOf(g: Links, q: Quad)
    requires Rots(g, q)
    ensures QuadOf(g, q.e0) == Ids(q)
  {
    assert Rot(g, q.e0) == q.e1 && Sym(g, q.e0) == q.e2 && InvRot(g, q.e0) == q.e3;
  }

  /** Both guards stay quiet on a lone edge. */
  lemma IsolatedQuiet(g: Links, e: Id)
    requires IsolatedQuad(g, e)
    ensures !NeedsIsolating(g, e) && !GuardAsWritten(g, e)
  {
  }

  /** A quad whose rotations cycle through four distinct ids is lone exactly when the
      corrected guard stays quiet on its first edge. */
  lemma QuietIffLone(g: Links, q: Quad)
    requires Rots(g, q) && Own(q)
    ensures !NeedsIsolating(g, q.e0) <==> Lone(g, q)
  {
    assert Rot(g, q.e0) == q.e1 && Sym(g, q.e0) == q.e2 && InvRot(g, q.e0) == q.e3;
  }

  /** No two records share an origin-next edge or a rotation, as when origin-next and
      rotation are the permutations of an edge algebra. */
  ghost predicate Injective(g: Links) {
    && (forall j, k :: j in g && k in g && j != k ==> g[j].onextId != g[k].onextId)
    && (forall j, k :: j in g && k in g && j != k ==> g[j].rotId != g[k].rotId)
  }

  /** Where no two records share an origin-next edge or a rotation, nothing outside a lone
      edge links into it: each of its ids is already the rotation and the origin-next
      edge of one of its own records. */
  lemma LoneDetached(g: Links, q: Quad)
    requires Lone(g, q) && Own(q) && Injective(g)
    ensures Detached(g, Ids(q))
  {
    forall k | k in g && k !in Ids(q)
      ensures g[k].rotId !in Ids(q) && g[k].onextId !in Ids(q)
    {
      assert k != q.e0 && k != q.e1 && k != q.e2 && k != q.e3;
    }
  }

  /** Deleting a lone edge: neither guard fires, exactly its quad is removed, and the
      links left lead to live records when nothing else links into the quad. */
  lemma DeleteLone(g: Links, q: Quad, guard: Guard)
    requires Lone(g, q) && Own(q)
    ensures !GuardAsWritten(g, q.e0) && !NeedsIsolating(g, q.e0)
    ensures DeletedLinks(g, q.e0, guard) == g - Ids(q)
    ensures Linked(DeletedLinks(g, q.e0, guard)) <==> Detached(g, Ids(q))
  {
    LoneIsolated(g, q);
    DroppedLinked(g, Ids(q));
  }

  /** Storing a quad of new ids and removing it again gives back the store and the
      insertion order. */
  lemma QuadStoredRemoved<T>(s: Bag<T>, e0: Id, e1: Id, e2: Id, e3: Id)
    requires WellStored(s.records, s.order) && Distinct4(e0, e1, e2, e3)
    requires e0 !in s.records && e1 !in s.records && e2 !in s.records && e3 !in s.records
    ensures QuadRemoved(QuadStored(s, e0, e1, e2, e3), e0, e1, e2, e3) == s
  {
    var t := QuadStored(s, e0, e1, e2, e3);
    QuadStoredRemovedRecords(s, e0, e1, e2, e3);
    QuadStoredOrder(s, e0, e1, e2, e3);
    WithoutFour(t.order, e0, e1, e2, e3);
    ExceptAppended(s.order, e0, e1, e2, e3);
  }

  /** Removing the records of a stored quad of new ids gives back the records. */
  lemma QuadStoredRemovedRecords<T>(s: Bag<T>, e0: Id, e1: Id, e2: Id, e3: Id)
    requires e0 !in s.records && e1 !in s.records && e2 !in s.records && e3 !in s.records
    ensures QuadRemoved(QuadStored(s, e0, e1, e2, e3), e0, e1, e2, e3).records == s.records
  {
    var t := QuadStored(s, e0, e1, e2, e3);
    QuadStoredRecords(s, e0, e1, e2, e3);
    var r := QuadRemoved(t, e0, e1, e2, e3).records;
    assert r.Keys == s.records.Keys;
    assert forall k | k in r :: r[k] == s.records[k];
    SameRecords(r, s.records);
  }

  /** Two stores with the same keys and the same record under each key are equal. */
  lemma SameRecords<T>(m: Records<T>, m': Records<T>)
    requires m.Keys == m'.Keys && forall k | k in m :: m[k] == m'[k]
    ensures m == m'
  {
  }

  /** `createEdge` followed by `deleteEdge` on the edge it returns gives back the records
      and the insertion order; only the counter has moved on. Neither guard fires. */
  lemma EdgeCreatedDeleted<T>(s: Bag<T>, guard: Guard)
    requires Good(s)
    ensures Good(EdgeCreated(s).0) && EdgeCreated(s).1 in EdgeCreated(s).0.records
    ensures EdgeDeleted(EdgeCreated(s).0, EdgeCreated(s).1, guard).0 == Bag(s.records, s.order, s.next + 4)
  {
    var n := s.next;
    var t := EdgeCreated(s).0;
    EdgeCreatedGood(s);
    QuadIdsFresh(s);
    IsolatedQuiet(LinksOf(t.records), ToAlpha(n));
    QuadStoredAdded(s, ToAlpha(n), ToAlpha(n + 1), ToAlpha(n + 2), ToAlpha(n + 3));
  }

  /** `QuadStoredRemoved` for the bag with its counter moved on by four. */
  lemma QuadStoredAdded<T>(s: Bag<T>, e0: Id, e1: Id, e2: Id, e3: Id)
    requires Good(s) && Distinct4(e0, e1, e2, e3)
    requires e0 !in s.records && e1 !in s.records && e2 !in s.records && e3 !in s.records
    ensures var s0 := Bag(s.records, s.order, s.next + 4);
      QuadRemoved(QuadStored(s0, e0, e1, e2, e3), e0, e1, e2, e3) == s0
  {
    QuadStoredRemoved(Bag(s.records, s.order, s.next + 4), e0, e1, e2, e3);
  }

  /** "deletes an edge" and "has no edges when the only one is removed": an edge created
      in a new bag and deleted leaves no records and an empty listing. */
  lemma DeletesAnEdge<T>(guard: Guard)
    ensures Good(EdgeCreated(EmptyBag<T>()).0)
    ensures EdgeCreated(EmptyBag<T>()).1 in EdgeCreated(EmptyBag<T>()).0.records
    ensures var c := EdgeCreated(EmptyBag<T>());
      var r := EdgeDeleted(c.0, c.1, guard).0;
      r.records == map[] && r.order == [] && Good(r)
  {
    EmptyBagGood<T>();
    EdgeCreatedDeleted(EmptyBag<T>(), guard);
    var m: Records<T> := map[];
    assert LinksOf(m) == map[];
    assert forall k :: LinkedAt(LinksOf(m), k);
  }

  /** The first splice of `deleteEdge(q)` on a loop of two edges p and q:
      `splice(q, q.oprev)` with q.oprev = p.sym takes q out of p.sym's origin ring. */
  lemma LoopFirstSplice(g: Links, p: Quad, q: Quad)
    requires Onexts(g, p, q.e2, q.e1, q.e0, q.e3) && Onexts(g, q, p.e2, p.e1, p.e0, p.e3)
    requires Own(p) && Own(q) && Apart(p, q)
    ensures Oprev(g, q.e0) == p.e2
    ensures var r := SpliceLinks(g, q.e0, p.e2);
      Onexts(r, p, q.e2, q.e1, p.e2, p.e1) && Onexts(r, q, q.e0, q.e3, p.e0, p.e3)
  {
    assert Alpha(g, q.e0) == p.e3 && Alpha(g, p.e2) == q.e1;
    SpliceEntries(g, q.e0, p.e2);
  }

  /** The second splice of `deleteEdge(q)` on that loop: `splice(q.sym, q.sym.oprev)`
      with q.sym.oprev = p takes q.sym out of p's origin ring, and both edges are lone. */
  lemma LoopSecondSplice(g: Links, p: Quad, q: Quad)
    requires Onexts(g, p, q.e2, q.e1, p.e2, p.e1) && Onexts(g, q, q.e0, q.e3, p.e0, p.e3)
    requires Own(p) && Own(q) && Apart(p, q)
    ensures Sym(g, q.e0) == q.e2 && Oprev(g, q.e2) == p.e0
    ensures var r := SpliceLinks(g, q.e2, p.e0);
      Lone(r, p) && Lone(r, q)
  {
    assert Alpha(g, q.e2) == p.e1 && Alpha(g, p.e0) == q.e3;
    SpliceEntries(g, q.e2, p.e0);
  }

  /** "makes two isolated edges from a loop": on a ring of two edges p and q both guards
      fire on q, and the guard's two splices leave p and q lone edges. */
  lemma LoopIsolated(g: Links, p: Quad, q: Quad)
    requires Ring(g, [p, q]) && Separate([p, q])
    ensures q.e0 in g && GuardAsWritten(g, q.e0) && NeedsIsolating(g, q.e0)
    ensures Lone(IsolatedLinks(g, q.e0), p) && Lone(IsolatedLinks(g, q.e0), q)
  {
    assert RingAt(g, [p, q], 0) && RingAt(g, [p, q], 1);
    SeparateApart([p, q], 0, 1);
    SeparateApart([p, q], 1, 0);
    LoopFirstSplice(g, p, q);
    LoopSecondSplice(SpliceLinks(g, q.e0, p.e2), p, q);
  }

  /** Where the guard as written fires, the corrected one fires too. */
  lemma BothFire(g: Links, e: Id, guard: Guard)
    requires Linked(g) && e in g && GuardAsWritten(g, e)
    ensures Fires(guard, g, e) && GuardedLinks(g, e, guard) == IsolatedLinks(g, e)
  {
    if guard.AsWritten? {
      assert Fires(guard, g, e);
    } else {
      assert NeedsIsolating(g, e);
    }
  }

  /** `deleteEdge(q)` on a ring of two edges, with either guard, on the links: after the
      guard, q's quad is its four ids, so exactly those go. */
  lemma LoopDeletedLinks(g: Links, p: Quad, q: Quad, guard: Guard)
    requires Ring(g, [p, q]) && Separate([p, q])
    ensures q.e0 in g && Apart(p, q)
    ensures QuadOf(GuardedLinks(g, q.e0, guard), q.e0) == Ids(q)
  {
    LoopGuarded(g, p, q, guard);
    RotsQuadOf(GuardedLinks(g, q.e0, guard), q);
    SeparateApart([p, q], 0, 1);
  }

  /** After `deleteEdge(q)` on a ring of two edges, p is a lone edge whenever nothing
      outside q linked into q after the guard. */
  lemma LoopRemoved(g: Links, p: Quad, q: Quad, guard: Guard)
    requires Ring(g, [p, q]) && Separate([p, q])
    ensures q.e0 in g
    ensures var h := GuardedLinks(g, q.e0, guard);
      Detached(h, QuadOf(h, q.e0)) ==> Lone(DeletedLinks(g, q.e0, guard), p)
  {
    LoopGuarded(g, p, q, guard);
    LoopDeletedLinks(g, p, q, guard);
    var h := GuardedLinks(g, q.e0, guard);
    if Detached(h, QuadOf(h, q.e0)) {
      LoneKept(h, p, q);
    }
  }

  /** On a ring of two edges p and q, either guard fires on q and leaves p and q lone. */
  lemma LoopGuarded(g: Links, p: Quad, q: Quad, guard: Guard)
    requires Ring(g, [p, q]) && Separate([p, q])
    ensures q.e0 in g && Fires(guard, g, q.e0)
    ensures Lone(GuardedLinks(g, q.e0, guard), p) && Lone(GuardedLinks(g, q.e0, guard), q)
  {
    LoopIsolated(g, p, q);
    BothFire(g, q.e0, guard);
  }

  /** The bag's view of `LoopIsolated`: `deleteEdge(q)` on a ring of two edges, with
      either guard, isolates p and q, removes exactly q's four records and keeps the
      order of the rest; when the bag stays good (`EdgeDeletedGood` says when), p is a
      lone edge in it. */
  lemma LoopDeleted<T>(s: Bag<T>, p: Quad, q: Quad, guard: Guard)
    requires Good(s) && Ring(LinksOf(s.records), [p, q]) && Separate([p, q])
    ensures q.e0 in s.records && q.e0 in LinksOf(s.records)
    ensures Lone(GuardedLinks(LinksOf(s.records), q.e0, guard), p)
    ensures Lone(GuardedLinks(LinksOf(s.records), q.e0, guard), q)
    ensures QuadOf(GuardedLinks(LinksOf(s.records), q.e0, guard), q.e0) == Ids(q)
    ensures EdgeDeleted(s, q.e0, guard).0.records.Keys
      == s.records.Keys - QuadOf(GuardedLinks(LinksOf(s.records), q.e0, guard), q.e0)
    ensures EdgeDeleted(s, q.e0, guard).0.order
      == Except(s.order, QuadOf(GuardedLinks(LinksOf(s.records), q.e0, guard), q.e0))
    ensures Good(EdgeDeleted(s, q.e0, guard).0) ==> Lone(LinksOf(EdgeDeleted(s, q.e0, guard).0.records), p)
  {
    var g := LinksOf(s.records);
    LoopGuarded(g, p, q, guard);
    LoopDeletedLinks(g, p, q, guard);
    EdgeDeletedSound(s, q.e0, guard);
    EdgeDeletedOrder(s, q.e0, guard);
    EdgeDeletedGood(s, q.e0, guard);
    EdgeDeletedLinks(s, q.e0, guard);
    LoopRemoved(g, p, q, guard);
  }

  /** `splice(a, b)` on two lone edges, then `deleteEdge(b)`: both guards fire, the two
      splices of the guard undo the first splice, and removing b's quad leaves the links
      as they were without it ("splices an edge from an origin orbit and deletes it"). */
  lemma DeleteSplicedPartner(g: Links, a: Quad, b: Quad, guard: Guard)
    requires Lone(g, a) && Lone(g, b) && Own(a) && Own(b) && Apart(a, b)
    ensures var h := SpliceLinks(g, a.e0, b.e0);
      && GuardAsWritten(h, b.e0) && NeedsIsolating(h, b.e0)
      && GuardedLinks(h, b.e0, guard) == g
      && DeletedLinks(h, b.e0, guard) == g - Ids(b)
  {
    SpliceLoneEdges(g, a, b);
    SplicedPartnerIsolated(g, a, b);
    RotsQuadOf(g, b);
  }

  /** The guard's two splices on b after `splice(a, b)`: the first is `splice(b, a)`,
      which undoes `splice(a, b)`, and the second splices b.sym with itself. */
  lemma SplicedPartnerIsolated(g: Links, a: Quad, b: Quad)
    requires Lone(g, a) && Lone(g, b) && Own(a) && Own(b) && Apart(a, b)
    ensures IsolatedLinks(SpliceLinks(g, a.e0, b.e0), b.e0) == g
  {
    var h := SpliceLinks(g, a.e0, b.e0);
    SpliceLoneEdges(g, a, b);
    assert Oprev(h, b.e0) == a.e0;
    SpliceSymmetric(h, b.e0, a.e0);
    SpliceInvolution(g, a.e0, b.e0);
    assert Sym(g, b.e0) == b.e2 && Oprev(g, b.e2) == b.e2;
    SpliceSelf(g, b.e2);
  }

  /** A lone edge that nothing outside its quad links into survives the removal of another
      quad, still lone. */
  lemma LoneKept(g: Links, a: Quad, b: Quad)
    requires Lone(g, a) && Apart(a, b) && Detached(g, Ids(b))
    ensures Linked(g - Ids(b)) && Lone(g - Ids(b), a)
  {
    DroppedLinked(g, Ids(b));
  }

  /** The bag's view of `DeleteSplicedPartner`: the bag stays good, a is a lone edge again,
      and the listing loses b's four ids and keeps the rest in order. */
  lemma SplicedPartnerDeleted<T>(s: Bag<T>, a: Quad, b: Quad, guard: Guard)
    requires Good(s)
    requires Lone(LinksOf(s.records), a) && Lone(LinksOf(s.records), b)
    requires Own(a) && Own(b) && Apart(a, b)
    requires Detached(LinksOf(s.records), Ids(b))
    ensures Good(SplicedBag(s, a.e0, b.e0)) && b.e0 in SplicedBag(s, a.e0, b.e0).records
    ensures var r := EdgeDeleted(SplicedBag(s, a.e0, b.e0), b.e0, guard).0;
      && Good(r)
      && LinksOf(r.records) == LinksOf(s.records) - Ids(b)
      && Lone(LinksOf(r.records), a)
      && r.order == Except(s.order, Ids(b))
  {
    var g := LinksOf(s.records);
    var t := SplicedBag(s, a.e0, b.e0);
    DeleteSplicedPartner(g, a, b, guard);
    EdgeDeletedLinks(t, b.e0, guard);
    EdgeDeletedOrder(t, b.e0, guard);
    EdgeDeletedSound(t, b.e0, guard);
    LoneKept(g, a, b);
    RotsQuadOf(g, b);
  }

  /** An edge created in a bag without records is a lone edge with ids of its own, and
      its ids are all the bag lists. */
  lemma FirstCreated<T>(s: Bag<T>)
    requires Good(s) && s.records == map[]
    ensures var c := EdgeCreated(s);
      && Good(c.0) && c.1 == QuadAt(s.next).e0 && c.0.next == s.next + 4
      && Own(QuadAt(s.next)) && Lone(LinksOf(c.0.records), QuadAt(s.next))
      && c.0.order == [QuadAt(s.next).e0, QuadAt(s.next).e1, QuadAt(s.next).e2, QuadAt(s.next).e3]
  {
    EmptyOrder(s);
    EdgeCreatedGood(s);
    QuadIdsDistinct(s.next);
    var c := EdgeCreated(s);
    var a := QuadAt(s.next);
    IsolatedLone(LinksOf(c.0.records), a);
  }

  /** A lone edge given by its rotations is lone in the table sense. */
  lemma IsolatedLone(g: Links, a: Quad)
    requires IsolatedQuad(g, a.e0)
    requires Rot(g, a.e0) == a.e1 && Sym(g, a.e0) == a.e2 && InvRot(g, a.e0) == a.e3
    ensures Lone(g, a) && Own(a)
  {
  }

  /** A second edge created after a lone edge a that is all the bag holds: both are lone,
      own their ids and share none, and they are all the bag holds. */
  lemma SecondCreated<T>(s: Bag<T>, a: Quad)
    requires Good(s) && Own(a) && Lone(LinksOf(s.records), a)
    requires s.order == [a.e0, a.e1, a.e2, a.e3]
    ensures var c := EdgeCreated(s);
      var b := QuadAt(s.next);
      && Good(c.0) && c.1 == b.e0 && Own(b) && Apart(a, b)
      && Lone(LinksOf(c.0.records), a) && Lone(LinksOf(c.0.records), b)
      && c.0.order == [a.e0, a.e1, a.e2, a.e3] + [b.e0, b.e1, b.e2, b.e3]
      && c.0.records.Keys == Ids(a) + Ids(b)
  {
    var c := EdgeCreated(s);
    EdgeCreatedGood(s);
    QuadIdsFresh(s);
    EdgeCreatedLinks(s);
    CreatedPair(s, c.0, a, QuadAt(s.next));
  }

  /** Two edges created one after the other in a bag without records are lone, own
      their ids, share none, and are all the bag holds. */
  lemma TwoCreated<T>(s: Bag<T>)
    requires Good(s) && s.records == map[]
    ensures var c1 := EdgeCreated(s);
      var c2 := EdgeCreated(c1.0);
      var a, b := QuadAt(s.next), QuadAt(s.next + 4);
      && c1.1 == a.e0 && c2.1 == b.e0
      && Good(c2.0) && Own(a) && Own(b) && Apart(a, b)
      && Lone(LinksOf(c2.0.records), a) && Lone(LinksOf(c2.0.records), b)
      && c2.0.order == [a.e0, a.e1, a.e2, a.e3] + [b.e0, b.e1, b.e2, b.e3]
      && c2.0.records.Keys == Ids(a) + Ids(b)
  {
    var c1 := EdgeCreated(s);
    FirstCreated(s);
    SecondCreated(c1.0, QuadAt(s.next));
  }

  /** A good bag without records lists no ids. */
  lemma EmptyOrder<T>(s: Bag<T>)
    requires Good(s) && s.records == map[]
    ensures s.order == []
  {
    ExceptAll(s.order, {});
    ExceptNone(s.order, {});
  }

  /** The tables of two created edges, on ids that stay abstract. */
  lemma CreatedPair<T>(s1: Bag<T>, s2: Bag<T>, a: Quad, b: Quad)
    requires Good(s1) && Own(a) && Own(b) && Lone(LinksOf(s1.records), a)
    requires s1.order == [a.e0, a.e1, a.e2, a.e3]
    requires b.e0 !in s1.records && b.e1 !in s1.records && b.e2 !in s1.records && b.e3 !in s1.records
    requires LinksOf(s2.records) == NewQuadLinks(LinksOf(s1.records), b.e0, b.e1, b.e2, b.e3)
    requires Good(s2) && s2.order == s1.order + [b.e0, b.e1, b.e2, b.e3]
    ensures Apart(a, b) && Lone(LinksOf(s2.records), a) && Lone(LinksOf(s2.records), b)
    ensures s2.records.Keys == Ids(a) + Ids(b)
  {
    var g := LinksOf(s1.records);
    assert a.e0 in s1.order && a.e1 in s1.order && a.e2 in s1.order && a.e3 in s1.order;
    NewQuadLone(g, b);
    assert forall k :: k in s2.records <==> k in s2.order;
  }

  /** Nothing outside b links into b when the store holds just two lone edges a and b. */
  lemma PairDetached(g: Links, a: Quad, b: Quad)
    requires Lone(g, a) && Lone(g, b) && Apart(a, b) && g.Keys == Ids(a) + Ids(b)
    ensures Detached(g, Ids(b))
  {
  }

  /** "has an edge when an edge is removed from a splice" and "splices an edge from an
      origin orbit and deletes it": in a bag without records, create a and b, splice
      them, delete b; the bag stays good, a is a lone edge again, and `edges` lists a,
      a.rot, a.sym and a.invrot. */
  lemma SplicedPairDeleted<T>(s: Bag<T>, guard: Guard)
    requires Good(s) && s.records == map[]
    ensures var c1 := EdgeCreated(s);
      var c2 := EdgeCreated(c1.0);
      && Good(c2.0) && c1.1 in c2.0.records && c2.1 in c2.0.records
      && Good(SplicedBag(c2.0, c1.1, c2.1)) && c2.1 in SplicedBag(c2.0, c1.1, c2.1).records
      && var r := EdgeDeleted(SplicedBag(c2.0, c1.1, c2.1), c2.1, guard).0;
      && Good(r)
      && IsolatedQuad(LinksOf(r.records), c1.1)
      && var g := LinksOf(r.records);
      && r.order == [c1.1, Rot(g, c1.1), Sym(g, c1.1), InvRot(g, c1.1)]
  {
    var c1 := EdgeCreated(s);
    var c2 := EdgeCreated(c1.0);
    TwoCreated(s);
    PairDeleted(c2.0, QuadAt(s.next), QuadAt(s.next + 4), guard);
  }

  /** `SplicedPartnerDeleted` on a store of just the two edges. */
  lemma PairDeleted<T>(s: Bag<T>, a: Quad, b: Quad, guard: Guard)
    requires Good(s) && Own(a) && Own(b) && Apart(a, b)
    requires Lone(LinksOf(s.records), a) && Lone(LinksOf(s.records), b)
    requires s.records.Keys == Ids(a) + Ids(b)
    requires s.order == [a.e0, a.e1, a.e2, a.e3] + [b.e0, b.e1, b.e2, b.e3]
    ensures a.e0 in s.records && Good(SplicedBag(s, a.e0, b.e0)) && b.e0 in SplicedBag(s, a.e0, b.e0).records
    ensures var r := EdgeDeleted(SplicedBag(s, a.e0, b.e0), b.e0, guard).0;
      && Good(r)
      && IsolatedQuad(LinksOf(r.records), a.e0)
      && var g := LinksOf(r.records);
      && r.order == [a.e0, Rot(g, a.e0), Sym(g, a.e0), InvRot(g, a.e0)]
  {
    var g := LinksOf(s.records);
    PairDetached(g, a, b);
    SplicedPartnerDeleted(s, a, b, guard);
    var r := EdgeDeleted(SplicedBag(s, a.e0, b.e0), b.e0, guard).0;
    LoneIsolated(LinksOf(r.records), a);
    ExceptSecond(a, b);
  }

  /** Removing b's ids from the listing of a and then b leaves the listing of a. */
  lemma ExceptSecond(a: Quad, b: Quad)
    requires Apart(a, b)
    ensures Except([a.e0, a.e1, a.e2, a.e3] + [b.e0, b.e1, b.e2, b.e3], Ids(b)) == [a.e0, a.e1, a.e2, a.e3]
  {
    var pa, pb := [a.e0, a.e1, a.e2, a.e3], [b.e0, b.e1, b.e2, b.e3];
    ExceptConcat(pa, pb, Ids(b));
    ExceptNone(pa, Ids(b));
    ExceptAll(pb, Ids(b));
    assert pa + [] == pa;
  }

  /** `concat(a, b)` on two lone edges, then `deleteEdge(a)` as written: a and a.rot still
      have the links of a lone edge, so the guard stays quiet and a's quad is dropped as
      it stands, leaving b's origin-next link pointing at the dropped a.sym. */
  lemma ConcatThenDeleteAsWritten(g: Links, a: Quad, b: Quad)
    requires Lone(g, a) && Lone(g, b) && Own(a) && Own(b) && Apart(a, b)
    ensures var h := ConcatLinks(g, a.e0, b.e0);
      && !GuardAsWritten(h, a.e0) && NeedsIsolating(h, a.e0)
      && var r := DeletedLinks(h, a.e0, AsWritten);
      && b.e0 in r && r[b.e0].onextId == a.e2 && a.e2 !in r
      && !Linked(r)
  {
    ConcatLoneEdges(g, a, b);
    var h := ConcatLinks(g, a.e0, b.e0);
    RotsQuadOf(h, a);
    var r := DeletedLinks(h, a.e0, AsWritten);
    assert !LinkedAt(r, b.e0);
  }

  /** The bag's view of `ConcatThenDeleteAsWritten`: after `concat(a, b)`, the source's
      `deleteEdge(a)` leaves a bag that is no longer good, because b's origin-next link
      leads to a.sym, whose record is gone. */
  lemma ConcatPartnerDeletedAsWritten<T>(s: Bag<T>, a: Quad, b: Quad)
    requires Good(s)
    requires Lone(LinksOf(s.records), a) && Lone(LinksOf(s.records), b)
    requires Own(a) && Own(b) && Apart(a, b)
    ensures Good(Concatenated(s, a.e0, b.e0)) && a.e0 in Concatenated(s, a.e0, b.e0).records
    ensures var r := EdgeDeleted(Concatenated(s, a.e0, b.e0), a.e0, AsWritten).0;
      && !Good(r)
      && b.e0 in LinksOf(r.records) && LinksOf(r.records)[b.e0].onextId == a.e2
      && a.e2 !in r.records
  {
    var g := LinksOf(s.records);
    var t := Concatenated(s, a.e0, b.e0);
    ConcatThenDeleteAsWritten(g, a, b);
    EdgeDeletedLinks(t, a.e0, AsWritten);
  }

  /** In a bag without records, create a and b, concatenate them and delete a with the
      source's guard: the bag is left with a dangling origin-next link. */
  lemma ConcatPairDeletedAsWritten<T>(s: Bag<T>)
    requires Good(s) && s.records == map[]
    ensures var c1 := EdgeCreated(s);
      var c2 := EdgeCreated(c1.0);
      && Good(c2.0) && c1.1 in c2.0.records && c2.1 in c2.0.records
      && Good(Concatenated(c2.0, c1.1, c2.1)) && c1.1 in Concatenated(c2.0, c1.1, c2.1).records
      && var r := EdgeDeleted(Concatenated(c2.0, c1.1, c2.1), c1.1, AsWritten).0;
      && !Good(r)
  {
    var c1 := EdgeCreated(s);
    var c2 := EdgeCreated(c1.0);
    TwoCreated(s);
    ConcatPartnerDeletedAsWritten(c2.0, QuadAt(s.next), QuadAt(s.next + 4));
  }

  /** The guard's two splices on a after `concat(a, b)`: the first is `splice(a, a)`,
      which changes nothing, and the second is `splice(a.sym, b)`, which undoes the
      concat. */
  lemma ConcatIsolated(g: Links, a: Quad, b: Quad)
    requires Lone(g, a) && Lone(g, b) && Own(a) && Own(b) && Apart(a, b)
    ensures IsolatedLinks(ConcatLinks(g, a.e0, b.e0), a.e0) == g
  {
    ConcatLoneEdges(g, a, b);
    var h := ConcatLinks(g, a.e0, b.e0);
    assert Oprev(h, a.e0) == a.e0;
    SpliceSelf(h, a.e0);
    assert Sym(h, a.e0) == a.e2 && Oprev(h, a.e2) == b.e0;
    assert Sym(g, a.e0) == a.e2;
    SpliceInvolution(g, a.e2, b.e0);
  }

  /** `concat(a, b)` on two lone edges, then `deleteEdge(a)` with the corrected guard: the
      guard fires, its splices give back the links from before the concat, and exactly
      a's quad is removed from them. */
  lemma ConcatThenDeleteCorrected(g: Links, a: Quad, b: Quad)
    requires Lone(g, a) && Lone(g, b) && Own(a) && Own(b) && Apart(a, b)
    ensures var h := ConcatLinks(g, a.e0, b.e0);
      && NeedsIsolating(h, a.e0)
      && GuardedLinks(h, a.e0, Corrected) == g
      && DeletedLinks(h, a.e0, Corrected) == g - Ids(a)
  {
    ConcatLoneEdges(g, a, b);
    ConcatIsolated(g, a, b);
    RotsQuadOf(g, a);
  }

  /** The bag's view of `ConcatThenDeleteCorrected`: the bag stays good, b is a lone edge
      again, and the listing loses a's four ids and keeps the rest in order. */
  lemma ConcatPartnerDeleted<T>(s: Bag<T>, a: Quad, b: Quad)
    requires Good(s)
    requires Lone(LinksOf(s.records), a) && Lone(LinksOf(s.records), b)
    requires Own(a) && Own(b) && Apart(a, b)
    requires Detached(LinksOf(s.records), Ids(a))
    ensures Good(Concatenated(s, a.e0, b.e0)) && a.e0 in Concatenated(s, a.e0, b.e0).records
    ensures var r := EdgeDeleted(Concatenated(s, a.e0, b.e0), a.e0, Corrected).0;
      && Good(r)
      && LinksOf(r.records) == LinksOf(s.records) - Ids(a)
      && Lone(LinksOf(r.records), b)
      && r.order == Except(s.order, Ids(a))
  {
    var g := LinksOf(s.records);
    var t := Concatenated(s, a.e0, b.e0);
    ConcatThenDeleteCorrected(g, a, b);
    EdgeDeletedLinks(t, a.e0, Corrected);
    EdgeDeletedOrder(t, a.e0, Corrected);
    EdgeDeletedSound(t, a.e0, Corrected);
    ApartSymmetric(a, b);
    LoneKept(g, b, a);
    RotsQuadOf(g, a);
  }

  /** Sharing no id is symmetric. */
  lemma ApartSymmetric(a: Quad, b: Quad)
    requires Apart(a, b)
    ensures Apart(b, a)
  {
  }

  /** In a bag without records, create a and b, concatenate them and delete a: with the
      corrected guard the bag stays good, b is a lone edge again, and `edges` lists b,
      b.rot, b.sym and b.invrot. */
  lemma ConcatPairDeleted<T>(s: Bag<T>)
    requires Good(s) && s.records == map[]
    ensures var c1 := EdgeCreated(s);
      var c2 := EdgeCreated(c1.0);
      && Good(c2.0) && c1.1 in c2.0.records && c2.1 in c2.0.records
      && Good(Concatenated(c2.0, c1.1, c2.1)) && c1.1 in Concatenated(c2.0, c1.1, c2.1).records
      && var r := EdgeDeleted(Concatenated(c2.0, c1.1, c2.1), c1.1, Corrected).0;
      && Good(r)
      && IsolatedQuad(LinksOf(r.records), c2.1)
      && var g := LinksOf(r.records);
      && r.order == [c2.1, Rot(g, c2.1), Sym(g, c2.1), InvRot(g, c2.1)]
  {
    var c1 := EdgeCreated(s);
    var c2 := EdgeCreated(c1.0);
    TwoCreated(s);
    PairConcatDeleted(c2.0, QuadAt(s.next), QuadAt(s.next + 4));
  }

  /** `ConcatPartnerDeleted` on a store of just the two edges. */
  lemma PairConcatDeleted<T>(s: Bag<T>, a: Quad, b: Quad)
    requires Good(s) && Own(a) && Own(b) && Apart(a, b)
    requires Lone(LinksOf(s.records), a) && Lone(LinksOf(s.records), b)
    requires s.records.Keys == Ids(a) + Ids(b)
    requires s.order == [a.e0, a.e1, a.e2, a.e3] + [b.e0, b.e1, b.e2, b.e3]
    ensures b.e0 in s.records && Good(Concatenated(s, a.e0, b.e0)) && a.e0 in Concatenated(s, a.e0, b.e0).records
    ensures var r := EdgeDeleted(Concatenated(s, a.e0, b.e0), a.e0, Corrected).0;
      && Good(r)
      && IsolatedQuad(LinksOf(r.records), b.e0)
      && var g := LinksOf(r.records);
      && r.order == [b.e0, Rot(g, b.e0), Sym(g, b.e0), InvRot(g, b.e0)]
  {
    var g := LinksOf(s.records);
    ApartSymmetric(a, b);
    PairDetached(g, b, a);
    ConcatPartnerDeleted(s, a, b);
    var r := EdgeDeleted(Concatenated(s, a.e0, b.e0), a.e0, Corrected).0;
    LoneIsolated(LinksOf(r.records), b);
    ExceptFirst(a, b);
  }

  /** Removing a's ids from the listing of a and then b leaves the listing of b. */
  lemma ExceptFirst(a: Quad, b: Quad)
    requires Apart(a, b)
    ensures Except([a.e0, a.e1, a.e2, a.e3] + [b.e0, b.e1, b.e2, b.e3], Ids(a)) == [b.e0, b.e1, b.e2, b.e3]
  {
    var pa, pb := [a.e0, a.e1, a.e2, a.e3], [b.e0, b.e1, b.e2, b.e3];
    ExceptConcat(pa, pb, Ids(a));
    ExceptAll(pa, Ids(a));
    ExceptNone(pb, Ids(a));
    assert [] + pb == pb;
  }
}
