/**
 * `makeEdgeBag` of src/quad-edge-2.ts as an object: the closure's record dictionary
 * and its counter `idx` become the fields of `EdgeBag`, and every operation of the
 * bag becomes a method that updates them in place, composed from the other methods
 * the way the source composes its closures. Each method is proved to leave the state
 * that the matching function of `QuadEdgeBag` computes from the state before it; the
 * properties of those functions are proved beside them.
 */
module EdgeBags {
  import opened Wrappers
  import opened EdgeRecords
  import opened Edges
  import opened QuadLinks
  import opened AlphaIds
  import opened QuadEdgeBag

  class EdgeBag<T> {
    /** The record dictionary the bag's closures share. */
    const store: EdgeRecordStore<T>
    /** The counter the next id is rendered from. */
    var idx: nat

    /** The bag's state as a value. */
    function State(): Bag<T>
      reads this, store
    {
      Bag(store.records, store.order, idx)
    }

    /** The store is well formed, no id the counter will still produce is in use, and
        every link leads to a live record. */
    ghost predicate Valid()
      reads this, store
    {
      Good(State())
    }

    /** `makeEdgeBag()`: an empty dictionary and the counter at 1. */
    constructor ()
      ensures fresh(store)
      ensures Valid() && State() == EmptyBag()
    {
      store := new EdgeRecordStore();
      idx := 1;
      new;
      EmptyBagGood<T>();
    }

    /** The `edges` getter: every live record once, in insertion order. */
    function Edges(): (r: seq<Id>)
      requires Valid()
      reads this, store
      ensures Distinct(r)
      ensures forall k :: k in r <==> k in store.records
      ensures forall k :: k in r ==> store.records[k].id == k
    {
      store.order
    }

    /** The id provider `() => toAlpha(idx++)`. */
    method NextId() returns (id: Id)
      modifies this
      ensures idx == old(idx) + 1 && id == ToAlpha(old(idx))
    {
      id := ToAlpha(idx);
      idx := idx + 1;
    }

    /** The four `idProvider()` calls of `createEdge`. */
    method DrawQuad() returns (e0: Id, e1: Id, e2: Id, e3: Id)
      modifies this
      ensures idx == old(idx) + 4 && NextIds(old(idx), e0, e1, e2, e3)
    {
      ghost var n := idx;
      e0 := NextId();
      ghost var i1 := idx;
      e1 := NextId();
      ghost var i2 := idx;
      e2 := NextId();
      ghost var i3 := idx;
      e3 := NextId();
      DrawnInOrder(n, i1, i2, i3, idx, e0, e1, e2, e3);
    }

    /** The four `createEdgeRecord` calls of `createEdge`; the first record is returned. */
    method StoreQuad(e0: Id, e1: Id, e2: Id, e3: Id) returns (first: EdgeRecord<T>)
      requires store.Valid()
      modifies store
      ensures store.Valid()
      ensures State() == QuadStored(old(State()), e0, e1, e2, e3) && first.id == e0
    {
      ghost var b0 := State();
      first := store.Create(e0, e1, e0);
      ghost var b1 := State();
      assert b1 == Stored(b0, e0, e1, e0);
      var _ := store.Create(e1, e2, e3);
      ghost var b2 := State();
      assert b2 == Stored(b1, e1, e2, e3);
      var _ := store.Create(e2, e3, e2);
      ghost var b3 := State();
      assert b3 == Stored(b2, e2, e3, e2);
      var _ := store.Create(e3, e0, e1);
      assert State() == Stored(b3, e3, e0, e1);
    }

    /** `createEdge`: four ids drawn from the counter, then the four records, each naming
        its rotation and its origin-next edge; the first edge is returned. */
    method CreateEdge() returns (e: Id)
      requires Valid()
      modifies this, store
      ensures Valid()
      ensures State() == EdgeCreated(old(State())).0 && e == EdgeCreated(old(State())).1
    {
      ghost var s := State();
      var e0, e1, e2, e3 := DrawQuad();
      ghost var b0 := State();
      assert b0 == Bag(s.records, s.order, s.next + 4);
      CreatedFrom(s, b0, e0, e1, e2, e3);
      var first := StoreQuad(e0, e1, e2, e3);
      e := first.id;
    }

    /** The reads and the four origin-next updates of `splice(a, b)`; alpha and beta are
        returned for the data writes. */
    method RelinkAll(a: Id, b: Id) returns (alpha: Id, beta: Id)
      requires store.Valid() && Linked(LinksOf(store.records)) && a in store.records && b in store.records
      modifies store
      ensures store.Valid() && store.order == old(store.order)
      ensures store.records == Relinked(old(store.records), a, b)
      ensures alpha == Alpha(LinksOf(old(store.records)), a) && beta == Alpha(LinksOf(old(store.records)), b)
    {
      var g := LinksOf(store.records);
      alpha, beta := Alpha(g, a), Alpha(g, b);
      var t1, t2, t3, t4 := Onext(g, b), Onext(g, a), Onext(g, beta), Onext(g, alpha);
      store.Update(a, Some(t1), None);
      store.Update(b, Some(t2), None);
      store.Update(alpha, Some(t3), None);
      store.Update(beta, Some(t4), None);
    }

    /** `splice(a, b)`: alpha, beta and t1..t4 are read first; then the four origin-next
        updates, `b.odata = a.odata` and `beta.odata = alpha.odata`. */
    method Splice(a: Id, b: Id)
      requires Valid() && a in store.records && b in store.records
      modifies store
      ensures Valid()
      ensures State() == SplicedBag(old(State()), a, b)
    {
      ghost var s := State();
      var alpha, beta := RelinkAll(a, b);
      ghost var m1 := store.records;
      RelinkedLinks(s.records, a, b);
      WriteOrigins(b, Odata(store.records, a), beta, alpha);
      SplicedFrom(s, a, b, m1, store.records);
    }

    /** The two data assignments that end `splice`: `b.odata = d`, then `beta.odata =
        x.odata`. */
    method WriteOrigins(b: Id, d: Option<T>, beta: Id, x: Id)
      requires store.Valid() && Linked(LinksOf(store.records))
      requires b in store.records && beta in store.records && x in store.records
      modifies store
      ensures store.Valid() && store.order == old(store.order)
      ensures store.records == OriginWrites(old(store.records), b, d, beta, x)
    {
      SetOdata(store, b, d);
      SetOdata(store, beta, Odata(store.records, x));
    }

    /** The guard of `deleteEdge` and, when it fires, `splice(e, e.oprev)` and
        `splice(e.sym, e.sym.oprev)`. */
    method Isolate(e: Id, guard: Guard)
      requires Valid() && e in store.records
      modifies store
      ensures Valid()
      ensures State() == Guarded(old(State()), e, guard)
    {
      var g := LinksOf(store.records);
      if Fires(guard, g, e) {
        Splice(e, Oprev(g, e));
        var g1 := LinksOf(store.records);
        Splice(Sym(g1, e), Oprev(g1, Sym(g1, e)));
      }
    }

    /** The four `deleteEdgeRecord` calls of `deleteEdge`. */
    method RemoveQuad(e0: Id, e1: Id, e2: Id, e3: Id)
      requires store.Valid()
      modifies store
      ensures store.Valid()
      ensures State() == QuadRemoved(old(State()), e0, e1, e2, e3)
    {
      store.Delete(e0);
      store.Delete(e1);
      store.Delete(e2);
      store.Delete(e3);
    }

    /** `deleteEdge(e)` as the source writes it: its guard looks only at e and e.rot, and
        when it fires `splice(e, e.oprev)` and `splice(e.sym, e.sym.oprev)` run; then the
        four records of e's quad as they stand after it are deleted and e is returned.
        The bag stays sound; it stays valid exactly when no other record links into the
        deleted quad, which the caller has to see to. */
    method DeleteEdge(e: Id) returns (r: Id)
      requires Valid() && e in store.records
      modifies store
      ensures Sound(State())
      ensures State() == EdgeDeleted(old(State()), e, AsWritten).0 && r == e
      ensures var h := GuardedLinks(LinksOf(old(store.records)), e, AsWritten);
        Valid() <==> Detached(h, QuadOf(h, e))
    {
      ghost var s := State();
      Isolate(e, AsWritten);
      var h := LinksOf(store.records);
      RemoveQuad(e, Rot(h, e), Sym(h, e), InvRot(h, e));
      r := e;
      EdgeDeletedSound(s, e, AsWritten);
      EdgeDeletedGood(s, e, AsWritten);
    }

    /** `deleteEdge(e)` with the guard its comment intends, which also looks at e.sym and
        e.invrot (`NeedsIsolating`), so an edge joined to others only at its destination
        is isolated before its quad is deleted. */
    method DeleteEdgeCorrected(e: Id) returns (r: Id)
      requires Valid() && e in store.records
      modifies store
      ensures Sound(State())
      ensures State() == EdgeDeleted(old(State()), e, Corrected).0 && r == e
      ensures var h := GuardedLinks(LinksOf(old(store.records)), e, Corrected);
        Valid() <==> Detached(h, QuadOf(h, e))
    {
      ghost var s := State();
      Isolate(e, Corrected);
      var h := LinksOf(store.records);
      RemoveQuad(e, Rot(h, e), Sym(h, e), InvRot(h, e));
      r := e;
      EdgeDeletedSound(s, e, Corrected);
      EdgeDeletedGood(s, e, Corrected);
    }

    /** `concat(a, b)`: `splice(a.sym, b)`. */
    method Concat(a: Id, b: Id)
      requires Valid() && a in store.records && b in store.records
      modifies store
      ensures Valid()
      ensures State() == Concatenated(old(State()), a, b)
    {
      Splice(Sym(LinksOf(store.records), a), b);
    }

    /** `addEdge(a)`: a new edge b, then `splice(a.sym, b)`; b is returned. */
    method AddEdge(a: Id) returns (b: Id)
      requires Valid() && a in store.records
      modifies this, store
      ensures Valid()
      ensures State() == EdgeAdded(old(State()), a).0 && b == EdgeAdded(old(State()), a).1
    {
      ghost var s := State();
      b := CreateEdge();
      EdgeCreatedKeys(s);
      Splice(Sym(LinksOf(store.records), a), b);
    }

    /** The two splices of `connect(a, b)` for the new edge c: `splice(a.lnext, c)`,
        then `splice(b, c.sym)`. */
    method ConnectSplice(a: Id, b: Id, c: Id)
      requires Valid() && a in store.records && b in store.records && c in store.records
      modifies store
      ensures Valid()
      ensures State() == ConnectSplices(old(State()), a, b, c)
    {
      Splice(Lnext(LinksOf(store.records), a), c);
      Splice(b, Sym(LinksOf(store.records), c));
    }

    /** `connect(a, b)`: a new edge c, then `splice(a.lnext, c)` and `splice(b, c.sym)`;
        c is returned. */
    method Connect(a: Id, b: Id) returns (c: Id)
      requires Valid() && a in store.records && b in store.records
      modifies this, store
      ensures Valid()
      ensures State() == Connected(old(State()), a, b).0 && c == Connected(old(State()), a, b).1
    {
      ghost var s := State();
      EdgeCreatedKeys(s);
      c := CreateEdge();
      ConnectSplice(a, b, c);
    }

    /** The `reduce(addEdge, first)` of `addPolygon`: k calls of `addEdge`, each on the
        edge the previous one returned; the last edge is returned. */
    method AddEdges(first: Id, k: nat) returns (cur: Id)
      requires Valid() && first in store.records
      modifies this, store
      ensures Valid()
      ensures State() == EdgesAdded(old(State()), first, k).0 && cur == EdgesAdded(old(State()), first, k).1
    {
      ghost var s := State();
      cur := first;
      for i := 0 to k
        invariant Valid() && cur in store.records
        invariant State() == EdgesAdded(s, first, i).0 && cur == EdgesAdded(s, first, i).1
      {
        cur := AddEdge(cur);
      }
    }

    /** `addPolygon(n)`: fails, changing nothing, when n is below 2; otherwise a first
        edge, n - 2 calls of `addEdge` each on the edge the previous one returned, and
        `connect(penultimate, first)`; the first edge is returned. */
    method AddPolygon(n: int) returns (r: Option<Id>)
      requires Valid()
      modifies this, store
      ensures PolygonAdded(old(State()), n) == if r.None? then None else Some((State(), r.value))
      ensures n < 2 ==> unchanged(this, store)
    {
      if n < 2 {
        r := None;
        PolygonAddedFails(State(), n);
      } else {
        var first := Polygon(n);
        r := Some(first);
      }
    }

    /** `addPolygon(n)` past its check on n: `createEdge`, then the rest of the polygon
        after that first edge. */
    method Polygon(n: int) returns (first: Id)
      requires Valid() && n >= 2
      modifies this, store
      ensures Valid()
      ensures PolygonAdded(old(State()), n) == Some((State(), first))
    {
      ghost var s := State();
      var k := InnerEdges(n);
      first := CreateEdge();
      EdgeCreatedKeys(s);
      PolygonFrom(first, k);
      PolygonAddedSteps(s, n);
    }

    /** The n - 2 calls of `addEdge` after the first edge, each on the edge the previous
        one returned, and `connect(penultimate, first)`. */
    method PolygonFrom(first: Id, k: nat)
      requires Valid() && first in store.records
      modifies this, store
      ensures Valid()
      ensures State() == PolygonClosed(old(State()), first, k)
    {
      var penultimate := AddEdges(first, k);
      var _ := Connect(penultimate, first);
    }

    /** The two edges `swap(e)` reads first: a = e.oprev and b = e.sym.oprev. */
    method Corners(e: Id) returns (a: Id, b: Id)
      requires Valid() && e in store.records
      ensures a in store.records && b in store.records
      ensures var g := LinksOf(store.records); a == Oprev(g, e) && b == Oprev(g, Sym(g, e))
    {
      var g := LinksOf(store.records);
      a, b := Oprev(g, e), Oprev(g, Sym(g, e));
    }

    /** The first half of `swap(e)`: `splice(e, a)`, then `splice(e.sym, b)`. */
    method SwapOpen(e: Id, a: Id, b: Id)
      requires Valid() && e in store.records && a in store.records && b in store.records
      modifies store
      ensures Valid()
      ensures e in store.records && a in store.records && b in store.records
      ensures State() == SwapOpened(old(State()), e, a, b)
    {
      ghost var s := State();
      Splice(e, a);
      ghost var s1 := State();
      Splice(Sym(LinksOf(store.records), e), b);
      SwapOpenedFrom(s, s1, State(), e, a, b);
    }

    /** The second half of `swap(e)`: `splice(e, a.lnext)`, then `splice(e.sym, b.lnext)`. */
    method SwapClose(e: Id, a: Id, b: Id)
      requires Valid() && e in store.records && a in store.records && b in store.records
      modifies store
      ensures Valid()
      ensures State() == SwapClosed(old(State()), e, a, b)
    {
      ghost var s := State();
      Splice(e, Lnext(LinksOf(store.records), a));
      ghost var s1 := State();
      Splice(Sym(LinksOf(store.records), e), Lnext(LinksOf(store.records), b));
      SwapClosedFrom(s, s1, State(), e, a, b);
    }

    /** `swap(e)`: a = e.oprev and b = e.sym.oprev are read first, then the two halves.
        Every record stays, the insertion order stays, the links are those of `SwapLinks`
        and the data are those the four splices write. */
    method Swap(e: Id)
      requires Valid() && e in store.records
      modifies store
      ensures Valid()
      ensures State() == Swapped(old(State()), e)
    {
      var a, b := Corners(e);
      SwapOpen(e, a, b);
      SwapClose(e, a, b);
    }
  }

  /** Two splices, the second on e.sym as it stands after the first, make the first half
      of `swap`. */
  lemma SwapOpenedFrom<T>(s: Bag<T>, s1: Bag<T>, s2: Bag<T>, e: Id, a: Id, b: Id)
    requires Good(s) && e in s.records && a in s.records && b in s.records
    requires s1 == SplicedBag(s, e, a)
    requires s2 == SplicedBag(s1, Sym(LinksOf(s1.records), e), b)
    ensures s2 == SwapOpened(s, e, a, b)
  {
  }

  /** Two splices with a.lnext and b.lnext, each read just before its splice, make the
      second half of `swap`. */
  lemma SwapClosedFrom<T>(s: Bag<T>, s1: Bag<T>, s2: Bag<T>, e: Id, a: Id, b: Id)
    requires Good(s) && e in s.records && a in s.records && b in s.records
    requires s1 == SplicedBag(s, e, Lnext(LinksOf(s.records), a))
    requires s2 == SplicedBag(s1, Sym(LinksOf(s1.records), e), Lnext(LinksOf(s1.records), b))
    ensures s2 == SwapClosed(s, e, a, b)
  {
  }

  /** Four ids drawn one after another from a counter standing at n. */
  lemma DrawnInOrder(n: nat, i1: nat, i2: nat, i3: nat, i4: nat, e0: Id, e1: Id, e2: Id, e3: Id)
    requires i1 == n + 1 && i2 == i1 + 1 && i3 == i2 + 1 && i4 == i3 + 1
    requires e0 == ToAlpha(n) && e1 == ToAlpha(i1) && e2 == ToAlpha(i2) && e3 == ToAlpha(i3)
    ensures NextIds(n, e0, e1, e2, e3) && i4 == n + 4
  {
  }

  /** The quad stored after drawing the counter's next four ids is `createEdge`'s. */
  lemma CreatedFrom<T>(s: Bag<T>, b0: Bag<T>, e0: Id, e1: Id, e2: Id, e3: Id)
    requires Good(s) && NextIds(s.next, e0, e1, e2, e3)
    requires b0 == Bag(s.records, s.order, s.next + 4)
    ensures QuadStored(b0, e0, e1, e2, e3) == EdgeCreated(s).0 && e0 == EdgeCreated(s).1
    ensures Good(QuadStored(b0, e0, e1, e2, e3))
  {
    EdgeCreatedGood(s);
  }

  /** The relinked records with the two origin-data writes of `splice` are those of
      `SplicedBag`. */
  lemma SplicedFrom<T>(s: Bag<T>, a: Id, b: Id, m1: Records<T>, m2: Records<T>)
    requires Good(s) && a in s.records && b in s.records
    requires m1 == Relinked(s.records, a, b) && Linked(LinksOf(m1))
    requires var g := LinksOf(s.records);
      m2 == OriginWrites(m1, b, Odata(m1, a), Alpha(g, b), Alpha(g, a))
    ensures Bag(m2, s.order, s.next) == SplicedBag(s, a, b)
  {
  }

  /** For n of at least 2, `addPolygon(n)` is a first edge followed by the rest of the
      polygon after it. */
  lemma PolygonAddedSteps<T>(s: Bag<T>, n: int)
    requires Good(s) && n >= 2
    ensures Good(EdgeCreated(s).0) && EdgeCreated(s).1 in EdgeCreated(s).0.records
    ensures PolygonAdded(s, n) ==
      Some((PolygonClosed(EdgeCreated(s).0, EdgeCreated(s).1, InnerEdges(n)), EdgeCreated(s).1))
  {
    CreatedGood(s);
  }

}
