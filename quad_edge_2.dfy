/**
 * The edge bag of src/quad-edge-2.ts, at the level of links: what `createEdge` and `splice`
 * do to the rotation and origin-next links of the records. Data writes are added on top
 * of these in module QuadEdgeBag.
 */
module QuadLinks {
  import opened EdgeRecords
  import opened Edges

  /** The link map with k's origin-next edge replaced by x, as `updateEdgeRecord({ id: k,
      onextId: x })` leaves it. */
  function WithOnext(g: Links, k: Id, x: Id): (r: Links)
    requires k in g
    ensures r.Keys == g.Keys && r[k] == Link(g[k].rotId, x)
    ensures forall j :: j in g && j != k ==> r[j] == g[j]
  {
    g[k := Link(g[k].rotId, x)]
  }

  /** A relink to a live edge keeps every link leading to a live record. */
  lemma WithOnextLinked(g: Links, k: Id, x: Id)
    requires Linked(g) && k in g && x in g
    ensures Linked(WithOnext(g, k, x))
  {
    var r := WithOnext(g, k, x);
    forall j ensures LinkedAt(r, j) {
      assert LinkedAt(g, j);
    }
  }

  /** The links of the four records `createEdge` stores: the rotations cycle
      e0 -> e1 -> e2 -> e3 -> e0, e0 and e2 are their own origin-next, e1 and e3 each
      other's. */
  function NewQuadLinks(g: Links, e0: Id, e1: Id, e2: Id, e3: Id): (r: Links)
    ensures r.Keys == g.Keys + {e0, e1, e2, e3}
    ensures forall k :: k in g && k != e0 && k != e1 && k != e2 && k != e3 ==> r[k] == g[k]
  {
    g[e0 := Link(e1, e0)][e1 := Link(e2, e3)][e2 := Link(e3, e2)][e3 := Link(e0, e1)]
  }

  /** Four distinct ids. */
  predicate Distinct4(a: Id, b: Id, c: Id, d: Id) {
    a != b && a != c && a != d && b != c && b != d && c != d
  }

  /** Adding a quad keeps every link leading to a live record. */
  lemma NewQuadLinked(g: Links, e0: Id, e1: Id, e2: Id, e3: Id)
    requires Linked(g)
    ensures Linked(NewQuadLinks(g, e0, e1, e2, e3))
  {
    var r := NewQuadLinks(g, e0, e1, e2, e3);
    forall j ensures LinkedAt(r, j) {
      assert LinkedAt(g, j);
    }
  }

  /** The first id of a new quad of four distinct ids is a lone edge. */
  lemma NewQuadIsolated(g: Links, e0: Id, e1: Id, e2: Id, e3: Id)
    requires Linked(g) && Distinct4(e0, e1, e2, e3)
    ensures Linked(NewQuadLinks(g, e0, e1, e2, e3))
    ensures IsolatedQuad(NewQuadLinks(g, e0, e1, e2, e3), e0)
    ensures Rot(NewQuadLinks(g, e0, e1, e2, e3), e0) == e1
    ensures Sym(NewQuadLinks(g, e0, e1, e2, e3), e0) == e2
    ensures InvRot(NewQuadLinks(g, e0, e1, e2, e3), e0) == e3
  {
    NewQuadLinked(g, e0, e1, e2, e3);
  }

  /** `alpha` of `splice(a, b)`: `a.onext.rot`. */
  function Alpha(g: Links, a: Id): (r: Id)
    requires Linked(g) && a in g
    ensures r in g
  {
    Rot(g, Onext(g, a))
  }

  /** `splice(a, b)` on the links: reads t1 = b.onext, t2 = a.onext, t3 = beta.onext and
      t4 = alpha.onext first, then writes a, b, alpha and beta's origin-next links in that
      order. */
  function SpliceLinks(g: Links, a: Id, b: Id): (r: Links)
    requires Linked(g) && a in g && b in g
    ensures r.Keys == g.Keys && Linked(r)
  {
    var alpha, beta := Alpha(g, a), Alpha(g, b);
    var t1, t2, t3, t4 := Onext(g, b), Onext(g, a), Onext(g, beta), Onext(g, alpha);
    var g1 := WithOnext(g, a, t1);
    WithOnextLinked(g, a, t1);
    var g2 := WithOnext(g1, b, t2);
    WithOnextLinked(g1, b, t2);
    var g3 := WithOnext(g2, alpha, t3);
    WithOnextLinked(g2, alpha, t3);
    WithOnextLinked(g3, beta, t4);
    WithOnext(g3, beta, t4)
  }

  /** `splice` writes origin-next links only: every rotation stays. */
  lemma SpliceKeepsRot(g: Links, a: Id, b: Id)
    requires Linked(g) && a in g && b in g
    ensures var r := SpliceLinks(g, a, b);
      forall k :: k in g ==> r[k].rotId == g[k].rotId
  {
  }

  /** `splice` writes only the links of a, b, alpha and beta. */
  lemma SpliceFrame(g: Links, a: Id, b: Id)
    requires Linked(g) && a in g && b in g
    ensures var r := SpliceLinks(g, a, b);
      forall k :: k in g && k != a && k != b && k != Alpha(g, a) && k != Alpha(g, b) ==> r[k] == g[k]
  {
  }

  /** When a, b, alpha and beta are distinct, `splice` exchanges a's and b's origin-next
      links and alpha's and beta's. */
  lemma SpliceExchange(g: Links, a: Id, b: Id)
    requires Linked(g) && a in g && b in g
    requires Distinct4(a, b, Alpha(g, a), Alpha(g, b))
    ensures var r := SpliceLinks(g, a, b);
      && Onext(r, a) == Onext(g, b) && Onext(r, b) == Onext(g, a)
      && Onext(r, Alpha(g, a)) == Onext(g, Alpha(g, b)) && Onext(r, Alpha(g, b)) == Onext(g, Alpha(g, a))
  {
  }

  /** Splicing an edge with itself changes nothing. */
  lemma SpliceSelf(g: Links, a: Id)
    requires Linked(g) && a in g
    ensures SpliceLinks(g, a, a) == g
  {
    var r := SpliceLinks(g, a, a);
    assert forall k :: k in g ==> r[k] == g[k];
  }

  /** After `splice(a, b)` on four distinct edges, alpha and beta have traded places: the
      second splice reads beta where the first read alpha. */
  lemma SpliceSwapsAlphas(g: Links, a: Id, b: Id)
    requires Linked(g) && a in g && b in g
    requires Distinct4(a, b, Alpha(g, a), Alpha(g, b))
    ensures Alpha(SpliceLinks(g, a, b), a) == Alpha(g, b)
    ensures Alpha(SpliceLinks(g, a, b), b) == Alpha(g, a)
  {
  }

  /** `splice` is its own inverse: splicing a and b twice restores every link. */
  lemma SpliceInvolution(g: Links, a: Id, b: Id)
    requires Linked(g) && a in g && b in g
    requires Distinct4(a, b, Alpha(g, a), Alpha(g, b))
    ensures SpliceLinks(SpliceLinks(g, a, b), a, b) == g
  {
    var g1 := SpliceLinks(g, a, b);
    SpliceSwapsAlphas(g, a, b);
    SpliceExchange(g, a, b);
    SpliceFrame(g, a, b);
    SpliceKeepsRot(g, a, b);
    var r := SpliceLinks(g1, a, b);
    SpliceExchange(g1, a, b);
    SpliceFrame(g1, a, b);
    SpliceKeepsRot(g1, a, b);
    assert forall k | k in g :: r[k] == g[k];
  }

  /** The origin-next link `splice(a, b)` leaves at k: the last of its writes to k. */
  function SplicedOnext(g: Links, a: Id, b: Id, k: Id): Id
    requires Linked(g) && a in g && b in g && k in g
  {
    var alpha, beta := Alpha(g, a), Alpha(g, b);
    if k == beta then Onext(g, alpha)
    else if k == alpha then Onext(g, beta)
    else if k == b then Onext(g, a)
    else if k == a then Onext(g, b)
    else Onext(g, k)
  }

  /** Each entry after `splice(a, b)` keeps its rotation and takes the last value written
      to it. */
  lemma SpliceAt(g: Links, a: Id, b: Id, k: Id)
    requires Linked(g) && a in g && b in g && k in g
    ensures SpliceLinks(g, a, b)[k] == Link(g[k].rotId, SplicedOnext(g, a, b, k))
  {
  }

  /** `splice` does not depend on the order of its arguments: both orders write the same
      value to each of a, b, alpha and beta, and the writes to alpha and beta come last in
      both, so even when the four edges coincide the results agree. */
  lemma SpliceSymmetric(g: Links, a: Id, b: Id)
    requires Linked(g) && a in g && b in g
    ensures SpliceLinks(g, a, b) == SpliceLinks(g, b, a)
  {
    var r, s := SpliceLinks(g, a, b), SpliceLinks(g, b, a);
    forall k | k in g ensures r[k] == s[k] {
      SpliceAt(g, a, b, k);
      SpliceAt(g, b, a, k);
    }
  }

  /** The four records of e's quad. */
  function QuadOf(g: Links, e: Id): (q: set<Id>)
    requires Linked(g) && e in g
    ensures e in q && q <= g.Keys
  {
    {e, Rot(g, e), Sym(g, e), InvRot(g, e)}
  }
  /** `concat(a, b)`: `splice(a.sym, b)`. */
  function ConcatLinks(g: Links, a: Id, b: Id): (r: Links)
    requires Linked(g) && a in g && b in g
    ensures r.Keys == g.Keys && Linked(r)
  {
    SpliceLinks(g, Sym(g, a), b)
  }

  /** `addEdge(a)`: a new quad e0..e3, then `splice(a.sym, e0)`; e0 is returned. */
  function AddEdgeLinks(g: Links, a: Id, e0: Id, e1: Id, e2: Id, e3: Id): (r: Links)
    requires Linked(g) && a in g
    ensures r.Keys == g.Keys + {e0, e1, e2, e3} && Linked(r)
  {
    var h := NewQuadLinks(g, e0, e1, e2, e3);
    NewQuadLinked(g, e0, e1, e2, e3);
    SpliceLinks(h, Sym(h, a), e0)
  }

  /** The two splices of `connect(a, b)` for a new edge c: `splice(a.lnext, c)`, then
      `splice(b, c.sym)`, each navigator read when its splice is called. */
  function ConnectSplicesLinks(g: Links, a: Id, b: Id, c: Id): (r: Links)
    requires Linked(g) && a in g && b in g && c in g
    ensures r.Keys == g.Keys && Linked(r)
  {
    var g1 := SpliceLinks(g, Lnext(g, a), c);
    SpliceLinks(g1, b, Sym(g1, c))
  }

  /** `connect(a, b)`: a new quad e0..e3, then the two splices; e0 is returned. */
  function ConnectLinks(g: Links, a: Id, b: Id, e0: Id, e1: Id, e2: Id, e3: Id): (r: Links)
    requires Linked(g) && a in g && b in g
    ensures r.Keys == g.Keys + {e0, e1, e2, e3} && Linked(r)
  {
    var h := NewQuadLinks(g, e0, e1, e2, e3);
    NewQuadLinked(g, e0, e1, e2, e3);
    ConnectSplicesLinks(h, a, b, e0)
  }

  /** The four ids of one quad, in rotation order. */
  datatype Quad = Quad(e0: Id, e1: Id, e2: Id, e3: Id)

  /** The fold of `addEdge` in `addPolygon`: one edge added after another, starting at
      cur, the i-th with the ids of qs[i]; the last edge added is returned. */
  function AddEdgesLinks(g: Links, cur: Id, qs: seq<Quad>): (r: (Links, Id))
    requires Linked(g) && cur in g
    ensures g.Keys <= r.0.Keys && Linked(r.0) && r.1 in r.0
    decreases |qs|
  {
    if |qs| == 0 then (g, cur)
    else
      var h := AddEdgeLinks(g, cur, qs[0].e0, qs[0].e1, qs[0].e2, qs[0].e3);
      AddEdgesLinks(h, qs[0].e0, qs[1..])
  }

  /** `addPolygon(n)` for n = |qs| of at least 2, with the ids it draws in qs: a first
      edge, n - 2 edges added after it, and a last one connecting the penultimate edge
      back to the first; the first edge is returned. */
  function PolygonLinks(g: Links, qs: seq<Quad>): (r: Links)
    requires Linked(g) && |qs| >= 2
    ensures g.Keys <= r.Keys && Linked(r) && qs[0].e0 in r
  {
    var first, z := qs[0], qs[|qs| - 1];
    var h := NewQuadLinks(g, first.e0, first.e1, first.e2, first.e3);
    NewQuadLinked(g, first.e0, first.e1, first.e2, first.e3);
    var added := AddEdgesLinks(h, first.e0, qs[1..|qs| - 1]);
    ConnectLinks(added.0, added.1, first.e0, z.e0, z.e1, z.e2, z.e3)
  }

  /** The first half of `swap(e)`: `splice(e, a)`, then `splice(e.sym, b)`. */
  function SwapOpenedLinks(g: Links, e: Id, a: Id, b: Id): (r: Links)
    requires Linked(g) && e in g && a in g && b in g
    ensures r.Keys == g.Keys && Linked(r)
  {
    var g1 := SpliceLinks(g, e, a);
    SpliceLinks(g1, Sym(g1, e), b)
  }

  /** The second half of `swap(e)`: `splice(e, a.lnext)`, then `splice(e.sym, b.lnext)`,
      each navigator read when its splice is called. */
  function SwapClosedLinks(g: Links, e: Id, a: Id, b: Id): (r: Links)
    requires Linked(g) && e in g && a in g && b in g
    ensures r.Keys == g.Keys && Linked(r)
  {
    var g1 := SpliceLinks(g, e, Lnext(g, a));
    SpliceLinks(g1, Sym(g1, e), Lnext(g1, b))
  }

  /** `swap(e)`: a = e.oprev and b = e.sym.oprev are read first, then the two halves. */
  function SwapLinks(g: Links, e: Id): (r: Links)
    requires Linked(g) && e in g
    ensures r.Keys == g.Keys && Linked(r)
  {
    var a, b := Oprev(g, e), Oprev(g, Sym(g, e));
    SwapClosedLinks(SwapOpenedLinks(g, e, a, b), e, a, b)
  }

  /** The guard of `deleteEdge` as written: e counts as not yet isolated when its
      rotation's origin-next edge is not its inverse rotation or its own origin-next edge
      is not e. It never looks at e.sym or e.invrot. */
  predicate GuardAsWritten(g: Links, e: Id)
    requires Linked(g) && e in g
  {
    Onext(g, Rot(g, e)) != InvRot(g, e) || Onext(g, e) != e
  }

  /** The guard of `deleteEdge` as its comment intends it: e needs isolating unless all
      four records of its quad have the origin-next links of a lone edge, which adds the
      two checks on e.sym and e.invrot that the source leaves out. */
  predicate NeedsIsolating(g: Links, e: Id)
    requires Linked(g) && e in g
  {
    || GuardAsWritten(g, e)
    || Onext(g, Sym(g, e)) != Sym(g, e)
    || Onext(g, InvRot(g, e)) != Rot(g, e)
  }

  /** The splices `deleteEdge` makes when its guard fires, on the links:
      `splice(e, e.oprev)`, then `splice(e.sym, e.sym.oprev)` with e.sym and its oprev
      read after the first splice. */
  function IsolatedLinks(g: Links, e: Id): (r: Links)
    requires Linked(g) && e in g
    ensures r.Keys == g.Keys && Linked(r)
  {
    var g1 := SpliceLinks(g, e, Oprev(g, e));
    SpliceLinks(g1, Sym(g1, e), Oprev(g1, Sym(g1, e)))
  }

  /** Which guard `deleteEdge` runs: the one the source writes (`GuardAsWritten`) or the
      one its comment intends (`NeedsIsolating`). */
  datatype Guard = AsWritten | Corrected

  /** The guard fires: e is taken for an edge that is not yet lone. */
  predicate Fires(guard: Guard, g: Links, e: Id)
    requires Linked(g) && e in g
  {
    if guard.AsWritten? then GuardAsWritten(g, e) else NeedsIsolating(g, e)
  }

  /** The links after the guard of `deleteEdge`: its two splices when it fires, and no
      change otherwise. */
  function GuardedLinks(g: Links, e: Id, guard: Guard): (r: Links)
    requires Linked(g) && e in g
    ensures r.Keys == g.Keys && Linked(r)
  {
    if Fires(guard, g, e) then IsolatedLinks(g, e) else g
  }

  /** `deleteEdge(e)` on the links: the guard, then e's quad as it stands after the guard
      is dropped. What is left need not be linked: see `Detached`. */
  function DeletedLinks(g: Links, e: Id, guard: Guard): (r: Links)
    requires Linked(g) && e in g
    ensures r.Keys == g.Keys - QuadOf(GuardedLinks(g, e, guard), e)
    ensures forall k :: k in r ==> r[k] == GuardedLinks(g, e, guard)[k]
  {
    var h := GuardedLinks(g, e, guard);
    h - QuadOf(h, e)
  }

  /** No record outside q links into q. */
  ghost predicate Detached(g: Links, q: set<Id>) {
    forall k :: k in g && k !in q ==> g[k].rotId !in q && g[k].onextId !in q
  }

  /** Dropping a set of records nothing else links into keeps every link leading to a live
      record, and dropping one that something else links into does not. */
  lemma DroppedLinked(g: Links, q: set<Id>)
    requires Linked(g)
    ensures Linked(g - q) <==> Detached(g, q)
  {
    var r := g - q;
    if Detached(g, q) {
      forall k ensures LinkedAt(r, k) {
        assert LinkedAt(g, k);
      }
    } else {
      var k :| k in g && k !in q && (g[k].rotId in q || g[k].onextId in q);
      assert !LinkedAt(r, k);
    }
  }
}

/**
 * The edge bag of src/quad-edge-2.ts: the record store, the insertion order of its keys
 * and the id counter, with the bag's operations as functions of that state and, in
 * class EdgeBag, as methods that update it in place.
 */
module QuadEdgeBag {
  import opened Wrappers
  import opened EdgeRecords
  import opened Edges
  import opened QuadLinks
  import opened AlphaIds

  /** The state a bag closes over: the records, their keys in insertion order and the
      counter `idx` that the next id is rendered from. */
  datatype Bag<T> = Bag(records: Records<T>, order: seq<Id>, next: nat)

  /** `makeEdgeBag`: no records, counter at 1. */
  function EmptyBag<T>(): Bag<T> {
    Bag(map[], [], 1)
  }

  /** What every bag state satisfies: the store is well formed, the counter is positive,
      and no id the counter will still produce is in use. */
  ghost predicate Sound<T>(s: Bag<T>) {
    && WellStored(s.records, s.order)
    && s.next >= 1
    && (forall j :: j >= s.next ==> ToAlpha(j) !in s.records)
  }

  /** A sound bag in which, moreover, every link leads to a live record, so that every
      navigation step succeeds. */
  ghost predicate Good<T>(s: Bag<T>) {
    Sound(s) && Linked(LinksOf(s.records))
  }

  lemma EmptyBagGood<T>()
    ensures Good(EmptyBag<T>())
  {
    assert forall k :: LinkedAt(LinksOf(EmptyBag<T>().records), k);
  }

  /** The links of a store after `createEdgeRecord`. */
  lemma LinksOfCreated<T>(m: Records<T>, id: Id, rotId: Id, onextId: Id)
    ensures LinksOf(Created(m, id, rotId, onextId)) == LinksOf(m)[id := Link(rotId, onextId)]
  {
  }

  /** The links of a store after `updateEdgeRecord` with a new origin-next edge only. */
  lemma LinksOfRelinked<T>(m: Records<T>, id: Id, onextId: Id)
    requires id in m
    ensures LinksOf(Updated(m, id, Some(onextId), None)) == WithOnext(LinksOf(m), id, onextId)
  {
  }

  /** `createEdgeRecord` on the bag state: the record is stored, and a new key goes to the
      end of the insertion order. */
  function Stored<T>(s: Bag<T>, id: Id, rotId: Id, onextId: Id): (r: Bag<T>)
    ensures r.records == Created(s.records, id, rotId, onextId) && r.next == s.next
    ensures r.order == if id in s.records then s.order else s.order + [id]
  {
    Bag(Created(s.records, id, rotId, onextId), if id in s.records then s.order else s.order + [id], s.next)
  }

  /** The four `createEdgeRecord` calls of `createEdge`, for ids e0..e3. */
  function QuadStored<T>(s: Bag<T>, e0: Id, e1: Id, e2: Id, e3: Id): (r: Bag<T>)
    ensures r.next == s.next
  {
    var s1 := Stored(s, e0, e1, e0);
    var s2 := Stored(s1, e1, e2, e3);
    var s3 := Stored(s2, e2, e3, e2);
    Stored(s3, e3, e0, e1)
  }

  /** The links of the stored quad are those of `NewQuadLinks`. */
  lemma QuadStoredLinks<T>(s: Bag<T>, e0: Id, e1: Id, e2: Id, e3: Id)
    ensures LinksOf(QuadStored(s, e0, e1, e2, e3).records) == NewQuadLinks(LinksOf(s.records), e0, e1, e2, e3)
  {
    var s1 := Stored(s, e0, e1, e0);
    var s2 := Stored(s1, e1, e2, e3);
    var s3 := Stored(s2, e2, e3, e2);
    LinksOfCreated(s.records, e0, e1, e0);
    LinksOfCreated(s1.records, e1, e2, e3);
    LinksOfCreated(s2.records, e2, e3, e2);
    LinksOfCreated(s3.records, e3, e0, e1);
  }

  /** The records `createEdge` stores carry their own ids and no data; all other records
      are kept. */
  lemma QuadStoredRecords<T>(s: Bag<T>, e0: Id, e1: Id, e2: Id, e3: Id)
    ensures var r := QuadStored(s, e0, e1, e2, e3);
      && r.records.Keys == s.records.Keys + {e0, e1, e2, e3}
      && (forall k :: k in {e0, e1, e2, e3} ==> r.records[k].id == k && r.records[k].data.None?)
      && (forall k :: k in s.records && k !in {e0, e1, e2, e3} ==> r.records[k] == s.records[k])
  {
  }

  /** Two sequences without repeats and without common elements concatenate to one
      without repeats. */
  lemma DistinctConcat(a: seq<Id>, b: seq<Id>)
    requires Distinct(a) && Distinct(b) && forall x :: x in a ==> x !in b
    ensures Distinct(a + b)
  {
    var c := a + b;
    forall i, j | 0 <= i < j < |c| ensures c[i] != c[j] {
      if i < |a| && j >= |a| {
        assert c[i] in a && c[j] == b[j - |a|];
      } else if i >= |a| {
        assert c[i] == b[i - |a|] && c[j] == b[j - |a|];
      }
    }
  }

  /** `createEdge` appends its four ids to the insertion order when they are new. */
  lemma QuadStoredOrder<T>(s: Bag<T>, e0: Id, e1: Id, e2: Id, e3: Id)
    requires Distinct4(e0, e1, e2, e3)
    requires e0 !in s.records && e1 !in s.records && e2 !in s.records && e3 !in s.records
    ensures QuadStored(s, e0, e1, e2, e3).order == s.order + [e0, e1, e2, e3]
  {
  }

  /** A stored record carries its own id, so storing keeps every record under its own id. */
  lemma StoredIds<T>(s: Bag<T>, id: Id, rotId: Id, onextId: Id)
    requires forall k :: k in s.records ==> s.records[k].id == k
    ensures var r := Stored(s, id, rotId, onextId);
      forall k :: k in r.records ==> r.records[k].id == k
  {
  }

  /** Every record `createEdge` leaves in the store is stored under its own id. */
  lemma QuadStoredIds<T>(s: Bag<T>, e0: Id, e1: Id, e2: Id, e3: Id)
    requires forall k :: k in s.records ==> s.records[k].id == k
    ensures var r := QuadStored(s, e0, e1, e2, e3);
      forall k :: k in r.records ==> r.records[k].id == k
  {
    var s1 := Stored(s, e0, e1, e0);
    StoredIds(s, e0, e1, e0);
    var s2 := Stored(s1, e1, e2, e3);
    StoredIds(s1, e1, e2, e3);
    var s3 := Stored(s2, e2, e3, e2);
    StoredIds(s2, e2, e3, e2);
    StoredIds(s3, e3, e0, e1);
  }

  /** Storing a quad of four new, distinct ids keeps the store well formed and appends the
      ids to the insertion order. */
  lemma QuadStoredGood<T>(s: Bag<T>, e0: Id, e1: Id, e2: Id, e3: Id)
    requires WellStored(s.records, s.order)
    requires Distinct4(e0, e1, e2, e3)
    requires e0 !in s.records && e1 !in s.records && e2 !in s.records && e3 !in s.records
    ensures var r := QuadStored(s, e0, e1, e2, e3);
      && WellStored(r.records, r.order)
      && r.order == s.order + [e0, e1, e2, e3]
  {
    var r := QuadStored(s, e0, e1, e2, e3);
    QuadStoredOrder(s, e0, e1, e2, e3);
    QuadStoredIds(s, e0, e1, e2, e3);
    QuadStoredRecords(s, e0, e1, e2, e3);
    DistinctFour(e0, e1, e2, e3);
    DistinctConcat(s.order, [e0, e1, e2, e3]);
  }

  /** e0..e3 are the four ids `createEdge` draws when the counter stands at n. */
  predicate NextIds(n: nat, e0: Id, e1: Id, e2: Id, e3: Id) {
    e0 == ToAlpha(n) && e1 == ToAlpha(n + 1) && e2 == ToAlpha(n + 2) && e3 == ToAlpha(n + 3)
  }

  /** The four ids `createEdge` draws from the counter. */
  function QuadIds(next: nat): (r: seq<Id>)
    ensures |r| == 4
  {
    [ToAlpha(next), ToAlpha(next + 1), ToAlpha(next + 2), ToAlpha(next + 3)]
  }

  /** The four ids `createEdge` draws when the counter stands at n, as a quad. */
  function QuadAt(n: nat): (q: Quad)
    ensures NextIds(n, q.e0, q.e1, q.e2, q.e3)
  {
    Quad(ToAlpha(n), ToAlpha(n + 1), ToAlpha(n + 2), ToAlpha(n + 3))
  }

  /** `createEdge`: four ids from the counter, four records stored in order, and e0
      returned. */
  function EdgeCreated<T>(s: Bag<T>): (r: (Bag<T>, Id))
    ensures r.1 == ToAlpha(s.next) && r.0.next == s.next + 4
  {
    var e0, e1, e2, e3 := ToAlpha(s.next), ToAlpha(s.next + 1), ToAlpha(s.next + 2), ToAlpha(s.next + 3);
    (QuadStored(Bag(s.records, s.order, s.next + 4), e0, e1, e2, e3), e0)
  }

  /** Storing a quad of four new, distinct ids that the counter will not produce again
      keeps the bag good and appends the ids to the insertion order. */
  lemma QuadStoredKeepsGood<T>(s: Bag<T>, e0: Id, e1: Id, e2: Id, e3: Id)
    requires Good(s) && Distinct4(e0, e1, e2, e3)
    requires e0 !in s.records && e1 !in s.records && e2 !in s.records && e3 !in s.records
    requires forall j :: j >= s.next + 4 ==> ToAlpha(j) != e0 && ToAlpha(j) != e1 && ToAlpha(j) != e2 && ToAlpha(j) != e3
    ensures var r := QuadStored(Bag(s.records, s.order, s.next + 4), e0, e1, e2, e3);
      && Good(r)
      && r.order == s.order + [e0, e1, e2, e3]
  {
    var s0 := Bag(s.records, s.order, s.next + 4);
    var r := QuadStored(s0, e0, e1, e2, e3);
    QuadStoredGood(s0, e0, e1, e2, e3);
    QuadStoredLinks(s0, e0, e1, e2, e3);
    QuadStoredRecords(s0, e0, e1, e2, e3);
    NewQuadLinked(LinksOf(s.records), e0, e1, e2, e3);
    FreshKept(s.records, r.records, e0, e1, e2, e3, s.next);
  }

  /** The stored quad is a lone edge e0 whose rotations are e1, e2 and e3. */
  lemma QuadStoredIsolated<T>(s: Bag<T>, e0: Id, e1: Id, e2: Id, e3: Id)
    requires Linked(LinksOf(s.records)) && Distinct4(e0, e1, e2, e3)
    ensures var g := LinksOf(QuadStored(s, e0, e1, e2, e3).records);
      && IsolatedQuad(g, e0)
      && Rot(g, e0) == e1 && Sym(g, e0) == e2 && InvRot(g, e0) == e3
  {
    QuadStoredLinks(s, e0, e1, e2, e3);
    NewQuadIsolated(LinksOf(s.records), e0, e1, e2, e3);
  }

  /** Adding keys the counter will not produce again to a map whose keys it will not
      produce again keeps that property. */
  lemma FreshKept<T>(m: Records<T>, m': Records<T>, e0: Id, e1: Id, e2: Id, e3: Id, n: nat)
    requires m'.Keys == m.Keys + {e0, e1, e2, e3}
    requires forall j :: j >= n ==> ToAlpha(j) !in m
    requires forall j :: j >= n + 4 ==> ToAlpha(j) != e0 && ToAlpha(j) != e1 && ToAlpha(j) != e2 && ToAlpha(j) != e3
    ensures forall j :: j >= n + 4 ==> ToAlpha(j) !in m'
  {
  }

  /** `createEdge` keeps the bag good: the four ids are new and distinct, they are appended
      to the insertion order, and the returned edge is a lone edge whose rotations are
      the four ids in order. */
  lemma EdgeCreatedGood<T>(s: Bag<T>)
    requires Good(s)
    ensures var (r, e) := EdgeCreated(s);
      && Good(r)
      && r.order == s.order + QuadIds(s.next)
      && IsolatedQuad(LinksOf(r.records), e)
      && Rot(LinksOf(r.records), e) == ToAlpha(s.next + 1)
      && Sym(LinksOf(r.records), e) == ToAlpha(s.next + 2)
      && InvRot(LinksOf(r.records), e) == ToAlpha(s.next + 3)
  {
    var n := s.next;
    QuadIdsFresh(s);
    QuadStoredLone(s, ToAlpha(n), ToAlpha(n + 1), ToAlpha(n + 2), ToAlpha(n + 3));
  }

  /** `QuadStoredKeepsGood` and `QuadStoredIsolated` together, on ids that stay abstract. */
  lemma QuadStoredLone<T>(s: Bag<T>, e0: Id, e1: Id, e2: Id, e3: Id)
    requires Good(s) && Distinct4(e0, e1, e2, e3)
    requires e0 !in s.records && e1 !in s.records && e2 !in s.records && e3 !in s.records
    requires forall j :: j >= s.next + 4 ==> ToAlpha(j) != e0 && ToAlpha(j) != e1 && ToAlpha(j) != e2 && ToAlpha(j) != e3
    ensures var r := QuadStored(Bag(s.records, s.order, s.next + 4), e0, e1, e2, e3);
      && Good(r)
      && r.order == s.order + [e0, e1, e2, e3]
      && IsolatedQuad(LinksOf(r.records), e0)
      && Rot(LinksOf(r.records), e0) == e1 && Sym(LinksOf(r.records), e0) == e2
      && InvRot(LinksOf(r.records), e0) == e3
  {
    QuadStoredKeepsGood(s, e0, e1, e2, e3);
    QuadStoredIsolated(Bag(s.records, s.order, s.next + 4), e0, e1, e2, e3);
  }

  /** The next four ids of a good bag are distinct, unused, and not produced again. */
  lemma QuadIdsFresh<T>(s: Bag<T>)
    requires Good(s)
    ensures var n := s.next;
      && Distinct4(ToAlpha(n), ToAlpha(n + 1), ToAlpha(n + 2), ToAlpha(n + 3))
      && ToAlpha(n) !in s.records && ToAlpha(n + 1) !in s.records
      && ToAlpha(n + 2) !in s.records && ToAlpha(n + 3) !in s.records
      && forall j :: j >= n + 4 ==>
           ToAlpha(j) != ToAlpha(n) && ToAlpha(j) != ToAlpha(n + 1) &&
           ToAlpha(j) != ToAlpha(n + 2) && ToAlpha(j) != ToAlpha(n + 3)
  {
    var n := s.next;
    QuadIdsDistinct(n);
    forall j | j >= n + 4
      ensures ToAlpha(j) != ToAlpha(n) && ToAlpha(j) != ToAlpha(n + 1)
      ensures ToAlpha(j) != ToAlpha(n + 2) && ToAlpha(j) != ToAlpha(n + 3)
    {
      QuadIdsNotReused(n, j);
    }
  }

  /** Four distinct ids form a sequence without repeats. */
  lemma DistinctFour(a: Id, b: Id, c: Id, d: Id)
    requires Distinct4(a, b, c, d)
    ensures Distinct([a, b, c, d])
  {
  }

  /** The counter's next four ids are distinct, and none is produced again later. */
  lemma QuadIdsDistinct(next: nat)
    requires next >= 1
    ensures Distinct4(ToAlpha(next), ToAlpha(next + 1), ToAlpha(next + 2), ToAlpha(next + 3))
    ensures Distinct(QuadIds(next))
  {
    ToAlphaInjective(next, next + 1);
    ToAlphaInjective(next, next + 2);
    ToAlphaInjective(next, next + 3);
    ToAlphaInjective(next + 1, next + 2);
    ToAlphaInjective(next + 1, next + 3);
    ToAlphaInjective(next + 2, next + 3);
    DistinctFour(ToAlpha(next), ToAlpha(next + 1), ToAlpha(next + 2), ToAlpha(next + 3));
  }

  /** No later counter value renders to one of the four ids. */
  lemma QuadIdsNotReused(next: nat, j: nat)
    requires next >= 1 && j >= next + 4
    ensures ToAlpha(j) !in QuadIds(next)
  {
    ToAlphaInjective(j, next);
    ToAlphaInjective(j, next + 1);
    ToAlphaInjective(j, next + 2);
    ToAlphaInjective(j, next + 3);
  }

  /** `updateEdgeRecord({ id, onextId: x })`: only the record's origin-next edge changes. */
  function Relink<T>(m: Records<T>, id: Id, x: Id): (r: Records<T>)
    requires id in m
    ensures r.Keys == m.Keys
    ensures forall k :: k in m ==> r[k].id == m[k].id && r[k].rotId == m[k].rotId && r[k].data == m[k].data
  {
    Updated(m, id, Some(x), None)
  }

  /** The four origin-next updates of `splice(a, b)` on the records, in the order the
      source issues them; no data is written. */
  function Relinked<T>(m: Records<T>, a: Id, b: Id): (r: Records<T>)
    requires Linked(LinksOf(m)) && a in m && b in m
    ensures r.Keys == m.Keys
    ensures forall k :: k in m ==> r[k].id == m[k].id && r[k].data == m[k].data
  {
    var g := LinksOf(m);
    var alpha, beta := Alpha(g, a), Alpha(g, b);
    var t1, t2, t3, t4 := Onext(g, b), Onext(g, a), Onext(g, beta), Onext(g, alpha);
    Relink(Relink(Relink(Relink(m, a, t1), b, t2), alpha, t3), beta, t4)
  }

  /** The links of the relinked records are those of `SpliceLinks`. */
  lemma RelinkedLinks<T>(m: Records<T>, a: Id, b: Id)
    requires Linked(LinksOf(m)) && a in m && b in m
    ensures LinksOf(Relinked(m, a, b)) == SpliceLinks(LinksOf(m), a, b)
  {
    var g := LinksOf(m);
    var alpha, beta := Alpha(g, a), Alpha(g, b);
    var t1, t2, t3, t4 := Onext(g, b), Onext(g, a), Onext(g, beta), Onext(g, alpha);
    var m1 := Relink(m, a, t1);
    var m2 := Relink(m1, b, t2);
    var m3 := Relink(m2, alpha, t3);
    LinksOfRelinked(m, a, t1);
    LinksOfRelinked(m1, b, t2);
    LinksOfRelinked(m2, alpha, t3);
    LinksOfRelinked(m3, beta, t4);
  }

  /** The two data assignments that end `splice`: `b.odata = d`, then `beta.odata =
      x.odata` with x's data read after the first one. Each writes over an origin orbit. */
  function OriginWrites<T>(m: Records<T>, b: Id, d: Option<T>, beta: Id, x: Id): (r: Records<T>)
    requires Linked(LinksOf(m)) && b in m && beta in m && x in m
    ensures r.Keys == m.Keys && LinksOf(r) == LinksOf(m)
    ensures forall k :: k in m ==> r[k].id == m[k].id
  {
    var m2 := WithOriginData(m, b, d);
    WithOriginData(m2, beta, Odata(m2, x))
  }

  /** What the two writes leave in the orbits: the first orbit gets d where the second
      does not reach, and the second orbit gets x's data as it stands after the first
      write. */
  lemma OriginWritesOrbits<T>(m: Records<T>, b: Id, d: Option<T>, beta: Id, x: Id)
    requires Linked(LinksOf(m)) && b in m && beta in m && x in m
    ensures var ob, obeta := Orbit(LinksOf(m), Origin, b), Orbit(LinksOf(m), Origin, beta);
      var xData := if d.Some? && x in ob then d else Odata(m, x);
      var r := OriginWrites(m, b, d, beta, x);
      && (d.Some? ==> forall k :: k in ob && k !in obeta ==> Odata(r, k) == d)
      && (xData.Some? ==> forall k :: k in obeta ==> Odata(r, k) == xData)
  {
    var m2 := WithOriginData(m, b, d);
    assert LinksOf(m2) == LinksOf(m);
  }

  /** Outside the two orbits the writes change nothing. */
  lemma OriginWritesElsewhere<T>(m: Records<T>, b: Id, d: Option<T>, beta: Id, x: Id)
    requires Linked(LinksOf(m)) && b in m && beta in m && x in m
    ensures var ob, obeta := Orbit(LinksOf(m), Origin, b), Orbit(LinksOf(m), Origin, beta);
      var r := OriginWrites(m, b, d, beta, x);
      forall k :: k in m && k !in ob && k !in obeta ==> Odata(r, k) == Odata(m, k)
  {
    var m2 := WithOriginData(m, b, d);
    assert LinksOf(m2) == LinksOf(m);
  }

  /** The writes never clear data. */
  lemma OriginWritesKeepData<T>(m: Records<T>, b: Id, d: Option<T>, beta: Id, x: Id)
    requires Linked(LinksOf(m)) && b in m && beta in m && x in m
    ensures var r := OriginWrites(m, b, d, beta, x);
      forall k :: k in m && Odata(m, k).Some? ==> Odata(r, k).Some?
  {
    var m2 := WithOriginData(m, b, d);
    assert LinksOf(m2) == LinksOf(m);
  }

  /** `splice(a, b)` on the records: the four relinks, then `b.odata = a.odata` and
      `beta.odata = alpha.odata`, each read at the moment of its assignment and written
      over the whole origin orbit as it stands after the relinks. alpha and beta are
      those of the links before the relinks. */
  function Spliced<T>(m: Records<T>, a: Id, b: Id): (r: Records<T>)
    requires Linked(LinksOf(m)) && a in m && b in m
    ensures r.Keys == m.Keys
    ensures forall k :: k in m ==> r[k].id == m[k].id
  {
    var g := LinksOf(m);
    var m1 := Relinked(m, a, b);
    RelinkedLinks(m, a, b);
    OriginWrites(m1, b, Odata(m, a), Alpha(g, b), Alpha(g, a))
  }

  /** The data writes of `splice` leave the links alone: its links are those of
      `SpliceLinks`. */
  lemma SplicedLinks<T>(m: Records<T>, a: Id, b: Id)
    requires Linked(LinksOf(m)) && a in m && b in m
    ensures LinksOf(Spliced(m, a, b)) == SpliceLinks(LinksOf(m), a, b)
  {
    RelinkedLinks(m, a, b);
  }

  /** What `splice(a, b)` writes into the orbits, taken in the relinked records: b's orbit
      carries a's origin data where that is defined, and beta's orbit carries alpha's
      data as it stands after that first write. */
  lemma SplicedData<T>(m: Records<T>, a: Id, b: Id)
    requires Linked(LinksOf(m)) && a in m && b in m
    ensures var m1 := Relinked(m, a, b);
      Linked(LinksOf(m1)) &&
      var alpha, beta := Alpha(LinksOf(m), a), Alpha(LinksOf(m), b);
      var ob, obeta := Orbit(LinksOf(m1), Origin, b), Orbit(LinksOf(m1), Origin, beta);
      var alphaData := if Odata(m, a).Some? && alpha in ob then Odata(m, a) else Odata(m, alpha);
      var r := Spliced(m, a, b);
      && (Odata(m, a).Some? ==> forall k :: k in ob && k !in obeta ==> Odata(r, k) == Odata(m, a))
      && (alphaData.Some? ==> forall k :: k in obeta ==> Odata(r, k) == alphaData)
  {
    var g := LinksOf(m);
    var m1 := Relinked(m, a, b);
    RelinkedLinks(m, a, b);
    OriginWritesOrbits(m1, b, Odata(m, a), Alpha(g, b), Alpha(g, a));
  }

  /** `splice(a, b)` keeps the data of every record outside the two orbits it writes,
      and never clears data. */
  lemma SplicedDataElsewhere<T>(m: Records<T>, a: Id, b: Id)
    requires Linked(LinksOf(m)) && a in m && b in m
    ensures var m1 := Relinked(m, a, b);
      Linked(LinksOf(m1)) &&
      var beta := Alpha(LinksOf(m), b);
      var ob, obeta := Orbit(LinksOf(m1), Origin, b), Orbit(LinksOf(m1), Origin, beta);
      var r := Spliced(m, a, b);
      && (forall k :: k in m && k !in ob && k !in obeta ==> Odata(r, k) == Odata(m, k))
      && (forall k :: k in m && Odata(m, k).Some? ==> Odata(r, k).Some?)
  {
    var g := LinksOf(m);
    var m1 := Relinked(m, a, b);
    RelinkedLinks(m, a, b);
    OriginWritesElsewhere(m1, b, Odata(m, a), Alpha(g, b), Alpha(g, a));
    OriginWritesKeepData(m1, b, Odata(m, a), Alpha(g, b), Alpha(g, a));
  }

  /** A change of records that keeps every key and every record's own id keeps the bag
      sound. */
  lemma SoundKept<T>(s: Bag<T>, m': Records<T>)
    requires Sound(s)
    requires m'.Keys == s.records.Keys && forall k :: k in s.records ==> m'[k].id == s.records[k].id
    ensures Sound(Bag(m', s.order, s.next))
  {
  }

  /** `splice(a, b)` on the bag: only the records change, the bag stays good, and the
      links become those of `SpliceLinks`. */
  function SplicedBag<T>(s: Bag<T>, a: Id, b: Id): (r: Bag<T>)
    requires Good(s) && a in s.records && b in s.records
    ensures r.order == s.order && r.next == s.next && r.records.Keys == s.records.Keys
    ensures Good(r)
    ensures LinksOf(r.records) == SpliceLinks(LinksOf(s.records), a, b)
  {
    var m := Spliced(s.records, a, b);
    SoundKept(s, m);
    SplicedLinks(s.records, a, b);
    Bag(m, s.order, s.next)
  }

  /** The splices `deleteEdge` makes when its guard fires: `splice(e, e.oprev)`, then
      `splice(e.sym, e.sym.oprev)` with e.sym and its oprev read after the first splice. */
  function Isolated<T>(s: Bag<T>, e: Id): (r: Bag<T>)
    requires Good(s) && e in s.records
    ensures Good(r) && r.order == s.order && r.next == s.next && r.records.Keys == s.records.Keys
    ensures LinksOf(r.records) == IsolatedLinks(LinksOf(s.records), e)
  {
    var g := LinksOf(s.records);
    var s1 := SplicedBag(s, e, Oprev(g, e));
    var g1 := LinksOf(s1.records);
    SplicedBag(s1, Sym(g1, e), Oprev(g1, Sym(g1, e)))
  }

  /** The state after the guard of `deleteEdge`: its two splices when it fires. */
  function Guarded<T>(s: Bag<T>, e: Id, guard: Guard): (r: Bag<T>)
    requires Good(s) && e in s.records
    ensures Good(r) && r.order == s.order && r.next == s.next && r.records.Keys == s.records.Keys
    ensures LinksOf(r.records) == GuardedLinks(LinksOf(s.records), e, guard)
  {
    if Fires(guard, LinksOf(s.records), e) then Isolated(s, e) else s
  }

  /** The four `deleteEdgeRecord` calls, for ids read before the first of them. */
  function QuadRemoved<T>(s: Bag<T>, e0: Id, e1: Id, e2: Id, e3: Id): (r: Bag<T>)
    ensures r.records.Keys == s.records.Keys - {e0, e1, e2, e3} && r.next == s.next
    ensures forall k :: k in r.records ==> r.records[k] == s.records[k]
  {
    Bag(Deleted(Deleted(Deleted(Deleted(s.records, e0), e1), e2), e3),
        Without(Without(Without(Without(s.order, e0), e1), e2), e3),
        s.next)
  }

  /** `deleteEdge(e)`: the guard, then the removal of e, e.rot, e.sym and e.invrot as
      they stand after it; e is returned. The source runs the `AsWritten` guard. */
  function EdgeDeleted<T>(s: Bag<T>, e: Id, guard: Guard): (r: (Bag<T>, Id))
    requires Good(s) && e in s.records
    ensures r.1 == e
  {
    var t := Guarded(s, e, guard);
    var g := LinksOf(t.records);
    (QuadRemoved(t, e, Rot(g, e), Sym(g, e), InvRot(g, e)), e)
  }

  /** Deleting a key keeps the store well formed. */
  lemma DeletedWellStored<T>(m: Records<T>, order: seq<Id>, id: Id)
    requires WellStored(m, order)
    ensures WellStored(Deleted(m, id), Without(order, id))
  {
  }

  /** Removing a quad keeps the bag sound. */
  lemma QuadRemovedSound<T>(s: Bag<T>, e0: Id, e1: Id, e2: Id, e3: Id)
    requires Sound(s)
    ensures Sound(QuadRemoved(s, e0, e1, e2, e3))
  {
    var m1, o1 := Deleted(s.records, e0), Without(s.order, e0);
    DeletedWellStored(s.records, s.order, e0);
    var m2, o2 := Deleted(m1, e1), Without(o1, e1);
    DeletedWellStored(m1, o1, e1);
    var m3, o3 := Deleted(m2, e2), Without(o2, e2);
    DeletedWellStored(m2, o2, e2);
    DeletedWellStored(m3, o3, e3);
  }

  /** Removing four records removes their links and keeps all others. */
  lemma QuadRemovedLinks<T>(s: Bag<T>, e0: Id, e1: Id, e2: Id, e3: Id)
    ensures LinksOf(QuadRemoved(s, e0, e1, e2, e3).records) == LinksOf(s.records) - {e0, e1, e2, e3}
  {
  }

  /** The links `deleteEdge` leaves are those of `DeletedLinks`. */
  lemma EdgeDeletedLinks<T>(s: Bag<T>, e: Id, guard: Guard)
    requires Good(s) && e in s.records
    ensures LinksOf(EdgeDeleted(s, e, guard).0.records) == DeletedLinks(LinksOf(s.records), e, guard)
  {
    var t := Guarded(s, e, guard);
    var g := LinksOf(t.records);
    QuadRemovedLinks(t, e, Rot(g, e), Sym(g, e), InvRot(g, e));
  }

  /** `deleteEdge` keeps the bag sound, and removes exactly the four records of e's quad as
      it stands after the guard. */
  lemma EdgeDeletedSound<T>(s: Bag<T>, e: Id, guard: Guard)
    requires Good(s) && e in s.records
    ensures var r := EdgeDeleted(s, e, guard).0;
      && Sound(r)
      && r.records.Keys == s.records.Keys - QuadOf(GuardedLinks(LinksOf(s.records), e, guard), e)
  {
    var t := Guarded(s, e, guard);
    var g := LinksOf(t.records);
    QuadRemovedSound(t, e, Rot(g, e), Sym(g, e), InvRot(g, e));
  }

  /** `deleteEdge` keeps the bag good exactly when, after the guard's splices, no record
      outside e's quad links into it. */
  lemma EdgeDeletedGood<T>(s: Bag<T>, e: Id, guard: Guard)
    requires Good(s) && e in s.records
    ensures Good(EdgeDeleted(s, e, guard).0)
      <==> Detached(GuardedLinks(LinksOf(s.records), e, guard), QuadOf(GuardedLinks(LinksOf(s.records), e, guard), e))
  {
    var h := GuardedLinks(LinksOf(s.records), e, guard);
    EdgeDeletedSound(s, e, guard);
    EdgeDeletedLinks(s, e, guard);
    DroppedLinked(h, QuadOf(h, e));
  }

  /** `createEdge` keeps every record and adds the quad of `NewQuadLinks`. */
  lemma EdgeCreatedLinks<T>(s: Bag<T>)
    ensures var n := s.next;
      LinksOf(EdgeCreated(s).0.records) == NewQuadLinks(LinksOf(s.records), ToAlpha(n), ToAlpha(n + 1), ToAlpha(n + 2), ToAlpha(n + 3))
  {
    var n := s.next;
    QuadStoredLinksAt(s, ToAlpha(n), ToAlpha(n + 1), ToAlpha(n + 2), ToAlpha(n + 3));
  }

  /** `createEdge` keeps every key, and the edge it returns is live. */
  lemma EdgeCreatedKeys<T>(s: Bag<T>)
    ensures s.records.Keys <= EdgeCreated(s).0.records.Keys
    ensures EdgeCreated(s).1 in EdgeCreated(s).0.records
  {
    var n := s.next;
    QuadStoredLinksAt(s, ToAlpha(n), ToAlpha(n + 1), ToAlpha(n + 2), ToAlpha(n + 3));
  }

  /** The quad stored with the counter moved on by four. */
  lemma QuadStoredLinksAt<T>(s: Bag<T>, e0: Id, e1: Id, e2: Id, e3: Id)
    ensures var r := QuadStored(Bag(s.records, s.order, s.next + 4), e0, e1, e2, e3);
      && LinksOf(r.records) == NewQuadLinks(LinksOf(s.records), e0, e1, e2, e3)
      && s.records.Keys <= r.records.Keys && e0 in r.records
  {
    var s0 := Bag(s.records, s.order, s.next + 4);
    QuadStoredLinks(s0, e0, e1, e2, e3);
    QuadStoredKeys(s0, e0, e1, e2, e3);
  }

  /** `createEdge` keeps every key and adds e0. */
  lemma QuadStoredKeys<T>(s: Bag<T>, e0: Id, e1: Id, e2: Id, e3: Id)
    ensures s.records.Keys <= QuadStored(s, e0, e1, e2, e3).records.Keys
    ensures e0 in QuadStored(s, e0, e1, e2, e3).records
  {
  }

  /** `concat(a, b)` on the bag. */
  function Concatenated<T>(s: Bag<T>, a: Id, b: Id): (r: Bag<T>)
    requires Good(s) && a in s.records && b in s.records
    ensures Good(r) && r.order == s.order && r.next == s.next && r.records.Keys == s.records.Keys
    ensures LinksOf(r.records) == ConcatLinks(LinksOf(s.records), a, b)
  {
    var g := LinksOf(s.records);
    SplicedBag(s, Sym(g, a), b)
  }

  /** `addEdge(a)` on the bag: `createEdge`, then `splice(a.sym, b)` for the new edge b,
      which is returned. */
  function EdgeAdded<T>(s: Bag<T>, a: Id): (r: (Bag<T>, Id))
    requires Good(s) && a in s.records
    ensures Good(r.0) && r.0.next == s.next + 4
    ensures s.records.Keys <= r.0.records.Keys && r.1 in r.0.records
  {
    var (t, b) := EdgeCreated(s);
    EdgeCreatedGood(s);
    EdgeCreatedKeys(s);
    var g := LinksOf(t.records);
    (SplicedBag(t, Sym(g, a), b), b)
  }
  /** The edge `addEdge` returns is the first id drawn from the counter, and the four new
      ids go to the end of the insertion order. */
  lemma EdgeAddedIds<T>(s: Bag<T>, a: Id)
    requires Good(s) && a in s.records
    ensures EdgeAdded(s, a).1 == ToAlpha(s.next)
    ensures EdgeAdded(s, a).0.order == s.order + QuadIds(s.next)
  {
    EdgeCreatedGood(s);
  }

  /** The links `addEdge` leaves are those of `AddEdgeLinks` with the counter's next four
      ids. */
  lemma EdgeAddedLinks<T>(s: Bag<T>, a: Id, e0: Id, e1: Id, e2: Id, e3: Id)
    requires Good(s) && a in s.records && NextIds(s.next, e0, e1, e2, e3)
    ensures LinksOf(EdgeAdded(s, a).0.records) == AddEdgeLinks(LinksOf(s.records), a, e0, e1, e2, e3)
  {
    EdgeCreatedGood(s);
    EdgeCreatedLinks(s);
  }

  /** The two splices of `connect(a, b)` on the bag, for the new edge c. */
  function ConnectSplices<T>(s: Bag<T>, a: Id, b: Id, c: Id): (r: Bag<T>)
    requires Good(s) && a in s.records && b in s.records && c in s.records
    ensures Good(r) && r.order == s.order && r.next == s.next && r.records.Keys == s.records.Keys
    ensures LinksOf(r.records) == ConnectSplicesLinks(LinksOf(s.records), a, b, c)
  {
    var g := LinksOf(s.records);
    var t1 := SplicedBag(s, Lnext(g, a), c);
    var g1 := LinksOf(t1.records);
    SplicedBag(t1, b, Sym(g1, c))
  }

  /** `connect(a, b)` on the bag: `createEdge`, then the two splices for the new edge c,
      which is returned. */
  function Connected<T>(s: Bag<T>, a: Id, b: Id): (r: (Bag<T>, Id))
    requires Good(s) && a in s.records && b in s.records
    ensures Good(r.0) && r.0.next == s.next + 4
    ensures s.records.Keys <= r.0.records.Keys && r.1 in r.0.records
  {
    var (t, c) := EdgeCreated(s);
    EdgeCreatedGood(s);
    EdgeCreatedKeys(s);
    (ConnectSplices(t, a, b, c), c)
  }
  /** The edge `connect` returns is the first id drawn from the counter, and the four new
      ids go to the end of the insertion order. */
  lemma ConnectedIds<T>(s: Bag<T>, a: Id, b: Id)
    requires Good(s) && a in s.records && b in s.records
    ensures Connected(s, a, b).1 == ToAlpha(s.next)
    ensures Connected(s, a, b).0.order == s.order + QuadIds(s.next)
  {
    EdgeCreatedGood(s);
  }

  /** The links `connect` leaves are those of `ConnectLinks` with the counter's next four
      ids. */
  lemma ConnectedLinks<T>(s: Bag<T>, a: Id, b: Id, e0: Id, e1: Id, e2: Id, e3: Id)
    requires Good(s) && a in s.records && b in s.records && NextIds(s.next, e0, e1, e2, e3)
    ensures LinksOf(Connected(s, a, b).0.records) == ConnectLinks(LinksOf(s.records), a, b, e0, e1, e2, e3)
  {
    EdgeCreatedGood(s);
    EdgeCreatedLinks(s);
  }

  /** The fold of `addEdge` in `addPolygon`: k edges added one after another from cur;
      the last one is returned. */
  function EdgesAdded<T>(s: Bag<T>, cur: Id, k: nat): (r: (Bag<T>, Id))
    requires Good(s) && cur in s.records
    ensures Good(r.0)
    ensures s.records.Keys <= r.0.records.Keys && r.1 in r.0.records
    decreases k
  {
    if k == 0 then (s, cur)
    else
      var before := EdgesAdded(s, cur, k - 1);
      EdgeAdded(before.0, before.1)
  }

  /** The rest of `addPolygon` after its first edge: k edges added after `first`, then
      `connect(penultimate, first)`. */
  function PolygonClosed<T>(s: Bag<T>, first: Id, k: nat): (r: Bag<T>)
    requires Good(s) && first in s.records
    ensures Good(r) && s.records.Keys <= r.records.Keys
  {
    var (t, penultimate) := EdgesAdded(s, first, k);
    Connected(t, penultimate, first).0
  }

  /** `addPolygon(n)` on the bag: nothing for n below 2 (the source throws), otherwise a
      first edge, n - 2 edges added after it, and `connect(penultimate, first)`; the first
      edge is returned. */
  function PolygonAdded<T>(s: Bag<T>, n: int): (r: Option<(Bag<T>, Id)>)
    requires Good(s)
    ensures r.Some? ==> Good(r.value.0) && r.value.1 in r.value.0.records
  {
    if n < 2 then None
    else
      var (t, first) := EdgeCreated(s);
      CreatedGood(s);
      Some((PolygonClosed(t, first, InnerEdges(n)), first))
  }

  /** The length of the `new Array(n - 2)` that `addPolygon(n)` folds over: the edges
      added between the first one and the closing `connect`. */
  function InnerEdges(n: int): (k: nat)
    requires n >= 2
    ensures k + 2 == n
  {
    n - 2
  }

  /** The edge `createEdge` returns is live in the good bag it leaves. */
  lemma CreatedGood<T>(s: Bag<T>)
    requires Good(s)
    ensures Good(EdgeCreated(s).0) && EdgeCreated(s).1 in EdgeCreated(s).0.records
  {
    EdgeCreatedGood(s);
    EdgeCreatedKeys(s);
  }

  /** `addPolygon(n)` throws exactly when n is below 2. */
  lemma PolygonAddedFails<T>(s: Bag<T>, n: int)
    requires Good(s)
    ensures PolygonAdded(s, n).None? <==> n < 2
  {
  }

  /** The first half of `swap(e)`: `splice(e, a)` and `splice(e.sym, b)`, which take e out
      of both endpoint rings. */
  function SwapOpened<T>(s: Bag<T>, e: Id, a: Id, b: Id): (r: Bag<T>)
    requires Good(s) && e in s.records && a in s.records && b in s.records
    ensures Good(r) && r.order == s.order && r.next == s.next && r.records.Keys == s.records.Keys
    ensures LinksOf(r.records) == SwapOpenedLinks(LinksOf(s.records), e, a, b)
  {
    var s1 := SplicedBag(s, e, a);
    var g1 := LinksOf(s1.records);
    SplicedBag(s1, Sym(g1, e), b)
  }

  /** The second half of `swap(e)`: `splice(e, a.lnext)` and `splice(e.sym, b.lnext)`,
      which put e back between the other two corners. */
  function SwapClosed<T>(s: Bag<T>, e: Id, a: Id, b: Id): (r: Bag<T>)
    requires Good(s) && e in s.records && a in s.records && b in s.records
    ensures Good(r) && r.order == s.order && r.next == s.next && r.records.Keys == s.records.Keys
    ensures LinksOf(r.records) == SwapClosedLinks(LinksOf(s.records), e, a, b)
  {
    var g := LinksOf(s.records);
    var s1 := SplicedBag(s, e, Lnext(g, a));
    var g1 := LinksOf(s1.records);
    SplicedBag(s1, Sym(g1, e), Lnext(g1, b))
  }

  /** `swap(e)` on the bag: a = e.oprev and b = e.sym.oprev are read first, then the two
      halves. */
  function Swapped<T>(s: Bag<T>, e: Id): (r: Bag<T>)
    requires Good(s) && e in s.records
    ensures Good(r) && r.order == s.order && r.next == s.next && r.records.Keys == s.records.Keys
    ensures LinksOf(r.records) == SwapLinks(LinksOf(s.records), e)
  {
    var g := LinksOf(s.records);
    var a, b := Oprev(g, e), Oprev(g, Sym(g, e));
    SwapClosed(SwapOpened(s, e, a, b), e, a, b)
  }
}
