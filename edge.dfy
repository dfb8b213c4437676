/**
 * The edge views of src/edge.ts. An edge is named by its id; every getter reads the
 * record store. `rot` and `onext` follow the two stored links, and all other navigators
 * are compositions of those two. The four orbits walk one navigator from an edge until an
 * edge already visited comes round again. The `odata` setter writes the given data into
 * every record of the edge's origin orbit.
 */
module Edges {
  import opened Wrappers
  import opened EdgeRecords

  /** The two links of a record: its rotation and its origin-next edge. */
  datatype Link = Link(rotId: Id, onextId: Id)

  type Links = map<Id, Link>

  /** The link structure of a store, which is all that navigation reads. */
  function LinksOf<T>(m: Records<T>): (g: Links)
    ensures g.Keys == m.Keys
    ensures forall k :: k in m ==> g[k] == Link(m[k].rotId, m[k].onextId)
  {
    map k | k in m :: Link(m[k].rotId, m[k].onextId)
  }

  /** Both links of the record under k, if there is one, lead to live records. */
  ghost predicate LinkedAt(g: Links, k: Id) {
    k in g ==> g[k].rotId in g && g[k].onextId in g
  }

  /** Every link of every record leads to a live record, so no navigation step fails. */
  ghost predicate Linked(g: Links) {
    forall k :: LinkedAt(g, k)
  }

  /** `rot`: the record's rotation, which must be live (the getter fails on a missing one). */
  function Rot(g: Links, e: Id): (r: Id)
    requires Linked(g) && e in g
    ensures r in g
  {
    assert LinkedAt(g, e);
    g[e].rotId
  }

  /** `onext`: the record's origin-next edge, which must be live as well. */
  function Onext(g: Links, e: Id): (r: Id)
    requires Linked(g) && e in g
    ensures r in g
  {
    assert LinkedAt(g, e);
    g[e].onextId
  }

  /** `sym` is `rot.rot`. */
  function Sym(g: Links, e: Id): (r: Id)
    requires Linked(g) && e in g
    ensures r in g
  {
    Rot(g, Rot(g, e))
  }

  /** `invrot` is `rot.rot.rot`. */
  function InvRot(g: Links, e: Id): (r: Id)
    requires Linked(g) && e in g
    ensures r in g
  {
    Rot(g, Sym(g, e))
  }

  /** `oprev` is `rot.onext.rot`. */
  function Oprev(g: Links, e: Id): (r: Id)
    requires Linked(g) && e in g
    ensures r in g
  {
    Rot(g, Onext(g, Rot(g, e)))
  }

  /** `dnext` is `sym.onext.sym`. */
  function Dnext(g: Links, e: Id): (r: Id)
    requires Linked(g) && e in g
    ensures r in g
  {
    Sym(g, Onext(g, Sym(g, e)))
  }

  /** `dprev` is `invrot.onext.invrot`. */
  function Dprev(g: Links, e: Id): (r: Id)
    requires Linked(g) && e in g
    ensures r in g
  {
    InvRot(g, Onext(g, InvRot(g, e)))
  }

  /** `lnext` is `invrot.onext.rot`. */
  function Lnext(g: Links, e: Id): (r: Id)
    requires Linked(g) && e in g
    ensures r in g
  {
    Rot(g, Onext(g, InvRot(g, e)))
  }

  /** `lprev` is `onext.sym`. */
  function Lprev(g: Links, e: Id): (r: Id)
    requires Linked(g) && e in g
    ensures r in g
  {
    Sym(g, Onext(g, e))
  }

  /** `rnext` is `rot.onext.invrot`. */
  function Rnext(g: Links, e: Id): (r: Id)
    requires Linked(g) && e in g
    ensures r in g
  {
    InvRot(g, Onext(g, Rot(g, e)))
  }

  /** `rprev` is `sym.onext`. */
  function Rprev(g: Links, e: Id): (r: Id)
    requires Linked(g) && e in g
    ensures r in g
  {
    Onext(g, Sym(g, e))
  }

  /** The navigator each orbit walks: `oorbit` onext, `dorbit` dnext, `lorbit` lnext,
      `rorbit` rnext. */
  datatype Step = Origin | Destination | Left | Right

  function Next(g: Links, s: Step, e: Id): (r: Id)
    requires Linked(g) && e in g
    ensures r in g
  {
    match s
    case Origin => Onext(g, e)
    case Destination => Dnext(g, e)
    case Left => Lnext(g, e)
    case Right => Rnext(g, e)
  }

  /** The walk from cur that stops before the first edge met again, counting the edges in
      `seen` (already yielded) as met. */
  function OrbitFrom(g: Links, s: Step, cur: Id, seen: set<Id>): (r: seq<Id>)
    requires Linked(g) && cur in g && cur !in seen
    decreases g.Keys - seen
    ensures |r| >= 1 && r[0] == cur
    ensures Distinct(r)
    ensures forall i :: 0 <= i < |r| ==> r[i] in g && r[i] !in seen
    ensures forall i {:trigger Next(g, s, r[i])} :: 0 <= i < |r| - 1 ==> Next(g, s, r[i]) == r[i + 1]
    ensures Next(g, s, r[|r| - 1]) in seen || Next(g, s, r[|r| - 1]) in r
  {
    var nxt := Next(g, s, cur);
    if nxt in seen || nxt == cur then [cur]
    else
      var rest := OrbitFrom(g, s, nxt, seen + {cur});
      assert forall i :: 0 <= i < |rest| ==> rest[i] != cur;
      [cur] + rest
  }

  /** The orbit of e: e first, then the successive steps, each edge once, up to the first
      edge that would repeat. */
  function Orbit(g: Links, s: Step, e: Id): (r: seq<Id>)
    requires Linked(g) && e in g
    ensures |r| >= 1 && r[0] == e
    ensures Distinct(r)
    ensures forall i :: 0 <= i < |r| ==> r[i] in g
    ensures forall x :: x in r ==> x in g
    ensures forall i {:trigger Next(g, s, r[i])} :: 0 <= i < |r| - 1 ==> Next(g, s, r[i]) == r[i + 1]
    ensures Next(g, s, r[|r| - 1]) in r
  {
    OrbitFrom(g, s, e, {})
  }

  /** A walk is the orbit: it starts at e, steps one edge at a time, never repeats, and its
      last step leads back into it. Only one sequence has these properties. */
  predicate IsWalk(g: Links, s: Step, e: Id, c: seq<Id>)
    requires Linked(g)
  {
    && |c| >= 1 && c[0] == e
    && Distinct(c)
    && (forall i :: 0 <= i < |c| ==> c[i] in g)
    && (forall i {:trigger Next(g, s, c[i])} :: 0 <= i < |c| - 1 ==> Next(g, s, c[i]) == c[i + 1])
    && Next(g, s, c[|c| - 1]) in c
  }

  /** `OrbitFrom` stops when the next edge was met already. */
  lemma OrbitFromStop(g: Links, s: Step, cur: Id, seen: set<Id>)
    requires Linked(g) && cur in g && cur !in seen
    requires Next(g, s, cur) in seen || Next(g, s, cur) == cur
    ensures OrbitFrom(g, s, cur, seen) == [cur]
  {
  }

  /** One step of `OrbitFrom` when the next edge is new. */
  lemma OrbitFromStep(g: Links, s: Step, cur: Id, seen: set<Id>, rest: seq<Id>)
    requires Linked(g) && cur in g && cur !in seen
    requires Next(g, s, cur) !in seen && Next(g, s, cur) != cur
    requires OrbitFrom(g, s, Next(g, s, cur), seen + {cur}) == rest
    ensures OrbitFrom(g, s, cur, seen) == [cur] + rest
  {
  }

  /** In a sequence without repeats, no element from position i on occurs before i. */
  lemma NotBefore(c: seq<Id>, i: nat, j: nat)
    requires Distinct(c) && i <= j < |c|
    ensures c[j] !in c[..i]
  {
  }

  /** An inner edge of a walk: `OrbitFrom` at i yields the edge and continues as at i + 1. */
  lemma WalkInner(g: Links, s: Step, e: Id, c: seq<Id>, i: nat, seen: set<Id>)
    requires Linked(g) && IsWalk(g, s, e, c) && i < |c| - 1
    requires forall x :: x in seen <==> x in c[..i]
    requires c[i] !in seen && c[i + 1] !in seen + {c[i]}
    requires OrbitFrom(g, s, c[i + 1], seen + {c[i]}) == c[i + 1..]
    ensures OrbitFrom(g, s, c[i], seen) == c[i..]
  {
    assert Next(g, s, c[i]) == c[i + 1];
    OrbitFromStep(g, s, c[i], seen, c[i + 1..]);
    assert c[i..] == [c[i]] + c[i + 1..];
  }

  /** From position i on, a walk is what `OrbitFrom` yields when the edges before i have
      been seen. */
  lemma {:induction false} WalkSuffix(g: Links, s: Step, e: Id, c: seq<Id>, i: nat, seen: set<Id>)
    requires Linked(g) && IsWalk(g, s, e, c) && i < |c|
    requires forall x :: x in seen <==> x in c[..i]
    decreases |c| - i
    ensures c[i] !in seen
    ensures OrbitFrom(g, s, c[i], seen) == c[i..]
  {
    NotBefore(c, i, i);
    if i == |c| - 1 {
      assert c == c[..i] + [c[i]];
      OrbitFromStop(g, s, c[i], seen);
      assert c[i..] == [c[i]];
    } else {
      NotBefore(c, i, i + 1);
      assert c[..i + 1] == c[..i] + [c[i]];
      WalkSuffix(g, s, e, c, i + 1, seen + {c[i]});
      WalkInner(g, s, e, c, i, seen);
    }
  }

  lemma WalkIsOrbit(g: Links, s: Step, e: Id, c: seq<Id>)
    requires Linked(g) && IsWalk(g, s, e, c)
    ensures Orbit(g, s, e) == c
  {
    WalkSuffix(g, s, e, c, 0, {});
    assert c[0..] == c;
  }

  /** `makeOrbitIterable` drained by `Array.from`: a queue holding the next candidate and a
      set of the edges already yielded. Each turn yields the head, marks it seen and queues
      its step unless that was seen already. */
  method OrbitOf(g: Links, s: Step, e: Id) returns (out: seq<Id>)
    requires Linked(g) && e in g
    ensures out == Orbit(g, s, e)
  {
    var queue := [e];
    var seen: set<Id> := {};
    out := [];
    while |queue| > 0
      invariant |queue| <= 1 && seen <= g.Keys
      invariant forall x :: x in seen <==> x in out
      invariant Distinct(out) && forall i :: 0 <= i < |out| ==> out[i] in g
      invariant forall i {:trigger Next(g, s, out[i])} :: 0 <= i < |out| - 1 ==> Next(g, s, out[i]) == out[i + 1]
      invariant out == [] ==> queue == [e]
      invariant out != [] ==> out[0] == e
      invariant queue != [] ==> queue[0] in g && queue[0] !in seen
      invariant queue != [] && out != [] ==> queue[0] == Next(g, s, out[|out| - 1])
      invariant queue == [] ==> out != [] && Next(g, s, out[|out| - 1]) in out
      decreases g.Keys - seen
    {
      var cur := queue[0];
      queue := queue[1..];
      seen := seen + {cur};
      out := out + [cur];
      var nxt := Next(g, s, cur);
      if nxt !in seen {
        queue := queue + [nxt];
      }
    }
    WalkIsOrbit(g, s, e, out);
  }

  /** The `odata` getter. */
  function Odata<T>(m: Records<T>, e: Id): Option<T>
    requires e in m
  {
    m[e].data
  }

  /** The `ddata` getter reads through `sym.odata`. */
  function Ddata<T>(m: Records<T>, e: Id): Option<T>
    requires Linked(LinksOf(m)) && e in m
  {
    Odata(m, Sym(LinksOf(m), e))
  }

  /** Reading `odata` after the setter: every member of e's origin orbit answers the value
      written, and every other record answers what it held before. */
  lemma OdataAfterSet<T>(m: Records<T>, e: Id, v: T, f: Id)
    requires Linked(LinksOf(m)) && e in m && f in m
    ensures var r := WithOriginData(m, e, Some(v));
      Odata(r, f) == if f in Orbit(LinksOf(m), Origin, e) then Some(v) else Odata(m, f)
  {
  }

  /** Reading `ddata` after the `ddata` setter answers the value written. */
  lemma DdataAfterSet<T>(m: Records<T>, e: Id, v: T)
    requires Linked(LinksOf(m)) && e in m
    ensures Ddata(WithOriginData(m, Sym(LinksOf(m), e), Some(v)), e) == Some(v)
  {
    var s := Sym(LinksOf(m), e);
    OdataAfterSet(m, s, v, s);
  }

  /** Data updates, one id after another, as `updateEdgeRecord({ id, data })` calls. */
  function StampData<T>(m: Records<T>, ids: seq<Id>, data: Option<T>): (r: Records<T>)
    requires forall i :: 0 <= i < |ids| ==> ids[i] in m
    ensures r.Keys == m.Keys
    ensures forall k :: k in m ==> r[k] == if data.Some? && k in ids then m[k].(data := data) else m[k]
    ensures forall k :: k in m ==> r[k].id == m[k].id && r[k].rotId == m[k].rotId && r[k].onextId == m[k].onextId
  {
    if |ids| == 0 then m
    else
      var prev := StampData(m, ids[..|ids| - 1], data);
      assert forall k :: k in ids <==> k in ids[..|ids| - 1] || k == ids[|ids| - 1];
      Updated(prev, ids[|ids| - 1], None, data)
  }

  /** Two stores with the same keys whose records agree on both links have the same links. */
  lemma SameLinks<T>(m: Records<T>, m': Records<T>)
    requires m'.Keys == m.Keys
    requires forall k :: k in m ==> m'[k].rotId == m[k].rotId && m'[k].onextId == m[k].onextId
    ensures LinksOf(m') == LinksOf(m)
  {
  }

  /** Stamping one more id of a list is one more update. */
  lemma StampDataStep<T>(m: Records<T>, ids: seq<Id>, i: nat, data: Option<T>)
    requires i < |ids| && forall j :: 0 <= j < |ids| ==> ids[j] in m
    ensures ids[i] in StampData(m, ids[..i], data)
    ensures StampData(m, ids[..i + 1], data) == Updated(StampData(m, ids[..i], data), ids[i], None, data)
  {
    assert ids[..i + 1][..i] == ids[..i];
  }

  /** The `odata` setter: writes data into every record of e's origin orbit. */
  function WithOriginData<T>(m: Records<T>, e: Id, data: Option<T>): (r: Records<T>)
    requires Linked(LinksOf(m)) && e in m
    ensures r.Keys == m.Keys && LinksOf(r) == LinksOf(m)
    ensures forall k :: k in m ==> r[k].id == m[k].id
    ensures forall k :: k in m ==> r[k] == if data.Some? && k in Orbit(LinksOf(m), Origin, e) then m[k].(data := data) else m[k]
  {
    var r := StampData(m, Orbit(LinksOf(m), Origin, e), data);
    SameLinks(m, r);
    r
  }

  /** The `updateEdgeRecord({ id, data })` calls of the `odata` setter, one per listed id. */
  method StampAll<T>(store: EdgeRecordStore<T>, ids: seq<Id>, data: Option<T>)
    requires store.Valid() && forall i :: 0 <= i < |ids| ==> ids[i] in store.records
    modifies store
    ensures store.Valid() && store.order == old(store.order)
    ensures store.records == StampData(old(store.records), ids, data)
  {
    ghost var m0 := store.records;
    for i := 0 to |ids|
      invariant store.Valid() && store.order == old(store.order)
      invariant store.records == StampData(m0, ids[..i], data)
    {
      StampDataStep(m0, ids, i, data);
      store.Update(ids[i], None, data);
    }
    assert ids[..|ids|] == ids;
  }

  /** The `odata` setter on a store: the orbit is listed first, then every member is updated. */
  method SetOdata<T>(store: EdgeRecordStore<T>, e: Id, data: Option<T>)
    requires store.Valid() && Linked(LinksOf(store.records)) && e in store.records
    modifies store
    ensures store.Valid() && store.order == old(store.order)
    ensures store.records == WithOriginData(old(store.records), e, data)
  {
    var orbit := OrbitOf(LinksOf(store.records), Origin, e);
    StampAll(store, orbit, data);
  }

  /** The `ddata` setter writes through `sym.odata`. */
  method SetDdata<T>(store: EdgeRecordStore<T>, e: Id, data: Option<T>)
    requires store.Valid() && Linked(LinksOf(store.records)) && e in store.records
    modifies store
    ensures store.Valid() && store.order == old(store.order)
    ensures store.records == WithOriginData(old(store.records), Sym(LinksOf(old(store.records)), e), data)
  {
    SetOdata(store, Sym(LinksOf(store.records), e), data);
  }

  /** e heads four distinct records whose rotations cycle e, e1, e2, e3 and whose links are
      those of a lone edge: e and e2 are their own origin-next, e1 and e3 each other's. */
  ghost predicate IsolatedQuad(g: Links, e: Id) {
    && Linked(g) && e in g
    && var e1 := Rot(g, e);
    && var e2 := Rot(g, e1);
    && var e3 := Rot(g, e2);
    && Rot(g, e3) == e
    && e != e1 && e != e2 && e != e3 && e1 != e2 && e1 != e3 && e2 != e3
    && Onext(g, e) == e && Onext(g, e1) == e3 && Onext(g, e2) == e2 && Onext(g, e3) == e1
  }

  /** On a lone edge every navigator returns e or its sym, and the orbits are [e] for the
      endpoints and [e, e.sym] for the single face. */
  lemma IsolatedNavigation(g: Links, e: Id)
    requires IsolatedQuad(g, e)
    ensures Onext(g, e) == e && Oprev(g, e) == e && Dnext(g, e) == e && Dprev(g, e) == e
    ensures Lnext(g, e) == Sym(g, e) && Lprev(g, e) == Sym(g, e)
    ensures Rnext(g, e) == Sym(g, e) && Rprev(g, e) == Sym(g, e)
    ensures Orbit(g, Origin, e) == [e] && Orbit(g, Destination, e) == [e]
    ensures Orbit(g, Left, e) == [e, Sym(g, e)] && Orbit(g, Right, e) == [e, Sym(g, e)]
  {
    var e2 := Sym(g, e);
    assert Lnext(g, e2) == e && Rnext(g, e2) == e;
    WalkIsOrbit(g, Origin, e, [e]);
    WalkIsOrbit(g, Destination, e, [e]);
    WalkIsOrbit(g, Left, e, [e, e2]);
    WalkIsOrbit(g, Right, e, [e, e2]);
  }
}
