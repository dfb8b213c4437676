/**
 * The polygons `addPolygon` builds in src/quad-edge-2.ts. The edges it chains with
 * `addEdge` form a path, each edge starting where the previous one ends, and the closing
 * `connect` turns the path into a ring whose left face is the polygon. Every navigator
 * and every orbit of a ring edge follows from the ring's link table.
 */
module QuadEdgePolygons {
  import opened EdgeRecords
  import opened Edges
  import opened QuadLinks
  import opened QuadTables

  /** Every quad of qs has four distinct ids and no two quads share one. */
  predicate Separate(qs: seq<Quad>) {
    && (forall i :: 0 <= i < |qs| ==> Own(qs[i]))
    && (forall i, j :: 0 <= i < j < |qs| ==> Apart(qs[i], qs[j]))
  }

  /** Any two different quads of a separate sequence share no id. */
  lemma SeparateApart(qs: seq<Quad>, i: nat, j: nat)
    requires Separate(qs) && i < |qs| && j < |qs| && i != j
    ensures Apart(qs[i], qs[j]) && Own(qs[i])
  {
    if j < i {
      assert Apart(qs[j], qs[i]);
    }
  }

  /** A prefix of a separate sequence is separate. */
  lemma SeparatePrefix(qs: seq<Quad>, k: nat)
    requires Separate(qs) && k <= |qs|
    ensures Separate(qs[..k])
  {
    var p := qs[..k];
    forall i, j | 0 <= i < j < |p| ensures Apart(p[i], p[j]) {
      assert p[i] == qs[i] && p[j] == qs[j];
    }
  }

  /** The links of the i-th edge of a path: its origin ring holds the previous edge's sym
      (or only itself, at the start) and its destination ring the next edge (or only
      itself, at the end). */
  ghost predicate PathAt(g: Links, qs: seq<Quad>, i: nat)
    requires i < |qs|
  {
    Onexts(g, qs[i],
      if i == 0 then qs[i].e0 else qs[i - 1].e2,
      if i == 0 then qs[i].e3 else qs[i - 1].e1,
      if i == |qs| - 1 then qs[i].e2 else qs[i + 1].e0,
      if i == |qs| - 1 then qs[i].e1 else qs[i + 1].e3)
  }

  /** The chain of edges qs[0], ..., qs[n - 1], each starting where the previous one ends. */
  ghost predicate Path(g: Links, qs: seq<Quad>) {
    forall i :: 0 <= i < |qs| ==> PathAt(g, qs, i)
  }

  /** A new quad added next to a path, followed by `splice(last.sym, z.e0)` (the splice
      of `addEdge(last)` and the first splice of `connect(last, _)`), extends the path by
      the new edge. */
  lemma ExtendPath(g: Links, qs: seq<Quad>, z: Quad)
    requires Path(g, qs) && |qs| >= 1 && Separate(qs + [z])
    ensures var h := NewQuadLinks(g, z.e0, z.e1, z.e2, z.e3);
      var last := qs[|qs| - 1];
      && Rots(h, last) && Lone(h, z)
      && Sym(h, last.e0) == last.e2 && Lnext(h, last.e0) == last.e2
      && Path(SpliceLinks(h, last.e2, z.e0), qs + [z])
  {
    var n := |qs|;
    var h := NewQuadLinks(g, z.e0, z.e1, z.e2, z.e3);
    var last := qs[n - 1];
    ExtendPathEnd(g, qs, z);
    var r := SpliceLinks(h, last.e2, z.e0);
    forall i | 0 <= i < n + 1 ensures PathAt(r, qs + [z], i) {
      ExtendPathAt(g, qs, z, i);
    }
  }

  /** The links of the last edge of the path and of the new one. */
  lemma ExtendPathEnd(g: Links, qs: seq<Quad>, z: Quad)
    requires Path(g, qs) && |qs| >= 1 && Separate(qs + [z])
    ensures var h := NewQuadLinks(g, z.e0, z.e1, z.e2, z.e3);
      var last := qs[|qs| - 1];
      && Rots(h, last) && Lone(h, z)
      && Sym(h, last.e0) == last.e2 && Lnext(h, last.e0) == last.e2
      && var r := SpliceLinks(h, last.e2, z.e0);
      && PathAt(r, qs + [z], |qs| - 1) && PathAt(r, qs + [z], |qs|)
  {
    SeparateLast(qs, z);
    NewQuadPath(g, qs, z);
    ExtendPathLast(NewQuadLinks(g, z.e0, z.e1, z.e2, z.e3), qs, z);
  }

  /** `ExtendPath` for one edge of the extended path. */
  lemma ExtendPathAt(g: Links, qs: seq<Quad>, z: Quad, i: nat)
    requires Path(g, qs) && |qs| >= 1 && Separate(qs + [z]) && i <= |qs|
    ensures var h := NewQuadLinks(g, z.e0, z.e1, z.e2, z.e3);
      var last := qs[|qs| - 1];
      && Linked(h) && last.e2 in h && z.e0 in h
      && PathAt(SpliceLinks(h, last.e2, z.e0), qs + [z], i)
  {
    if i < |qs| - 1 {
      ExtendPathInner(g, qs, z, i);
    } else if i == |qs| - 1 {
      ExtendPathEnd(g, qs, z);
    } else {
      ExtendPathEnd(g, qs, z);
      assert i == |qs|;
    }
  }

  /** `ExtendPath` for an edge before the last one of the path. */
  lemma ExtendPathInner(g: Links, qs: seq<Quad>, z: Quad, i: nat)
    requires Path(g, qs) && |qs| >= 1 && Separate(qs + [z]) && i < |qs| - 1
    ensures var h := NewQuadLinks(g, z.e0, z.e1, z.e2, z.e3);
      var last := qs[|qs| - 1];
      && Linked(h) && last.e2 in h && z.e0 in h
      && PathAt(SpliceLinks(h, last.e2, z.e0), qs + [z], i)
  {
    SeparateLast(qs, z);
    NewQuadPath(g, qs, z);
    ExtendPathBefore(NewQuadLinks(g, z.e0, z.e1, z.e2, z.e3), qs, z, i);
  }

  /** The quads of a separate sequence qs + [z]. */
  lemma SeparateLast(qs: seq<Quad>, z: Quad)
    requires Separate(qs + [z])
    ensures Separate(qs) && Own(z) && forall i :: 0 <= i < |qs| ==> Apart(qs[i], z)
  {
    var n := |qs|;
    var qz := qs + [z];
    assert qz[n] == z && qs == qz[..n];
    SeparatePrefix(qz, n);
    assert Own(qz[n]);
    forall i | 0 <= i < n ensures Apart(qs[i], z) {
      assert Apart(qz[i], qz[n]);
    }
  }

  /** A new quad apart from every quad of a path leaves the path as it was. */
  lemma NewQuadPath(g: Links, qs: seq<Quad>, z: Quad)
    requires Path(g, qs) && |qs| >= 1 && Own(z)
    requires forall i :: 0 <= i < |qs| ==> Apart(qs[i], z)
    ensures var h := NewQuadLinks(g, z.e0, z.e1, z.e2, z.e3);
      Path(h, qs) && Lone(h, z)
  {
    assert PathAt(g, qs, 0);
    var h := NewQuadLinks(g, z.e0, z.e1, z.e2, z.e3);
    NewQuadLone(g, z);
    forall i | 0 <= i < |qs| ensures PathAt(h, qs, i) {
      assert PathAt(g, qs, i);
    }
  }

  /** The splice that extends a path joins its last edge and the new one. */
  lemma ExtendPathLast(h: Links, qs: seq<Quad>, z: Quad)
    requires Path(h, qs) && |qs| >= 1 && Lone(h, z) && Separate(qs) && Own(z)
    requires forall i :: 0 <= i < |qs| ==> Apart(qs[i], z)
    ensures var last := qs[|qs| - 1];
      && Rots(h, last) && Sym(h, last.e0) == last.e2 && Lnext(h, last.e0) == last.e2
      && var r := SpliceLinks(h, last.e2, z.e0);
      && PathAt(r, qs + [z], |qs| - 1) && PathAt(r, qs + [z], |qs|)
  {
    var n := |qs|;
    var qz := qs + [z];
    var last := qs[n - 1];
    assert PathAt(h, qs, n - 1);
    assert qz[n - 1] == last && qz[n] == z;
    JoinEnds(h, last, z, if n == 1 then last.e0 else qs[n - 2].e2, if n == 1 then last.e3 else qs[n - 2].e1);
    if n > 1 {
      assert qz[n - 2] == qs[n - 2];
    }
  }

  /** `ExtendPath` keeps the edges before the last one as they were. */
  lemma ExtendPathBefore(h: Links, qs: seq<Quad>, z: Quad, i: nat)
    requires Path(h, qs) && Lone(h, z) && Separate(qs) && Own(z)
    requires forall j :: 0 <= j < |qs| ==> Apart(qs[j], z)
    requires i < |qs| - 1
    ensures var last := qs[|qs| - 1];
      PathAt(h, qs, |qs| - 1) && PathAt(SpliceLinks(h, last.e2, z.e0), qs + [z], i)
  {
    var n := |qs|;
    var qz := qs + [z];
    var last := qs[n - 1];
    assert PathAt(h, qs, n - 1);
    assert Alpha(h, last.e2) == last.e3 && Alpha(h, z.e0) == z.e1;
    assert PathAt(h, qs, i);
    SeparateApart(qs, i, n - 1);
    assert Apart(qs[i], z);
    var o0 := if i == 0 then qs[i].e0 else qs[i - 1].e2;
    var o1 := if i == 0 then qs[i].e3 else qs[i - 1].e1;
    SpliceElsewhere(h, last.e2, z.e0, qs[i], o0, o1, qs[i + 1].e0, qs[i + 1].e3);
    assert qz[i] == qs[i] && qz[i + 1] == qs[i + 1];
  }

  /** `splice(a.sym, b)` on an edge a whose destination ring holds a alone and a lone edge
      b: b's origin ring joins a's destination ring. */
  lemma JoinEnds(h: Links, a: Quad, b: Quad, o0: Id, o1: Id)
    requires Onexts(h, a, o0, o1, a.e2, a.e1) && Lone(h, b)
    requires Own(a) && Own(b) && Apart(a, b)
    ensures var r := SpliceLinks(h, a.e2, b.e0);
      && Onexts(r, a, o0, o1, b.e0, b.e3)
      && Onexts(r, b, a.e2, a.e1, b.e2, b.e1)
  {
    SpliceEntries(h, a.e2, b.e0);
  }

  /** `addEdge(last)` with the ids of z extends a path by z. */
  lemma AddEdgePath(g: Links, qs: seq<Quad>, z: Quad)
    requires Path(g, qs) && |qs| >= 1 && Separate(qs + [z])
    ensures Linked(g) && qs[|qs| - 1].e0 in g
    ensures Path(AddEdgeLinks(g, qs[|qs| - 1].e0, z.e0, z.e1, z.e2, z.e3), qs + [z])
  {
    assert PathAt(g, qs, |qs| - 1);
    ExtendPath(g, qs, z);
  }

  /** Moving the first quad of rest to the end of qs keeps qs + rest and its separation. */
  lemma SeparateShift(qs: seq<Quad>, rest: seq<Quad>)
    requires Separate(qs + rest) && |rest| > 0
    ensures Separate(qs + [rest[0]]) && (qs + [rest[0]]) + rest[1..] == qs + rest
  {
    assert qs + [rest[0]] == (qs + rest)[..|qs| + 1];
    SeparatePrefix(qs + rest, |qs| + 1);
  }

  /** The fold of `addEdge` in `addPolygon` extends a path by one edge for each quad of
      rest, and returns the last edge added. */
  lemma {:induction false} AddEdgesPath(g: Links, qs: seq<Quad>, rest: seq<Quad>)
    requires Linked(g) && |qs| >= 1 && qs[|qs| - 1].e0 in g
    requires Path(g, qs) && Separate(qs + rest)
    ensures var r := AddEdgesLinks(g, qs[|qs| - 1].e0, rest);
      Path(r.0, qs + rest) && r.1 == (qs + rest)[|qs + rest| - 1].e0
    decreases |rest|
  {
    if |rest| > 0 {
      var z := rest[0];
      SeparateShift(qs, rest);
      AddEdgePath(g, qs, z);
      var h := AddEdgeLinks(g, qs[|qs| - 1].e0, z.e0, z.e1, z.e2, z.e3);
      AddEdgesPath(h, qs + [z], rest[1..]);
    } else {
      assert qs + rest == qs;
    }
  }

  /** The position before i on a ring of n positions. */
  function Prev(n: nat, i: nat): (p: nat)
    requires i < n
    ensures p < n && (p + 1) % n == i
  {
    if i == 0 then n - 1 else i - 1
  }

  /** The position after i on a ring of n positions. */
  function Succ(n: nat, i: nat): (s: nat)
    requires i < n
    ensures s < n && s == (i + 1) % n && Prev(n, s) == i
  {
    if i == n - 1 then 0 else i + 1
  }

  /** The links of the i-th edge of a ring: its origin ring holds the previous edge's sym
      and its destination ring the next edge. */
  ghost predicate RingAt(g: Links, qs: seq<Quad>, i: nat)
    requires i < |qs|
  {
    var p, q := qs[Prev(|qs|, i)], qs[Succ(|qs|, i)];
    Onexts(g, qs[i], p.e2, p.e1, q.e0, q.e3)
  }

  /** The closed chain of edges qs[0], ..., qs[n - 1], n at least 2, each starting where
      the previous one ends and the last ending where the first starts. */
  ghost predicate Ring(g: Links, qs: seq<Quad>) {
    |qs| >= 2 && Linked(g) && forall i :: 0 <= i < |qs| ==> RingAt(g, qs, i)
  }

  /** `splice(a, b.sym)` on an edge a whose origin ring holds a alone and an edge b whose
      destination ring holds b alone: a's origin ring and b's destination ring join. */
  lemma JoinStartToEnd(h: Links, a: Quad, b: Quad, a2: Id, a3: Id, b0: Id, b1: Id)
    requires Onexts(h, a, a.e0, a.e3, a2, a3) && Onexts(h, b, b0, b1, b.e2, b.e1)
    requires Own(a) && Own(b) && Apart(a, b)
    ensures var r := SpliceLinks(h, a.e0, b.e2);
      && Onexts(r, a, b.e2, b.e1, a2, a3)
      && Onexts(r, b, b0, b1, a.e0, a.e3)
  {
    SpliceEntries(h, a.e0, b.e2);
  }

  /** `connect(last, first)` on a path, with the new quad z: the path extended by z and
      closed into a ring. */
  lemma ClosePath(g: Links, qs: seq<Quad>, z: Quad)
    requires Linked(g) && |qs| >= 1 && qs[0].e0 in g && qs[|qs| - 1].e0 in g
    requires Path(g, qs) && Separate(qs + [z])
    ensures Ring(ConnectLinks(g, qs[|qs| - 1].e0, qs[0].e0, z.e0, z.e1, z.e2, z.e3), qs + [z])
  {
    var n := |qs|;
    var qz := qs + [z];
    var last := qs[n - 1];
    var h := NewQuadLinks(g, z.e0, z.e1, z.e2, z.e3);
    ExtendPath(g, qs, z);
    var h1 := SpliceLinks(h, last.e2, z.e0);
    assert qz[0] == qs[0] && qz[n] == z;
    assert PathAt(h1, qz, n);
    assert Sym(h1, z.e0) == z.e2;
    CloseRing(h1, qz);
  }

  /** `splice(first, last.sym)` closes a path of at least two edges into a ring. */
  lemma CloseRing(h: Links, qs: seq<Quad>)
    requires Path(h, qs) && Separate(qs) && |qs| >= 2
    ensures PathAt(h, qs, 0) && PathAt(h, qs, |qs| - 1)
    ensures Ring(SpliceLinks(h, qs[0].e0, qs[|qs| - 1].e2), qs)
  {
    var n := |qs|;
    CloseEnds(h, qs);
    var r := SpliceLinks(h, qs[0].e0, qs[n - 1].e2);
    forall i | 0 <= i < n ensures RingAt(r, qs, i) {
      CloseAt(h, qs, i);
    }
  }

  /** `CloseRing` for one edge of the ring. */
  lemma CloseAt(h: Links, qs: seq<Quad>, i: nat)
    requires Path(h, qs) && Separate(qs) && |qs| >= 2 && i < |qs|
    ensures PathAt(h, qs, 0) && PathAt(h, qs, |qs| - 1)
    ensures RingAt(SpliceLinks(h, qs[0].e0, qs[|qs| - 1].e2), qs, i)
  {
    if i == 0 {
      CloseEnds(h, qs);
    } else if i == |qs| - 1 {
      CloseEnds(h, qs);
    } else {
      CloseKeeps(h, qs, i);
    }
  }

  /** The closing splice of `ClosePath` joins the first and the last edge. */
  lemma CloseEnds(h: Links, qs: seq<Quad>)
    requires Path(h, qs) && Separate(qs) && |qs| >= 2
    ensures PathAt(h, qs, 0) && PathAt(h, qs, |qs| - 1)
    ensures var r := SpliceLinks(h, qs[0].e0, qs[|qs| - 1].e2);
      Linked(r) && RingAt(r, qs, 0) && RingAt(r, qs, |qs| - 1)
  {
    var n := |qs|;
    assert PathAt(h, qs, 0) && PathAt(h, qs, n - 1);
    SeparateApart(qs, 0, n - 1);
    JoinStartToEnd(h, qs[0], qs[n - 1], qs[1].e0, qs[1].e3, qs[n - 2].e2, qs[n - 2].e1);
  }

  /** The closing splice of `ClosePath` keeps the edges strictly inside the path. */
  lemma CloseKeeps(h: Links, qs: seq<Quad>, i: nat)
    requires Path(h, qs) && Separate(qs) && 0 < i < |qs| - 1
    ensures PathAt(h, qs, 0) && PathAt(h, qs, |qs| - 1)
    ensures RingAt(SpliceLinks(h, qs[0].e0, qs[|qs| - 1].e2), qs, i)
  {
    var n := |qs|;
    assert PathAt(h, qs, 0) && PathAt(h, qs, n - 1) && PathAt(h, qs, i);
    SeparateApart(qs, i, 0);
    SeparateApart(qs, i, n - 1);
    assert Alpha(h, qs[0].e0) == qs[0].e1 && Alpha(h, qs[n - 1].e2) == qs[n - 1].e3;
    SpliceElsewhere(h, qs[0].e0, qs[n - 1].e2, qs[i], qs[i - 1].e2, qs[i - 1].e1, qs[i + 1].e0, qs[i + 1].e3);
  }

  /** `addPolygon(n)` for n = |qs| of at least 2, drawing the ids of qs, builds the ring
      qs: each edge's origin is the previous edge's destination, and the last edge ends
      where the first starts. */
  lemma PolygonRing(g: Links, qs: seq<Quad>)
    requires Linked(g) && |qs| >= 2 && Separate(qs)
    ensures Ring(PolygonLinks(g, qs), qs)
  {
    var n := |qs|;
    var first, z, init := qs[0], qs[n - 1], qs[..n - 1];
    var h := NewQuadLinks(g, first.e0, first.e1, first.e2, first.e3);
    PolygonPath(g, qs);
    var added := AddEdgesLinks(h, first.e0, qs[1..n - 1]);
    Pieces(qs);
    ClosePath(added.0, init, z);
  }

  /** The first edge of `addPolygon` and the edges its fold of `addEdge` adds form a path
      of all quads but the last; the fold returns the last edge of that path. */
  lemma PolygonPath(g: Links, qs: seq<Quad>)
    requires Linked(g) && |qs| >= 2 && Separate(qs)
    ensures var first := qs[0];
      var h := NewQuadLinks(g, first.e0, first.e1, first.e2, first.e3);
      && Linked(h) && first.e0 in h
      && var added := AddEdgesLinks(h, first.e0, qs[1..|qs| - 1]);
      && Path(added.0, qs[..|qs| - 1]) && added.1 == qs[|qs| - 2].e0 && first.e0 in added.0
  {
    var n := |qs|;
    var first := qs[0];
    SeparateApart(qs, 0, 1);
    var h := NewQuadLinks(g, first.e0, first.e1, first.e2, first.e3);
    NewQuadLone(g, first);
    assert PathAt(h, [first], 0);
    Pieces(qs);
    SeparatePrefix(qs, n - 1);
    AddEdgesPath(h, [first], qs[1..n - 1]);
  }

  /** The pieces `addPolygon` cuts qs into: the first quad, the middle ones and the last. */
  lemma Pieces(qs: seq<Quad>)
    requires |qs| >= 2
    ensures [qs[0]] + qs[1..|qs| - 1] == qs[..|qs| - 1]
    ensures qs[..|qs| - 1] + [qs[|qs| - 1]] == qs
    ensures qs[..|qs| - 1][0] == qs[0] && qs[..|qs| - 1][|qs| - 2] == qs[|qs| - 2]
  {
  }

  /** Every navigator of a ring edge E_i = qs[i].e0, with P its previous and N its next
      edge: its origin ring holds P.sym, its destination ring N.sym, its left face runs on
      to N and back to P, its right face the other way. */
  lemma RingNavigation(g: Links, qs: seq<Quad>, i: nat)
    requires Ring(g, qs) && i < |qs|
    ensures RingAt(g, qs, i)
    ensures var e, p, q := qs[i].e0, qs[Prev(|qs|, i)], qs[Succ(|qs|, i)];
      && Rot(g, e) == qs[i].e1 && Sym(g, e) == qs[i].e2 && InvRot(g, e) == qs[i].e3
      && Onext(g, e) == p.e2 && Oprev(g, e) == p.e2
      && Dnext(g, e) == q.e2 && Dprev(g, e) == q.e2
      && Lnext(g, e) == q.e0 && Lprev(g, e) == p.e0
      && Rnext(g, e) == p.e0 && Rprev(g, e) == q.e0
  {
    var n := |qs|;
    assert RingAt(g, qs, i);
    assert RingAt(g, qs, Prev(n, i));
    assert RingAt(g, qs, Succ(n, i));
  }

  /** The origin ring of a ring edge holds it and the previous edge's sym. */
  lemma RingOriginOrbit(g: Links, qs: seq<Quad>, i: nat)
    requires Ring(g, qs) && Separate(qs) && i < |qs|
    ensures RingAt(g, qs, i)
    ensures Orbit(g, Origin, qs[i].e0) == [qs[i].e0, qs[Prev(|qs|, i)].e2]
  {
    var n := |qs|;
    var p := Prev(n, i);
    var c := [qs[i].e0, qs[p].e2];
    RingNavigation(g, qs, i);
    RingNavigation(g, qs, p);
    SeparateApart(qs, i, p);
    assert Succ(n, p) == i;
    assert IsWalk(g, Origin, qs[i].e0, c);
    WalkIsOrbit(g, Origin, qs[i].e0, c);
  }

  /** The destination ring of a ring edge holds it and the next edge's sym. */
  lemma RingDestinationOrbit(g: Links, qs: seq<Quad>, i: nat)
    requires Ring(g, qs) && Separate(qs) && i < |qs|
    ensures RingAt(g, qs, i)
    ensures Orbit(g, Destination, qs[i].e0) == [qs[i].e0, qs[Succ(|qs|, i)].e2]
  {
    var n := |qs|;
    var q := Succ(n, i);
    var c := [qs[i].e0, qs[q].e2];
    RingNavigation(g, qs, i);
    RingNavigation(g, qs, q);
    SeparateApart(qs, i, q);
    assert IsWalk(g, Destination, qs[i].e0, c);
    WalkIsOrbit(g, Destination, qs[i].e0, c);
  }

  /** The edges of the ring in order: qs[0].e0, ..., qs[n - 1].e0. */
  function Firsts(qs: seq<Quad>): (r: seq<Id>)
    ensures |r| == |qs| && forall k :: 0 <= k < |qs| ==> r[k] == qs[k].e0
  {
    seq(|qs|, k requires 0 <= k < |qs| => qs[k].e0)
  }

  /** The left face of a ring is the polygon: the left orbit of the first edge visits every
      edge of the ring in order, and no other edge. */
  lemma RingLeftOrbit(g: Links, qs: seq<Quad>)
    requires Ring(g, qs) && Separate(qs)
    ensures RingAt(g, qs, 0) && Orbit(g, Left, qs[0].e0) == Firsts(qs)
  {
    var n := |qs|;
    var c := Firsts(qs);
    forall k | 0 <= k < n ensures c[k] in g && Lnext(g, c[k]) == c[Succ(n, k)] {
      RingNavigation(g, qs, k);
    }
    forall k, j | 0 <= k < j < n ensures c[k] != c[j] {
      SeparateApart(qs, k, j);
    }
    assert IsWalk(g, Left, qs[0].e0, c);
    WalkIsOrbit(g, Left, qs[0].e0, c);
  }

  /** The edges of the ring in reverse from the first: qs[0].e0, qs[n - 1].e0, ...,
      qs[1].e0. */
  function FirstsBackwards(qs: seq<Quad>): (r: seq<Id>)
    ensures |r| == |qs| && forall k :: 0 < k < |qs| ==> r[k] == qs[|qs| - k].e0
    ensures |qs| > 0 ==> r[0] == qs[0].e0
  {
    seq(|qs|, k requires 0 <= k < |qs| => if k == 0 then qs[0].e0 else qs[|qs| - k].e0)
  }

  /** The right face of a ring is the outside of the polygon, walked the other way: the
      right orbit of the first edge visits every edge of the ring in reverse. */
  lemma RingRightOrbit(g: Links, qs: seq<Quad>)
    requires Ring(g, qs) && Separate(qs)
    ensures RingAt(g, qs, 0) && Orbit(g, Right, qs[0].e0) == FirstsBackwards(qs)
  {
    var n := |qs|;
    var c := FirstsBackwards(qs);
    forall k | 0 <= k < n ensures c[k] in g && Next(g, Right, c[k]) == if k < n - 1 then c[k + 1] else c[0] {
      RightStep(g, qs, k);
    }
    FirstsBackwardsDistinct(qs);
    RightStep(g, qs, n - 1);
    assert c[0] in c;
    assert IsWalk(g, Right, qs[0].e0, c);
    WalkIsOrbit(g, Right, qs[0].e0, c);
  }

  /** One step of the right face of a ring, walked backwards from the first edge; the
      last step leads back to the first edge. */
  lemma RightStep(g: Links, qs: seq<Quad>, k: nat)
    requires Ring(g, qs) && k < |qs|
    ensures var c := FirstsBackwards(qs);
      && c[k] in g
      && Next(g, Right, c[k]) == (if k < |qs| - 1 then c[k + 1] else c[0])
  {
    var n := |qs|;
    if k == 0 {
      RingNavigation(g, qs, 0);
    } else {
      RingNavigation(g, qs, n - k);
    }
  }

  /** The edges of a separate ring, walked backwards, are distinct. */
  lemma FirstsBackwardsDistinct(qs: seq<Quad>)
    requires Separate(qs)
    ensures Distinct(FirstsBackwards(qs))
  {
    var n := |qs|;
    var c := FirstsBackwards(qs);
    forall k, j | 0 <= k < j < n ensures c[k] != c[j] {
      var a, b := if k == 0 then 0 else n - k, n - j;
      SeparateApart(qs, a, b);
    }
  }

  /** Starting a ring at its second edge gives a ring again. */
  lemma RingRotate(g: Links, qs: seq<Quad>)
    requires Ring(g, qs) && Separate(qs)
    ensures Ring(g, qs[1..] + [qs[0]]) && Separate(qs[1..] + [qs[0]])
  {
    var n := |qs|;
    var rs := qs[1..] + [qs[0]];
    assert forall k :: 0 <= k < n ==> rs[k] == qs[Succ(n, k)];
    forall k | 0 <= k < n ensures RingAt(g, rs, k) {
      assert RingAt(g, qs, Succ(n, k));
      assert Prev(n, Succ(n, k)) == k;
      assert Succ(n, Prev(n, k)) == k;
    }
    forall k, j | 0 <= k < j < n ensures Apart(rs[k], rs[j]) {
      SeparateApart(qs, Succ(n, k), Succ(n, j));
    }
    forall k | 0 <= k < n ensures Own(rs[k]) {
      SeparateApart(qs, Succ(n, k), Prev(n, Succ(n, k)));
    }
  }

  /** The ring qs started at its i-th edge. */
  function Rotated(qs: seq<Quad>, i: nat): (r: seq<Quad>)
    requires i <= |qs|
    ensures |r| == |qs|
  {
    qs[i..] + qs[..i]
  }

  /** A ring started at any of its edges is a ring. */
  lemma {:induction false} RingRotated(g: Links, qs: seq<Quad>, i: nat)
    requires Ring(g, qs) && Separate(qs) && i < |qs|
    ensures Ring(g, Rotated(qs, i)) && Separate(Rotated(qs, i)) && Rotated(qs, i)[0] == qs[i]
  {
    if i > 0 {
      RingRotated(g, qs, i - 1);
      var rs := Rotated(qs, i - 1);
      RingRotate(g, rs);
      assert rs[1..] + [rs[0]] == Rotated(qs, i);
    } else {
      assert Rotated(qs, 0) == qs;
    }
  }

  /** Every edge of a ring has the whole ring as its left face, from itself onwards. */
  lemma RingLeftOrbitAt(g: Links, qs: seq<Quad>, i: nat)
    requires Ring(g, qs) && Separate(qs) && i < |qs|
    ensures RingAt(g, qs, i) && Orbit(g, Left, qs[i].e0) == Firsts(Rotated(qs, i))
    ensures |Orbit(g, Left, qs[i].e0)| == |qs|
  {
    assert RingAt(g, qs, i);
    RingRotated(g, qs, i);
    RingLeftOrbit(g, Rotated(qs, i));
  }

  /** Every edge of a ring has the whole ring, walked backwards from itself, as its right
      face. */
  lemma RingRightOrbitAt(g: Links, qs: seq<Quad>, i: nat)
    requires Ring(g, qs) && Separate(qs) && i < |qs|
    ensures RingAt(g, qs, i) && Orbit(g, Right, qs[i].e0) == FirstsBackwards(Rotated(qs, i))
  {
    assert RingAt(g, qs, i);
    RingRotated(g, qs, i);
    RingRightOrbit(g, Rotated(qs, i));
  }
}
