/**
 * `polygon(ts)` of src/quad-edge.ts: a first edge from ts[0] to ts[1], the fold
 * `ts.slice(1).reduce(addEdge, first)`, and a closing `splice(last.sym, first)`. Its
 * links are the ring of module QuadEdgePolygons, but its data are not the polygon
 * through ts: the fold starts one vertex early, so the second edge runs from ts[1] to
 * ts[1] and the ring closes at ts[0] with no edge from ts[n - 1]. The corrected
 * `polygon` folds over `ts.slice(2)` and closes with `connect(last, first)`, as
 * `addPolygon` of src/quad-edge-2.ts does; its edge i runs from ts[i] to ts[i + 1].
 */
module QuadEdgeHeapPolygon {
  import opened Wrappers
  import opened EdgeRecords
  import opened Edges
  import opened QuadLinks
  import opened QuadTables
  import opened QuadEdgePolygons
  import opened QuadEdgeScenarios
  import opened QuadEdgePolygonSteps
  import opened QuadEdgeDeletion
  import opened QuadEdgeHeap

  /** `us.reduce(addEdge, cur)`: one `addEdge` after another, the i-th to us[i] with the
      objects of qs[i]; the last edge added is returned. */
  function AddedAll<T>(h: Heap<T>, cur: Id, us: seq<T>, qs: seq<Quad>): (r: (Heap<T>, Id))
    requires Sound(h) && cur in h.links && |us| == |qs|
    ensures Sound(r.0) && r.1 in r.0.links && h.links.Keys <= r.0.links.Keys
    ensures |qs| > 0 ==> r.1 == qs[|qs| - 1].e0
    decreases |qs|
  {
    if |qs| == 0 then (h, cur)
    else
      var k := |qs| - 1;
      var p := AddedAll(h, cur, us[..k], qs[..k]);
      (EdgeAdded(p.0, p.1, us[k], qs[k]), qs[k].e0)
  }

  /** The fold draws the links of the bag's fold of `addEdge` in `addPolygon`. */
  lemma {:induction false} AddedAllLinks<T>(h: Heap<T>, cur: Id, us: seq<T>, qs: seq<Quad>)
    requires Sound(h) && cur in h.links && |us| == |qs|
    ensures var r := AddedAll(h, cur, us, qs);
      (r.0.links, r.1) == AddEdgesLinks(h.links, cur, qs)
    decreases |qs|
  {
    if |qs| > 0 {
      var k := |qs| - 1;
      AddedAllLinks(h, cur, us[..k], qs[..k]);
      var p := AddedAll(h, cur, us[..k], qs[..k]);
      assert AddedAll(h, cur, us, qs) == (EdgeAdded(p.0, p.1, us[k], qs[k]), qs[k].e0);
      EdgeAddedIsAddEdge(p.0, p.1, us[k], qs[k]);
      AddEdgesSnoc(h.links, cur, qs[..k], qs[k]);
      SnocLast(qs);
    }
  }

  /** A non-empty sequence is its first element followed by the rest. */
  lemma ConsRest<X>(s: seq<X>)
    requires |s| > 0
    ensures [s[0]] + s[1..] == s
  {
  }

  /** A non-empty sequence is its front with its last element appended. */
  lemma SnocLast<X>(s: seq<X>)
    requires |s| > 0
    ensures s[..|s| - 1] + [s[|s| - 1]] == s
  {
  }

  /** What the fold wrote to the data slots of its edges: edge i starts at the
      destination of edge i - 1 (of cur, for the first) and ends at us[i]; each edge's
      rotations stay those `makeEdge` set. */
  ghost predicate FoldData<T>(r: Heap<T>, d0: Option<T>, us: seq<T>, qs: seq<Quad>)
    requires |us| == |qs|
  {
    forall i :: 0 <= i < |qs| ==>
      && Rots(r.links, qs[i]) && qs[i].e0 in r.data && qs[i].e2 in r.data
      && r.data[qs[i].e0] == (if i == 0 then d0 else Some(us[i - 1]))
      && r.data[qs[i].e2] == Some(us[i])
  }

  /** `FoldData` at one edge. */
  lemma FoldDataAt<T>(r: Heap<T>, d0: Option<T>, us: seq<T>, qs: seq<Quad>, i: int)
    requires |us| == |qs| && FoldData(r, d0, us, qs) && 0 <= i < |qs|
    ensures Rots(r.links, qs[i]) && qs[i].e0 in r.data && qs[i].e2 in r.data
    ensures r.data[qs[i].e0] == (if i == 0 then d0 else Some(us[i - 1]))
    ensures r.data[qs[i].e2] == Some(us[i])
  {
  }

  /** The fold writes its edges' data as `FoldData` says, and leaves alone a quad p none
      of whose objects it draws. */
  lemma {:induction false} AddedAllData<T>(h: Heap<T>, cur: Id, us: seq<T>, qs: seq<Quad>, p: Quad)
    requires Sound(h) && cur in h.links && |us| == |qs| && Separate(qs)
    requires Rots(h.links, p) && forall i :: 0 <= i < |qs| ==> Apart(p, qs[i])
    ensures var r := AddedAll(h, cur, us, qs).0;
      && FoldData(r, Dest(h, cur), us, qs)
      && Rots(r.links, p) && r.data[p.e0] == h.data[p.e0] && r.data[p.e2] == h.data[p.e2]
    decreases |qs|
  {
    if |qs| > 0 {
      var k := |qs| - 1;
      var b := AddedAll(h, cur, us[..k], qs[..k]);
      assert FoldData(b.0, Dest(h, cur), us[..k], qs[..k]) && Rots(b.0.links, p)
        && b.0.data[p.e0] == h.data[p.e0] && b.0.data[p.e2] == h.data[p.e2]
      by {
        SeparatePrefix(qs, k);
        forall i | 0 <= i < k
          ensures Apart(p, qs[..k][i])
        {
          assert qs[..k][i] == qs[i];
        }
        AddedAllData(h, cur, us[..k], qs[..k], p);
      }
      assert k > 0 ==> b.1 == qs[k - 1].e0 by {
        if k > 0 {
          assert qs[..k][k - 1] == qs[k - 1];
        }
      }
      var r := AddedAll(h, cur, us, qs).0;
      assert r == EdgeAdded(b.0, b.1, us[k], qs[k]);
      FoldStep(b.0, b.1, Dest(h, cur), us, qs, p, r);
    }
  }

  /** One step of the fold: `FoldData` one edge longer, and p still left alone. */
  lemma FoldStep<T>(b: Heap<T>, last: Id, d0: Option<T>, us: seq<T>, qs: seq<Quad>, p: Quad, r: Heap<T>)
    requires |us| == |qs| > 0 && Sound(b) && last in b.links && Separate(qs)
    requires FoldData(b, d0, us[..|qs| - 1], qs[..|qs| - 1])
    requires |qs| == 1 ==> Dest(b, last) == d0
    requires |qs| > 1 ==> last == qs[|qs| - 2].e0
    requires Rots(b.links, p) && forall i :: 0 <= i < |qs| ==> Apart(p, qs[i])
    requires r == EdgeAdded(b, last, us[|qs| - 1], qs[|qs| - 1])
    ensures FoldData(r, d0, us, qs)
    ensures Rots(r.links, p) && r.data[p.e0] == b.data[p.e0] && r.data[p.e2] == b.data[p.e2]
  {
    var k := |qs| - 1;
    assert Own(qs[k]) && Apart(p, qs[k]);
    if k > 0 {
      assert qs[..k][k - 1] == qs[k - 1] && us[..k][k - 1] == us[k - 1];
      assert Rots(b.links, qs[k - 1]);
      assert Dest(b, last) == Some(us[k - 1]);
    }
    EdgeAddedData(b, last, us[k], qs[k]);
    EdgeAddedKeeps(b, last, us[k], qs[k], p);
    forall i | 0 <= i < k
      ensures Rots(b.links, qs[i]) && Rots(r.links, qs[i])
      ensures r.data[qs[i].e0] == b.data[qs[i].e0] && r.data[qs[i].e2] == b.data[qs[i].e2]
    {
      assert qs[..k][i] == qs[i];
      SeparateApart(qs, i, k);
      EdgeAddedKeeps(b, last, us[k], qs[k], qs[i]);
    }
    FoldDataSnoc(b, r, d0, us, qs);
  }

  /** `addEdge` keeps the rotations and the data of a quad it does not draw. */
  lemma EdgeAddedKeeps<T>(h: Heap<T>, e0: Id, t: T, q: Quad, p: Quad)
    requires Sound(h) && e0 in h.links && Own(q) && Rots(h.links, p) && Apart(p, q)
    ensures var r := EdgeAdded(h, e0, t, q);
      && Rots(r.links, p) && r.data[p.e0] == h.data[p.e0] && r.data[p.e2] == h.data[p.e2]
  {
    var m := EdgeMade(h, Dest(h, e0), Some(t), q);
    NewQuadLone(h.links, q);
    SpliceKeepsRot(m.links, Sym(m.links, e0), q.e0);
  }

  /** `FoldData` for the fold one step longer. */
  lemma FoldDataSnoc<T>(b: Heap<T>, r: Heap<T>, d0: Option<T>, us: seq<T>, qs: seq<Quad>)
    requires |us| == |qs| > 0 && Sound(b) && Sound(r)
    requires forall i :: 0 <= i < |qs| - 1 ==> Rots(b.links, qs[i])
    requires FoldData(b, d0, us[..|qs| - 1], qs[..|qs| - 1])
    requires forall i :: 0 <= i < |qs| - 1 ==>
      Rots(r.links, qs[i]) && r.data[qs[i].e0] == b.data[qs[i].e0] && r.data[qs[i].e2] == b.data[qs[i].e2]
    requires var k := |qs| - 1;
      && Rots(r.links, qs[k]) && qs[k].e0 in r.data && qs[k].e2 in r.data
      && r.data[qs[k].e0] == (if k == 0 then d0 else Some(us[k - 1])) && r.data[qs[k].e2] == Some(us[k])
    ensures FoldData(r, d0, us, qs)
  {
    var k := |qs| - 1;
    forall i | 0 <= i < |qs|
      ensures Rots(r.links, qs[i]) && qs[i].e0 in r.data && qs[i].e2 in r.data
      ensures r.data[qs[i].e0] == (if i == 0 then d0 else Some(us[i - 1]))
      ensures r.data[qs[i].e2] == Some(us[i])
    {
      if i < k {
        FoldDataAt(b, d0, us[..k], qs[..k], i);
        assert qs[..k][i] == qs[i] && us[..k][i] == us[i];
        if i > 0 {
          assert us[..k][i - 1] == us[i - 1];
        }
      }
    }
  }

  /** `connect` keeps the rotations and the data of a quad it does not draw. */
  lemma ConnectedKeeps<T>(h: Heap<T>, a: Id, b: Id, q: Quad, p: Quad)
    requires Sound(h) && a in h.links && b in h.links && Own(q) && Rots(h.links, p) && Apart(p, q)
    ensures var r := Connected(h, a, b, q);
      && Rots(r.links, p) && r.data[p.e0] == h.data[p.e0] && r.data[p.e2] == h.data[p.e2]
  {
    var m := EdgeMade(h, Dest(h, a), Org(h, b), q);
    NewQuadLone(h.links, q);
    var m1 := Spliced(m, q.e0, Lnext(m.links, a));
    SpliceKeepsRot(m.links, q.e0, Lnext(m.links, a));
    SpliceKeepsRot(m1.links, Sym(m1.links, q.e0), b);
  }

  /** `makeEdge(a, b)` on objects q: q's rotations, a at e0 and b at e0's sym. */
  lemma EdgeMadeOwn<T>(h: Heap<T>, a: T, b: T, q: Quad)
    requires Sound(h) && Own(q)
    ensures var m := EdgeMade(h, Some(a), Some(b), q);
      && Rots(m.links, q) && Sym(m.links, q.e0) == q.e2
      && m.data[q.e0] == Some(a) && m.data[q.e2] == Some(b) && Dest(m, q.e0) == Some(b)
  {
    NewQuadLone(h.links, q);
  }

  /** A slice of a separate sequence is separate, and apart from the quads before it. */
  lemma SeparateSlice(qs: seq<Quad>, lo: nat, hi: nat)
    requires Separate(qs) && 1 <= lo <= hi <= |qs|
    ensures Separate(qs[lo..hi])
    ensures forall i :: 0 <= i < hi - lo ==> qs[lo..hi][i] == qs[lo + i] && Apart(qs[0], qs[lo..hi][i])
  {
    var s := qs[lo..hi];
    forall i | 0 <= i < |s| ensures Own(s[i]) && Apart(qs[0], s[i]) {
      assert s[i] == qs[lo + i];
    }
    forall i, j | 0 <= i < j < |s| ensures Apart(s[i], s[j]) {
      assert s[i] == qs[lo + i] && s[j] == qs[lo + j];
    }
  }

  /** What `polygon(ts)` wrote for the j-th edge: its rotations, ts[j] at its origin and
      the next vertex of the ring at its destination. */
  ghost predicate EdgeAt<T>(r: Heap<T>, ts: seq<T>, qs: seq<Quad>, j: nat)
    requires j < |qs| == |ts|
  {
    && Rots(r.links, qs[j]) && qs[j].e0 in r.data && qs[j].e2 in r.data
    && r.data[qs[j].e0] == Some(ts[j]) && r.data[qs[j].e2] == Some(ts[Succ(|ts|, j)])
  }

  /** The quads after the first of a separate sequence are separate, and apart from it. */
  lemma SeparateRest(qs: seq<Quad>)
    requires Separate(qs) && |qs| >= 1
    ensures Separate(qs[1..])
    ensures forall i :: 0 <= i < |qs| - 1 ==> Apart(qs[0], qs[1..][i])
  {
    var s := qs[1..];
    forall i | 0 <= i < |s| ensures Own(s[i]) && Apart(qs[0], s[i]) {
      assert s[i] == qs[i + 1];
    }
    forall i, j | 0 <= i < j < |s| ensures Apart(s[i], s[j]) {
      assert s[i] == qs[i + 1] && s[j] == qs[j + 1];
    }
  }

  /** `polygon(ts)` as corrected: the first edge from ts[0] to ts[1], the fold of
      `addEdge` over ts[2..], then `connect(last, first)`; the objects of the j-th edge
      are qs[j]. Fewer than two vertices is an error. */
  function PolygonMade<T>(h: Heap<T>, ts: seq<T>, qs: seq<Quad>): (r: Option<(Heap<T>, Id)>)
    requires Sound(h) && |qs| == |ts|
    ensures r.None? <==> |ts| < 2
    ensures r.Some? ==> Sound(r.value.0) && r.value.1 == qs[0].e0 && r.value.1 in r.value.0.links
    ensures r.Some? ==> h.links.Keys <= r.value.0.links.Keys
  {
    if |ts| < 2 then None
    else
      var n := |ts|;
      var m := EdgeMade(h, Some(ts[0]), Some(ts[1]), qs[0]);
      var f := AddedAll(m, qs[0].e0, ts[2..], qs[1..n - 1]);
      Some((Connected(f.0, f.1, qs[0].e0, qs[n - 1]), qs[0].e0))
  }

  /** `polygon(ts)` as written: the fold of `addEdge` runs over ts[1..], and the ring is
      closed by `splice(last.sym, first)`. */
  function PolygonAsWritten<T>(h: Heap<T>, ts: seq<T>, qs: seq<Quad>): (r: Option<(Heap<T>, Id)>)
    requires Sound(h) && |qs| == |ts|
    ensures r.None? <==> |ts| < 2
    ensures r.Some? ==> Sound(r.value.0) && r.value.1 == qs[0].e0 && r.value.1 in r.value.0.links
    ensures r.Some? ==> h.links.Keys <= r.value.0.links.Keys
  {
    if |ts| < 2 then None
    else
      var m := EdgeMade(h, Some(ts[0]), Some(ts[1]), qs[0]);
      var f := AddedAll(m, qs[0].e0, ts[1..], qs[1..]);
      Some((Spliced(f.0, Sym(f.0.links, f.1), qs[0].e0), qs[0].e0))
  }

  /** "makes two isolated edges from a loop": `polygon([t0, t1])` followed by
      `deleteEdge` of its second edge leaves both edges lone. */
  lemma PolygonLoopDeleted<T>(h: Heap<T>, ts: seq<T>, qs: seq<Quad>, r: Heap<T>)
    requires Sound(h) && |qs| == |ts| == 2 && Separate(qs)
    requires r == PolygonMade(h, ts, qs).value.0
    ensures Sound(r) && qs[1].e0 in r.links
    ensures Lone(QuadEdgeHeap.Deleted(r, qs[1].e0).links, qs[0])
    ensures Lone(QuadEdgeHeap.Deleted(r, qs[1].e0).links, qs[1])
  {
    assert Ring(r.links, qs) by {
      PolygonMadeLinks(h, ts, qs);
    }
    PairRing(r, qs);
  }

  /** `DeletedLoop` for a ring given as a sequence of two quads. */
  lemma PairRing<T>(r: Heap<T>, qs: seq<Quad>)
    requires Sound(r) && |qs| == 2 && Separate(qs) && Ring(r.links, qs)
    ensures qs[1].e0 in r.links
    ensures Lone(QuadEdgeHeap.Deleted(r, qs[1].e0).links, qs[0])
    ensures Lone(QuadEdgeHeap.Deleted(r, qs[1].e0).links, qs[1])
  {
    assert qs == [qs[0], qs[1]];
    DeletedLoop(r, qs[0], qs[1]);
  }

  /** The corrected `polygon` draws the links of `addPolygon` in src/quad-edge-2.ts: the
      ring qs[0], ..., qs[n - 1]. */
  lemma PolygonMadeLinks<T>(h: Heap<T>, ts: seq<T>, qs: seq<Quad>)
    requires Sound(h) && |qs| == |ts| >= 2 && Separate(qs)
    ensures PolygonMade(h, ts, qs).value.0.links == PolygonLinks(h.links, qs)
    ensures Ring(PolygonMade(h, ts, qs).value.0.links, qs)
  {
    var n := |ts|;
    var m := EdgeMade(h, Some(ts[0]), Some(ts[1]), qs[0]);
    var f := AddedAll(m, qs[0].e0, ts[2..], qs[1..n - 1]);
    AddedAllLinks(m, qs[0].e0, ts[2..], qs[1..n - 1]);
    SeparateApart(qs, 0, n - 1);
    ConnectedLinks(f.0, f.1, qs[0].e0, qs[n - 1]);
    PolygonRing(h.links, qs);
  }

  /** The fold of the corrected `polygon`, after a first edge from ts[0] to ts[1]: edges 0
      to n - 2 run from ts[j] to ts[j + 1], and the fold returns edge n - 2. */
  lemma PolygonFolded<T>(m: Heap<T>, ts: seq<T>, qs: seq<Quad>, f: (Heap<T>, Id))
    requires Sound(m) && |qs| == |ts| >= 2 && Separate(qs)
    requires Rots(m.links, qs[0]) && Dest(m, qs[0].e0) == Some(ts[1])
    requires m.data[qs[0].e0] == Some(ts[0]) && m.data[qs[0].e2] == Some(ts[1])
    requires f == AddedAll(m, qs[0].e0, ts[2..], qs[1..|qs| - 1])
    ensures f.1 == qs[|qs| - 2].e0
    ensures forall j :: 0 <= j < |ts| - 1 ==> EdgeAt(f.0, ts, qs, j)
  {
    var n := |ts|;
    SeparateSlice(qs, 1, n - 1);
    AddedAllData(m, qs[0].e0, ts[2..], qs[1..n - 1], qs[0]);
    MadeFromFold(f.0, ts, qs);
    if n > 2 {
      assert qs[1..n - 1][n - 3] == qs[n - 2];
    }
  }

  /** The edges of the corrected `polygon` before the last, from what the fold wrote. */
  lemma MadeFromFold<T>(f: Heap<T>, ts: seq<T>, qs: seq<Quad>)
    requires 2 <= |ts| == |qs| && FoldData(f, Some(ts[1]), ts[2..], qs[1..|qs| - 1])
    requires Rots(f.links, qs[0]) && qs[0].e0 in f.data && qs[0].e2 in f.data
    requires f.data[qs[0].e0] == Some(ts[0]) && f.data[qs[0].e2] == Some(ts[1])
    ensures forall j :: 0 <= j < |ts| - 1 ==> EdgeAt(f, ts, qs, j)
  {
    var us, ps := ts[2..], qs[1..|qs| - 1];
    forall j | 0 <= j < |ts| - 1
      ensures EdgeAt(f, ts, qs, j)
    {
      if j > 0 {
        FoldDataAt(f, Some(ts[1]), us, ps, j - 1);
        assert ps[j - 1] == qs[j] && us[j - 1] == ts[j + 1];
        if j > 1 {
          assert us[j - 2] == ts[j];
        }
      }
    }
  }

  /** Every edge of the corrected `polygon` is where `EdgeAt` says. */
  lemma PolygonMadeEdges<T>(h: Heap<T>, ts: seq<T>, qs: seq<Quad>)
    requires Sound(h) && |qs| == |ts| >= 2 && Separate(qs)
    ensures forall j :: 0 <= j < |ts| ==> EdgeAt(PolygonMade(h, ts, qs).value.0, ts, qs, j)
  {
    var n := |ts|;
    var m := EdgeMade(h, Some(ts[0]), Some(ts[1]), qs[0]);
    var f := AddedAll(m, qs[0].e0, ts[2..], qs[1..n - 1]);
    SeparateApart(qs, 0, n - 1);
    EdgeMadeOwn(h, ts[0], ts[1], qs[0]);
    PolygonFolded(m, ts, qs, f);
    ConnectedEdges(f.0, f.1, ts, qs, qs[n - 1]);
  }

  /** The closing `connect(last, first)` keeps edges 0 to n - 2 and draws edge n - 1 from
      ts[n - 1] back to ts[0]. */
  lemma ConnectedEdges<T>(f: Heap<T>, last: Id, ts: seq<T>, qs: seq<Quad>, z: Quad)
    requires Sound(f) && |qs| == |ts| >= 2 && Separate(qs) && z == qs[|qs| - 1]
    requires last == qs[|qs| - 2].e0 && forall j :: 0 <= j < |ts| - 1 ==> EdgeAt(f, ts, qs, j)
    requires qs[0].e0 in f.links && last in f.links
    ensures forall j :: 0 <= j < |ts| ==> EdgeAt(Connected(f, last, qs[0].e0, z), ts, qs, j)
  {
    var n := |ts|;
    forall j | 0 <= j < n
      ensures EdgeAt(Connected(f, last, qs[0].e0, z), ts, qs, j)
    {
      if j < n - 1 {
        ConnectedKeepsEdge(f, last, ts, qs, j);
      } else {
        ConnectedLastEdge(f, last, ts, qs);
      }
    }
  }

  /** The closing `connect(last, first)` draws edge n - 1 from ts[n - 1] back to ts[0]. */
  lemma ConnectedLastEdge<T>(f: Heap<T>, last: Id, ts: seq<T>, qs: seq<Quad>)
    requires Sound(f) && |qs| == |ts| >= 2 && Separate(qs) && qs[0].e0 in f.links && last in f.links
    requires last == qs[|qs| - 2].e0 && EdgeAt(f, ts, qs, |qs| - 2) && EdgeAt(f, ts, qs, 0)
    ensures EdgeAt(Connected(f, last, qs[0].e0, qs[|qs| - 1]), ts, qs, |qs| - 1)
  {
    var n := |ts|;
    assert Sym(f.links, last) == qs[n - 2].e2;
    assert Dest(f, last) == Some(ts[n - 1]);
    assert Org(f, qs[0].e0) == Some(ts[0]);
    SeparateApart(qs, 0, n - 1);
    ConnectedData(f, last, qs[0].e0, qs[n - 1]);
  }

  /** The closing `connect(last, first)` keeps edge j, for j below n - 1. */
  lemma ConnectedKeepsEdge<T>(f: Heap<T>, last: Id, ts: seq<T>, qs: seq<Quad>, j: nat)
    requires Sound(f) && |qs| == |ts| >= 2 && Separate(qs) && j < |ts| - 1 && EdgeAt(f, ts, qs, j)
    requires qs[0].e0 in f.links && last in f.links
    ensures EdgeAt(Connected(f, last, qs[0].e0, qs[|qs| - 1]), ts, qs, j)
  {
    SeparateApart(qs, j, |qs| - 1);
    ConnectedKeeps(f, last, qs[0].e0, qs[|qs| - 1], qs[j]);
  }

  /** The new edge of `connect(a, b)` keeps the rotations `makeEdge` gave it and runs from
      a's destination to b's origin. */
  lemma ConnectedData<T>(h: Heap<T>, a: Id, b: Id, q: Quad)
    requires Sound(h) && a in h.links && b in h.links && Own(q)
    ensures var r := Connected(h, a, b, q);
      && Rots(r.links, q) && r.data[q.e0] == Dest(h, a) && r.data[q.e2] == Org(h, b)
  {
    var m := EdgeMade(h, Dest(h, a), Org(h, b), q);
    NewQuadLone(h.links, q);
    var m1 := Spliced(m, q.e0, Lnext(m.links, a));
    SpliceKeepsRot(m.links, q.e0, Lnext(m.links, a));
    SpliceKeepsRot(m1.links, Sym(m1.links, q.e0), b);
  }

  /** The corrected `polygon(ts)` draws the polygon through ts: edge j runs from ts[j] to
      the next vertex, and the next edge of its left face starts where it ends; the left
      face of the first edge is the whole ring. */
  lemma PolygonMadeFace<T>(h: Heap<T>, ts: seq<T>, qs: seq<Quad>, r: Heap<T>)
    requires Sound(h) && |qs| == |ts| >= 2 && Separate(qs) && r == PolygonMade(h, ts, qs).value.0
    ensures Ring(r.links, qs) && Orbit(r.links, Left, qs[0].e0) == Firsts(qs)
    ensures forall j :: 0 <= j < |ts| ==>
      && qs[j].e0 in r.links && Lnext(r.links, qs[j].e0) == qs[Succ(|ts|, j)].e0
      && Org(r, qs[j].e0) == Some(ts[j]) && Dest(r, qs[j].e0) == Some(ts[Succ(|ts|, j)])
      && Dest(r, qs[j].e0) == Org(r, qs[Succ(|ts|, j)].e0)
  {
    assert Ring(r.links, qs) && forall j :: 0 <= j < |ts| ==> EdgeAt(r, ts, qs, j) by {
      PolygonMadeEdges(h, ts, qs);
      PolygonMadeLinks(h, ts, qs);
    }
    RingLeftOrbit(r.links, qs);
    FaceFromEdges(r, ts, qs);
  }

  /** A ring whose edges are where `EdgeAt` says is the polygon through ts. */
  lemma FaceFromEdges<T>(r: Heap<T>, ts: seq<T>, qs: seq<Quad>)
    requires Sound(r) && |qs| == |ts| >= 2 && Ring(r.links, qs)
    requires forall j :: 0 <= j < |ts| ==> EdgeAt(r, ts, qs, j)
    ensures forall j :: 0 <= j < |ts| ==>
      && qs[j].e0 in r.links && Lnext(r.links, qs[j].e0) == qs[Succ(|ts|, j)].e0
      && Org(r, qs[j].e0) == Some(ts[j]) && Dest(r, qs[j].e0) == Some(ts[Succ(|ts|, j)])
      && Dest(r, qs[j].e0) == Org(r, qs[Succ(|ts|, j)].e0)
  {
    forall j | 0 <= j < |ts|
      ensures qs[j].e0 in r.links && Lnext(r.links, qs[j].e0) == qs[Succ(|ts|, j)].e0
      ensures Org(r, qs[j].e0) == Some(ts[j]) && Dest(r, qs[j].e0) == Some(ts[Succ(|ts|, j)])
    {
      RingNavigation(r.links, qs, j);
      assert EdgeAt(r, ts, qs, j) && EdgeAt(r, ts, qs, Succ(|ts|, j));
    }
  }

  /** `polygon(ts)` as written draws the ring qs[0], ..., qs[n - 1]: the first edge and the
      fold form a path, and `splice(last.sym, first)` closes it. */
  lemma PolygonAsWrittenRing<T>(h: Heap<T>, ts: seq<T>, qs: seq<Quad>)
    requires Sound(h) && |qs| == |ts| >= 2 && Separate(qs)
    ensures Ring(PolygonAsWritten(h, ts, qs).value.0.links, qs)
  {
    var m := EdgeMade(h, Some(ts[0]), Some(ts[1]), qs[0]);
    AddedAllLinks(m, qs[0].e0, ts[1..], qs[1..]);
    WrittenRingLinks(h.links, qs);
  }

  /** The links of `polygon` as written: a new quad, `addEdge` for each of the others, and
      `splice(last.sym, first)` form a ring. */
  lemma WrittenRingLinks(g: Links, qs: seq<Quad>)
    requires Linked(g) && |qs| >= 2 && Separate(qs)
    ensures var first := qs[0];
      var m := NewQuadLinks(g, first.e0, first.e1, first.e2, first.e3);
      && Linked(m) && first.e0 in m
      && var f := AddEdgesLinks(m, first.e0, qs[1..]);
      && f.1 in f.0 && first.e0 in f.0
      && Ring(SpliceLinks(f.0, Sym(f.0, f.1), first.e0), qs)
  {
    var n := |qs|;
    var first := qs[0];
    var m := NewQuadLinks(g, first.e0, first.e1, first.e2, first.e3);
    WrittenPath(g, qs, m);
    var f := AddEdgesLinks(m, first.e0, qs[1..]);
    CloseRing(f.0, qs);
    SpliceSymmetric(f.0, qs[n - 1].e2, first.e0);
  }

  /** The first edge of `polygon` and its fold of `addEdge` form a path of all the quads. */
  lemma WrittenPath(g: Links, qs: seq<Quad>, m: Links)
    requires Linked(g) && |qs| >= 2 && Separate(qs)
    requires m == NewQuadLinks(g, qs[0].e0, qs[0].e1, qs[0].e2, qs[0].e3)
    ensures Linked(m) && qs[0].e0 in m
    ensures Path(AddEdgesLinks(m, qs[0].e0, qs[1..]).0, qs)
    ensures AddEdgesLinks(m, qs[0].e0, qs[1..]).1 == qs[|qs| - 1].e0
  {
    var first := qs[0];
    SeparateApart(qs, 0, 1);
    NewQuadLone(g, first);
    assert PathAt(m, [first], 0);
    ConsRest(qs);
    AddEdgesPath(m, [first], qs[1..]);
  }

  /** The fold of `polygon(ts)` as written: edge 0 runs from ts[0] to ts[1], edge 1 from
      ts[1] to ts[1], and edge j from ts[j - 1] to ts[j] for j at least 2. */
  ghost predicate WrittenAt<T>(r: Heap<T>, ts: seq<T>, qs: seq<Quad>, j: nat)
    requires 2 <= |ts| == |qs| && j < |qs|
  {
    && Rots(r.links, qs[j]) && qs[j].e0 in r.data && qs[j].e2 in r.data
    && r.data[qs[j].e0] == Some(if j <= 1 then ts[j] else ts[j - 1])
    && r.data[qs[j].e2] == Some(if j == 0 then ts[1] else ts[j])
  }

  /** What the first edge and the fold of `polygon(ts)` as written leave in the data. */
  lemma PolygonAsWrittenFolded<T>(m: Heap<T>, ts: seq<T>, qs: seq<Quad>, f: Heap<T>)
    requires Sound(m) && |qs| == |ts| >= 2 && Separate(qs)
    requires Rots(m.links, qs[0]) && Dest(m, qs[0].e0) == Some(ts[1])
    requires m.data[qs[0].e0] == Some(ts[0]) && m.data[qs[0].e2] == Some(ts[1])
    requires f == AddedAll(m, qs[0].e0, ts[1..], qs[1..]).0
    ensures forall j :: 0 <= j < |ts| ==> WrittenAt(f, ts, qs, j)
  {
    SeparateRest(qs);
    AddedAllData(m, qs[0].e0, ts[1..], qs[1..], qs[0]);
    WrittenFromFold(f, ts, qs);
  }

  /** The edges of `polygon` as written, from what the fold wrote. */
  lemma WrittenFromFold<T>(f: Heap<T>, ts: seq<T>, qs: seq<Quad>)
    requires 2 <= |ts| == |qs| && FoldData(f, Some(ts[1]), ts[1..], qs[1..])
    requires Rots(f.links, qs[0]) && qs[0].e0 in f.data && qs[0].e2 in f.data
    requires f.data[qs[0].e0] == Some(ts[0]) && f.data[qs[0].e2] == Some(ts[1])
    ensures forall j :: 0 <= j < |ts| ==> WrittenAt(f, ts, qs, j)
  {
    var us, ps := ts[1..], qs[1..];
    forall j | 0 <= j < |ts|
      ensures WrittenAt(f, ts, qs, j)
    {
      if j > 0 {
        FoldDataAt(f, Some(ts[1]), us, ps, j - 1);
        assert ps[j - 1] == qs[j] && us[j - 1] == ts[j];
        if j > 1 {
          assert us[j - 2] == ts[j - 1];
        }
      }
    }
  }

  /** `polygon(ts)` as written: a ring whose edges run from ts[0] to ts[1], from ts[1] to
      ts[1], and then from ts[j - 1] to ts[j]. */
  lemma PolygonAsWrittenEdges<T>(h: Heap<T>, ts: seq<T>, qs: seq<Quad>, r: Heap<T>)
    requires Sound(h) && |qs| == |ts| >= 2 && Separate(qs) && r == PolygonAsWritten(h, ts, qs).value.0
    ensures Ring(r.links, qs)
    ensures forall j :: 0 <= j < |ts| ==>
      qs[j].e0 in r.links && Lnext(r.links, qs[j].e0) == qs[Succ(|ts|, j)].e0
    ensures Org(r, qs[0].e0) == Some(ts[0]) && Dest(r, qs[0].e0) == Some(ts[1])
    ensures Org(r, qs[1].e0) == Some(ts[1]) && Dest(r, qs[1].e0) == Some(ts[1])
    ensures forall j :: 2 <= j < |ts| ==>
      Org(r, qs[j].e0) == Some(ts[j - 1]) && Dest(r, qs[j].e0) == Some(ts[j])
  {
    var m := EdgeMade(h, Some(ts[0]), Some(ts[1]), qs[0]);
    var f := AddedAll(m, qs[0].e0, ts[1..], qs[1..]);
    SeparateApart(qs, 0, 1);
    EdgeMadeOwn(h, ts[0], ts[1], qs[0]);
    PolygonAsWrittenFolded(m, ts, qs, f.0);
    PolygonAsWrittenRing(h, ts, qs);
    ClosedEdges(f.0, f.1, ts, qs, r);
  }

  /** The closing `splice(last.sym, first)` of `polygon` as written changes no data: each
      edge of the ring keeps the vertices the fold gave it. */
  lemma ClosedEdges<T>(f: Heap<T>, last: Id, ts: seq<T>, qs: seq<Quad>, r: Heap<T>)
    requires Sound(f) && |qs| == |ts| >= 2 && last in f.links && qs[0].e0 in f.links
    requires forall j :: 0 <= j < |ts| ==> WrittenAt(f, ts, qs, j)
    requires r == Spliced(f, Sym(f.links, last), qs[0].e0) && Ring(r.links, qs)
    ensures forall j :: 0 <= j < |ts| ==>
      qs[j].e0 in r.links && Lnext(r.links, qs[j].e0) == qs[Succ(|ts|, j)].e0
    ensures Org(r, qs[0].e0) == Some(ts[0]) && Dest(r, qs[0].e0) == Some(ts[1])
    ensures Org(r, qs[1].e0) == Some(ts[1]) && Dest(r, qs[1].e0) == Some(ts[1])
    ensures forall j :: 2 <= j < |ts| ==>
      Org(r, qs[j].e0) == Some(ts[j - 1]) && Dest(r, qs[j].e0) == Some(ts[j])
  {
    forall j | 0 <= j < |ts|
      ensures qs[j].e0 in r.links && Lnext(r.links, qs[j].e0) == qs[Succ(|ts|, j)].e0
      ensures Rots(r.links, qs[j]) && r.data[qs[j].e0] == f.data[qs[j].e0] && r.data[qs[j].e2] == f.data[qs[j].e2]
    {
      RingNavigation(r.links, qs, j);
      assert WrittenAt(f, ts, qs, j);
    }
    assert WrittenAt(f, ts, qs, 0) && WrittenAt(f, ts, qs, 1);
    forall j | 2 <= j < |ts|
      ensures Org(r, qs[j].e0) == Some(ts[j - 1]) && Dest(r, qs[j].e0) == Some(ts[j])
    {
      assert WrittenAt(f, ts, qs, j);
    }
  }

  /** `polygon(ts)` as written does not draw the polygon through ts: its second edge is a
      loop at ts[1], and when ts[0] and ts[n - 1] differ, the last edge of the ring ends
      at ts[n - 1] while the edge after it on the left face starts at ts[0]. */
  lemma PolygonAsWrittenBreaks<T>(h: Heap<T>, ts: seq<T>, qs: seq<Quad>, r: Heap<T>)
    requires Sound(h) && |qs| == |ts| >= 2 && Separate(qs) && r == PolygonAsWritten(h, ts, qs).value.0
    requires ts[0] != ts[|ts| - 1]
    ensures qs[|ts| - 1].e0 in r.links && qs[1].e0 in r.links
    ensures Lnext(r.links, qs[|ts| - 1].e0) == qs[0].e0
    ensures Dest(r, qs[|ts| - 1].e0) != Org(r, qs[0].e0)
    ensures Org(r, qs[1].e0) == Dest(r, qs[1].e0)
  {
    PolygonAsWrittenEdges(h, ts, qs, r);
    var n := |ts|;
    assert Lnext(r.links, qs[n - 1].e0) == qs[Succ(n, n - 1)].e0;
    if n > 2 {
      assert Dest(r, qs[n - 1].e0) == Some(ts[n - 1]);
    }
  }
}
