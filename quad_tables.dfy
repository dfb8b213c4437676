/**
 * Link tables for reasoning about small configurations of the edge bag of
 * src/quad-edge-2.ts: a quad's four ids, their rotations and origin-next links, and what
 * one splice or one new quad does to such a table.
 */
module QuadTables {
  import opened EdgeRecords
  import opened Edges
  import opened QuadLinks

  /** q's records are live and their rotations cycle e0 -> e1 -> e2 -> e3 -> e0. */
  ghost predicate Rots(g: Links, q: Quad) {
    && Linked(g) && q.e0 in g && q.e1 in g && q.e2 in g && q.e3 in g
    && g[q.e0].rotId == q.e1 && g[q.e1].rotId == q.e2 && g[q.e2].rotId == q.e3 && g[q.e3].rotId == q.e0
  }

  /** The origin-next links of q's records are o0..o3. */
  ghost predicate Onexts(g: Links, q: Quad, o0: Id, o1: Id, o2: Id, o3: Id) {
    && Rots(g, q)
    && g[q.e0].onextId == o0 && g[q.e1].onextId == o1 && g[q.e2].onextId == o2 && g[q.e3].onextId == o3
  }

  /** q is a lone edge: e0 and e2 are their own origin-next, e1 and e3 each other's. */
  ghost predicate Lone(g: Links, q: Quad) {
    Onexts(g, q, q.e0, q.e3, q.e2, q.e1)
  }

  /** q's four ids are distinct. */
  predicate Own(q: Quad) {
    Distinct4(q.e0, q.e1, q.e2, q.e3)
  }

  /** p and q share no id. */
  predicate Apart(p: Quad, q: Quad) {
    && p.e0 != q.e0 && p.e0 != q.e1 && p.e0 != q.e2 && p.e0 != q.e3
    && p.e1 != q.e0 && p.e1 != q.e1 && p.e1 != q.e2 && p.e1 != q.e3
    && p.e2 != q.e0 && p.e2 != q.e1 && p.e2 != q.e2 && p.e2 != q.e3
    && p.e3 != q.e0 && p.e3 != q.e1 && p.e3 != q.e2 && p.e3 != q.e3
  }

  /** A lone quad is what `IsolatedQuad` describes. */
  lemma LoneIsolated(g: Links, q: Quad)
    requires Lone(g, q) && Own(q)
    ensures IsolatedQuad(g, q.e0)
    ensures Rot(g, q.e0) == q.e1 && Sym(g, q.e0) == q.e2 && InvRot(g, q.e0) == q.e3
  {
  }

  /** What one splice does to the link map, entry by entry: rotations stay, the four
      origin-next links are exchanged, and every other entry is kept. */
  lemma SpliceEntries(g: Links, a: Id, b: Id)
    requires Linked(g) && a in g && b in g
    requires Distinct4(a, b, Alpha(g, a), Alpha(g, b))
    ensures var r := SpliceLinks(g, a, b);
      && Linked(r) && r.Keys == g.Keys
      && (forall k :: k in g ==> r[k].rotId == g[k].rotId)
      && r[a].onextId == g[b].onextId && r[b].onextId == g[a].onextId
      && r[Alpha(g, a)].onextId == g[Alpha(g, b)].onextId
      && r[Alpha(g, b)].onextId == g[Alpha(g, a)].onextId
      && (forall k :: k in g && k != a && k != b && k != Alpha(g, a) && k != Alpha(g, b) ==> r[k] == g[k])
  {
    SpliceExchange(g, a, b);
    SpliceFrame(g, a, b);
    SpliceKeepsRot(g, a, b);
  }

  /** A new quad is lone, and the quads it shares no id with keep their links. */
  lemma NewQuadLone(g: Links, q: Quad)
    requires Linked(g) && Own(q)
    ensures var h := NewQuadLinks(g, q.e0, q.e1, q.e2, q.e3);
      && Lone(h, q)
      && forall k :: k in g && k != q.e0 && k != q.e1 && k != q.e2 && k != q.e3 ==> h[k] == g[k]
  {
    NewQuadLinked(g, q.e0, q.e1, q.e2, q.e3);
  }

  /** None of q's ids is a, b, c or d. */
  predicate Avoids(q: Quad, a: Id, b: Id, c: Id, d: Id) {
    && q.e0 != a && q.e0 != b && q.e0 != c && q.e0 != d
    && q.e1 != a && q.e1 != b && q.e1 != c && q.e1 != d
    && q.e2 != a && q.e2 != b && q.e2 != c && q.e2 != d
    && q.e3 != a && q.e3 != b && q.e3 != c && q.e3 != d
  }

  /** A quad none of whose ids a splice writes keeps its links. */
  lemma SpliceElsewhere(g: Links, a: Id, b: Id, q: Quad, o0: Id, o1: Id, o2: Id, o3: Id)
    requires Linked(g) && a in g && b in g && Onexts(g, q, o0, o1, o2, o3)
    requires Avoids(q, a, b, Alpha(g, a), Alpha(g, b))
    ensures Onexts(SpliceLinks(g, a, b), q, o0, o1, o2, o3)
  {
    SpliceFrame(g, a, b);
  }
}
