/**
 * The planar layer of src/quad-edge-2d.ts: edges whose records carry points, the side
 * tests `rightOf` and `leftOf`, and the bounded walk `locate`. A side test is falsy when
 * either endpoint of the edge has no point; `locate` walks at most eleven times and then
 * gives up. The logging inside `locate` is not part of this model.
 */
module QuadEdge2D {
  import opened Wrappers
  import opened EdgeRecords
  import opened Edges
  import opened TwoD
  import opened GeoMath

  /** Both endpoints of e carry a point. */
  predicate HasEnds(m: Records<Point>, e: Id)
    requires Linked(LinksOf(m)) && e in m
  {
    Odata(m, e).Some? && Ddata(m, e).Some?
  }

  /** `rightOf(x, e)`: x is on the right of e or on its line; the source's `undefined`
      (when an endpoint has no point) reads as false. */
  function RightOf(m: Records<Point>, x: Point, e: Id): (r: bool)
    requires Linked(LinksOf(m)) && e in m
    ensures r <==> HasEnds(m, e) && Cross(Minus(Ddata(m, e).value, x), Minus(Odata(m, e).value, x)) <= 0.0
  {
    HasEnds(m, e) && Ccw(x, Ddata(m, e).value, Odata(m, e).value)
  }

  /** `leftOf(x, e)`: x is on the left of e or on its line; false when an endpoint has no
      point. */
  function LeftOf(m: Records<Point>, x: Point, e: Id): (r: bool)
    requires Linked(LinksOf(m)) && e in m
    ensures r <==> HasEnds(m, e) && Cross(Minus(Odata(m, e).value, x), Minus(Ddata(m, e).value, x)) <= 0.0
  {
    HasEnds(m, e) && Ccw(x, Odata(m, e).value, Ddata(m, e).value)
  }

  /** With both endpoints known, x is on at least one side of e, and on both sides
      exactly when it lies on e's line. */
  lemma RightOrLeft(m: Records<Point>, x: Point, e: Id)
    requires Linked(LinksOf(m)) && e in m && HasEnds(m, e)
    ensures RightOf(m, x, e) || LeftOf(m, x, e)
    ensures RightOf(m, x, e) && LeftOf(m, x, e) <==> Collinear(x, Odata(m, e).value, Ddata(m, e).value)
  {
    var o, d := Odata(m, e).value, Ddata(m, e).value;
    CcwSwap(x, o, d);
  }

  /** Without both endpoints, x is on neither side. */
  lemma NoSideWithoutEnds(m: Records<Point>, x: Point, e: Id)
    requires Linked(LinksOf(m)) && e in m && !HasEnds(m, e)
    ensures !RightOf(m, x, e) && !LeftOf(m, x, e)
  {
  }

  /** Left of e is right of e.sym, as long as e.sym.sym is e again. */
  lemma LeftOfIsRightOfSym(m: Records<Point>, x: Point, e: Id)
    requires Linked(LinksOf(m)) && e in m
    requires Sym(LinksOf(m), Sym(LinksOf(m), e)) == e
    ensures LeftOf(m, x, e) == RightOf(m, x, Sym(LinksOf(m), e))
  {
    var s := Sym(LinksOf(m), e);
    assert Odata(m, s) == Ddata(m, e);
    assert Ddata(m, s) == Odata(m, e);
  }

  /** What one pass of the `locate` loop does with the current edge: stop with a result,
      or move on to a new current edge. */
  datatype Move = Return(result: Option<Id>) | MoveTo(next: Id)

  /** The edge `locate` may stop at: both endpoints carry points, and x is one of them or
      lies in the triangle the three tests bound (not strictly right of cur, right of
      cur.onext and of cur.dprev). */
  predicate Located(m: Records<Point>, x: Point, c: Id)
    requires Linked(LinksOf(m))
  {
    var g := LinksOf(m);
    && c in m && HasEnds(m, c)
    && (|| Equals(x, Odata(m, c).value) || Equals(x, Ddata(m, c).value)
        || (!RightOf(m, x, c) && RightOf(m, x, Onext(g, c)) && RightOf(m, x, Dprev(g, c))))
  }

  /** The branches of one pass, in the order of the source: no point on an endpoint gives
      `undefined`; x at an endpoint gives cur; x right of cur moves to the sym of the edge
      `locate` was called with (not of cur); then onext and dprev are tried; otherwise cur
      is the answer. */
  function LocateStep(m: Records<Point>, x: Point, e: Id, cur: Id): (mv: Move)
    requires Linked(LinksOf(m)) && e in m && cur in m
    ensures mv.MoveTo? ==> mv.next in m
    ensures mv == Return(None) <==> !HasEnds(m, cur)
    ensures mv.Return? && mv.result.Some? ==> mv.result.value == cur && Located(m, x, cur)
    ensures HasEnds(m, cur) && RightOf(m, x, cur) && !Located(m, x, cur) ==> mv == MoveTo(Sym(LinksOf(m), e))
  {
    var g := LinksOf(m);
    if Odata(m, cur).None? || Ddata(m, cur).None? then Return(None)
    else if Equals(x, Odata(m, cur).value) || Equals(x, Ddata(m, cur).value) then Return(Some(cur))
    else if RightOf(m, x, cur) then MoveTo(Sym(g, e))
    else if !RightOf(m, x, Onext(g, cur)) then MoveTo(Onext(g, cur))
    else if !RightOf(m, x, Dprev(g, cur)) then MoveTo(Dprev(g, cur))
    else Return(Some(cur))
  }

  /** The loop runs while its counter, counted before the pass, is at most this. */
  const MaxTries: nat := 10

  /** The walk from cur after `tries` passes: an answer it stops with, or `undefined` once
      the passes run out. Any edge it returns is one `locate` may stop at. */
  function Walk(m: Records<Point>, x: Point, e: Id, cur: Id, tries: nat): (r: Option<Id>)
    requires Linked(LinksOf(m)) && e in m && cur in m
    ensures r.Some? ==> Located(m, x, r.value)
    decreases MaxTries + 1 - tries
  {
    if tries > MaxTries then None
    else
      match LocateStep(m, x, e, cur)
      case Return(r) => r
      case MoveTo(next) => Walk(m, x, e, next, tries + 1)
  }

  /** `locate(x, e)`: at most eleven passes of the loop from cur = e. It gives up with
      `undefined` when e has an endpoint without a point, answers e when x is one of its
      endpoints, and any edge it answers is one it may stop at. */
  method Locate(m: Records<Point>, x: Point, e: Id) returns (r: Option<Id>)
    requires Linked(LinksOf(m)) && e in m
    ensures r == Walk(m, x, e, e, 0)
    ensures !HasEnds(m, e) ==> r.None?
    ensures HasEnds(m, e) && (Equals(x, Odata(m, e).value) || Equals(x, Ddata(m, e).value)) ==> r == Some(e)
    ensures r.Some? ==> Located(m, x, r.value)
  {
    var g := LinksOf(m);
    var cur := e;
    var tries := 0;
    while tries <= MaxTries
      invariant 0 <= tries <= MaxTries + 1 && cur in m
      invariant Walk(m, x, e, cur, tries) == Walk(m, x, e, e, 0)
      decreases MaxTries + 1 - tries
    {
      tries := tries + 1;
      if Odata(m, cur).None? || Ddata(m, cur).None? {
        return None;
      } else if Equals(x, Odata(m, cur).value) || Equals(x, Ddata(m, cur).value) {
        return Some(cur);
      } else if RightOf(m, x, cur) {
        cur := Sym(g, e);
      } else if !RightOf(m, x, Onext(g, cur)) {
        cur := Onext(g, cur);
      } else if !RightOf(m, x, Dprev(g, cur)) {
        cur := Dprev(g, cur);
      } else {
        return Some(cur);
      }
    }
    return None;
  }

  /** Once the walk stands on e.sym with x right of it and at neither endpoint, every
      further pass returns to e.sym, so the passes run out and the answer is `undefined`. */
  lemma {:induction false} StuckOnSym(m: Records<Point>, x: Point, e: Id, tries: nat)
    requires Linked(LinksOf(m)) && e in m
    requires var s := Sym(LinksOf(m), e); RightOf(m, x, s) && !Located(m, x, s)
    ensures Walk(m, x, e, Sym(LinksOf(m), e), tries) == None
    decreases MaxTries + 1 - tries
  {
    var s := Sym(LinksOf(m), e);
    if tries <= MaxTries {
      assert LocateStep(m, x, e, s) == MoveTo(s);
      StuckOnSym(m, x, e, tries + 1);
    }
  }

  /** A point on the line of e, but at neither endpoint, is never located from e: it is
      right of e, so the walk moves to e.sym, where it is right again. */
  lemma CollinearNotLocated(m: Records<Point>, x: Point, e: Id)
    requires Linked(LinksOf(m)) && e in m && HasEnds(m, e)
    requires Sym(LinksOf(m), Sym(LinksOf(m), e)) == e
    requires Collinear(x, Odata(m, e).value, Ddata(m, e).value)
    requires !Equals(x, Odata(m, e).value) && !Equals(x, Ddata(m, e).value)
    ensures Walk(m, x, e, e, 0) == None
  {
    var g := LinksOf(m);
    var s := Sym(g, e);
    RightOrLeft(m, x, e);
    LeftOfIsRightOfSym(m, x, e);
    assert Odata(m, s) == Ddata(m, e) && Ddata(m, s) == Odata(m, e);
    assert !Located(m, x, s);
    assert LocateStep(m, x, e, e) == MoveTo(s);
    StuckOnSym(m, x, e, 1);
  }

  /** The step of Guibas and Stolfi's locate, which moves to cur.sym, not e.sym, when x is
      right of cur; the other branches are those of the source. */
  function TextbookStep(m: Records<Point>, x: Point, cur: Id): (mv: Move)
    requires Linked(LinksOf(m)) && cur in m
    ensures mv.MoveTo? ==> mv.next in m
    ensures mv.Return? && mv.result.Some? ==> Located(m, x, cur)
  {
    var g := LinksOf(m);
    if Odata(m, cur).None? || Ddata(m, cur).None? then Return(None)
    else if Equals(x, Odata(m, cur).value) || Equals(x, Ddata(m, cur).value) then Return(Some(cur))
    else if RightOf(m, x, cur) then MoveTo(Sym(g, cur))
    else if !RightOf(m, x, Onext(g, cur)) then MoveTo(Onext(g, cur))
    else if !RightOf(m, x, Dprev(g, cur)) then MoveTo(Dprev(g, cur))
    else Return(Some(cur))
  }

  /** The walk with the textbook step, under the same bound on the passes. */
  function TextbookWalk(m: Records<Point>, x: Point, cur: Id, tries: nat): (r: Option<Id>)
    requires Linked(LinksOf(m)) && cur in m
    ensures r.Some? ==> Located(m, x, r.value)
    decreases MaxTries + 1 - tries
  {
    if tries > MaxTries then None
    else
      match TextbookStep(m, x, cur)
      case Return(r) => r
      case MoveTo(next) => TextbookWalk(m, x, next, tries + 1)
  }

  /** A point right of both e and e.sym, at neither endpoint, sends the textbook walk back
      and forth between them until the passes run out. */
  lemma {:induction false} TextbookPingPong(m: Records<Point>, x: Point, e: Id, cur: Id, tries: nat)
    requires Linked(LinksOf(m)) && e in m
    requires Sym(LinksOf(m), Sym(LinksOf(m), e)) == e
    requires cur == e || cur == Sym(LinksOf(m), e)
    requires RightOf(m, x, e) && !Located(m, x, e)
    requires RightOf(m, x, Sym(LinksOf(m), e)) && !Located(m, x, Sym(LinksOf(m), e))
    ensures TextbookWalk(m, x, cur, tries) == None
    decreases MaxTries + 1 - tries
  {
    var g := LinksOf(m);
    if tries <= MaxTries {
      assert TextbookStep(m, x, cur) == MoveTo(Sym(g, cur));
      TextbookPingPong(m, x, e, Sym(g, cur), tries + 1);
    }
  }

  /** e and e.sym share their endpoints, swapped. */
  lemma SymEnds(m: Records<Point>, e: Id)
    requires Linked(LinksOf(m)) && e in m
    requires Sym(LinksOf(m), Sym(LinksOf(m), e)) == e
    ensures Odata(m, Sym(LinksOf(m), e)) == Ddata(m, e)
    ensures Ddata(m, Sym(LinksOf(m), e)) == Odata(m, e)
  {
  }

  /** From any edge the walk can stand on (one x is not right of, e itself, or e.sym when x
      is also right of e), the source's walk and the textbook walk give the same answer:
      they part only on a point on e's line, where both run out of passes. */
  lemma {:induction false} WalkIsTextbookFrom(m: Records<Point>, x: Point, e: Id, cur: Id, tries: nat)
    requires Linked(LinksOf(m)) && e in m && cur in m
    requires Sym(LinksOf(m), Sym(LinksOf(m), e)) == e
    requires !RightOf(m, x, cur) || cur == e || (cur == Sym(LinksOf(m), e) && RightOf(m, x, e))
    ensures Walk(m, x, e, cur, tries) == TextbookWalk(m, x, cur, tries)
    decreases MaxTries + 1 - tries
  {
    var g := LinksOf(m);
    var s := Sym(g, e);
    if tries <= MaxTries {
      var mv := LocateStep(m, x, e, cur);
      if mv.MoveTo? {
        if HasEnds(m, cur) && RightOf(m, x, cur) && cur == s && cur != e {
          SymEnds(m, e);
          assert !Located(m, x, e);
          StuckOnSym(m, x, e, tries + 1);
          TextbookPingPong(m, x, e, e, tries + 1);
        } else {
          assert TextbookStep(m, x, cur) == mv;
          WalkIsTextbookFrom(m, x, e, mv.next, tries + 1);
        }
      } else {
        assert TextbookStep(m, x, cur) == mv;
      }
    }
  }

  /** Moving to e.sym instead of cur.sym is harmless: `locate` answers what the textbook
      walk answers, for every point and every start edge whose sym is an involution. */
  lemma LocateIsTextbook(m: Records<Point>, x: Point, e: Id)
    requires Linked(LinksOf(m)) && e in m
    requires Sym(LinksOf(m), Sym(LinksOf(m), e)) == e
    ensures Walk(m, x, e, e, 0) == TextbookWalk(m, x, e, 0)
  {
    WalkIsTextbookFrom(m, x, e, e, 0);
  }
}
