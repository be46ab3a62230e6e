/** What a drag does, in terms of the boxes on the canvas: where the handles are, how far a corner pulls the box, and the
    lines a moved box snaps to. */
module PreviewDrag {
  import opened PreviewEdit
  import opened PreviewMove
  import opened PreviewResize

  // ----- handles -----

  /** The handles sit at the four corners and in the middle of the four sides; the anchor is across. */
  lemma HandlePositions()
    ensures HandleUnit(TopLeft) == OppositeUnit(BottomRight) == Vec2(0.0, 0.0)
    ensures HandleUnit(Top) == OppositeUnit(Bottom) == Vec2(0.5, 0.0)
    ensures HandleUnit(TopRight) == OppositeUnit(BottomLeft) == Vec2(1.0, 0.0)
    ensures HandleUnit(Left) == OppositeUnit(Right) == Vec2(0.0, 0.5)
    ensures HandleUnit(Right) == OppositeUnit(Left) == Vec2(1.0, 0.5)
    ensures HandleUnit(BottomLeft) == OppositeUnit(TopRight) == Vec2(0.0, 1.0)
    ensures HandleUnit(Bottom) == OppositeUnit(Top) == Vec2(0.5, 1.0)
    ensures HandleUnit(BottomRight) == OppositeUnit(TopLeft) == Vec2(1.0, 1.0)
  {
  }

  /** A corner moves both sides of the box, any other handle its own. */
  lemma HandleMoves(h: Handle)
    ensures IsCorner(h) <==> h in [TopLeft, TopRight, BottomLeft, BottomRight]
    ensures MovesX(h) <==> IsCorner(h) || h == Left || h == Right
    ensures MovesY(h) <==> IsCorner(h) || h == Top || h == Bottom
  {
  }

  // ----- how far a plain corner drag pulls -----

  /** The sides' ratios a mouse asks for; the one of the larger size leads, the horizontal one if they are alike. */
  predicate Leads(f: real, size: Vec2, want: Vec2)
    requires size.x != 0.0 && size.y != 0.0
  {
    (f * size.x == want.x && Abs(want.x / size.x) >= Abs(want.y / size.y))
    || (f * size.y == want.y && Abs(want.x / size.x) < Abs(want.y / size.y))
  }

  predicate ScaledBy(size: Vec2, next: Vec2, k: real) {
    next == Vec2(size.x * k, size.y * k)
  }

  lemma LeastFactor(side: real, f: real)
    requires side > 0.0
    ensures f >= 8.0 / side <==> f * side >= 8.0
    ensures f == 8.0 / side <==> f * side == 8.0
  {
    var q := 8.0 / side;
    assert q * side == 8.0;
    if f >= q {
      assert f * side >= q * side;
    } else {
      assert (q - f) * side > 0.0;
    }
  }

  lemma FactorMeans(size: Vec2, want: Vec2)
    requires size.x != 0.0 && size.y != 0.0
    ensures var k := Factor(size, want);
            && k * Abs(size.x) >= 8.0 && k * Abs(size.y) >= 8.0
            && exists f :: Leads(f, size, want) && f <= k && (k == f || k * Abs(size.x) == 8.0 || k * Abs(size.y) == 8.0)
  {
    hide Abs;
    var k := Factor(size, want);
    AbsPositive(size);
    LeastFactor(Abs(size.x), k);
    LeastFactor(Abs(size.y), k);
    var fx, fy := want.x / size.x, want.y / size.y;
    assert fx * size.x == want.x && fy * size.y == want.y;
    var f := if Abs(fx) >= Abs(fy) then fx else fy;
    assert Leads(f, size, want);
  }

  lemma AbsPositive(size: Vec2)
    requires size.x != 0.0 && size.y != 0.0
    ensures Abs(size.x) > 0.0 && Abs(size.y) > 0.0
  {
  }

  /** Both sides are scaled by one factor: the leading one, or as little more as makes both sides 8 at least. */
  lemma CornerFollowsLargerPull(start: Item, h: Handle, target: Vec2, out: Item)
    requires Resizable(start, h) && IsCorner(h) && Resizes(start, h, target, false, out)
    ensures var size, want, next := BoxSize(start), Wanted(start, h, target), BoxSize(out);
            && size.x != 0.0 && size.y != 0.0
            && exists k, f :: ScaledBy(size, next, k) && Leads(f, size, want) && f <= k
                              && Abs(next.x) >= 8.0 && Abs(next.y) >= 8.0 && (k == f || Abs(next.x) == 8.0 || Abs(next.y) == 8.0)
  {
    hide BoxSize, Anchor, Factor, Wanted, Leads;
    var size, want := BoxSize(start), Wanted(start, h, target);
    FactorMeans(size, want);
    var k := Factor(size, want);
    var f :| Leads(f, size, want) && f <= k && (k == f || k * Abs(size.x) == 8.0 || k * Abs(size.y) == 8.0);
    ScaledAbs(size.x, k);
    ScaledAbs(size.y, k);
    assert ScaledBy(size, BoxSize(out), k);
  }

  lemma ScaledAbs(side: real, k: real)
    requires side != 0.0 && k * Abs(side) >= 8.0
    ensures Abs(side * k) == k * Abs(side)
  {
    assert k > 0.0;
    assert side > 0.0 ==> side * k > 0.0;
    assert side < 0.0 ==> side * k < 0.0;
  }

  /** The minimum of every side a handle moves is 8. */
  lemma MovedSideIsEight(start: Item, h: Handle, target: Vec2, shift: bool, out: Item)
    requires Resizable(start, h) && Resizes(start, h, target, shift, out)
    ensures (MovesX(h) ==> Abs(BoxSize(out).x) >= 8.0) && (MovesY(h) ==> Abs(BoxSize(out).y) >= 8.0)
    ensures (!MovesX(h) ==> BoxSize(out).x == BoxSize(start).x) && (!MovesY(h) ==> BoxSize(out).y == BoxSize(start).y)
  {
    hide Resizes, BoxSize;
    SidesKeepSignAndMinimum(start, h, target, shift, out);
    UnmovedSidesStay(start, h, target, shift, out);
  }

  // ----- the lines a moved box snaps to -----

  /** An item whose edges count. */
  predicate Counts(o: Item, id: int) {
    o.visible && o.id != id && !(-0.000001 < BoxSize(o).x < 0.000001) && !(-0.000001 < BoxSize(o).y < 0.000001)
  }

  lemma ListedCounts(o: Item, id: int)
    ensures Listed(o, id) <==> Counts(o, id)
  {
  }

  /** The near and the far edge of an item across one axis. */
  function Sides(o: Item, vertical: bool): seq<real> {
    if vertical then [ExtentOf(o).minY, ExtentOf(o).maxY] else [ExtentOf(o).minX, ExtentOf(o).maxX]
  }

  lemma {:induction false} EdgesAre(others: seq<Item>, id: int, vertical: bool, r: real)
    ensures r in Edges(others, id, vertical) <==>
              exists k :: 0 <= k < |others| && Counts(others[k], id) && r in Sides(others[k], vertical)
    decreases |others|
  {
    hide ExtentOf, Listed, Counts;
    if others != [] {
      var n := |others| - 1;
      EdgesAre(others[..n], id, vertical, r);
      ListedCounts(others[n], id);
      assert forall k :: 0 <= k < n ==> others[..n][k] == others[k];
    }
  }

  /** The list of lines is that of the items one after the other, each with its near edge before its far one. */
  lemma {:induction false} EdgesInOrder(a: seq<Item>, b: seq<Item>, id: int, vertical: bool)
    ensures Edges(a + b, id, vertical) == Edges(a, id, vertical) + Edges(b, id, vertical)
    ensures |a| == 1 && Counts(a[0], id) ==> Edges(a, id, vertical) == Sides(a[0], vertical)
    decreases |b|
  {
    hide ExtentOf, Listed, Counts;
    if |a| == 1 {
      ListedCounts(a[0], id);
    }
    if b == [] {
      assert a + b == a;
    } else {
      var n := |b| - 1;
      EdgesInOrder(a, b[..n], id, vertical);
      assert (a + b)[..|a| + n] == a + b[..n] && (a + b)[|a| + n] == b[n];
    }
  }

  /** The lines of one axis: the canvas borders first, then the edges of the other items; the middle of the moved box goes to
      the middle of the canvas. */
  lemma AxesMean(it: Item, canvas: Size, others: seq<Item>)
    ensures var ax, ay, e := AxisX(it, canvas, others), AxisY(it, canvas, others), ExtentOf(it);
            && ax.edges == [e.minX, e.maxX] && ay.edges == [e.minY, e.maxY]
            && ax.middle - e.minX == e.maxX - ax.middle && ay.middle - e.minY == e.maxY - ay.middle
            && ax.centre + ax.centre == canvas.w as real && ay.centre + ay.centre == canvas.h as real
            && ax.lines == [0.0, canvas.w as real] + Edges(others, it.id, false)
            && ay.lines == [0.0, canvas.h as real] + Edges(others, it.id, true)
  {
    hide ExtentOf, Edges;
  }
}
