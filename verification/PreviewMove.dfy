/** Moving with snapping (src/core/PreviewEdit.cpp): per axis the least offset within the threshold that puts an edge
    of the moved box on an edge line or its centre on the canvas centre. */
module PreviewMove {
  import opened PreviewEdit

  // ----- extents -----

  function Corner(it: Item, k: nat): Vec2
    requires k < 4
  {
    BoxPoint(it, if k == 0 then Vec2(0.0, 0.0) else if k == 1 then Vec2(1.0, 0.0) else if k == 2 then Vec2(1.0, 1.0) else Vec2(0.0, 1.0))
  }

  function Widened(e: Extent, p: Vec2): Extent {
    Extent(Min(e.minX, p.x), Max(e.maxX, p.x), Min(e.minY, p.y), Max(e.maxY, p.y))
  }

  /** The extent of the first n corners. */
  function ExtentTo(it: Item, n: nat): Extent
    requires 0 < n <= 4
  {
    var p := Corner(it, n - 1);
    if n == 1 then Extent(p.x, p.x, p.y, p.y) else Widened(ExtentTo(it, n - 1), p)
  }

  function ExtentOf(it: Item): Extent {
    ExtentTo(it, 4)
  }

  method MeasureExtent(it: Item) returns (e: Extent)
    ensures e == ExtentOf(it)
  {
    hide Corner;
    var first := Corner(it, 0);
    e := Extent(first.x, first.x, first.y, first.y);
    for k := 0 to 4
      invariant e == ExtentTo(it, if k == 0 then 1 else k)
    {
      e := Widened(e, Corner(it, k));
    }
  }

  /** The extent holds every corner and each of its bounds is reached by one. */
  lemma {:induction false} ExtentSpans(it: Item, n: nat)
    requires 0 < n <= 4
    ensures var e := ExtentTo(it, n);
            && (forall k: nat :: k < n ==> e.minX <= Corner(it, k).x <= e.maxX && e.minY <= Corner(it, k).y <= e.maxY)
            && (exists k: nat :: k < n && Corner(it, k).x == e.minX) && (exists k: nat :: k < n && Corner(it, k).x == e.maxX)
            && (exists k: nat :: k < n && Corner(it, k).y == e.minY) && (exists k: nat :: k < n && Corner(it, k).y == e.maxY)
  {
    hide Corner;
    if n > 1 {
      ExtentSpans(it, n - 1);
    }
  }

  lemma SizeStays(it: Item, pos: Vec2)
    ensures BoxSize(it.(pos := pos)) == BoxSize(it)
  {
  }

  lemma CornerMoves(it: Item, pos: Vec2, k: nat)
    requires k < 4
    ensures Corner(it.(pos := pos), k) == Add(Corner(it, k), Sub(pos, it.pos))
  {
    hide Rotate, Local, BoxSize;
    SizeStays(it, pos);
  }

  /** Moving an item moves its extent along. */
  lemma {:induction false} ExtentMoves(it: Item, pos: Vec2, n: nat)
    requires 0 < n <= 4
    ensures var e, d := ExtentTo(it, n), Sub(pos, it.pos);
            ExtentTo(it.(pos := pos), n) == Extent(e.minX + d.x, e.maxX + d.x, e.minY + d.y, e.maxY + d.y)
  {
    hide Corner;
    CornerMoves(it, pos, n - 1);
    if n > 1 {
      ExtentMoves(it, pos, n - 1);
    }
  }

  // ----- the least offset -----

  /** Moving by `off` puts one of the probes on one of the targets. */
  ghost predicate Aligns(off: real, probes: seq<real>, targets: seq<real>) {
    exists i, j :: 0 <= i < |probes| && 0 <= j < |targets| && off == targets[j] - probes[i]
  }

  /** The offset of target j from probe i. */
  function Off(probes: seq<real>, targets: seq<real>, i: nat, j: nat): real
    requires i < |probes| && j < |targets|
  {
    targets[j] - probes[i]
  }

  /** The order in which the pairs are tried: probe by probe, target by target. */
  predicate Before(i: nat, j: nat, a: nat, b: nat) {
    i < a || (i == a && j < b)
  }

  /** Of the pairs before (a, b), (i, j) is the last of those with the least offset, and within the threshold. */
  ghost predicate LastLeast(probes: seq<real>, targets: seq<real>, threshold: real, i: nat, j: nat, a: nat, b: nat) {
    && i < |probes| && j < |targets| && Before(i, j, a, b) && Abs(Off(probes, targets, i, j)) <= threshold
    && forall k: nat, l: nat :: k < |probes| && l < |targets| && Before(k, l, a, b) ==>
         && Abs(Off(probes, targets, i, j)) <= Abs(Off(probes, targets, k, l))
         && (Before(i, j, k, l) ==> Abs(Off(probes, targets, i, j)) < Abs(Off(probes, targets, k, l)))
  }

  ghost predicate NoneWithin(probes: seq<real>, targets: seq<real>, threshold: real, a: nat, b: nat) {
    forall k: nat, l: nat :: k < |probes| && l < |targets| && Before(k, l, a, b) ==> Abs(Off(probes, targets, k, l)) > threshold
  }

  /** The last of the least offsets of all pairs, if one is within the threshold. */
  ghost predicate IsLeast(best: real, found: bool, threshold: real, probes: seq<real>, targets: seq<real>) {
    if found then exists i: nat, j: nat :: LastLeast(probes, targets, threshold, i, j, |probes|, 0) && best == Off(probes, targets, i, j)
    else best == 0.0 && NoneWithin(probes, targets, threshold, |probes|, 0)
  }

  lemma LeastIsDetermined(a: real, fa: bool, b: real, fb: bool, threshold: real, probes: seq<real>, targets: seq<real>)
    requires IsLeast(a, fa, threshold, probes, targets) && IsLeast(b, fb, threshold, probes, targets)
    ensures a == b && fa == fb
  {
    hide Abs, Off;
    if fa && fb {
      var i: nat, j: nat :| LastLeast(probes, targets, threshold, i, j, |probes|, 0) && a == Off(probes, targets, i, j);
      var k: nat, l: nat :| LastLeast(probes, targets, threshold, k, l, |probes|, 0) && b == Off(probes, targets, k, l);
      assert Before(i, j, k, l) || Before(k, l, i, j) || (i == k && j == l);
    }
  }

  /** One more pair has been tried. */
  lemma TriedOne(probes: seq<real>, targets: seq<real>, threshold: real, found: bool, i: nat, j: nat, a: nat, b: nat)
    requires a < |probes| && b < |targets|
    requires if found then LastLeast(probes, targets, threshold, i, j, a, b) else NoneWithin(probes, targets, threshold, a, b)
    ensures var off := Abs(Off(probes, targets, a, b));
            if found && off > Abs(Off(probes, targets, i, j)) then LastLeast(probes, targets, threshold, i, j, a, b + 1)
            else if !found && off > threshold then NoneWithin(probes, targets, threshold, a, b + 1)
            else LastLeast(probes, targets, threshold, a, b, a, b + 1)
  {
    hide Abs, Off;
    forall k: nat, l: nat
      ensures Before(k, l, a, b + 1) ==> Before(k, l, a, b) || (k == a && l == b)
      ensures Before(k, l, a, b) ==> Before(k, l, a, b + 1) && !Before(a, b, k, l)
    {
      assert Before(k, l, a, b + 1) == (k < a || (k == a && l < b + 1));
    }
  }

  /** The pairs of one probe are done. */
  lemma NextProbe(probes: seq<real>, targets: seq<real>, threshold: real, found: bool, i: nat, j: nat, a: nat)
    requires a < |probes|
    requires if found then LastLeast(probes, targets, threshold, i, j, a, |targets|) else NoneWithin(probes, targets, threshold, a, |targets|)
    ensures if found then LastLeast(probes, targets, threshold, i, j, a + 1, 0) else NoneWithin(probes, targets, threshold, a + 1, 0)
  {
    hide Abs, Off;
    assert forall k: nat, l: nat :: l < |targets| ==> (Before(k, l, a + 1, 0) <==> Before(k, l, a, |targets|));
  }

  method BestSnap(probes: seq<real>, targets: seq<real>, threshold: real) returns (best: real, found: bool)
    ensures IsLeast(best, found, threshold, probes, targets)
  {
    hide LastLeast, NoneWithin;
    best, found := 0.0, false;
    var bestAbs := threshold;
    ghost var i: nat, j: nat := 0, 0;
    Untried(probes, targets, threshold);
    for a := 0 to |probes|
      invariant if found then LastLeast(probes, targets, threshold, i, j, a, 0) else NoneWithin(probes, targets, threshold, a, 0)
      invariant if found then i < |probes| && j < |targets| && best == Off(probes, targets, i, j) && bestAbs == Abs(best)
                else best == 0.0 && bestAbs == threshold
    {
      for b := 0 to |targets|
        invariant if found then LastLeast(probes, targets, threshold, i, j, a, b) else NoneWithin(probes, targets, threshold, a, b)
        invariant if found then i < |probes| && j < |targets| && best == Off(probes, targets, i, j) && bestAbs == Abs(best)
                  else best == 0.0 && bestAbs == threshold
      {
        TriedOne(probes, targets, threshold, found, i, j, a, b);
        var off := targets[b] - probes[a];
        if Abs(off) <= bestAbs {
          bestAbs := Abs(off);
          best := off;
          found := true;
          i, j := a, b;
        }
      }
      NextProbe(probes, targets, threshold, found, i, j, a);
    }
  }

  lemma Untried(probes: seq<real>, targets: seq<real>, threshold: real)
    ensures NoneWithin(probes, targets, threshold, 0, 0)
  {
  }

  /** One axis: the edges have lines to meet, the middle has the canvas centre. */
  datatype Axis = Axis(edges: seq<real>, middle: real, lines: seq<real>, centre: real)

  ghost predicate Candidate(off: real, ax: Axis) {
    Aligns(off, ax.edges, ax.lines) || off == ax.centre - ax.middle
  }

  /** The snap of one axis: the candidate of least size within the threshold, or no move. */
  ghost predicate Snaps(off: real, ax: Axis, threshold: real) {
    if exists c :: Candidate(c, ax) && Abs(c) <= threshold
    then Candidate(off, ax) && Abs(off) <= threshold && forall c :: Candidate(c, ax) ==> Abs(off) <= Abs(c)
    else off == 0.0
  }

  /** Which of the two offsets is taken: the edge's unless the centre's is smaller. */
  function Taken(atEdge: real, edge: bool, atCentre: real, centre: bool): real {
    if edge && (!centre || Abs(atEdge) <= Abs(atCentre)) then atEdge else if centre then atCentre else 0.0
  }

  ghost predicate SnapsTo(off: real, ax: Axis, threshold: real) {
    exists atEdge: real, edge: bool, atCentre: real, centre: bool ::
      && IsLeast(atEdge, edge, threshold, ax.edges, ax.lines) && IsLeast(atCentre, centre, threshold, [ax.middle], [ax.centre])
      && off == Taken(atEdge, edge, atCentre, centre)
  }

  method Pick(ax: Axis, threshold: real) returns (off: real)
    ensures SnapsTo(off, ax, threshold)
  {
    hide IsLeast;
    var atEdge, edge := BestSnap(ax.edges, ax.lines, threshold);
    var atCentre, centre := BestSnap([ax.middle], [ax.centre], threshold);
    if edge && centre {
      off := if Abs(atEdge) <= Abs(atCentre) then atEdge else atCentre;
    } else {
      off := if edge then atEdge else if centre then atCentre else 0.0;
    }
    assert off == Taken(atEdge, edge, atCentre, centre);
  }

  lemma SnapIsDetermined(a: real, b: real, ax: Axis, threshold: real)
    requires SnapsTo(a, ax, threshold) && SnapsTo(b, ax, threshold)
    ensures a == b
  {
    hide IsLeast, Taken;
    var e: real, fe: bool, c: real, fc: bool :|
      IsLeast(e, fe, threshold, ax.edges, ax.lines) && IsLeast(c, fc, threshold, [ax.middle], [ax.centre]) && a == Taken(e, fe, c, fc);
    var d: real, fd: bool, g: real, fg: bool :|
      IsLeast(d, fd, threshold, ax.edges, ax.lines) && IsLeast(g, fg, threshold, [ax.middle], [ax.centre]) && b == Taken(d, fd, g, fg);
    LeastIsDetermined(e, fe, d, fd, threshold, ax.edges, ax.lines);
    LeastIsDetermined(c, fc, g, fg, threshold, [ax.middle], [ax.centre]);
  }

  /** What is taken is a candidate of least size within the threshold, or there is none and nothing moves. */
  lemma SnapIsLeast(off: real, ax: Axis, threshold: real)
    requires SnapsTo(off, ax, threshold)
    ensures Snaps(off, ax, threshold)
  {
    hide IsLeast, Snaps;
    var e: real, fe: bool, c: real, fc: bool :|
      IsLeast(e, fe, threshold, ax.edges, ax.lines) && IsLeast(c, fc, threshold, [ax.middle], [ax.centre]) && off == Taken(e, fe, c, fc);
    CentreAligns(ax);
    BestIsSnap(ax, threshold, e, fe, c, fc, off);
  }

  lemma CentreAligns(ax: Axis)
    ensures forall c :: Aligns(c, [ax.middle], [ax.centre]) <==> c == ax.centre - ax.middle
  {
    assert [ax.centre][0] - [ax.middle][0] == ax.centre - ax.middle;
  }

  lemma LeastOfAll(best: real, found: bool, threshold: real, probes: seq<real>, targets: seq<real>, c: real)
    requires IsLeast(best, found, threshold, probes, targets) && Aligns(c, probes, targets)
    ensures Abs(c) <= threshold ==> found && Abs(best) <= Abs(c)
    ensures found ==> Abs(best) <= Abs(c)
  {
    hide Abs;
    var i: nat, j: nat :| i < |probes| && j < |targets| && c == targets[j] - probes[i];
    assert c == Off(probes, targets, i, j) && Before(i, j, |probes|, 0);
  }

  lemma FoundAligns(best: real, threshold: real, probes: seq<real>, targets: seq<real>)
    requires IsLeast(best, true, threshold, probes, targets)
    ensures Aligns(best, probes, targets) && Abs(best) <= threshold
  {
    hide Abs;
  }

  lemma BestIsSnap(ax: Axis, threshold: real, atEdge: real, edge: bool, atCentre: real, centre: bool, off: real)
    requires IsLeast(atEdge, edge, threshold, ax.edges, ax.lines) && IsLeast(atCentre, centre, threshold, [ax.middle], [ax.centre])
    requires forall c :: Aligns(c, [ax.middle], [ax.centre]) <==> c == ax.centre - ax.middle
    requires off == Taken(atEdge, edge, atCentre, centre)
    ensures Snaps(off, ax, threshold)
  {
    hide Abs, Aligns, IsLeast;
    if edge {
      FoundAligns(atEdge, threshold, ax.edges, ax.lines);
    }
    if centre {
      FoundAligns(atCentre, threshold, [ax.middle], [ax.centre]);
    }
    if !edge && !centre {
      assert off == 0.0;
    }
    forall c | Candidate(c, ax)
      ensures Abs(c) <= threshold ==> edge || centre
      ensures edge || centre ==> Abs(off) <= Abs(c)
    {
      if Aligns(c, ax.edges, ax.lines) {
        LeastOfAll(atEdge, edge, threshold, ax.edges, ax.lines, c);
      } else {
        LeastOfAll(atCentre, centre, threshold, [ax.middle], [ax.centre], c);
      }
    }
    if edge || centre {
      assert Candidate(off, ax) && Abs(off) <= threshold;
    }
  }

  // ----- the move -----

  predicate Listed(o: Item, id: int) {
    o.visible && o.id != id && !Degenerate(BoxSize(o))
  }

  /** The edges of the other items on one axis, in the order of the list. */
  function Edges(others: seq<Item>, id: int, vertical: bool): seq<real> {
    if others == [] then [] else
    var o, e := others[|others| - 1], ExtentOf(others[|others| - 1]);
    Edges(others[..|others| - 1], id, vertical) +
    if !Listed(o, id) then [] else if vertical then [e.minY, e.maxY] else [e.minX, e.maxX]
  }

  function AxisX(it: Item, canvas: Size, others: seq<Item>): Axis {
    var e, w := ExtentOf(it), canvas.w as real;
    Axis([e.minX, e.maxX], (e.minX + e.maxX) * 0.5, [0.0, w] + Edges(others, it.id, false), w * 0.5)
  }

  function AxisY(it: Item, canvas: Size, others: seq<Item>): Axis {
    var e, h := ExtentOf(it), canvas.h as real;
    Axis([e.minY, e.maxY], (e.minY + e.maxY) * 0.5, [0.0, h] + Edges(others, it.id, true), h * 0.5)
  }

  /** Where a drag by delta puts the item: at the mouse, and from there by the snap of each axis. */
  ghost predicate MovesTo(start: Item, delta: Vec2, canvas: Size, others: seq<Item>, threshold: real, ctrl: bool, pos: Vec2) {
    var at := Add(start.pos, delta);
    if ctrl || threshold <= 0.0 || Degenerate(BoxSize(start)) then pos == at
    else
      var moved := start.(pos := at);
      SnapsTo(pos.x - at.x, AxisX(moved, canvas, others), threshold) && SnapsTo(pos.y - at.y, AxisY(moved, canvas, others), threshold)
  }

  /** The promise leaves no choice. */
  lemma MoveIsDetermined(start: Item, delta: Vec2, canvas: Size, others: seq<Item>, threshold: real, ctrl: bool, a: Vec2, b: Vec2)
    requires MovesTo(start, delta, canvas, others, threshold, ctrl, a) && MovesTo(start, delta, canvas, others, threshold, ctrl, b)
    ensures a == b
  {
    hide AxisX, AxisY, SnapsTo, Degenerate, BoxSize;
    var at := Add(start.pos, delta);
    if !(ctrl || threshold <= 0.0 || Degenerate(BoxSize(start))) {
      var moved := start.(pos := at);
      SnapIsDetermined(a.x - at.x, b.x - at.x, AxisX(moved, canvas, others), threshold);
      SnapIsDetermined(a.y - at.y, b.y - at.y, AxisY(moved, canvas, others), threshold);
    }
  }

  method MovePosition(start: Item, delta: Vec2, canvas: Size, others: seq<Item>, threshold: real, ctrl: bool) returns (pos: Vec2)
    ensures MovesTo(start, delta, canvas, others, threshold, ctrl, pos)
  {
    hide ExtentOf, SnapsTo, Degenerate, BoxSize;
    var moved := start.(pos := Add(start.pos, delta));
    SizeStays(start, moved.pos);
    if ctrl || threshold <= 0.0 || Degenerate(BoxSize(moved)) {
      return moved.pos;
    }
    var w, h := canvas.w as real, canvas.h as real;
    var xs, ys := [0.0, w], [0.0, h];
    for i := 0 to |others|
      invariant xs == [0.0, w] + Edges(others[..i], start.id, false) && ys == [0.0, h] + Edges(others[..i], start.id, true)
    {
      assert others[..i + 1][..i] == others[..i];
      var o := others[i];
      if !o.visible || o.id == start.id || Degenerate(BoxSize(o)) {
        continue;
      }
      var e := MeasureExtent(o);
      xs, ys := xs + [e.minX, e.maxX], ys + [e.minY, e.maxY];
    }
    assert others[..|others|] == others;
    var e := MeasureExtent(moved);
    var dx := Pick(Axis([e.minX, e.maxX], (e.minX + e.maxX) * 0.5, xs, w * 0.5), threshold);
    var dy := Pick(Axis([e.minY, e.maxY], (e.minY + e.maxY) * 0.5, ys, h * 0.5), threshold);
    pos := Vec2(moved.pos.x + dx, moved.pos.y + dy);
    assert pos.x - moved.pos.x == dx && pos.y - moved.pos.y == dy;
  }

  // ----- a snapped item stays -----

  ghost predicate ShiftedBy(ax: Axis, d: real, bx: Axis) {
    && bx.lines == ax.lines && bx.centre == ax.centre && bx.middle == ax.middle + d
    && |bx.edges| == |ax.edges| && forall i :: 0 <= i < |ax.edges| ==> bx.edges[i] == ax.edges[i] + d
  }

  lemma CandidatesShift(ax: Axis, d: real, bx: Axis, c: real)
    requires ShiftedBy(ax, d, bx) && Candidate(c, ax)
    ensures Candidate(c - d, bx)
  {
    if Aligns(c, ax.edges, ax.lines) {
      var i, j :| 0 <= i < |ax.edges| && 0 <= j < |ax.lines| && c == ax.lines[j] - ax.edges[i];
      assert c - d == bx.lines[j] - bx.edges[i];
    }
  }

  lemma ShiftedBack(ax: Axis, d: real, bx: Axis)
    requires ShiftedBy(ax, d, bx)
    ensures ShiftedBy(bx, -d, ax)
  {
  }

  /** After a snap, an edge or the middle is where it should be and a second snap moves nothing; without anything in
      reach the first one moved nothing and neither does the second. */
  lemma SnapSettles(ax: Axis, off: real, bx: Axis, again: real, threshold: real)
    requires threshold > 0.0 && Snaps(off, ax, threshold) && ShiftedBy(ax, off, bx) && Snaps(again, bx, threshold)
    ensures again == 0.0
    ensures Abs(off) <= threshold
    ensures Candidate(0.0, bx) <==> exists c :: Candidate(c, ax) && Abs(c) <= threshold
  {
    hide Aligns;
    ShiftedBack(ax, off, bx);
    if exists c :: Candidate(c, ax) && Abs(c) <= threshold {
      CandidatesShift(ax, off, bx, off);
      assert Candidate(0.0, bx);
    } else {
      forall c | Candidate(c, bx) ensures Candidate(c, ax) {
        CandidatesShift(bx, -off, ax, c);
      }
    }
  }

  lemma AxesShift(it: Item, pos: Vec2, canvas: Size, others: seq<Item>)
    ensures ShiftedBy(AxisX(it, canvas, others), pos.x - it.pos.x, AxisX(it.(pos := pos), canvas, others))
    ensures ShiftedBy(AxisY(it, canvas, others), pos.y - it.pos.y, AxisY(it.(pos := pos), canvas, others))
  {
    hide ExtentTo, Edges;
    ExtentMoves(it, pos, 4);
  }

  /** The item never lands farther from the mouse than the threshold, and where it landed it stays: dragging it by
      nothing from there moves nothing. */
  lemma MoveSettles(start: Item, delta: Vec2, canvas: Size, others: seq<Item>, threshold: real, ctrl: bool, pos: Vec2, again: Vec2)
    requires MovesTo(start, delta, canvas, others, threshold, ctrl, pos)
    requires MovesTo(start.(pos := pos), Vec2(0.0, 0.0), canvas, others, threshold, ctrl, again)
    ensures again == pos
    ensures var at := Add(start.pos, delta);
            if ctrl || threshold <= 0.0 then pos == at else Abs(pos.x - at.x) <= threshold && Abs(pos.y - at.y) <= threshold
  {
    hide AxisX, AxisY, Snaps, SnapsTo, ShiftedBy, Candidate, Degenerate, BoxSize;
    var at := Add(start.pos, delta);
    SizeStays(start, pos);
    if !(ctrl || threshold <= 0.0 || Degenerate(BoxSize(start))) {
      var moved, landed := start.(pos := at), start.(pos := pos);
      assert moved.(pos := pos) == landed;
      AxesShift(moved, pos, canvas, others);
      assert landed.(pos := Add(pos, Vec2(0.0, 0.0))) == landed;
      SnapIsLeast(pos.x - at.x, AxisX(moved, canvas, others), threshold);
      SnapIsLeast(pos.y - at.y, AxisY(moved, canvas, others), threshold);
      SnapIsLeast(again.x - pos.x, AxisX(landed, canvas, others), threshold);
      SnapIsLeast(again.y - pos.y, AxisY(landed, canvas, others), threshold);
      SnapSettles(AxisX(moved, canvas, others), pos.x - at.x, AxisX(landed, canvas, others), again.x - pos.x, threshold);
      SnapSettles(AxisY(moved, canvas, others), pos.y - at.y, AxisY(landed, canvas, others), again.y - pos.y, threshold);
    }
  }
}
