/** What the geometry of one item means: where its box lies, which part of the source it shows, and that its extent is the
    smallest upright rectangle around it. */
module PreviewBox {
  import opened Options
  import opened PreviewEdit
  import opened PreviewMove

  // ----- rotation and rounding -----

  /** The rotation takes the axes to (c, s) and (-s, c) and keeps sums and multiples. */
  lemma RotationOfAxes(t: Turn, p: Vec2, q: Vec2, k: real)
    ensures Rotate(Vec2(1.0, 0.0), t) == Vec2(t.c, t.s) && Rotate(Vec2(0.0, 1.0), t) == Vec2(-t.s, t.c)
    ensures Rotate(Vec2(p.x + k * q.x, p.y + k * q.y), t) == Vec2(Rotate(p, t).x + k * Rotate(q, t).x, Rotate(p, t).y + k * Rotate(q, t).y)
  {
    assert t.c * (p.x + k * q.x) == t.c * p.x + k * (t.c * q.x) && t.s * (p.x + k * q.x) == t.s * p.x + k * (t.s * q.x);
    assert t.c * (p.y + k * q.y) == t.c * p.y + k * (t.c * q.y) && t.s * (p.y + k * q.y) == t.s * p.y + k * (t.s * q.y);
    assert k * (t.c * q.x - t.s * q.y) == k * (t.c * q.x) - k * (t.s * q.y);
    assert k * (t.s * q.x + t.c * q.y) == k * (t.s * q.x) + k * (t.c * q.y);
  }

  /** Conversion to an integer keeps the sign and drops less than one, toward zero. */
  lemma TruncateIsTowardZero(x: real)
    ensures if x >= 0.0 then 0.0 <= x - Truncate(x) as real < 1.0 && Truncate(x) >= 0
            else 0.0 <= Truncate(x) as real - x < 1.0 && Truncate(x) <= 0
  {
  }

  lemma HalfIsTowardZero(n: int)
    ensures if n >= 0 then 0 <= n - 2 * Half(n) <= 1 else 0 <= 2 * Half(n) - n <= 1
  {
  }

  // ----- the box -----

  /** The point of the box that sits at the item's position, by its alignment. */
  function Anchor(a: Align): Vec2 {
    Vec2(if a.right then 1.0 else if a.left then 0.0 else 0.5, if a.bottom then 1.0 else if a.top then 0.0 else 0.5)
  }

  predicate Whole(x: real) {
    x == Truncate(x) as real
  }

  predicate EvenWhole(x: real) {
    Whole(x) && Truncate(x) % 2 == 0
  }

  lemma OriginOnAxis(side: real, far: bool, near: bool)
    ensures var t := Truncate(side);
            var origin := if far then t as real else if near then 0.0 else Half(t) as real;
            var off := (if far then 1.0 else if near then 0.0 else 0.5) * side - origin;
            && -1.0 < off < 1.0
            && (EvenWhole(side) || (near && !far) || (far && Whole(side)) ==> off == 0.0)
  {
    TruncateIsTowardZero(side);
    HalfIsTowardZero(Truncate(side));
  }

  /** The anchor sits at the position, off by less than one in each direction before rotation because the size is rounded,
      and exactly if the sides are even whole numbers. */
  lemma AnchorIsAtPosition(size: Vec2, a: Align)
    ensures var off := Local(size, a, Anchor(a));
            && -1.0 < off.x < 1.0 && -1.0 < off.y < 1.0
            && (EvenWhole(size.x) || (a.left && !a.right) || (a.right && Whole(size.x)) ==> off.x == 0.0)
            && (EvenWhole(size.y) || (a.top && !a.bottom) || (a.bottom && Whole(size.y)) ==> off.y == 0.0)
  {
    OriginOnAxis(size.x, a.right, a.left);
    OriginOnAxis(size.y, a.bottom, a.top);
  }

  /** The pixels left of a side of up to 2^31 - 1 pixels after the crop, and none if the crop takes more. */
  lemma CropTakes(side: nat, before: int, after: int)
    requires side <= 0x7fff_ffff
    ensures Cropped(side, before, after) == if before + after <= side then side - before - after else 0
    ensures forall wide: nat :: wide > 0x7fff_ffff ==> Cropped(wide, before, after) == Cropped(0x7fff_ffff, before, after)
  {
  }

  /** Along its own axes the box of an item without bounds is its scale times the pixels left of the source. */
  lemma BoxOfScale(it: Item)
    requires !it.hasBounds && it.source.w <= 0x7fff_ffff && it.source.h <= 0x7fff_ffff
    requires it.crop.left + it.crop.right <= it.source.w && it.crop.top + it.crop.bottom <= it.source.h
    ensures BoxSize(it) == Vec2(it.scale.x * (it.source.w - it.crop.left - it.crop.right) as real,
                                it.scale.y * (it.source.h - it.crop.top - it.crop.bottom) as real)
    ensures BoxSize(it.(hasBounds := true)) == it.bounds
  {
    CropTakes(it.source.w, it.crop.left, it.crop.right);
    CropTakes(it.source.h, it.crop.top, it.crop.bottom);
  }

  /** A canvas point has no unit position exactly if a side is thinner than a millionth. */
  lemma NoUnitExactly(it: Item, canvas: Vec2)
    ensures CanvasToUnit(it, canvas).None? <==>
              var size := BoxSize(it); -0.000001 < size.x < 0.000001 || -0.000001 < size.y < 0.000001
  {
  }

  // ----- the extent -----

  predicate InBox(unit: Vec2) {
    0.0 <= unit.x <= 1.0 && 0.0 <= unit.y <= 1.0
  }

  lemma Between(a: real, b: real, u: real, lo: real, hi: real)
    requires 0.0 <= u <= 1.0 && lo <= a <= hi && lo <= a + b <= hi
    ensures lo <= a + b * u <= hi
  {
    if b >= 0.0 {
      assert 0.0 <= b * u <= b;
    } else {
      assert b <= b * u <= 0.0;
    }
  }

  /** A function linear in each unit coordinate lies between bounds of its values at the four corners. */
  lemma BetweenCorners(a: real, b: real, c: real, unit: Vec2, lo: real, hi: real)
    requires InBox(unit) && lo <= a <= hi && lo <= a + b <= hi && lo <= a + c <= hi && lo <= a + b + c <= hi
    ensures lo <= a + b * unit.x + c * unit.y <= hi
  {
    Between(a, b, unit.x, lo, hi);
    Between(a + c, b, unit.x, lo, hi);
    Between(a + b * unit.x, c, unit.y, lo, hi);
  }

  lemma PointIsLinear(it: Item, unit: Vec2)
    ensures var o, size, p := BoxPoint(it, Vec2(0.0, 0.0)), BoxSize(it), BoxPoint(it, unit);
            && p.x == o.x + (it.turn.c * size.x) * unit.x + (-it.turn.s * size.y) * unit.y
            && p.y == o.y + (it.turn.s * size.x) * unit.x + (it.turn.c * size.y) * unit.y
  {
    hide BoxSize, AlignmentOrigin;
    var size, g := BoxSize(it), AlignmentOrigin(it.align, BoxSize(it));
    var c, s := it.turn.c, it.turn.s;
    assert c * (unit.x * size.x - g.x) == (c * size.x) * unit.x + c * (0.0 * size.x - g.x);
    assert s * (unit.x * size.x - g.x) == (s * size.x) * unit.x + s * (0.0 * size.x - g.x);
    assert c * (unit.y * size.y - g.y) == (c * size.y) * unit.y + c * (0.0 * size.y - g.y);
    assert s * (unit.y * size.y - g.y) == (s * size.y) * unit.y + s * (0.0 * size.y - g.y);
  }

  lemma CornerPoints(it: Item)
    ensures Corner(it, 0) == BoxPoint(it, Vec2(0.0, 0.0)) && Corner(it, 1) == BoxPoint(it, Vec2(1.0, 0.0))
    ensures Corner(it, 2) == BoxPoint(it, Vec2(1.0, 1.0)) && Corner(it, 3) == BoxPoint(it, Vec2(0.0, 1.0))
  {
  }

  /** How far a step along each side of the box goes. */
  function Along(it: Item): Vec2 {
    Vec2(it.turn.c * BoxSize(it).x, it.turn.s * BoxSize(it).x)
  }

  function Across(it: Item): Vec2 {
    Vec2(-it.turn.s * BoxSize(it).y, it.turn.c * BoxSize(it).y)
  }

  lemma CornersByStep(it: Item)
    ensures var o := Corner(it, 0);
            Corner(it, 1) == Add(o, Along(it)) && Corner(it, 2) == Add(Add(o, Along(it)), Across(it)) && Corner(it, 3) == Add(o, Across(it))
  {
    hide BoxPoint, BoxSize;
    CornerPoints(it);
    PointIsLinear(it, Vec2(1.0, 0.0));
    PointIsLinear(it, Vec2(1.0, 1.0));
    PointIsLinear(it, Vec2(0.0, 1.0));
  }

  function Stepped(o: Vec2, along: Vec2, across: Vec2, unit: Vec2): Vec2 {
    Vec2(o.x + along.x * unit.x + across.x * unit.y, o.y + along.y * unit.x + across.y * unit.y)
  }

  lemma PointByStep(it: Item, unit: Vec2)
    ensures BoxPoint(it, unit) == Stepped(Corner(it, 0), Along(it), Across(it), unit)
  {
    hide BoxPoint, BoxSize;
    CornerPoints(it);
    PointIsLinear(it, unit);
  }

  predicate Holds(e: Extent, p: Vec2) {
    e.minX <= p.x <= e.maxX && e.minY <= p.y <= e.maxY
  }

  lemma SteppedBetween(e: Extent, o: Vec2, along: Vec2, across: Vec2, unit: Vec2)
    requires InBox(unit)
    requires Holds(e, o) && Holds(e, Add(o, along)) && Holds(e, Add(Add(o, along), across)) && Holds(e, Add(o, across))
    ensures Holds(e, Stepped(o, along, across, unit))
  {
    BetweenCorners(o.x, along.x, across.x, unit, e.minX, e.maxX);
    BetweenCorners(o.y, along.y, across.y, unit, e.minY, e.maxY);
  }

  /** The extent holds every point of the box. */
  lemma ExtentHoldsBox(it: Item, unit: Vec2)
    requires InBox(unit)
    ensures Holds(ExtentOf(it), BoxPoint(it, unit))
  {
    hide Corner, BoxPoint, ExtentTo, Along, Across, Stepped, InBox, Add;
    var e := ExtentOf(it);
    ExtentSpans(it, 4);
    CornersByStep(it);
    PointByStep(it, unit);
    assert forall k: nat :: k < 4 ==> Holds(e, Corner(it, k));
    SteppedBetween(e, Corner(it, 0), Along(it), Across(it), unit);
  }

  /** And no smaller upright rectangle does: each side of it is touched by a point of the box. */
  lemma ExtentTouchesBox(it: Item)
    ensures var e := ExtentOf(it);
            && (exists u: Vec2 :: InBox(u) && BoxPoint(it, u).x == e.minX) && (exists u: Vec2 :: InBox(u) && BoxPoint(it, u).x == e.maxX)
            && (exists u: Vec2 :: InBox(u) && BoxPoint(it, u).y == e.minY) && (exists u: Vec2 :: InBox(u) && BoxPoint(it, u).y == e.maxY)
  {
    hide BoxPoint, ExtentTo;
    ExtentSpans(it, 4);
    CornerPoints(it);
    forall k: nat | k < 4 ensures exists u: Vec2 :: InBox(u) && BoxPoint(it, u) == Corner(it, k) {
      var u := if k == 0 then Vec2(0.0, 0.0) else if k == 1 then Vec2(1.0, 0.0) else if k == 2 then Vec2(1.0, 1.0) else Vec2(0.0, 1.0);
      assert InBox(u) && BoxPoint(it, u) == Corner(it, k);
    }
  }
}
