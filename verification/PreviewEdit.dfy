/** Click-and-drag geometry of the vertical preview (src/core/PreviewEdit.cpp), over real numbers. An item's rotation
    is the pair (cosine, sine) of its angle. */
module PreviewEdit {
  import opened Options

  datatype Vec2 = Vec2(x: real, y: real)
  datatype Turn = Turn(c: real, s: real)
  datatype Align = Align(left: bool, right: bool, top: bool, bottom: bool)
  datatype Crop = Crop(left: int, top: int, right: int, bottom: int)
  datatype Size = Size(w: nat, h: nat)
  datatype Item = Item(id: int, visible: bool, locked: bool, pos: Vec2, turn: Turn, scale: Vec2, align: Align,
                       hasBounds: bool, bounds: Vec2, crop: Crop, source: Size)
  datatype Handle = NoHandle | Left | Right | Top | Bottom | TopLeft | TopRight | BottomLeft | BottomRight
  datatype Extent = Extent(minX: real, maxX: real, minY: real, maxY: real)

  const TINY := 0.000001
  const MIN_SIZE := 8.0
  const INT_MAX := 0x7fff_ffff

  function Abs(x: real): real { if x < 0.0 then -x else x }
  function Max(x: real, y: real): real { if x < y then y else x }
  function Min(x: real, y: real): real { if y < x then y else x }
  function Add(a: Vec2, b: Vec2): Vec2 { Vec2(a.x + b.x, a.y + b.y) }
  function Sub(a: Vec2, b: Vec2): Vec2 { Vec2(a.x - b.x, a.y - b.y) }

  /** What cosine and sine of one angle always satisfy. */
  ghost predicate OnCircle(t: Turn) {
    t.c * t.c + t.s * t.s == 1.0
  }

  function Rotate(p: Vec2, t: Turn): Vec2 {
    Vec2(t.c * p.x - t.s * p.y, t.s * p.x + t.c * p.y)
  }

  /** The rotation by the opposite angle. */
  function Back(t: Turn): Turn {
    Turn(t.c, -t.s)
  }

  /** Conversion to an integer: toward zero. */
  function Truncate(x: real): int {
    if x < 0.0 then -((-x).Floor) else x.Floor
  }

  function Half(n: int): int {
    if n < 0 then -((-n) / 2) else n / 2
  }

  function AlignmentOrigin(a: Align, size: Vec2): Vec2 {
    var cx, cy := Truncate(size.x), Truncate(size.y);
    Vec2(if a.right then cx as real else if a.left then 0.0 else Half(cx) as real,
         if a.bottom then cy as real else if a.top then 0.0 else Half(cy) as real)
  }

  predicate Degenerate(size: Vec2) {
    Abs(size.x) < TINY || Abs(size.y) < TINY
  }

  /** What is left of one source side after the crop. */
  function Cropped(side: nat, before: int, after: int): nat {
    var left := (if side < INT_MAX then side else INT_MAX) - before - after;
    if left < 0 then 0 else left
  }

  function BoxSize(it: Item): Vec2 {
    if it.hasBounds then it.bounds
    else Vec2(it.scale.x * Cropped(it.source.w, it.crop.left, it.crop.right) as real,
              it.scale.y * Cropped(it.source.h, it.crop.top, it.crop.bottom) as real)
  }

  /** The point of the box at `unit`, before rotation, seen from the item's position. */
  function Local(size: Vec2, a: Align, unit: Vec2): Vec2 {
    Sub(Vec2(unit.x * size.x, unit.y * size.y), AlignmentOrigin(a, size))
  }

  function BoxPoint(it: Item, unit: Vec2): Vec2 {
    Add(it.pos, Rotate(Local(BoxSize(it), it.align, unit), it.turn))
  }

  function CanvasToUnit(it: Item, canvas: Vec2): Option<Vec2> {
    var size := BoxSize(it);
    if Degenerate(size) then None
    else
      var local := Add(Rotate(Sub(canvas, it.pos), Back(it.turn)), AlignmentOrigin(it.align, size));
      Some(Vec2(local.x / size.x, local.y / size.y))
  }

  // ----- the two maps are inverse -----

  lemma RotateThereAndBack(p: Vec2, t: Turn)
    requires OnCircle(t)
    ensures Rotate(Rotate(p, t), Back(t)) == p && Rotate(Rotate(p, Back(t)), t) == p
  {
    var c, s := t.c, t.s;
    assert c * (c * p.x - s * p.y) + s * (s * p.x + c * p.y) == (c * c + s * s) * p.x;
    assert -s * (c * p.x - s * p.y) + c * (s * p.x + c * p.y) == (c * c + s * s) * p.y;
    assert c * (c * p.x + s * p.y) - s * (-s * p.x + c * p.y) == (c * c + s * s) * p.x;
    assert s * (c * p.x + s * p.y) + c * (-s * p.x + c * p.y) == (c * c + s * s) * p.y;
  }

  lemma RotateSub(p: Vec2, q: Vec2, t: Turn)
    ensures Sub(Rotate(p, t), Rotate(q, t)) == Rotate(Sub(p, q), t)
  {
    assert t.c * (p.x - q.x) == t.c * p.x - t.c * q.x && t.s * (p.y - q.y) == t.s * p.y - t.s * q.y;
    assert t.s * (p.x - q.x) == t.s * p.x - t.s * q.x && t.c * (p.y - q.y) == t.c * p.y - t.c * q.y;
  }

  lemma DivideBack(a: real, b: real)
    requires b != 0.0
    ensures (a / b) * b == a
  {
  }

  lemma Quotient(product: real, a: real, b: real)
    requires b != 0.0 && product == a * b
    ensures product / b == a
  {
  }

  /** The unit position of a box point is the unit position it was made from. */
  lemma UnitOfBoxPoint(it: Item, unit: Vec2)
    requires OnCircle(it.turn)
    ensures Degenerate(BoxSize(it)) ==> CanvasToUnit(it, BoxPoint(it, unit)) == None
    ensures !Degenerate(BoxSize(it)) ==> CanvasToUnit(it, BoxPoint(it, unit)) == Some(unit)
  {
    hide AlignmentOrigin, BoxSize, Rotate;
    var size := BoxSize(it);
    var local := Local(size, it.align, unit);
    RotateThereAndBack(local, it.turn);
    assert Sub(BoxPoint(it, unit), it.pos) == Rotate(local, it.turn);
    if !Degenerate(size) {
      var origin := AlignmentOrigin(it.align, size);
      var found := Add(local, origin);
      assert found == Vec2(unit.x * size.x, unit.y * size.y);
      Quotient(found.x, unit.x, size.x);
      Quotient(found.y, unit.y, size.y);
      assert CanvasToUnit(it, BoxPoint(it, unit)) == Some(Vec2(found.x / size.x, found.y / size.y));
    }
  }

  /** The box point at the unit position of a canvas point is that canvas point. */
  lemma BoxPointOfUnit(it: Item, canvas: Vec2)
    requires OnCircle(it.turn)
    ensures var unit := CanvasToUnit(it, canvas);
            (unit == None <==> Degenerate(BoxSize(it))) && (unit.Some? ==> BoxPoint(it, unit.value) == canvas)
  {
    hide AlignmentOrigin, BoxSize, Rotate;
    var size := BoxSize(it);
    var turned := Rotate(Sub(canvas, it.pos), Back(it.turn));
    RotateThereAndBack(Sub(canvas, it.pos), it.turn);
    if !Degenerate(size) {
      var origin := AlignmentOrigin(it.align, size);
      DivideBack(turned.x + origin.x, size.x);
      DivideBack(turned.y + origin.y, size.y);
      assert Local(size, it.align, CanvasToUnit(it, canvas).value) == turned;
    }
  }

  // ----- picking an item -----

  ghost predicate Inside(it: Item, p: Vec2) {
    exists unit: Vec2 :: 0.0 <= unit.x <= 1.0 && 0.0 <= unit.y <= 1.0 && BoxPoint(it, unit) == p
  }

  ghost predicate Hit(it: Item, p: Vec2, includeLocked: bool) {
    it.visible && (includeLocked || !it.locked) && !Degenerate(BoxSize(it)) && Inside(it, p)
  }

  ghost predicate IsTopmost(items: seq<Item>, k: nat, p: Vec2, includeLocked: bool)
    requires k < |items|
  {
    Hit(items[k], p, includeLocked) && forall above :: k < above < |items| ==> !Hit(items[above], p, includeLocked)
  }

  lemma InsideByUnit(it: Item, p: Vec2)
    requires OnCircle(it.turn)
    ensures var unit := CanvasToUnit(it, p);
            unit.Some? ==> (Inside(it, p) <==> 0.0 <= unit.value.x <= 1.0 && 0.0 <= unit.value.y <= 1.0)
  {
    hide BoxPoint, CanvasToUnit, BoxSize, Degenerate;
    BoxPointOfUnit(it, p);
    if Inside(it, p) {
      var unit: Vec2 :| 0.0 <= unit.x <= 1.0 && 0.0 <= unit.y <= 1.0 && BoxPoint(it, unit) == p;
      UnitOfBoxPoint(it, unit);
    }
  }

  /** The item whose box contains the point and that no other such item covers, by its place in the list. */
  method HitTopmost(items: seq<Item>, p: Vec2, includeLocked: bool) returns (id: int)
    requires forall it :: it in items ==> OnCircle(it.turn)
    ensures (forall k :: 0 <= k < |items| ==> !Hit(items[k], p, includeLocked)) ==> id == 0
    ensures forall k :: 0 <= k < |items| && IsTopmost(items, k, p, includeLocked) ==> id == items[k].id
  {
    hide BoxPoint, CanvasToUnit, BoxSize, Degenerate, Inside;
    var i := |items|;
    while i > 0
      invariant 0 <= i <= |items|
      invariant forall k :: i <= k < |items| ==> !Hit(items[k], p, includeLocked)
    {
      i := i - 1;
      var it := items[i];
      if !it.visible || (it.locked && !includeLocked) {
        continue;
      }
      var unit := CanvasToUnit(it, p);
      InsideByUnit(it, p);
      BoxPointOfUnit(it, p);
      if unit == None {
        continue;
      }
      if 0.0 <= unit.value.x <= 1.0 && 0.0 <= unit.value.y <= 1.0 {
        return it.id;
      }
    }
    return 0;
  }
}
