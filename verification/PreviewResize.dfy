/** Resizing by a handle (src/core/PreviewEdit.cpp): the opposite corner or edge midpoint stays, the box keeps its
    orientation, and where the mouse ends alone decides the outcome. */
module PreviewResize {
  import opened PreviewEdit

  predicate AtLeft(h: Handle) { h == Left || h == TopLeft || h == BottomLeft }
  predicate AtRight(h: Handle) { h == Right || h == TopRight || h == BottomRight }
  predicate AtTop(h: Handle) { h == Top || h == TopLeft || h == TopRight }
  predicate AtBottom(h: Handle) { h == Bottom || h == BottomLeft || h == BottomRight }
  predicate MovesX(h: Handle) { AtLeft(h) || AtRight(h) }
  predicate MovesY(h: Handle) { AtTop(h) || AtBottom(h) }
  predicate IsCorner(h: Handle) { MovesX(h) && MovesY(h) }

  function HandleUnit(h: Handle): Vec2 {
    Vec2(if AtLeft(h) then 0.0 else if AtRight(h) then 1.0 else 0.5,
         if AtTop(h) then 0.0 else if AtBottom(h) then 1.0 else 0.5)
  }

  /** The corner or edge midpoint across from the handle. */
  function OppositeUnit(h: Handle): Vec2 {
    Vec2(1.0 - HandleUnit(h).x, 1.0 - HandleUnit(h).y)
  }

  function Anchor(it: Item, h: Handle): Vec2 {
    BoxPoint(it, OppositeUnit(h))
  }

  // ----- the size a drag asks for and the size it gets -----

  /** The sides that put the handle at the mouse; a side the handle does not move stays. */
  function Wanted(it: Item, h: Handle, target: Vec2): Vec2 {
    var pull := Rotate(Sub(target, Anchor(it, h)), Back(it.turn));
    Vec2(if AtLeft(h) then -pull.x else if AtRight(h) then pull.x else BoxSize(it).x,
         if AtTop(h) then -pull.y else if AtBottom(h) then pull.y else BoxSize(it).y)
  }

  function Sign(x: real): real {
    if x < 0.0 then -1.0 else 1.0
  }

  function ClampSide(v: real, original: real): real {
    Max(v * Sign(original), MIN_SIZE) * Sign(original)
  }

  function Ratio(a: real, b: real): real
    requires b != 0.0
  {
    a / b
  }

  /** One factor for both sides: the larger pull, but never below what makes a side too small. */
  function Factor(size: Vec2, want: Vec2): real
    requires size.x != 0.0 && size.y != 0.0
  {
    var fx, fy := Ratio(want.x, size.x), Ratio(want.y, size.y);
    Max(if Abs(fx) >= Abs(fy) then fx else fy, Max(Ratio(MIN_SIZE, Abs(size.x)), Ratio(MIN_SIZE, Abs(size.y))))
  }

  function Scaled(size: Vec2, f: real): Vec2 {
    Vec2(size.x * f, size.y * f)
  }

  function Fitted(size: Vec2, want: Vec2, h: Handle, shift: bool): Vec2
    requires size.x != 0.0 && size.y != 0.0
  {
    if IsCorner(h) && !shift then Scaled(size, Factor(size, want))
    else Vec2(if MovesX(h) then ClampSide(want.x, size.x) else want.x, if MovesY(h) then ClampSide(want.y, size.y) else want.y)
  }

  predicate Resizable(it: Item, h: Handle) {
    h != NoHandle && !Degenerate(BoxSize(it))
  }

  /** What a resize is for: the fitted size around the anchor that was there before, in the field that carries the
      size, and nothing else. */
  ghost predicate Resizes(start: Item, h: Handle, target: Vec2, shift: bool, out: Item) {
    if Resizable(start, h) then
      && out == start.(pos := out.pos, scale := out.scale, bounds := out.bounds)
      && (if start.hasBounds then out.scale == start.scale else out.bounds == start.bounds)
      && BoxSize(out) == Fitted(BoxSize(start), Wanted(start, h, target), h, shift)
      && Anchor(out, h) == Anchor(start, h)
    else out == start
  }

  lemma SideFromScale(scale: real, side: real, next: real)
    requires scale * side != 0.0
    ensures (scale * (next / (scale * side))) * side == next
  {
    var q := next / (scale * side);
    assert q * (scale * side) == next;
    assert (scale * q) * side == q * (scale * side);
  }

  /** The box of an item whose size-carrying field was set. */
  lemma SizedBox(start: Item, next: Vec2, out: Item)
    requires !Degenerate(BoxSize(start))
    requires var size := BoxSize(start);
             if start.hasBounds then out == start.(bounds := next)
             else out == start.(scale := Vec2(start.scale.x * Ratio(next.x, size.x), start.scale.y * Ratio(next.y, size.y)))
    ensures BoxSize(out) == next
  {
    hide Cropped;
    if !start.hasBounds {
      SideFromScale(start.scale.x, Cropped(start.source.w, start.crop.left, start.crop.right) as real, next.x);
      SideFromScale(start.scale.y, Cropped(start.source.h, start.crop.top, start.crop.bottom) as real, next.y);
    }
  }

  /** Placing a box so that one of its points is at `anchor`. */
  lemma PlacedBox(it: Item, unit: Vec2, anchor: Vec2, offset: Vec2, placed: Item)
    requires offset == Local(BoxSize(it), it.align, unit)
    requires placed == it.(pos := Sub(anchor, Rotate(offset, it.turn)))
    ensures BoxSize(placed) == BoxSize(it) && BoxPoint(placed, unit) == anchor
  {
    hide Rotate, Local, Cropped;
  }

  lemma WantedByParts(start: Item, h: Handle, target: Vec2)
    ensures var local := Rotate(Sub(target, Anchor(start, h)), Back(start.turn));
            var size, hu, au := BoxSize(start), HandleUnit(h), OppositeUnit(h);
            && (MovesX(h) <==> hu.x != au.x) && (MovesY(h) <==> hu.y != au.y)
            && Wanted(start, h, target) == Vec2(if hu.x != au.x then Ratio(local.x, hu.x - au.x) else size.x,
                                                if hu.y != au.y then Ratio(local.y, hu.y - au.y) else size.y)
  {
    hide Rotate, BoxSize, BoxPoint;
  }

  /** The first half of a resize: the new box size. */
  method SizeAfterDrag(start: Item, h: Handle, target: Vec2, shift: bool) returns (next: Vec2)
    requires Resizable(start, h) && BoxSize(start).x != 0.0 && BoxSize(start).y != 0.0
    ensures next == Fitted(BoxSize(start), Wanted(start, h, target), h, shift)
  {
    hide AlignmentOrigin, Rotate, Ratio, Factor, Scaled, ClampSide, BoxSize, BoxPoint, Wanted, HandleUnit, MovesX, MovesY, Back, Resizable;
    var size := BoxSize(start);
    var hu := HandleUnit(h);
    var au := Vec2(1.0 - hu.x, 1.0 - hu.y);
    var anchor := BoxPoint(start, au);
    var local := Rotate(Sub(target, anchor), Back(start.turn));
    next := size;
    if hu.x != au.x {
      next := next.(x := Ratio(local.x, hu.x - au.x));
    }
    if hu.y != au.y {
      next := next.(y := Ratio(local.y, hu.y - au.y));
    }
    WantedByParts(start, h, target);
    if IsCorner(h) && !shift {
      var f := Factor(size, next);
      next := Scaled(size, f);
    } else {
      if hu.x != au.x {
        next := next.(x := ClampSide(next.x, size.x));
      }
      if hu.y != au.y {
        next := next.(y := ClampSide(next.y, size.y));
      }
    }
  }

  method Resize(start: Item, h: Handle, target: Vec2, shift: bool) returns (out: Item)
    ensures Resizes(start, h, target, shift, out)
  {
    hide AlignmentOrigin, Rotate, Ratio, Fitted, BoxSize, BoxPoint, Wanted, HandleUnit, Degenerate;
    var size := BoxSize(start);
    if h == NoHandle || Degenerate(size) {
      return start;
    }
    NonDegenerate(size);
    var next := SizeAfterDrag(start, h, target, shift);
    out := start;
    if start.hasBounds {
      out := out.(bounds := next);
    } else {
      out := out.(scale := Vec2(start.scale.x * Ratio(next.x, size.x), start.scale.y * Ratio(next.y, size.y)));
    }
    SizedBox(start, next, out);
    var au, newSize := OppositeUnit(h), BoxSize(out);
    var anchor, origin := BoxPoint(start, au), AlignmentOrigin(out.align, newSize);
    var offset := Sub(Vec2(au.x * newSize.x, au.y * newSize.y), origin);
    ghost var sized := out;
    out := out.(pos := Sub(anchor, Rotate(offset, out.turn)));
    PlacedBox(sized, au, anchor, offset, out);
  }

  lemma NonDegenerate(size: Vec2)
    requires !Degenerate(size)
    ensures size.x != 0.0 && size.y != 0.0
  {
  }

  // ----- sides and aspect -----

  lemma FactorKeepsSide(size: real, f: real)
    requires size != 0.0 && f >= MIN_SIZE / Abs(size)
    ensures f > 0.0 && (size * f) * Sign(size) > 0.0 && Abs(size * f) >= MIN_SIZE
  {
    var least := MIN_SIZE / Abs(size);
    assert least * Abs(size) == MIN_SIZE;
    assert least > 0.0;
    assert f * Abs(size) >= least * Abs(size);
    assert Abs(size) * f == (size * f) * Sign(size);
  }

  lemma ClampKeepsSide(v: real, original: real)
    ensures ClampSide(v, original) * Sign(original) > 0.0 && Abs(ClampSide(v, original)) >= MIN_SIZE
  {
  }

  lemma FittedSides(size: Vec2, want: Vec2, h: Handle, shift: bool)
    requires !Degenerate(size) && (!MovesX(h) ==> want.x == size.x) && (!MovesY(h) ==> want.y == size.y)
    ensures var next := Fitted(size, want, h, shift);
            && next.x * Sign(size.x) > 0.0 && next.y * Sign(size.y) > 0.0
            && (Abs(next.x) >= MIN_SIZE <==> MovesX(h) || Abs(size.x) >= MIN_SIZE)
            && (Abs(next.y) >= MIN_SIZE <==> MovesY(h) || Abs(size.y) >= MIN_SIZE)
  {
    hide ClampSide, Factor, MovesX, MovesY;
    if IsCorner(h) && !shift {
      FactorCovers(size, want);
      FactorKeepsSide(size.x, Factor(size, want));
      FactorKeepsSide(size.y, Factor(size, want));
    } else {
      ClampKeepsSide(want.x, size.x);
      ClampKeepsSide(want.y, size.y);
    }
  }

  lemma FactorCovers(size: Vec2, want: Vec2)
    requires size.x != 0.0 && size.y != 0.0
    ensures Factor(size, want) >= MIN_SIZE / Abs(size.x) && Factor(size, want) >= MIN_SIZE / Abs(size.y)
  {
  }

  /** No side flips, and a side is at least the minimum exactly when the handle moves it or it was so before. */
  lemma SidesKeepSignAndMinimum(start: Item, h: Handle, target: Vec2, shift: bool, out: Item)
    requires Resizable(start, h) && Resizes(start, h, target, shift, out)
    ensures var size, next := BoxSize(start), BoxSize(out);
            && next.x * Sign(size.x) > 0.0 && next.y * Sign(size.y) > 0.0
            && (Abs(next.x) >= MIN_SIZE <==> MovesX(h) || Abs(size.x) >= MIN_SIZE)
            && (Abs(next.y) >= MIN_SIZE <==> MovesY(h) || Abs(size.y) >= MIN_SIZE)
  {
    hide BoxSize, Anchor, Rotate, Back, Fitted, Factor, ClampSide;
    FittedSides(BoxSize(start), Wanted(start, h, target), h, shift);
  }

  /** A box 100 wide and 4 high, not rotated. */
  const THIN := Item(1, true, false, Vec2(0.0, 0.0), Turn(1.0, 0.0), Vec2(1.0, 1.0), Align(true, false, true, false),
                     true, Vec2(100.0, 4.0), Crop(0, 0, 0, 0), Size(100, 4))

  /** So the minimum on every side is not kept by an edge handle: the height of a thin box stays below it. */
  lemma EdgeLeavesThinSide(out: Item)
    requires Resizes(THIN, Right, Vec2(150.0, 2.0), false, out)
    ensures Resizable(THIN, Right) && OnCircle(THIN.turn) && Abs(BoxSize(out).y) < MIN_SIZE
  {
    hide Resizes, Anchor, Rotate;
    UnmovedSidesStay(THIN, Right, Vec2(150.0, 2.0), false, out);
  }

  /** A plain corner drag keeps the aspect ratio. */
  lemma CornerKeepsAspect(start: Item, h: Handle, target: Vec2, out: Item)
    requires Resizable(start, h) && IsCorner(h) && Resizes(start, h, target, false, out)
    ensures BoxSize(out).x * BoxSize(start).y == BoxSize(out).y * BoxSize(start).x
  {
    hide BoxSize, Anchor, Factor, Wanted;
    var size, f := BoxSize(start), Factor(BoxSize(start), Wanted(start, h, target));
    assert (size.x * f) * size.y == (size.y * f) * size.x;
  }

  // ----- the handle follows the mouse -----

  /** Seen from the anchor, along the item's own axes, the handle is one box side away on each axis it moves. */
  lemma HandleFromAnchor(it: Item, h: Handle)
    requires OnCircle(it.turn)
    ensures var hu, au := HandleUnit(h), OppositeUnit(h);
            Rotate(Sub(BoxPoint(it, hu), Anchor(it, h)), Back(it.turn)) == Vec2((hu.x - au.x) * BoxSize(it).x, (hu.y - au.y) * BoxSize(it).y)
  {
    hide BoxSize, AlignmentOrigin, HandleUnit, Rotate, Back, OnCircle;
    var hu, au, size := HandleUnit(h), OppositeUnit(h), BoxSize(it);
    var p, q := Local(size, it.align, hu), Local(size, it.align, au);
    RotateSub(p, q, it.turn);
    assert Sub(BoxPoint(it, hu), Anchor(it, h)) == Sub(Rotate(p, it.turn), Rotate(q, it.turn));
    RotateThereAndBack(Sub(p, q), it.turn);
    assert hu.x * size.x - au.x * size.x == (hu.x - au.x) * size.x && hu.y * size.y - au.y * size.y == (hu.y - au.y) * size.y;
  }

  /** A mouse that stays on the handle asks for the size the box has. */
  lemma WantedAtHandle(it: Item, h: Handle)
    requires OnCircle(it.turn)
    ensures Wanted(it, h, BoxPoint(it, HandleUnit(h))) == BoxSize(it)
  {
    hide BoxSize, BoxPoint, Anchor, Rotate, Back, OnCircle;
    HandleFromAnchor(it, h);
  }

  lemma RotateInjective(p: Vec2, q: Vec2, t: Turn)
    requires OnCircle(t) && Rotate(p, Back(t)) == Rotate(q, Back(t))
    ensures p == q
  {
    hide Rotate, OnCircle;
    RotateThereAndBack(p, t);
    RotateThereAndBack(q, t);
  }

  /** On each axis the handle moves, the resized box's handle is where the mouse is exactly when the box got the
      side the mouse asked for; a corner is then at the mouse itself. */
  lemma HandleFollowsMouse(start: Item, h: Handle, target: Vec2, shift: bool, out: Item)
    requires OnCircle(start.turn) && Resizable(start, h) && Resizes(start, h, target, shift, out)
    ensures var at := Rotate(Sub(BoxPoint(out, HandleUnit(h)), Anchor(start, h)), Back(start.turn));
            var mouse := Rotate(Sub(target, Anchor(start, h)), Back(start.turn));
            && (MovesX(h) ==> (at.x == mouse.x <==> BoxSize(out).x == Wanted(start, h, target).x))
            && (MovesY(h) ==> (at.y == mouse.y <==> BoxSize(out).y == Wanted(start, h, target).y))
    ensures IsCorner(h) ==> (BoxPoint(out, HandleUnit(h)) == target <==> BoxSize(out) == Wanted(start, h, target))
  {
    hide BoxSize, BoxPoint, Anchor, Rotate, Back, OnCircle, Fitted, Degenerate;
    HandleFromAnchor(out, h);
    var reached := BoxPoint(out, HandleUnit(h));
    if IsCorner(h) && BoxSize(out) == Wanted(start, h, target) {
      RotateInjective(Sub(reached, Anchor(start, h)), Sub(target, Anchor(start, h)), start.turn);
    }
  }

  /** With shift held, a corner lands on the mouse exactly when the mouse is at least the minimum away from the
      anchor on both axes, on the handle's own side. */
  lemma FreeCornerLands(start: Item, h: Handle, target: Vec2, out: Item)
    requires OnCircle(start.turn) && Resizable(start, h) && IsCorner(h) && Resizes(start, h, target, true, out)
    ensures var size, want := BoxSize(start), Wanted(start, h, target);
            BoxPoint(out, HandleUnit(h)) == target <==> want.x * Sign(size.x) >= MIN_SIZE && want.y * Sign(size.y) >= MIN_SIZE
  {
    hide BoxSize, BoxPoint, Anchor, Wanted, OnCircle;
    HandleFollowsMouse(start, h, target, true, out);
  }

  // ----- one resize against another -----

  lemma SameSizeSameFields(start: Item, a: Item, b: Item)
    requires !Degenerate(BoxSize(start)) && BoxSize(a) == BoxSize(b)
    requires a == start.(pos := a.pos, scale := a.scale, bounds := a.bounds)
    requires b == start.(pos := b.pos, scale := b.scale, bounds := b.bounds)
    ensures if start.hasBounds then a.bounds == b.bounds else a.scale == b.scale
  {
    hide Cropped;
    if !start.hasBounds {
      SameScale(a.scale.x, b.scale.x, start.scale.x, Cropped(start.source.w, start.crop.left, start.crop.right) as real);
      SameScale(a.scale.y, b.scale.y, start.scale.y, Cropped(start.source.h, start.crop.top, start.crop.bottom) as real);
    }
  }

  lemma SamePlace(a: Item, b: Item, unit: Vec2)
    requires BoxSize(a) == BoxSize(b) && a.align == b.align && a.turn == b.turn && BoxPoint(a, unit) == BoxPoint(b, unit)
    ensures a.pos == b.pos
  {
    hide BoxSize, Local, Rotate;
  }

  /** The promise leaves no choice. */
  lemma ResizeIsDetermined(start: Item, h: Handle, target: Vec2, shift: bool, a: Item, b: Item)
    requires Resizes(start, h, target, shift, a) && Resizes(start, h, target, shift, b)
    ensures a == b
  {
    hide Fitted, Wanted, BoxSize, BoxPoint, Degenerate;
    if Resizable(start, h) {
      SameSizeSameFields(start, a, b);
      SamePlace(a, b, OppositeUnit(h));
    }
  }

  lemma SameScale(a: real, b: real, scale: real, side: real)
    requires Abs(scale * side) >= TINY && a * side == b * side
    ensures a == b
  {
    assert (a - b) * side == 0.0;
  }

  lemma FactorOfItself(size: Vec2)
    requires size.x != 0.0 && size.y != 0.0
    ensures Factor(size, size) == 1.0 <==> Abs(size.x) >= MIN_SIZE && Abs(size.y) >= MIN_SIZE
    ensures Factor(size, size) >= 1.0
  {
    assert size.x / size.x == 1.0 && size.y / size.y == 1.0;
    AtMostOne(Abs(size.x));
    AtMostOne(Abs(size.y));
  }

  lemma AtMostOne(side: real)
    requires side > 0.0
    ensures MIN_SIZE / side <= 1.0 <==> side >= MIN_SIZE
  {
    var q := MIN_SIZE / side;
    assert q * side == MIN_SIZE;
    if q <= 1.0 {
      assert q * side <= side;
    } else {
      assert q * side > side;
    }
  }

  /** A drag that does not move changes nothing, exactly when the sides the handle moves were not too small. */
  lemma DragNowhere(start: Item, h: Handle, shift: bool, out: Item)
    requires OnCircle(start.turn) && Resizes(start, h, BoxPoint(start, HandleUnit(h)), shift, out)
    ensures var size := BoxSize(start);
            out == start <==> !Resizable(start, h) || ((MovesX(h) ==> Abs(size.x) >= MIN_SIZE) && (MovesY(h) ==> Abs(size.y) >= MIN_SIZE))
  {
    hide BoxSize, Anchor, Wanted, HandleUnit, OnCircle, Factor;
    if Resizable(start, h) {
      var size := BoxSize(start);
      WantedAtHandle(start, h);
      FactorOfItself(size);
      if Fitted(size, size, h, shift) == size {
        ResizeIsDetermined(start, h, BoxPoint(start, HandleUnit(h)), shift, start, out);
      }
      FittedToItself(size, h, shift);
    }
  }

  lemma FittedToItself(size: Vec2, h: Handle, shift: bool)
    requires !Degenerate(size)
    ensures Fitted(size, size, h, shift) == size <==>
            (MovesX(h) ==> Abs(size.x) >= MIN_SIZE) && (MovesY(h) ==> Abs(size.y) >= MIN_SIZE)
  {
    hide Factor;
    FactorOfItself(size);
    if IsCorner(h) && !shift {
      var f := Factor(size, size);
      assert size.x * f - size.x == size.x * (f - 1.0);
    }
  }

  // ----- the path does not matter -----

  lemma RatioOfScaled(w: real, side: real, f: real, scaled: real)
    requires side != 0.0 && scaled != 0.0 && scaled == side * f
    ensures Ratio(w, scaled) * f == Ratio(w, side)
  {
    var q := w / scaled;
    assert q * scaled == w;
    assert q * (side * f) == (q * f) * side;
    Quotient(w, q * f, side);
  }

  lemma AbsTimes(a: real, f: real, product: real)
    requires f > 0.0 && product == a * f
    ensures Abs(product) == Abs(a) * f
  {
  }

  lemma MaxTimes(a: real, b: real, f: real, af: real, bf: real)
    requires f > 0.0 && af == a * f && bf == b * f
    ensures Max(af, bf) == Max(a, b) * f
    ensures af >= bf <==> a >= b
  {
    assert af - bf == (a - b) * f;
  }

  /** On a box already scaled by f, the factor is smaller by f. */
  lemma FactorOfScaled(size: Vec2, f: real, scaled: Vec2, want: Vec2)
    requires size.x != 0.0 && size.y != 0.0 && f > 0.0
    requires scaled.x == size.x * f && scaled.y == size.y * f && scaled.x != 0.0 && scaled.y != 0.0
    ensures Factor(scaled, want) * f == Factor(size, want)
  {
    hide Abs, Max, Ratio;
    var gx, gy, hx, hy := Ratio(want.x, scaled.x), Ratio(want.y, scaled.y), Ratio(want.x, size.x), Ratio(want.y, size.y);
    RatioOfScaled(want.x, size.x, f, scaled.x);
    RatioOfScaled(want.y, size.y, f, scaled.y);
    AbsTimes(gx, f, hx);
    AbsTimes(gy, f, hy);
    MaxTimes(Abs(gx), Abs(gy), f, Abs(hx), Abs(hy));
    AbsTimes(size.x, f, scaled.x);
    AbsTimes(size.y, f, scaled.y);
    AbsNotZero(size.x);
    AbsNotZero(size.y);
    AbsNotZero(scaled.x);
    AbsNotZero(scaled.y);
    RatioOfScaled(MIN_SIZE, Abs(size.x), f, Abs(scaled.x));
    RatioOfScaled(MIN_SIZE, Abs(size.y), f, Abs(scaled.y));
    var lx, ly, mx, my := Ratio(MIN_SIZE, Abs(scaled.x)), Ratio(MIN_SIZE, Abs(scaled.y)), Ratio(MIN_SIZE, Abs(size.x)), Ratio(MIN_SIZE, Abs(size.y));
    MaxTimes(lx, ly, f, mx, my);
    MaxTimes(if Abs(gx) >= Abs(gy) then gx else gy, Max(lx, ly), f, if Abs(gx) >= Abs(gy) then hx else hy, Max(mx, my));
  }

  lemma AbsNotZero(a: real)
    ensures Abs(a) == 0.0 <==> a == 0.0
  {
  }

  lemma ScaledTwice(size: Vec2, f: real, g: real, whole: real)
    requires g * f == whole
    ensures Scaled(Scaled(size, f), g) == Scaled(size, whole)
  {
    assert (size.x * f) * g == size.x * (g * f) && (size.y * f) * g == size.y * (g * f);
  }

  lemma PositiveFactor(size: Vec2, f: real)
    requires !Degenerate(size) && Scaled(size, f).x * Sign(size.x) > 0.0
    ensures f > 0.0 && Scaled(size, f).x == size.x * f != 0.0 && Scaled(size, f).y == size.y * f != 0.0
  {
    assert (size.x * f) * Sign(size.x) == Abs(size.x) * f;
  }

  /** Fitting to a mouse gives the same box from the first size and from any size a drag of that handle made of it;
      a free drag in between is forgotten by a later free drag only. */
  lemma FittedAgain(size: Vec2, first: Vec2, want: Vec2, h: Handle, wasFree: bool, free: bool)
    requires h != NoHandle && !Degenerate(size) && (wasFree ==> free)
    requires first.x * Sign(size.x) > 0.0 && first.y * Sign(size.y) > 0.0
    requires IsCorner(h) && !wasFree ==> exists f :: first == Scaled(size, f)
    ensures Fitted(first, want, h, free) == Fitted(size, want, h, free)
  {
    hide Factor, MovesX, MovesY, Scaled, Max;
    assert Sign(first.x) == Sign(size.x) && Sign(first.y) == Sign(size.y);
    if IsCorner(h) && !free {
      var f :| first == Scaled(size, f);
      PositiveFactor(size, f);
      FactorOfScaled(size, f, first, want);
      ScaledTwice(size, f, Factor(first, want), Factor(size, want));
    }
  }

  /** Resizing to one mouse position and then to another is resizing to the second at once. */
  lemma LastPositionDecides(start: Item, h: Handle, first: Vec2, wasFree: bool, second: Vec2, free: bool, mid: Item, out: Item)
    requires OnCircle(start.turn) && (wasFree ==> free)
    requires Resizes(start, h, first, wasFree, mid) && Resizes(mid, h, second, free, out)
    ensures Resizes(start, h, second, free, out)
  {
    hide BoxSize, Anchor, Rotate, Back, OnCircle, Factor, Fitted, Wanted, HandleUnit;
    if Resizable(start, h) {
      SidesKeepSignAndMinimum(start, h, first, wasFree, mid);
      var size, next := BoxSize(start), BoxSize(mid);
      UnmovedSidesStay(start, h, first, wasFree, mid);
      SameWanted(start, mid, h, second);
      UniformOfPlainCorner(start, h, first, wasFree, mid);
      FittedAgain(size, next, Wanted(start, h, second), h, wasFree, free);
    }
  }

  lemma UnmovedSidesStay(start: Item, h: Handle, target: Vec2, shift: bool, out: Item)
    requires Resizable(start, h) && Resizes(start, h, target, shift, out)
    ensures !MovesX(h) ==> BoxSize(out).x == BoxSize(start).x
    ensures !MovesY(h) ==> BoxSize(out).y == BoxSize(start).y
  {
    hide BoxSize, Anchor, Factor, Rotate;
  }

  lemma SameWanted(a: Item, b: Item, h: Handle, target: Vec2)
    requires a.turn == b.turn && Anchor(a, h) == Anchor(b, h)
    requires (!MovesX(h) ==> BoxSize(a).x == BoxSize(b).x) && (!MovesY(h) ==> BoxSize(a).y == BoxSize(b).y)
    ensures Wanted(a, h, target) == Wanted(b, h, target)
  {
    hide BoxSize, Anchor, Rotate;
  }

  lemma UniformOfPlainCorner(start: Item, h: Handle, target: Vec2, shift: bool, out: Item)
    requires Resizable(start, h) && Resizes(start, h, target, shift, out)
    ensures IsCorner(h) && !shift ==> exists f :: BoxSize(out) == Scaled(BoxSize(start), f)
  {
    hide BoxSize, Anchor, Rotate, Factor, Wanted;
  }
}
