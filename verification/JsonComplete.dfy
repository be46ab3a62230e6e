/** The other direction, and the main result: the text of a good tree is read back as exactly that tree, so the
    strict JSON check accepts a text if and only if it is one object of the grammar. */
module JsonComplete {
  import opened Utf8
  import opened JsonNumber
  import opened JsonGrammar
  import opened JsonReader
  import opened JsonProof

  lemma AtSplit(t: seq<Byte>, i: nat, a: seq<Byte>, b: seq<Byte>)
    requires At(t, i, a + b)
    ensures At(t, i, a) && At(t, i + |a|, b)
  {
    assert t[i..i + |a|] == (a + b)[..|a|] == a;
    assert t[i + |a|..i + |a| + |b|] == (a + b)[|a|..] == b;
  }

  lemma AtFirst(t: seq<Byte>, i: nat, s: seq<Byte>)
    requires At(t, i, s) && s != []
    ensures i < |t| && t[i] == s[0]
  {
    assert t[i] == t[i..i + |s|][0];
  }

  lemma {:induction false} WsSkipped(t: seq<Byte>, i: nat, w: seq<Byte>)
    requires At(t, i, w) && AllWs(w) && (i + |w| < |t| ==> !IsWs(t[i + |w|]))
    ensures SkipWs(t, i) == i + |w|
    decreases |w|
  {
    if w != [] {
      AtFirst(t, i, w);
      assert w == [w[0]] + w[1..];
      AtSplit(t, i, [w[0]], w[1..]);
      WsSkipped(t, i + 1, w[1..]);
    }
  }

  lemma {:induction false} DigitsSkipped(t: seq<Byte>, i: nat, s: seq<Byte>)
    requires At(t, i, s) && AllDigits(s) && (i + |s| < |t| ==> !IsDigit(t[i + |s|]))
    ensures SkipDigits(t, i) == i + |s|
    decreases |s|
  {
    if s != [] {
      AtFirst(t, i, s);
      assert s == [s[0]] + s[1..];
      AtSplit(t, i, [s[0]], s[1..]);
      DigitsSkipped(t, i + 1, s[1..]);
    }
  }

  // ----- strings -----

  lemma EscapeComplete(t: seq<Byte>, i: nat, u: Unit)
    requires GoodUnit(u) && (u.Hex? || u.Pair?) && At(t, i, UnitText(u))
    ensures i < |t| && t[i] == BACKSLASH && ReadUnit(t, i) == Yes(u, i + |UnitText(u)|)
  {
    hide HexValue, IsHex4;
    var h := if u.Hex? then u.h else u.high;
    assert IsHex4(h) && |h| == 4 by { IsFour(h); }
    if u.Hex? {
      AtSplit(t, i, [BACKSLASH, SMALL_U], h);
    } else {
      IsFour(u.low);
      AtSplit(t, i, [BACKSLASH, SMALL_U] + h + [BACKSLASH, SMALL_U], u.low);
      AtSplit(t, i, [BACKSLASH, SMALL_U] + h, [BACKSLASH, SMALL_U]);
      AtSplit(t, i, [BACKSLASH, SMALL_U], h);
      TwoAt(t, i + 6);
    }
    TwoAt(t, i);
  }

  lemma IsFour(h: seq<Byte>)
    ensures IsHex4(h) ==> |h| == 4
  {
  }

  lemma TwoAt(t: seq<Byte>, i: nat)
    requires At(t, i, [BACKSLASH, SMALL_U])
    ensures Peek(t, i, BACKSLASH) && Peek(t, i + 1, SMALL_U)
  {
    assert t[i] == t[i..i + 2][0] && t[i + 1] == t[i..i + 2][1];
  }

  lemma UnitComplete(t: seq<Byte>, i: nat, u: Unit)
    requires GoodUnit(u) && At(t, i, UnitText(u))
    ensures i < |t| && t[i] != QUOTE && ReadUnit(t, i) == Yes(u, i + |UnitText(u)|)
  {
    hide HexValue, IsHex4, ReadUtf8, Encode;
    match u
    case Plain(_) => AtFirst(t, i, UnitText(u));
    case Short(e) =>
      AtFirst(t, i, UnitText(u));
      assert t[i + 1] == t[i..i + 2][1];
      assert e != SMALL_U;
    case Wide(cp) => EncodedIsRead(t, i, cp);
    case _ => EscapeComplete(t, i, u);
  }

  lemma {:induction false} UnitsComplete(t: seq<Byte>, i: nat, us: seq<Unit>)
    requires GoodUnits(us) && At(t, i, UnitsText(us) + [QUOTE])
    ensures ReadUnits(t, i) == Yes(us, i + |UnitsText(us)| + 1)
    decreases |us|
  {
    hide GoodUnit, UnitText, ReadUnit;
    if us == [] {
      AtFirst(t, i, [QUOTE]);
    } else {
      var w := UnitText(us[0]);
      Assoc(w, UnitsText(us[1..]), [QUOTE]);
      AtSplit(t, i, w, UnitsText(us[1..]) + [QUOTE]);
      UnitComplete(t, i, us[0]);
      UnitsComplete(t, i + |w|, us[1..]);
      assert us == [us[0]] + us[1..];
    }
  }

  lemma StringComplete(t: seq<Byte>, i: nat, us: seq<Unit>)
    requires GoodUnits(us) && At(t, i, StringText(us))
    ensures ReadString(t, i) == Yes(us, i + |StringText(us)|)
  {
    Assoc([QUOTE], UnitsText(us), [QUOTE]);
    AtSplit(t, i, [QUOTE], UnitsText(us) + [QUOTE]);
    AtFirst(t, i, [QUOTE]);
    UnitsComplete(t, i + 1, us);
  }

  // ----- numbers -----

  /** Nothing at `i` could go on a number. */
  predicate Stops(t: seq<Byte>, i: nat) {
    i < |t| ==> !IsDigit(t[i]) && t[i] != DOT && t[i] != 0x65 && t[i] != 0x45
  }

  lemma DigitsComplete(t: seq<Byte>, i: nat, s: seq<Byte>)
    requires At(t, i, s) && AllDigits(s) && s != [] && (i + |s| < |t| ==> !IsDigit(t[i + |s|]))
    ensures ReadDigits(t, i) == Yes(s, i + |s|)
  {
    DigitsSkipped(t, i, s);
  }

  lemma WholeComplete(t: seq<Byte>, i: nat, s: seq<Byte>)
    requires At(t, i, s) && AllDigits(s) && s != [] && (|s| > 1 ==> s[0] != ZERO) && (i + |s| < |t| ==> !IsDigit(t[i + |s|]))
    ensures ReadWhole(t, i) == Yes(s, i + |s|)
  {
    AtFirst(t, i, s);
    if s[0] != ZERO {
      DigitsComplete(t, i, s);
    } else {
      assert s == [ZERO];
    }
  }

  lemma ExponentComplete(t: seq<Byte>, i: nat, mark: seq<Byte>, s: seq<Byte>)
    requires AllDigits(s) && (if s == [] then mark == [] else IsMark(mark)) && At(t, i, mark + s) && Stops(t, i + |mark + s|)
    ensures ReadExponent(t, i) == Yes((mark, s), i + |mark + s|)
  {
    if s != [] {
      AtSplit(t, i, mark, s);
      AtFirst(t, i, mark);
      AtFirst(t, i + |mark|, s);
      if |mark| == 2 {
        assert t[i + 1] == t[i..i + 2][1] == mark[1];
      }
      DigitsComplete(t, i + |mark|, s);
    }
  }

  lemma FractionComplete(t: seq<Byte>, i: nat, s: seq<Byte>)
    requires AllDigits(s) && At(t, i, if s == [] then [] else [DOT] + s)
    requires var e := i + if s == [] then 0 else 1 + |s|; e < |t| ==> !IsDigit(t[e]) && (s == [] ==> t[e] != DOT)
    ensures ReadFraction(t, i) == Yes(s, i + if s == [] then 0 else 1 + |s|)
  {
    if s != [] {
      AtSplit(t, i, [DOT], s);
      AtFirst(t, i, [DOT]);
      DigitsComplete(t, i + 1, s);
    }
  }

  function FractionText(n: Num): seq<Byte> {
    if n.fraction == [] then [] else [DOT] + n.fraction
  }

  function SignText(n: Num): seq<Byte> {
    if n.negative then [MINUS] else []
  }

  /** Where the parts of a number stand ... */
  lemma NumberPlaces(t: seq<Byte>, i: nat, n: Num)
    requires At(t, i, NumText(n))
    ensures var a := i + |SignText(n)|; var b := a + |n.whole|; var c := b + |FractionText(n)|;
            && At(t, i, SignText(n)) && At(t, a, n.whole) && At(t, b, FractionText(n)) && At(t, c, n.mark + n.exponent)
            && c + |n.mark + n.exponent| == i + |NumText(n)|
  {
    hide At;
    var tail, f := n.mark + n.exponent, FractionText(n);
    Assoc(SignText(n) + n.whole + f, n.mark, n.exponent);
    AtSplit(t, i, SignText(n) + n.whole + f, tail);
    AtSplit(t, i, SignText(n) + n.whole, f);
    AtSplit(t, i, SignText(n), n.whole);
  }

  /** ... and that each part ends where it should. */
  lemma NumberParts(t: seq<Byte>, i: nat, n: Num)
    requires IsNum(n) && At(t, i, NumText(n)) && Stops(t, i + |NumText(n)|)
    ensures var a := i + |SignText(n)|; var b := a + |n.whole|; var c := b + |FractionText(n)|;
            && At(t, a, n.whole) && At(t, b, FractionText(n)) && At(t, c, n.mark + n.exponent)
            && (n.negative <==> Peek(t, i, MINUS)) && c + |n.mark + n.exponent| == i + |NumText(n)|
            && (c < |t| ==> !IsDigit(t[c]) && t[c] != DOT) && (b < |t| ==> !IsDigit(t[b]))
  {
    hide AllDigits, At, NumText;
    NumberPlaces(t, i, n);
    var a := i + |SignText(n)|;
    AtFirst(t, a, n.whole);
    FirstIsDigit(n.whole);
    if n.negative { AtFirst(t, i, SignText(n)); }
    if n.exponent != [] { AtFirst(t, a + |n.whole| + |FractionText(n)|, n.mark + n.exponent); }
    if n.fraction != [] { AtFirst(t, a + |n.whole|, FractionText(n)); }
  }

  lemma SpellingComplete(t: seq<Byte>, i: nat, n: Num)
    requires IsNum(n) && At(t, i, NumText(n)) && Stops(t, i + |NumText(n)|)
    ensures ReadSpelling(t, i) == Yes(n, i + |NumText(n)|)
  {
    hide At, AllDigits, ReadWhole, ReadFraction, ReadExponent, NumText, IsMark, Stops, IsDigit;
    var a := i + |SignText(n)|;
    var b := a + |n.whole|;
    NumberParts(t, i, n);
    WholeComplete(t, a, n.whole);
    FractionComplete(t, b, n.fraction);
    assert ReadFraction(t, b).end == b + |FractionText(n)|;
    StopsAt(t, i + |NumText(n)|, b + |FractionText(n)| + |n.mark + n.exponent|);
    ExponentComplete(t, b + |FractionText(n)|, n.mark, n.exponent);
  }

  lemma StopsAt(t: seq<Byte>, i: nat, j: nat)
    requires Stops(t, i) && i == j
    ensures Stops(t, j)
  {
  }

  lemma AtIsSlice(t: seq<Byte>, i: nat, s: seq<Byte>)
    requires At(t, i, s)
    ensures i <= |t| && i + |s| <= |t| && t[i..i + |s|] == s
  {
  }

  lemma NumberComplete(t: seq<Byte>, i: nat, n: Num, finite: Finite)
    requires GoodNum(n, finite) && At(t, i, NumText(n)) && Stops(t, i + |NumText(n)|)
    ensures i <= |t| && ReadNumber(t, i, finite) == Yes(n, i + |NumText(n)|)
  {
    hide Fits, SignedValue, AllDigits, ReadSpelling, NumText, Stops, At;
    AtIsSlice(t, i, NumText(n));
    SpellingComplete(t, i, n);
    FitsExactlyInt64(n.negative, n.whole);
  }

  lemma FirstIsDigit(s: seq<Byte>)
    requires AllDigits(s) && s != []
    ensures IsDigit(s[0]) && s[0] != MINUS
  {
  }

  // ----- values -----

  /** What follows a value does not go on it. */
  predicate Ends(t: seq<Byte>, e: nat, v: Value) {
    v.Number? ==> Stops(t, e)
  }

  lemma FirstByte(v: Value, finite: Finite)
    requires Good(v, finite)
    ensures var s := ValueText(v);
            && s != [] && !IsWs(s[0]) && !IsClose(s[0])
            && (s[0] == OPEN_BRACE <==> v.Object?) && (s[0] == OPEN_BRACKET <==> v.Array?) && (s[0] == QUOTE <==> v.Text?)
            && (v.Word? ==> s[0] == v.w[0]) && (v.Number? ==> s[0] == MINUS || IsDigit(s[0]))
  {
    hide ItemsText, MembersText, GoodItems, GoodMembers, NamesDiffer, UnitsText, GoodUnits, SignedValue;
  }

  lemma ScalarComplete(t: seq<Byte>, i: nat, v: Value, depth: nat, finite: Finite)
    requires depth <= MAX_DEPTH && Good(v, finite) && !v.Array? && !v.Object?
    requires var j := SkipWs(t, i); At(t, j, ValueText(v)) && Ends(t, j + |ValueText(v)|, v)
    ensures ReadValue(t, i, depth, finite) == Yes(v, SkipWs(t, i) + |ValueText(v)|)
  {
    hide SkipWs, At, ReadNumber, ReadString, ReadMembers, ReadItems, GoodNum, GoodUnits, NumText, StringText, Stops, IsWs;
    var j := SkipWs(t, i);
    FirstByte(v, finite);
    AtFirst(t, j, ValueText(v));
    match v
    case Word(_) =>
    case Number(n) => NumberComplete(t, j, n, finite);
    case Text(us) => StringComplete(t, j, us);
  }

  /** Whitespace between a position and the next thing. */
  lemma GapRead(t: seq<Byte>, i: nat, gap: seq<Byte>, next: seq<Byte>)
    requires At(t, i, gap + next) && AllWs(gap) && next != [] && !IsWs(next[0])
    ensures i + |gap| < |t| && SkipWs(t, i) == i + |gap| && t[i..i + |gap|] == gap && At(t, i + |gap|, next) && t[i + |gap|] == next[0]
  {
    AtSplit(t, i, gap, next);
    AtFirst(t, i + |gap|, next);
    WsSkipped(t, i, gap);
  }

  lemma EmptyComplete(t: seq<Byte>, i: nat, v: Value, depth: nat, finite: Finite)
    requires depth <= MAX_DEPTH && Good(v, finite) && ((v.Array? && v.items.NoItem?) || (v.Object? && v.members.NoMember?))
    requires At(t, SkipWs(t, i), ValueText(v))
    ensures ReadValue(t, i, depth, finite) == Yes(v, SkipWs(t, i) + |ValueText(v)|)
  {
    hide SkipWs, At, ReadMembers, ReadItems, AllWs;
    var j := SkipWs(t, i);
    var open, close := ValueText(v)[0], if v.Array? then CLOSE_BRACKET else CLOSE_BRACE;
    assert ValueText(v) == [open] + (v.gap + [close]);
    AtSplit(t, j, [open], v.gap + [close]);
    AtFirst(t, j, [open]);
    GapRead(t, j + 1, v.gap, [close]);
  }

  lemma InnerAt(t: seq<Byte>, j: nat, open: Byte, inner: seq<Byte>, close: Byte)
    requires At(t, j, [open] + [] + inner + [close])
    ensures j < |t| && t[j] == open && At(t, j + 1, inner + [close])
  {
    assert [open] + [] + inner + [close] == [open] + (inner + [close]);
    AtSplit(t, j, [open], inner + [close]);
    AtFirst(t, j, [open]);
  }

  lemma {:induction false} ValueComplete(t: seq<Byte>, i: nat, v: Value, depth: nat, finite: Finite)
    requires depth + Nesting(v) <= MAX_DEPTH && Good(v, finite)
    requires var j := SkipWs(t, i); At(t, j, ValueText(v)) && Ends(t, j + |ValueText(v)|, v)
    ensures ReadValue(t, i, depth, finite) == Yes(v, SkipWs(t, i) + |ValueText(v)|)
    decreases v
  {
    hide SkipWs, At, ReadMembers, ReadItems, AllWs, ItemsText, MembersText, GoodItems, GoodMembers, ItemsNesting, MembersNesting,
         StringText, NumText, GoodUnits, GoodNum, IsWs;
    var j := SkipWs(t, i);
    if v.Array? && v.items.Item? {
      InnerAt(t, j, OPEN_BRACKET, ItemsText(v.items), CLOSE_BRACKET);
      ItemsComplete(t, j + 1, v.items, depth, finite);
    } else if v.Object? && v.members.Member? {
      InnerAt(t, j, OPEN_BRACE, MembersText(v.members), CLOSE_BRACE);
      MembersComplete(t, j + 1, v.members, depth, [], finite);
    } else if v.Array? || v.Object? {
      EmptyComplete(t, i, v, depth, finite);
    } else {
      ScalarComplete(t, i, v, depth, finite);
    }
  }

  predicate IsClose(c: Byte) {
    c == CLOSE_BRACKET || c == CLOSE_BRACE
  }

  /** What follows an item or a member: a comma and the rest, or the closing bracket. */
  function Onward(rest: seq<Byte>, last: bool, close: Byte): seq<Byte> {
    if last then [close] else [COMMA] + (rest + [close])
  }

  lemma OnwardIs(part: seq<Byte>, rest: seq<Byte>, last: bool, close: Byte)
    ensures part + (if last then [] else [COMMA] + rest) + [close] == part + Onward(rest, last, close)
  {
    if last {
      assert part + [] == part;
    } else {
      Assoc(part, [COMMA] + rest, [close]);
      Assoc([COMMA], rest, [close]);
    }
  }

  lemma OnwardAt(t: seq<Byte>, c: nat, rest: seq<Byte>, last: bool, close: Byte)
    requires At(t, c, Onward(rest, last, close)) && IsClose(close)
    ensures c < |t| && t[c] == (if last then close else COMMA) && !IsWs(t[c]) && Stops(t, c)
    ensures !last ==> At(t, c + 1, rest + [close])
  {
    AtFirst(t, c, Onward(rest, last, close));
    if !last {
      AtSplit(t, c, [COMMA], rest + [close]);
    }
  }

  /** Where whitespace, a core, whitespace and what follows stand. */
  lemma ItemLayout(t: seq<Byte>, i: nat, before: seq<Byte>, core: seq<Byte>, after: seq<Byte>, rest: seq<Byte>, last: bool, close: Byte)
    requires At(t, i, before + core + after + (if last then [] else [COMMA] + rest) + [close]) && IsClose(close)
    requires AllWs(before) && AllWs(after) && core != [] && !IsWs(core[0])
    ensures var j := i + |before|; var e := j + |core|; var c := e + |after|;
            && SkipWs(t, i) == j < |t| && t[i..j] == before && At(t, j, core) && t[j] == core[0]
            && Stops(t, e) && SkipWs(t, e) == c < |t| && t[e..c] == after && t[c] == (if last then close else COMMA)
            && (!last ==> At(t, c + 1, rest + [close]))
  {
    hide SkipWs, At, AllWs, IsWs, Onward, Stops;
    var next := Onward(rest, last, close);
    var j := i + |before|;
    OnwardIs(before + core + after, rest, last, close);
    AtSplit(t, i, before + core + after, next);
    AtSplit(t, i, before + core, after);
    AtSplit(t, i, before, core);
    AtFirst(t, j, core);
    OnwardAt(t, j + |core| + |after|, rest, last, close);
    WsSkipped(t, i, before);
    WsSkipped(t, j + |core|, after);
    AtIsSlice(t, i, before);
    AtIsSlice(t, j + |core|, after);
    if after != [] {
      AtFirst(t, j + |core|, after);
      WsStops(t, j + |core|, after);
    }
  }

  lemma WsStops(t: seq<Byte>, e: nat, w: seq<Byte>)
    requires AllWs(w) && w != [] && e < |t| && t[e] == w[0]
    ensures Stops(t, e)
  {
  }

  lemma ItemRead(t: seq<Byte>, i: nat, depth: nat, finite: Finite, items: Items, j: nat, e: nat, c: nat)
    requires depth <= MAX_DEPTH && i <= j <= e <= c < |t| && items.Item?
    requires ReadValue(t, i, depth + 1, finite) == Yes(items.v, e)
    requires SkipWs(t, i) == j && t[i..j] == items.before && SkipWs(t, e) == c && t[e..c] == items.after
    requires t[c] == if items.rest.NoItem? then CLOSE_BRACKET else COMMA
    ensures items.rest.NoItem? ==> ReadItems(t, i, depth, finite) == Yes(items, c + 1)
    ensures items.rest.Item? && ReadItems(t, c + 1, depth, finite).Yes? && ReadItems(t, c + 1, depth, finite).tree == items.rest ==>
              ReadItems(t, i, depth, finite) == Yes(items, ReadItems(t, c + 1, depth, finite).end)
  {
    hide ReadValue, SkipWs;
  }

  lemma ItemsTextIs(items: Items)
    requires items.Item?
    ensures ItemsText(items) == items.before + ValueText(items.v) + items.after + if items.rest.NoItem? then [] else [COMMA] + ItemsText(items.rest)
  {
    hide ValueText;
  }

  lemma {:induction false} ItemsComplete(t: seq<Byte>, i: nat, items: Items, depth: nat, finite: Finite)
    requires items.Item? && depth + ItemsNesting(items) <= MAX_DEPTH && GoodItems(items, finite) && i <= |t|
    requires At(t, i, ItemsText(items) + [CLOSE_BRACKET])
    ensures SkipWs(t, i) < |t| && t[SkipWs(t, i)] != CLOSE_BRACKET
    ensures ReadItems(t, i, depth, finite) == Yes(items, i + |ItemsText(items)| + 1)
    decreases items
  {
    hide SkipWs, At, ReadValue, ReadItems, AllWs, Good, ValueText, ItemsText, Nesting, IsWs, Stops;
    var V := ValueText(items.v);
    var j := i + |items.before|;
    var e := j + |V|;
    var c := e + |items.after|;
    ItemsTextIs(items);
    FirstByte(items.v, finite);
    ItemLayout(t, i, items.before, V, items.after, ItemsText(items.rest), items.rest.NoItem?, CLOSE_BRACKET);
    ValueComplete(t, i, items.v, depth + 1, finite);
    if items.rest.Item? {
      ItemsComplete(t, c + 1, items.rest, depth, finite);
    }
    ItemRead(t, i, depth, finite, items, j, e, c);
  }

  lemma Gap(t: seq<Byte>, e: nat, gap: seq<Byte>, c: nat)
    requires At(t, e, gap) && AllWs(gap) && c == e + |gap| && (c < |t| ==> !IsWs(t[c]))
    ensures e <= c <= |t| && SkipWs(t, e) == c && t[e..c] == gap
  {
    WsSkipped(t, e, gap);
  }

  /** Where a name, its colon and its value stand. */
  lemma NameLayout(t: seq<Byte>, j: nat, name: seq<Byte>, cb: seq<Byte>, ca: seq<Byte>, v: seq<Byte>, e: nat, c: nat, b: nat)
    requires At(t, j, name + cb + [COLON] + ca + v) && AllWs(cb) && AllWs(ca) && v != [] && !IsWs(v[0])
    requires e == j + |name| && c == e + |cb| && b == c + 1 + |ca|
    ensures At(t, j, name) && e <= c < b <= |t| && t[c] == COLON && At(t, b, v)
    ensures SkipWs(t, e) == c && t[e..c] == cb && SkipWs(t, c + 1) == b && t[c + 1..b] == ca
  {
    hide SkipWs, At, AllWs;
    AtSplit(t, j, name + cb + [COLON] + ca, v);
    AtSplit(t, j, name + cb + [COLON], ca);
    AtSplit(t, j, name + cb, [COLON]);
    AtSplit(t, j, name, cb);
    AtFirst(t, c, [COLON]);
    AtFirst(t, b, v);
    Gap(t, e, cb, c);
    Gap(t, c + 1, ca, b);
  }

  lemma CoreIs(before: seq<Byte>, name: seq<Byte>, cb: seq<Byte>, ca: seq<Byte>, v: seq<Byte>, after: seq<Byte>)
    ensures MemberText(before, name, cb, ca, v, after) == before + (name + cb + [COLON] + ca + v) + after
  {
  }

  lemma NameFirst(us: seq<Unit>)
    ensures StringText(us) != [] && StringText(us)[0] == QUOTE && !IsWs(QUOTE)
  {
  }

  lemma HeadRead(t: seq<Byte>, i: nat, depth: nat, keys: seq<seq<Byte>>, finite: Finite, ms: Members, k: nat, e: nat, c: nat, b: nat, g: nat, a: nat)
    requires depth <= MAX_DEPTH && i <= k <= e <= c < b <= g <= a < |t| && ms.Member?
    requires SkipWs(t, i) == k && t[i..k] == ms.before && ReadString(t, k) == Yes(ms.name, e) && t[k..e] !in keys
    requires SkipWs(t, e) == c && t[e..c] == ms.colonBefore && t[c] == COLON
    requires SkipWs(t, c + 1) == b && t[c + 1..b] == ms.colonAfter && ReadValue(t, c + 1, depth + 1, finite) == Yes(ms.v, g)
    requires SkipWs(t, g) == a && t[g..a] == ms.after
    ensures ReadHead(t, i, depth, keys, finite) == Yes(Head(ms.before, t[k..e], ms.name, ms.colonBefore, ms.colonAfter, ms.v, ms.after), a)
  {
    hide ReadValue, SkipWs, ReadString;
  }

  lemma MemberRead(t: seq<Byte>, i: nat, depth: nat, keys: seq<seq<Byte>>, finite: Finite, ms: Members, key: seq<Byte>, a: nat, end: nat)
    requires depth <= MAX_DEPTH && i <= a < |t| && ms.Member?
    requires ReadHead(t, i, depth, keys, finite) == Yes(Head(ms.before, key, ms.name, ms.colonBefore, ms.colonAfter, ms.v, ms.after), a)
    requires if ms.rest.NoMember? then t[a] == CLOSE_BRACE && end == a + 1
             else t[a] == COMMA && ReadMembers(t, a + 1, depth, keys + [key], finite) == Yes(ms.rest, end)
    ensures ReadMembers(t, i, depth, keys, finite) == Yes(ms, end)
  {
    hide ReadHead;
  }

  lemma NamesUnfold(ms: Members, keys: seq<seq<Byte>>)
    requires ms.Member? && NamesDiffer(ms) && forall k :: k in keys ==> !NameSpelled(ms, k)
    ensures StringText(ms.name) !in keys && NamesDiffer(ms.rest)
    ensures forall k :: k in keys + [StringText(ms.name)] ==> !NameSpelled(ms.rest, k)
  {
    hide StringText;
  }

  lemma {:induction false} MembersComplete(t: seq<Byte>, i: nat, ms: Members, depth: nat, keys: seq<seq<Byte>>, finite: Finite)
    requires ms.Member? && depth + MembersNesting(ms) <= MAX_DEPTH && GoodMembers(ms, finite) && i <= |t|
    requires NamesDiffer(ms) && forall k :: k in keys ==> !NameSpelled(ms, k)
    requires At(t, i, MembersText(ms) + [CLOSE_BRACE])
    ensures SkipWs(t, i) < |t| && t[SkipWs(t, i)] != CLOSE_BRACE
    ensures ReadMembers(t, i, depth, keys, finite) == Yes(ms, i + |MembersText(ms)| + 1)
    decreases ms
  {
    hide SkipWs, At, ReadValue, AllWs, Good, ValueText, Nesting, IsWs, StringText, ReadString, GoodUnits, Stops, MembersText, MemberText,
         ReadMembers, GoodMembers, ReadHead, MembersNesting, NamesDiffer, NameSpelled;
    var name, v := StringText(ms.name), ValueText(ms.v);
    var core := name + ms.colonBefore + [COLON] + ms.colonAfter + v;
    var j := i + |ms.before|;
    var e := j + |name|;
    var c := e + |ms.colonBefore|;
    var b := c + 1 + |ms.colonAfter|;
    var g := b + |v|;
    var a := g + |ms.after|;
    MemberUnfolds(ms, finite);
    FirstByte(ms.v, finite);
    NameFirst(ms.name);
    NamesUnfold(ms, keys);
    CoreIs(ms.before, name, ms.colonBefore, ms.colonAfter, v, ms.after);
    ItemLayout(t, i, ms.before, core, ms.after, MembersText(ms.rest), ms.rest.NoMember?, CLOSE_BRACE);
    NameLayout(t, j, name, ms.colonBefore, ms.colonAfter, v, e, c, b);
    StringComplete(t, j, ms.name);
    AtIsSlice(t, j, name);
    ValueComplete(t, c + 1, ms.v, depth + 1, finite);
    if ms.rest.Member? {
      MembersComplete(t, a + 1, ms.rest, depth, keys + [name], finite);
    }
    HeadRead(t, i, depth, keys, finite, ms, j, e, c, b, g, a);
    MemberRead(t, i, depth, keys, finite, ms, name, a, i + |MembersText(ms)| + 1);
  }

  // ----- main results -----

  /** `t` is one JSON object of the grammar with whitespace around it. */
  ghost predicate Document(t: seq<Byte>, finite: Finite, before: seq<Byte>, v: Value, after: seq<Byte>) {
    && AllWs(before) && AllWs(after) && v.Object? && Good(v, finite) && Nesting(v) <= MAX_DEPTH
    && t == before + ValueText(v) + after
  }

  lemma DocumentRead(t: seq<Byte>, finite: Finite, before: seq<Byte>, v: Value, after: seq<Byte>)
    requires Document(t, finite, before, v, after)
    ensures SkipWs(t, 0) == |before| && t[..|before|] == before && Peek(t, |before|, OPEN_BRACE)
    ensures ReadValue(t, 0, 0, finite) == Yes(v, |before| + |ValueText(v)|)
    ensures t[|before| + |ValueText(v)|..] == after && SkipWs(t, |before| + |ValueText(v)|) == |t|
  {
    hide ReadValue, ValueText, Good, AllWs, SkipWs, At, Nesting;
    WholeAt(t, before, ValueText(v), after);
    SpelledRead(t, finite, before, v, after);
  }

  lemma SpelledRead(t: seq<Byte>, finite: Finite, before: seq<Byte>, v: Value, after: seq<Byte>)
    requires AllWs(before) && AllWs(after) && v.Object? && Good(v, finite) && Nesting(v) <= MAX_DEPTH
    requires At(t, 0, before) && At(t, |before|, ValueText(v)) && At(t, |before| + |ValueText(v)|, after)
    requires |t| == |before| + |ValueText(v)| + |after|
    ensures SkipWs(t, 0) == |before| && Peek(t, |before|, OPEN_BRACE)
    ensures ReadValue(t, 0, 0, finite) == Yes(v, |before| + |ValueText(v)|)
    ensures SkipWs(t, |before| + |ValueText(v)|) == |t|
  {
    hide ReadValue, ValueText, Good, AllWs, SkipWs, At, Nesting;
    FirstByte(v, finite);
    AtFirst(t, |before|, ValueText(v));
    WsSkipped(t, 0, before);
    ValueComplete(t, 0, v, 0, finite);
    WsSkipped(t, |before| + |ValueText(v)|, after);
  }

  lemma WholeAt(t: seq<Byte>, before: seq<Byte>, s: seq<Byte>, after: seq<Byte>)
    requires t == before + s + after
    ensures At(t, 0, before) && At(t, |before|, s) && At(t, |before| + |s|, after)
    ensures t[..|before|] == before && t[|before| + |s|..] == after && |t| == |before| + |s| + |after|
  {
    assert t[|before|..|before| + |s|] == s;
    assert t[|before| + |s|..] == after;
  }

  /** object_document accepts a text exactly when it is one object of RFC 8259 nested at most 64 deep, with raw
      member names that differ, valid UTF-8, no NUL and no unpaired surrogate escape, and numbers in range. */
  lemma AcceptsExactlyGrammar(t: seq<Byte>, finite: Finite)
    ensures IsObjectDocument(t, finite) <==> exists before, v, after :: Document(t, finite, before, v, after)
  {
    hide ReadValue, SkipWs, Document;
    if IsObjectDocument(t, finite) {
      SoundDocument(t, finite);
    }
    if exists before, v, after :: Document(t, finite, before, v, after) {
      var before, v, after :| Document(t, finite, before, v, after);
      DocumentRead(t, finite, before, v, after);
    }
  }

  lemma SoundDocument(t: seq<Byte>, finite: Finite)
    requires IsObjectDocument(t, finite)
    ensures var r := ReadValue(t, 0, 0, finite); Document(t, finite, t[..SkipWs(t, 0)], r.tree, t[r.end..])
  {
    hide ReadValue, SkipWs, ValueText, Good;
    var j, r := SkipWs(t, 0), ReadValue(t, 0, 0, finite);
    ValueSound(t, 0, 0, finite);
    FirstByte(r.tree, finite);
    GapIsWs(t, 0);
    GapIsWs(t, r.end);
    assert t[0..j] == t[..j] && t[r.end..|t|] == t[r.end..];
    assert t == t[..j] + t[j..r.end] + t[r.end..];
    assert t[j] == t[j..r.end][0];
  }

  /** A text has at most one such tree: the check's reading is the only one. */
  lemma Unambiguous(t: seq<Byte>, finite: Finite, b1: seq<Byte>, v1: Value, a1: seq<Byte>, b2: seq<Byte>, v2: Value, a2: seq<Byte>)
    requires Document(t, finite, b1, v1, a1) && Document(t, finite, b2, v2, a2)
    ensures b1 == b2 && v1 == v2 && a1 == a2
  {
    hide ReadValue, SkipWs, ValueText, Good, Document;
    DocumentRead(t, finite, b1, v1, a1);
    DocumentRead(t, finite, b2, v2, a2);
  }
}
