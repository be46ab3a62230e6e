/** The strict JSON check accepts exactly the texts of good trees: what is read is the text of the tree, and
    the text of a good tree is read back as that tree. */
module JsonProof {
  import opened Utf8
  import opened JsonNumber
  import opened JsonGrammar
  import opened JsonReader

  // ----- pieces of the text -----

  lemma Cat(t: seq<Byte>, i: nat, j: nat, k: nat)
    requires i <= j <= k <= |t|
    ensures t[i..j] + t[j..k] == t[i..k]
  {
  }

  lemma Assoc(p: seq<Byte>, q: seq<Byte>, r: seq<Byte>)
    ensures (p + q) + r == p + (q + r)
  {
  }

  lemma Single(t: seq<Byte>, i: nat)
    requires i < |t|
    ensures t[i..i + 1] == [t[i]]
  {
  }

  lemma {:induction false} GapIsWs(t: seq<Byte>, i: nat)
    requires i <= |t|
    ensures AllWs(t[i..SkipWs(t, i)])
    decreases |t| - i
  {
    if i < |t| && IsWs(t[i]) {
      GapIsWs(t, i + 1);
      assert t[i..SkipWs(t, i)] == [t[i]] + t[i + 1..SkipWs(t, i)];
    }
  }

  lemma {:induction false} SkippedDigits(t: seq<Byte>, i: nat)
    requires i <= |t|
    ensures AllDigits(t[i..SkipDigits(t, i)])
    decreases |t| - i
  {
    if i < |t| && IsDigit(t[i]) {
      SkippedDigits(t, i + 1);
      assert t[i..SkipDigits(t, i)] == [t[i]] + t[i + 1..SkipDigits(t, i)];
    }
  }

  // ----- what is read is the text of the tree -----

  lemma UnitSound(t: seq<Byte>, i: nat)
    requires i < |t| && t[i] != QUOTE && ReadUnit(t, i).Yes?
    ensures var r := ReadUnit(t, i); GoodUnit(r.tree) && t[i..r.end] == UnitText(r.tree)
  {
    hide HexValue, IsHex4, IsShort, Encode, ReadUtf8;
    if t[i] >= 0x80 {
      ReadIsEncoded(t, i);
    } else if t[i] == BACKSLASH {
      EscapeSound(t, i);
    }
  }

  lemma Two(t: seq<Byte>, i: nat)
    requires i + 2 <= |t|
    ensures t[i..i + 2] == [t[i], t[i + 1]]
  {
  }

  /** What an accepted escape looks like. */
  lemma EscapeRead(t: seq<Byte>, i: nat)
    requires i < |t| && t[i] == BACKSLASH && ReadUnit(t, i).Yes?
    ensures var r := ReadUnit(t, i);
            && i + 2 <= r.end <= |t| && GoodUnit(r.tree)
            && (t[i + 1] != SMALL_U ==> r == Yes(Short(t[i + 1]), i + 2))
            && (t[i + 1] == SMALL_U ==>
                  || (i + 6 <= |t| && r == Yes(Hex(t[i + 2..i + 6]), i + 6))
                  || (i + 12 <= |t| && t[i + 6] == BACKSLASH && t[i + 7] == SMALL_U && r == Yes(Pair(t[i + 2..i + 6], t[i + 8..i + 12]), i + 12)))
  {
    hide HexValue, IsHex4, IsShort;
  }

  lemma EscapeSound(t: seq<Byte>, i: nat)
    requires i < |t| && t[i] == BACKSLASH && ReadUnit(t, i).Yes?
    ensures var r := ReadUnit(t, i); GoodUnit(r.tree) && t[i..r.end] == UnitText(r.tree)
  {
    hide ReadUnit, GoodUnit;
    EscapeRead(t, i);
    Two(t, i);
    if t[i + 1] == SMALL_U {
      var r := ReadUnit(t, i);
      Cat(t, i, i + 2, i + 6);
      if r.tree.Pair? {
        Two(t, i + 6);
        Cat(t, i, i + 6, i + 8);
        Cat(t, i, i + 8, i + 12);
      }
    }
  }

  lemma {:induction false} UnitsSound(t: seq<Byte>, i: nat)
    requires ReadUnits(t, i).Yes?
    ensures var r := ReadUnits(t, i); GoodUnits(r.tree) && t[i..r.end] == UnitsText(r.tree) + [QUOTE]
    decreases |t| - i
  {
    hide ReadUnit, UnitText, GoodUnit;
    if t[i] != QUOTE {
      var u, r := ReadUnit(t, i), ReadUnits(t, i);
      UnitSound(t, i);
      UnitsSound(t, u.end);
      Cat(t, i, u.end, r.end);
      assert r.tree[1..] == ReadUnits(t, u.end).tree;
    }
  }

  lemma StringSound(t: seq<Byte>, i: nat)
    requires ReadString(t, i).Yes?
    ensures var r := ReadString(t, i); GoodUnits(r.tree) && t[i..r.end] == StringText(r.tree)
  {
    hide ReadUnits, UnitsText, GoodUnits;
    var r := ReadString(t, i);
    UnitsSound(t, i + 1);
    Single(t, i);
    Cat(t, i, i + 1, r.end);
    Assoc([QUOTE], UnitsText(r.tree), [QUOTE]);
  }

  lemma DigitsSound(t: seq<Byte>, i: nat)
    requires i <= |t| && ReadDigits(t, i).Yes?
    ensures var r := ReadDigits(t, i); AllDigits(r.tree) && r.tree != [] && t[i..r.end] == r.tree
  {
    SkippedDigits(t, i);
  }

  lemma WholeSound(t: seq<Byte>, i: nat)
    requires i <= |t| && ReadWhole(t, i).Yes?
    ensures var r := ReadWhole(t, i);
            AllDigits(r.tree) && r.tree != [] && (|r.tree| > 1 ==> r.tree[0] != ZERO) && t[i..r.end] == r.tree
  {
    if !Peek(t, i, ZERO) {
      DigitsSound(t, i);
    }
  }

  lemma FractionSound(t: seq<Byte>, i: nat)
    requires i <= |t| && ReadFraction(t, i).Yes?
    ensures var r := ReadFraction(t, i);
            AllDigits(r.tree) && t[i..r.end] == if r.tree == [] then [] else [DOT] + r.tree
  {
    if Peek(t, i, DOT) {
      DigitsSound(t, i + 1);
      Cat(t, i, i + 1, ReadFraction(t, i).end);
    }
  }

  lemma ExponentSound(t: seq<Byte>, i: nat)
    requires i <= |t| && ReadExponent(t, i).Yes?
    ensures var r := ReadExponent(t, i); var (mark, s) := r.tree;
            AllDigits(s) && (if s == [] then mark == [] else IsMark(mark)) && t[i..r.end] == mark + s
  {
    if PeekE(t, i) {
      DigitsSound(t, MarkEnd(t, i));
      Cat(t, i, MarkEnd(t, i), ReadExponent(t, i).end);
    }
  }

  lemma NumberSound(t: seq<Byte>, i: nat, finite: Finite)
    requires i <= |t| && ReadNumber(t, i, finite).Yes?
    ensures var r := ReadNumber(t, i, finite); GoodNum(r.tree, finite) && t[i..r.end] == NumText(r.tree)
  {
    hide Fits, SignedValue, AllDigits, ReadWhole, ReadFraction, ReadExponent, NumText;
    var a := if Peek(t, i, MINUS) then i + 1 else i;
    var whole := ReadWhole(t, a);
    var fraction := ReadFraction(t, whole.end);
    WholeSound(t, a);
    FractionSound(t, whole.end);
    ExponentSound(t, fraction.end);
    NumberJoined(t, i, a, whole.end, fraction.end, ReadExponent(t, fraction.end).end, ReadNumber(t, i, finite).tree);
    FitsExactlyInt64(a > i, whole.tree);
  }

  lemma NumberJoined(t: seq<Byte>, i: nat, a: nat, b: nat, c: nat, d: nat, n: Num)
    requires i <= a <= b <= c <= d <= |t| && a == (if n.negative then i + 1 else i) && (n.negative ==> t[i] == MINUS)
    requires t[a..b] == n.whole && t[b..c] == (if n.fraction == [] then [] else [DOT] + n.fraction) && t[c..d] == n.mark + n.exponent
    ensures t[i..d] == NumText(n)
  {
    var sign := if n.negative then [MINUS] else [];
    assert t[i..a] == sign;
    Cat(t, i, a, b);
    Cat(t, i, b, c);
    Cat(t, i, c, d);
    Assoc(t[i..c], n.mark, n.exponent);
  }

  lemma Bracketed(t: seq<Byte>, j: nat, e: nat, gap: seq<Byte>, inner: seq<Byte>, close: Byte)
    requires j < e <= |t| && t[j + 1..e] == gap + inner + [close]
    ensures t[j..e] == [t[j]] + gap + inner + [close]
  {
    Cat(t, j, j + 1, e);
    Single(t, j);
    Assoc([t[j]], gap, inner);
    Assoc([t[j]], gap + inner, [close]);
  }

  lemma {:induction false} ValueSound(t: seq<Byte>, i: nat, depth: nat, finite: Finite)
    requires depth <= MAX_DEPTH + 1 && ReadValue(t, i, depth, finite).Yes?
    ensures var r := ReadValue(t, i, depth, finite);
            && Good(r.tree, finite) && depth + Nesting(r.tree) <= MAX_DEPTH
            && SkipWs(t, i) < r.end <= |t| && t[SkipWs(t, i)..r.end] == ValueText(r.tree)
    decreases MAX_DEPTH + 1 - depth, |t| - i, 1
  {
    hide ReadNumber, ReadString, ReadMembers, ReadItems, GoodNum, GoodUnits, NumText, StringText, SkipWs, AllWs,
         GoodItems, GoodMembers, ItemsText, MembersText, ItemsNesting, MembersNesting, NamesDiffer;
    var j, e := SkipWs(t, i), ReadValue(t, i, depth, finite).end;
    var k := SkipWs(t, j + 1);
    NoItems();
    if t[j] == OPEN_BRACE {
      if Peek(t, k, CLOSE_BRACE) {
        EmptySound(t, j, CLOSE_BRACE);
      } else {
        MembersSound(t, j + 1, depth, [], finite);
        MemberNames(t, j + 1, depth, [], finite);
        Bracketed(t, j, e, [], MembersText(ReadMembers(t, j + 1, depth, [], finite).tree), CLOSE_BRACE);
      }
    } else if t[j] == OPEN_BRACKET {
      if Peek(t, k, CLOSE_BRACKET) {
        EmptySound(t, j, CLOSE_BRACKET);
      } else {
        ItemsSound(t, j + 1, depth, finite);
        Bracketed(t, j, e, [], ItemsText(ReadItems(t, j + 1, depth, finite).tree), CLOSE_BRACKET);
      }
    } else if t[j] == QUOTE {
      StringSound(t, j);
    } else if t[j] != 0x74 && t[j] != 0x66 && t[j] != 0x6E {
      NumberSound(t, j, finite);
    }
  }

  lemma NoItems()
    ensures ItemsText(NoItem) == [] && MembersText(NoMember) == [] && ItemsNesting(NoItem) == 0 && MembersNesting(NoMember) == 0
    ensures AllWs([]) && NamesDiffer(NoMember)
    ensures forall finite: Finite :: GoodItems(NoItem, finite)
    ensures forall finite: Finite :: GoodMembers(NoMember, finite)
  {
  }

  lemma EmptySound(t: seq<Byte>, j: nat, close: Byte)
    requires j < |t| && Peek(t, SkipWs(t, j + 1), close)
    ensures var k := SkipWs(t, j + 1); AllWs(t[j + 1..k]) && t[j..k + 1] == [t[j]] + t[j + 1..k] + [] + [close]
  {
    GapIsWs(t, j + 1);
    JoinedEnd(t, j + 1, SkipWs(t, j + 1), t[j + 1..SkipWs(t, j + 1)], close);
    Bracketed(t, j, SkipWs(t, j + 1) + 1, t[j + 1..SkipWs(t, j + 1)], [], close);
  }

  lemma JoinedEnd(t: seq<Byte>, i: nat, a: nat, part: seq<Byte>, close: Byte)
    requires i <= a < |t| && t[i..a] == part && t[a] == close
    ensures t[i..a + 1] == part + [] + [close]
  {
    Cat(t, i, a, a + 1);
  }

  lemma JoinedRest(t: seq<Byte>, i: nat, a: nat, f: nat, part: seq<Byte>, rest: seq<Byte>, close: Byte)
    requires i <= a < f <= |t| && t[i..a] == part && t[a] == COMMA && t[a + 1..f] == rest + [close]
    ensures t[i..f] == part + ([COMMA] + rest) + [close]
  {
    Cat(t, i, a, f);
    Cat(t, a, a + 1, f);
    Single(t, a);
    Assoc([COMMA], rest, [close]);
    Assoc(part, [COMMA] + rest, [close]);
  }

  lemma {:induction false} ItemsSound(t: seq<Byte>, i: nat, depth: nat, finite: Finite)
    requires depth <= MAX_DEPTH && i <= |t| && ReadItems(t, i, depth, finite).Yes?
    ensures var r := ReadItems(t, i, depth, finite);
            GoodItems(r.tree, finite) && depth + ItemsNesting(r.tree) <= MAX_DEPTH && t[i..r.end] == ItemsText(r.tree) + [CLOSE_BRACKET]
    decreases MAX_DEPTH + 1 - depth, |t| - i, 0
  {
    hide ReadValue, Good, ValueText, Nesting, SkipWs, AllWs;
    var r, v := ReadItems(t, i, depth, finite), ReadValue(t, i, depth + 1, finite);
    var j, a := SkipWs(t, i), SkipWs(t, v.end);
    ValueSound(t, i, depth + 1, finite);
    GapIsWs(t, i);
    GapIsWs(t, v.end);
    Cat(t, i, j, v.end);
    Cat(t, i, v.end, a);
    if Peek(t, a, COMMA) {
      ItemsSound(t, a + 1, depth, finite);
      JoinedRest(t, i, a, r.end, t[i..j] + ValueText(v.tree) + t[v.end..a], ItemsText(r.tree.rest), CLOSE_BRACKET);
    } else {
      JoinedEnd(t, i, a, t[i..j] + ValueText(v.tree) + t[v.end..a], CLOSE_BRACKET);
    }
  }

  lemma MemberParts(t: seq<Byte>, i: nat, k: nat, e: nat, c: nat, b: nat, g: nat, a: nat)
    requires i <= k <= e <= c < b <= g <= a <= |t| && t[c] == COLON
    ensures t[i..a] == MemberText(t[i..k], t[k..e], t[e..c], t[c + 1..b], t[b..g], t[g..a])
  {
    Cat(t, i, k, e);
    Cat(t, i, e, c);
    Cat(t, i, c, c + 1);
    Single(t, c);
    Cat(t, i, c + 1, b);
    Cat(t, i, b, g);
    Cat(t, i, g, a);
  }

  lemma HeadKey(t: seq<Byte>, i: nat, depth: nat, keys: seq<seq<Byte>>, finite: Finite)
    requires depth <= MAX_DEPTH && i <= |t| && ReadHead(t, i, depth, keys, finite).Yes?
    ensures var h := ReadHead(t, i, depth, keys, finite).tree; h.key == StringText(h.name) && h.key !in keys
  {
    hide ReadValue, ReadString, StringText, SkipWs;
    StringSound(t, SkipWs(t, i));
  }

  /** The names read differ from each other and from the `keys` before. */
  lemma {:induction false} MemberNames(t: seq<Byte>, i: nat, depth: nat, keys: seq<seq<Byte>>, finite: Finite)
    requires depth <= MAX_DEPTH && i <= |t| && ReadMembers(t, i, depth, keys, finite).Yes?
    ensures var ms := ReadMembers(t, i, depth, keys, finite).tree;
            NamesDiffer(ms) && forall k :: k in keys ==> !NameSpelled(ms, k)
    decreases |t| - i
  {
    hide ReadHead, StringText;
    HeadKey(t, i, depth, keys, finite);
    var h, a := ReadHead(t, i, depth, keys, finite).tree, ReadHead(t, i, depth, keys, finite).end;
    if Peek(t, a, COMMA) {
      MemberNames(t, a + 1, depth, keys + [h.key], finite);
      assert h.key in keys + [h.key];
    }
  }

  lemma MemberUnfolds(ms: Members, finite: Finite)
    requires ms.Member?
    ensures GoodMembers(ms, finite) <==>
              && AllWs(ms.before) && GoodUnits(ms.name) && AllWs(ms.colonBefore) && AllWs(ms.colonAfter)
              && Good(ms.v, finite) && AllWs(ms.after) && GoodMembers(ms.rest, finite)
    ensures MembersNesting(ms) == Max(1 + Nesting(ms.v), MembersNesting(ms.rest))
    ensures MembersText(ms) == MemberText(ms.before, StringText(ms.name), ms.colonBefore, ms.colonAfter, ValueText(ms.v), ms.after)
                               + if ms.rest.NoMember? then [] else [COMMA] + MembersText(ms.rest)
  {
    hide Good, Nesting, ValueText, StringText, AllWs, GoodUnits, MemberText, Max;
  }

  /** A member that is read is the text of its parts, and they are good. */
  lemma {:induction false} HeadSound(t: seq<Byte>, i: nat, depth: nat, keys: seq<seq<Byte>>, finite: Finite)
    requires depth <= MAX_DEPTH && i <= |t| && ReadHead(t, i, depth, keys, finite).Yes?
    ensures var r := ReadHead(t, i, depth, keys, finite); var h := r.tree;
            && AllWs(h.before) && GoodUnits(h.name) && AllWs(h.colonBefore) && AllWs(h.colonAfter) && Good(h.v, finite) && AllWs(h.after)
            && depth + 1 + Nesting(h.v) <= MAX_DEPTH
            && t[i..r.end] == MemberText(h.before, StringText(h.name), h.colonBefore, h.colonAfter, ValueText(h.v), h.after)
    decreases MAX_DEPTH + 1 - depth, |t| - i, 0
  {
    hide ReadValue, Good, ValueText, Nesting, ReadString, GoodUnits, StringText, SkipWs, AllWs, MemberText;
    var k := SkipWs(t, i);
    var e := ReadString(t, k).end;
    var c := SkipWs(t, e);
    var v := ReadValue(t, c + 1, depth + 1, finite);
    StringSound(t, k);
    ValueSound(t, c + 1, depth + 1, finite);
    GapIsWs(t, i);
    GapIsWs(t, e);
    GapIsWs(t, c + 1);
    GapIsWs(t, v.end);
    MemberParts(t, i, k, e, c, SkipWs(t, c + 1), v.end, SkipWs(t, v.end));
  }

  lemma {:induction false} MembersSound(t: seq<Byte>, i: nat, depth: nat, keys: seq<seq<Byte>>, finite: Finite)
    requires depth <= MAX_DEPTH && i <= |t| && ReadMembers(t, i, depth, keys, finite).Yes?
    ensures var r := ReadMembers(t, i, depth, keys, finite);
            && GoodMembers(r.tree, finite) && depth + MembersNesting(r.tree) <= MAX_DEPTH
            && t[i..r.end] == MembersText(r.tree) + [CLOSE_BRACE]
    decreases MAX_DEPTH + 1 - depth, |t| - i, 1
  {
    hide ReadHead, Good, ValueText, Nesting, GoodUnits, StringText, AllWs, MemberText, GoodMembers, MembersNesting, MembersText;
    var r, head := ReadMembers(t, i, depth, keys, finite), ReadHead(t, i, depth, keys, finite);
    var a := head.end;
    MemberUnfolds(r.tree, finite);
    NoItems();
    HeadSound(t, i, depth, keys, finite);
    if Peek(t, a, COMMA) {
      MembersSound(t, a + 1, depth, keys + [head.tree.key], finite);
      JoinedRest(t, i, a, r.end, t[i..a], MembersText(r.tree.rest), CLOSE_BRACE);
    } else {
      JoinedEnd(t, i, a, t[i..a], CLOSE_BRACE);
    }
  }
}
