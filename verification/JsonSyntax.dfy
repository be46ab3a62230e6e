/** JsonSyntax (src/core/StreamlabsTikTok.cpp): the strict JSON check with its cursor, method by method,
    proved against the reading functions. */
module JsonSyntax {
  import opened HexDigits
  import opened Utf8
  import opened JsonNumber
  import opened JsonGrammar
  import opened JsonReader

  /** Where a reading ended; -1 when there is none. */
  function End<T>(r: Parsed<T>): int {
    if r.Yes? then r.end else -1
  }

  class JsonSyntax {
    const text: seq<Byte>
    const finite: Finite
    var pos: nat

    constructor (t: seq<Byte>, f: Finite)
      ensures text == t && finite == f && pos == 0
    {
      text, finite, pos := t, f, 0;
    }

    predicate Sees(c: Byte)
      reads this
    {
      Peek(text, pos, c)
    }

    method SkipBlanks()
      modifies `pos
      ensures pos == SkipWs(text, old(pos))
    {
      while pos < |text| && IsWs(text[pos])
        invariant SkipWs(text, pos) == SkipWs(text, old(pos))
        decreases |text| - pos
      {
        pos := pos + 1;
      }
    }

    method Literal(word: seq<Byte>) returns (ok: bool)
      requires pos <= |text|
      modifies `pos
      ensures ok <==> At(text, old(pos), word)
      ensures ok ==> pos == old(pos) + |word|
    {
      var p := 0;
      while p < |word|
        invariant 0 <= p <= |word| && pos == old(pos) + p
        invariant At(text, old(pos), word[..p])
      {
        assert At(text, old(pos), word) ==> pos < |text| && text[pos] == text[old(pos)..old(pos) + |word|][p];
        if pos >= |text| || text[pos] != word[p] {
          return false;
        }
        assert text[old(pos)..pos + 1] == text[old(pos)..pos] + [text[pos]];
        assert word[..p + 1] == word[..p] + [word[p]];
        p, pos := p + 1, pos + 1;
      }
      assert word[..p] == word;
      return true;
    }

    /** Answers the number that the next four characters spell in base 16 and moves past them, or refuses with -1. */
    method UnicodeEscape() returns (v: int)
      modifies `pos
      ensures v == if HexAt(text, old(pos)) then HexValue(text[old(pos)..old(pos) + 4]) else -1
      ensures v >= 0 ==> pos == old(pos) + 4
    {
      v := 0;
      ghost var start := pos;
      for k := 0 to 4
        invariant pos == start + k && (k > 0 ==> pos <= |text|)
        invariant forall m :: start <= m < pos ==> IsHex(text[m])
        invariant k == 0 ==> v == 0
        invariant k == 1 ==> v == HexDigit(text[start])
        invariant k == 2 ==> v == HexDigit(text[start]) * 16 + HexDigit(text[start + 1])
        invariant k == 3 ==> v == (HexDigit(text[start]) * 16 + HexDigit(text[start + 1])) * 16 + HexDigit(text[start + 2])
        invariant k == 4 ==> v == ((HexDigit(text[start]) * 16 + HexDigit(text[start + 1])) * 16 + HexDigit(text[start + 2])) * 16
                                  + HexDigit(text[start + 3])
      {
        if pos >= |text| || !IsHex(text[pos]) {
          assert HexAt(text, start) ==> text[start..start + 4][k] == text[pos];
          return -1;
        }
        v := v * 16 + HexDigit(text[pos]);
        pos := pos + 1;
      }
      assert forall m :: start <= m < start + 4 ==> text[start..start + 4][m - start] == text[m];
    }

    /** Succeeds exactly if a multi-byte sequence of RFC 3629 begins one byte before the cursor, which then ends behind it. */
    method Utf8Tail(c: Byte) returns (ok: bool)
      requires 0 < pos <= |text| && c == text[pos - 1]
      modifies `pos
      ensures ok <==> ReadUtf8(text, old(pos) - 1).Yes?
      ensures ok ==> pos == ReadUtf8(text, old(pos) - 1).end
    {
      var extra, cp: nat := 0, 0;
      if 0xC2 <= c <= 0xDF {
        extra, cp := 1, c % 0x20;
      } else if 0xE0 <= c <= 0xEF {
        extra, cp := 2, c % 0x10;
      } else if 0xF0 <= c <= 0xF4 {
        extra, cp := 3, c % 8;
      } else {
        return false;
      }
      for k := 0 to extra
        invariant pos == old(pos) + k <= |text|
        invariant Tail(text, pos, extra - k, cp) == Tail(text, old(pos), extra, LeadBits(c))
      {
        if pos >= |text| {
          return false;
        }
        var cc := text[pos];
        pos := pos + 1;
        if cc / 0x40 != 2 {
          return false;
        }
        cp := cp * 0x40 + cc % 0x40;
      }
      if (extra == 2 && cp < 0x800) || (extra == 3 && cp < 0x10000) {
        return false;
      }
      if 0xD800 <= cp <= 0xDFFF {
        return false;
      }
      return cp <= 0x10FFFF;
    }

    /** An escape whose backslash was already consumed. */
    method Escape() returns (ok: bool)
      requires 0 < pos <= |text| && text[pos - 1] == BACKSLASH
      modifies `pos
      ensures ok <==> ReadUnit(text, old(pos) - 1).Yes?
      ensures ok ==> pos == ReadUnit(text, old(pos) - 1).end
    {
      if pos >= |text| {
        return false;
      }
      var e := text[pos];
      pos := pos + 1;
      if e != SMALL_U {
        return IsShort(e);
      }
      var v := UnicodeEscape();
      if v <= 0 {
        return false;
      }
      if 0xDC00 <= v <= 0xDFFF {
        return false;
      }
      if 0xD800 <= v <= 0xDBFF {
        if pos + 1 >= |text| || text[pos] != BACKSLASH || text[pos + 1] != SMALL_U {
          return false;
        }
        pos := pos + 2;
        var low := UnicodeEscape();
        if low < 0xDC00 || low > 0xDFFF {
          return false;
        }
      }
      return true;
    }

    method String() returns (ok: bool)
      modifies `pos
      ensures ok <==> ReadString(text, old(pos)).Yes?
      ensures ok ==> pos == ReadString(text, old(pos)).end
    {
      if !Sees(QUOTE) {
        return false;
      }
      pos := pos + 1;
      while pos < |text|
        invariant pos <= |text| && End(ReadUnits(text, pos)) == End(ReadUnits(text, old(pos) + 1))
        decreases |text| - pos
      {
        var c := text[pos];
        pos := pos + 1;
        if c == QUOTE {
          return true;
        }
        if c < 0x20 {
          return false;
        }
        if c >= 0x80 {
          var tail := Utf8Tail(c);
          if !tail {
            return false;
          }
        } else if c == BACKSLASH {
          var escape := Escape();
          if !escape {
            return false;
          }
        }
      }
      return false;
    }

    method Digits() returns (ok: bool)
      requires pos <= |text|
      modifies `pos
      ensures pos == SkipDigits(text, old(pos)) && (ok <==> pos > old(pos))
    {
      var start := pos;
      while pos < |text| && IsDigit(text[pos])
        invariant start <= pos <= |text| && SkipDigits(text, pos) == SkipDigits(text, start)
        decreases |text| - pos
      {
        pos := pos + 1;
      }
      return pos > start;
    }

    method WholePart() returns (ok: bool)
      requires pos <= |text|
      modifies `pos
      ensures ok <==> ReadWhole(text, old(pos)).Yes?
      ensures ok ==> old(pos) < pos <= |text| && ReadWhole(text, old(pos)) == Yes(text[old(pos)..pos], pos)
    {
      if Sees(ZERO) {
        assert text[pos..pos + 1] == [ZERO];
        pos := pos + 1;
        return true;
      }
      ok := Digits();
    }

    method FractionPart() returns (ok: bool, present: bool)
      requires pos <= |text|
      modifies `pos
      ensures ok <==> ReadFraction(text, old(pos)).Yes?
      ensures ok ==> pos == ReadFraction(text, old(pos)).end && (present <==> ReadFraction(text, old(pos)).tree != [])
    {
      if !Sees(DOT) {
        return true, false;
      }
      pos := pos + 1;
      ok := Digits();
      present := true;
    }

    method ExponentPart() returns (ok: bool, present: bool)
      requires pos <= |text|
      modifies `pos
      ensures ok <==> ReadExponent(text, old(pos)).Yes?
      ensures ok ==> pos == ReadExponent(text, old(pos)).end && (present <==> ReadExponent(text, old(pos)).tree.1 != [])
    {
      if !PeekE(text, pos) {
        return true, false;
      }
      pos := pos + 1;
      if Sees(PLUS) || Sees(MINUS) {
        pos := pos + 1;
      }
      ok := Digits();
      present := true;
    }

    /** strtod and isfinite are the parameter `finite`. */
    method Number() returns (ok: bool)
      requires pos <= |text|
      modifies `pos
      ensures ok <==> ReadNumber(text, old(pos), finite).Yes?
      ensures ok ==> pos == ReadNumber(text, old(pos), finite).end
    {
      hide ReadWhole, ReadFraction, ReadExponent, LexLe;
      var start := pos;
      var negative := Sees(MINUS);
      if negative {
        pos := pos + 1;
      }
      var intStart := pos;
      var good := WholePart();
      if !good {
        return false;
      }
      var intEnd := pos;
      var fraction, exponent;
      good, fraction := FractionPart();
      if !good {
        return false;
      }
      good, exponent := ExponentPart();
      if !good {
        return false;
      }
      if fraction || exponent {
        return finite(text[start..pos]);
      }
      var intLen := intEnd - intStart;
      if intLen > 19 {
        return false;
      }
      return intLen < 19 || LexLe(text[intStart..intEnd], if negative then NEGATIVE_LIMIT else POSITIVE_LIMIT);
    }

    method Value(depth: nat) returns (ok: bool)
      requires depth <= MAX_DEPTH + 1 && pos <= |text|
      modifies `pos
      ensures ok <==> ReadValue(text, old(pos), depth, finite).Yes?
      ensures ok ==> pos == ReadValue(text, old(pos), depth, finite).end
      decreases MAX_DEPTH + 1 - depth, 1
    {
      if depth > MAX_DEPTH {
        return false;
      }
      SkipBlanks();
      if pos >= |text| {
        return false;
      }
      var c := text[pos];
      if c == OPEN_BRACE {
        pos := pos + 1;
        ghost var inner := pos;
        SkipBlanks();
        if Sees(CLOSE_BRACE) {
          pos := pos + 1;
          return true;
        }
        SkippedTwice(text, inner);
        ok := MemberList(depth, inner);
      } else if c == OPEN_BRACKET {
        pos := pos + 1;
        ghost var inner := pos;
        SkipBlanks();
        if Sees(CLOSE_BRACKET) {
          pos := pos + 1;
          return true;
        }
        SkippedTwice(text, inner);
        ok := ItemList(depth, inner);
      } else if c == QUOTE {
        ok := String();
      } else if c == 0x74 {
        ok := Literal(TRUE_WORD);
      } else if c == 0x66 {
        ok := Literal(FALSE_WORD);
      } else if c == 0x6E {
        ok := Literal(NULL_WORD);
      } else {
        ok := Number();
      }
    }

    /** The member loop of value(); `inner` is where the whitespace before the first name began. */
    method MemberList(depth: nat, ghost inner: nat) returns (ok: bool)
      requires depth <= MAX_DEPTH && inner <= pos <= |text| && SkipWs(text, pos) == SkipWs(text, inner)
      modifies `pos
      ensures ok <==> ReadMembers(text, inner, depth, [], finite).Yes?
      ensures ok ==> pos == ReadMembers(text, inner, depth, [], finite).end
      decreases MAX_DEPTH + 1 - depth, 0
    {
      hide ReadMembers, ReadValue, ReadString, SkipWs;
      var keys: seq<seq<Byte>> := [];
      ghost var at: nat := inner;
      while true
        invariant at <= pos <= |text| && SkipWs(text, pos) == SkipWs(text, at)
        invariant End(ReadMembers(text, at, depth, keys, finite)) == End(ReadMembers(text, inner, depth, [], finite))
        decreases |text| - pos
      {
        MembersStep(text, at, depth, keys, finite);
        SkipBlanks();
        var keyStart := pos;
        var good := String();
        if !good {
          return false;
        }
        var key := text[keyStart..pos];
        if key in keys {
          return false;
        }
        keys := keys + [key];
        SkipBlanks();
        if !Sees(COLON) {
          return false;
        }
        pos := pos + 1;
        good := Value(depth + 1);
        if !good {
          return false;
        }
        SkipBlanks();
        if Sees(COMMA) {
          pos := pos + 1;
          at := pos;
          continue;
        }
        if Sees(CLOSE_BRACE) {
          pos := pos + 1;
          return true;
        }
        return false;
      }
    }

    /** The item loop of value(). */
    method ItemList(depth: nat, ghost inner: nat) returns (ok: bool)
      requires depth <= MAX_DEPTH && inner <= pos <= |text| && SkipWs(text, pos) == SkipWs(text, inner)
      modifies `pos
      ensures ok <==> ReadItems(text, inner, depth, finite).Yes?
      ensures ok ==> pos == ReadItems(text, inner, depth, finite).end
      decreases MAX_DEPTH + 1 - depth, 0
    {
      hide ReadItems, ReadValue, SkipWs;
      ghost var at: nat := inner;
      while true
        invariant at <= pos <= |text| && SkipWs(text, pos) == SkipWs(text, at)
        invariant End(ReadItems(text, at, depth, finite)) == End(ReadItems(text, inner, depth, finite))
        decreases |text| - pos
      {
        ItemsStep(text, at, depth, finite);
        SameValue(text, pos, at, depth + 1, finite);
        var good := Value(depth + 1);
        if !good {
          return false;
        }
        SkipBlanks();
        if Sees(COMMA) {
          pos := pos + 1;
          at := pos;
          continue;
        }
        if Sees(CLOSE_BRACKET) {
          pos := pos + 1;
          return true;
        }
        return false;
      }
    }

    method ObjectDocument() returns (ok: bool)
      requires pos == 0
      modifies `pos
      ensures ok <==> IsObjectDocument(text, finite)
    {
      SkipBlanks();
      if !Sees(OPEN_BRACE) {
        return false;
      }
      SkippedTwice(text, 0);
      SameValue(text, pos, 0, 0, finite);
      var good := Value(0);
      if !good {
        return false;
      }
      SkipBlanks();
      return pos == |text|;
    }
  }

  lemma {:induction false} SkippedTwice(t: seq<Byte>, i: nat)
    ensures SkipWs(t, SkipWs(t, i)) == SkipWs(t, i)
    decreases |t| - i
  {
    if i < |t| && IsWs(t[i]) {
      SkippedTwice(t, i + 1);
    }
  }

  /** Leading whitespace does not matter to a value. */
  lemma SameValue(t: seq<Byte>, i: nat, j: nat, depth: nat, finite: Finite)
    requires depth <= MAX_DEPTH + 1 && SkipWs(t, i) == SkipWs(t, j)
    ensures ReadValue(t, i, depth, finite) == ReadValue(t, j, depth, finite)
  {
  }

  /** One turn of the member loop, seen from where the rest of the members is read to its end. */
  lemma MembersStep(t: seq<Byte>, i: nat, depth: nat, keys: seq<seq<Byte>>, finite: Finite)
    requires depth <= MAX_DEPTH && i <= |t|
    ensures var k, all := SkipWs(t, i), End(ReadMembers(t, i, depth, keys, finite));
            var name := ReadString(t, k);
            if name.No? || t[k..name.end] in keys || !Peek(t, SkipWs(t, name.end), COLON) then all == -1 else
            var v := ReadValue(t, SkipWs(t, name.end) + 1, depth + 1, finite);
            if v.No? then all == -1 else
            var a := SkipWs(t, v.end);
            all == if Peek(t, a, COMMA) then End(ReadMembers(t, a + 1, depth, keys + [t[k..name.end]], finite))
                   else if Peek(t, a, CLOSE_BRACE) then a + 1 else -1
  {
    hide ReadValue, ReadString, SkipWs;
  }

  lemma ItemsStep(t: seq<Byte>, i: nat, depth: nat, finite: Finite)
    requires depth <= MAX_DEPTH && i <= |t|
    ensures var v, all := ReadValue(t, i, depth + 1, finite), End(ReadItems(t, i, depth, finite));
            if v.No? then all == -1 else
            var a := SkipWs(t, v.end);
            all == if Peek(t, a, COMMA) then End(ReadItems(t, a + 1, depth, finite)) else if Peek(t, a, CLOSE_BRACKET) then a + 1 else -1
  {
    hide ReadValue, SkipWs;
  }
}
