/** The characters, words and numbers the JSON grammar is built from, as RFC 8259 and RFC 3629 spell them. */
module JsonAlphabet {
  import opened AsciiText
  import opened HexDigits
  import opened JsonGrammar
  import opened JsonNumber
  import opened JsonReader
  import opened Utf8

  /** Sections 2 and 7 of RFC 8259: structure, whitespace, and the letters that may follow a backslash. */
  lemma Characters()
    ensures [OPEN_BRACE, CLOSE_BRACE, OPEN_BRACKET, CLOSE_BRACKET, COLON, COMMA] == Ascii("{}[]:,")
    ensures [QUOTE, BACKSLASH, SMALL_U] == Ascii("\"\\u") && [MINUS, PLUS, DOT, ZERO] == Ascii("-+.0")
    ensures TRUE_WORD == Ascii("true") && FALSE_WORD == Ascii("false") && NULL_WORD == Ascii("null")
  {
  }

  lemma Whitespace(c: Byte)
    ensures IsWs(c) <==> c in Ascii(" \t\n\r")
  {
    assert Ascii(" \t\n\r") == [0x20, 0x09, 0x0A, 0x0D];
  }

  lemma ShortEscapes(c: Byte)
    ensures IsShort(c) <==> c in Ascii("\"\\/bfnrt")
  {
    assert Ascii("\"\\/bfnrt") == [0x22, 0x5C, 0x2F, 0x62, 0x66, 0x6E, 0x72, 0x74];
  }

  lemma Digits(c: Byte)
    ensures IsDigit(c) <==> c in Ascii("0123456789")
  {
    var t := Ascii("0123456789");
    if IsDigit(c) {
      assert t[c - 0x30] == c;
    }
  }

  lemma Marks(m: seq<Byte>)
    ensures IsMark(m) <==> m in [Ascii("e"), Ascii("E"), Ascii("e+"), Ascii("e-"), Ascii("E+"), Ascii("E-")]
  {
    assert Ascii("e") == [0x65] && Ascii("E") == [0x45];
    assert Ascii("e+") == [0x65, 0x2B] && Ascii("e-") == [0x65, 0x2D] && Ascii("E+") == [0x45, 0x2B] && Ascii("E-") == [0x45, 0x2D];
    if IsMark(m) {
      assert |m| == 1 ==> m == [m[0]];
      assert |m| == 2 ==> m == [m[0], m[1]];
    }
  }

  /** Four hex digits are a number of base 16, most significant first. */
  lemma HexNumber(h: seq<Byte>)
    requires IsHex4(h)
    ensures HexValue(h) == 0x1000 * HexDigit(h[0]) + 0x100 * HexDigit(h[1]) + 0x10 * HexDigit(h[2]) + HexDigit(h[3])
  {
  }

  /** Section 7 of RFC 8259 and section 4 of RFC 3629: the escapes D800 to DBFF and DC00 to DFFF are the two halves of a pair,
      told by their second digit. */
  lemma SurrogateDigits(h: seq<Byte>)
    requires IsHex4(h)
    ensures HighSurrogate(h) <==> HexDigit(h[0]) == 0xD && 0x8 <= HexDigit(h[1]) <= 0xB
    ensures LowSurrogate(h) <==> HexDigit(h[0]) == 0xD && 0xC <= HexDigit(h[1]) <= 0xF
  {
    HexNumber(h);
    assert forall k :: 0 <= k < 4 ==> HexDigit(h[k]) < 16;
  }

  /** A number is taken as a real exactly if its text has a point or an e. */
  lemma RealsAreMarked(n: Num)
    requires IsNum(n)
    ensures IsReal(n) <==> exists c :: c in NumText(n) && c in Ascii(".eE")
  {
    assert Ascii(".eE") == [0x2E, 0x65, 0x45];
    var t := NumText(n);
    if n.exponent != [] {
      assert n.mark[0] in t;
    } else if n.fraction != [] {
      assert DOT in t;
    }
  }

  /** A digit string is read as a decimal number: one more digit behind it. */
  lemma {:induction false} DecimalNumber(s: seq<Byte>, d: Byte)
    requires AllDigits(s) && IsDigit(d)
    ensures DigitsValue(s + [d]) == DigitsValue(s) * 10 + (d - '0' as int)
  {
    ValueAppend(s, [d], 0);
    assert ValueFrom([d], DigitsValue(s)) == ValueFrom([], DigitsValue(s) * 10 + (d - ZERO));
  }

  /** The limits of the check: 64-bit integers and 64 nested containers. */
  lemma Limits()
    ensures MAX_INT64 == 9223372036854775807 && MIN_INT64 == -9223372036854775808 && MAX_DEPTH == 64
  {
  }

  /** A value around which containers stand: each adds one to the depth. */
  lemma NestingOfContainers(v: Value, rest: Items)
    ensures Nesting(Array([], Item([], v, [], rest))) >= Nesting(v) + 1
    ensures Nesting(Array([], Item([], v, [], NoItem))) == Nesting(v) + 1
    ensures Nesting(Object([], Member([], [], [], [], v, [], NoMember))) == Nesting(v) + 1
    ensures Nesting(Array([], NoItem)) == 0
  {
    assert ItemsNesting(NoItem) == 0 && MembersNesting(NoMember) == 0;
  }

  /** Section 4 of RFC 3629: a continuation byte. */
  lemma ContinuationBytes(c: Byte)
    ensures IsTail(c) <==> 0x80 <= c <= 0xBF
  {
  }

  /** Section 7 of RFC 3629: not identical to, alpha, and a character beyond 16 bits. */
  lemma Rfc3629Examples()
    ensures Encode(0x2262) == [0xE2, 0x89, 0xA2] && Encode(0x0391) == [0xCE, 0x91] && Encode(0x233B4) == [0xF0, 0xA3, 0x8E, 0xB4]
  {
  }
}
