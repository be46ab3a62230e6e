/** The alphabets of the codecs as the texts they are, what percent decoding accepts, and the examples of RFC 4648. */
module CodecTables {
  import opened AsciiText
  import opened Codecs
  import opened HexDigits
  import opened Options
  import opened Utf8

  // ----- alphabets -----

  /** A digit is its place in "0123456789ABCDEF", in either case, and written in upper case. */
  lemma HexAlphabet(v: nat)
    requires v < 16
    ensures HexDigit(Ascii("0123456789ABCDEF")[v]) == HexDigit(Ascii("0123456789abcdef")[v]) == v
    ensures UpperHex(v) == Ascii("0123456789ABCDEF")[v]
  {
  }

  lemma HexExactly(c: Byte)
    ensures IsHex(c) <==> c in Ascii("0123456789ABCDEFabcdef")
  {
    var t := Ascii("0123456789ABCDEFabcdef");
    if IsHex(c) {
      var k := if c <= 0x39 then c - 0x30 else if c <= 0x46 then c - 0x41 + 10 else c - 0x61 + 16;
      assert t[k] == c;
    }
  }

  lemma UnreservedExactly(c: Byte)
    ensures Unreserved(c) <==>
              'A' as int <= c <= 'Z' as int || 'a' as int <= c <= 'z' as int || '0' as int <= c <= '9' as int || c in Ascii("-._~")
  {
    assert Ascii("-._~") == [0x2D, 0x2E, 0x5F, 0x7E];
  }

  lemma Base64Alphabet(v: nat)
    requires v < 64
    ensures Letter(v) == if v < 26 then 'A' as int + v else if v < 52 then 'a' as int + (v - 26)
                         else if v < 62 then '0' as int + (v - 52) else Ascii("-_")[v - 62]
  {
    assert Ascii("-_") == [0x2D, 0x5F];
  }

  // ----- what percent decoding reads -----

  /** A byte for itself, a plus sign for a space, or a percent sign with two digits for the byte of that number. */
  datatype Token = Plain(c: Byte) | Plus | Escape(high: Byte, low: Byte)

  predicate GoodToken(t: Token) {
    match t
    case Plain(c) => c != '%' as int && c != '+' as int
    case Plus => true
    case Escape(high, low) => IsHex(high) && IsHex(low)
  }

  function TokenText(t: Token): seq<Byte> {
    match t
    case Plain(c) => [c]
    case Plus => ['+' as int]
    case Escape(high, low) => ['%' as int, high, low]
  }

  function TokenByte(t: Token): Byte
    requires GoodToken(t)
  {
    match t
    case Plain(c) => c
    case Plus => ' ' as int
    case Escape(high, low) => 16 * HexDigit(high) + HexDigit(low)
  }

  predicate GoodTokens(ts: seq<Token>) {
    forall k :: 0 <= k < |ts| ==> GoodToken(ts[k])
  }

  function Text(ts: seq<Token>): seq<Byte> {
    if ts == [] then [] else TokenText(ts[0]) + Text(ts[1..])
  }

  function Bytes(ts: seq<Token>): seq<Byte>
    requires GoodTokens(ts)
  {
    if ts == [] then [] else [TokenByte(ts[0])] + Bytes(ts[1..])
  }

  lemma TokenHead(t: Token, rest: seq<Byte>)
    requires GoodToken(t)
    ensures var s := TokenText(t) + rest;
            s != [] && HeadWidth(s) == |TokenText(t)| && HeadByte(s) == TokenByte(t) && s[HeadWidth(s)..] == rest
  {
    assert (TokenText(t) + rest)[|TokenText(t)|..] == rest;
  }

  lemma {:induction false} TokensDecode(ts: seq<Token>)
    requires GoodTokens(ts)
    ensures Decoded(Text(ts)) == Some(Bytes(ts))
    decreases |ts|
  {
    hide HeadWidth, HeadByte, TokenText, TokenByte;
    if ts != [] {
      TokenHead(ts[0], Text(ts[1..]));
      TokensDecode(ts[1..]);
    }
  }

  lemma HeadIsToken(s: seq<Byte>) returns (t: Token)
    requires s != [] && HeadWidth(s) > 0
    ensures GoodToken(t) && s == TokenText(t) + s[HeadWidth(s)..]
  {
    t := if s[0] == PLUS_SIGN then Plus else if s[0] == PERCENT then Escape(s[1], s[2]) else Plain(s[0]);
  }

  lemma {:induction false} DecodedIsTokens(s: seq<Byte>) returns (ts: seq<Token>)
    requires Decoded(s).Some?
    ensures GoodTokens(ts) && Text(ts) == s
    decreases |s|
  {
    hide HeadWidth, HeadByte, GoodToken, TokenText;
    if s == [] {
      ts := [];
    } else {
      var t := HeadIsToken(s);
      var rest := DecodedIsTokens(s[HeadWidth(s)..]);
      ts := [t] + rest;
      assert ts[1..] == rest;
    }
  }

  /** A text decodes exactly if it is made of such tokens, and then to their bytes. */
  lemma DecodesExactly(s: seq<Byte>, b: seq<Byte>)
    ensures Decoded(s) == Some(b) <==> exists ts :: GoodTokens(ts) && Text(ts) == s && Bytes(ts) == b
  {
    hide Decoded, GoodTokens, Text, Bytes;
    if Decoded(s) == Some(b) {
      var ts := DecodedIsTokens(s);
      TokensDecode(ts);
    }
    forall ts | GoodTokens(ts) && Text(ts) == s ensures Decoded(s) == Some(Bytes(ts)) {
      TokensDecode(ts);
    }
  }

  // ----- base64url by example (RFC 4648, section 10, and section 5 for the last two letters) -----

  lemma Rfc4648Examples()
    ensures Base64(Ascii("f")) == Ascii("Zg")
    ensures Base64(Ascii("fo")) == Ascii("Zm8")
    ensures Base64(Ascii("foo")) == Ascii("Zm9v")
    ensures Base64([0xFB, 0xFF]) == Ascii("-_8")
  {
  }
}
