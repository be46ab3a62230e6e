/** streamlabs_url_encode, percent_decode and streamlabs_base64url (src/core/StreamlabsTikTok.cpp,
    src/core/StreamlabsLogin.cpp) over bytes, and what inverts what. */
module Codecs {
  import opened HexDigits
  import opened Options
  import opened Utf8

  const PERCENT: Byte := 0x25
  const PLUS_SIGN: Byte := 0x2B
  const SPACE: Byte := 0x20

  // ----- percent coding (RFC 3986, sections 2.1 and 2.3) -----

  predicate Unreserved(c: Byte) {
    0x41 <= c <= 0x5A || 0x61 <= c <= 0x7A || 0x30 <= c <= 0x39 || c == 0x2D || c == 0x5F || c == 0x2E || c == 0x7E
  }

  /** "0123456789ABCDEF"[v] */
  function UpperHex(v: nat): (c: Byte)
    requires v < 16
    ensures IsHex(c) && HexDigit(c) == v
  {
    if v < 10 then 0x30 + v else 0x41 + v - 10
  }

  function EncodedByte(c: Byte): seq<Byte> {
    if Unreserved(c) then [c] else [PERCENT, UpperHex(c / 16), UpperHex(c % 16)]
  }

  function UrlEncoded(text: seq<Byte>): seq<Byte> {
    if text == [] then [] else EncodedByte(text[0]) + UrlEncoded(text[1..])
  }

  /** How many input bytes the head of `s` stands for, and the byte it means; 0 for a broken escape. */
  function HeadWidth(s: seq<Byte>): (w: nat)
    requires s != []
    ensures w <= |s|
  {
    if s[0] != PERCENT then 1
    else if |s| >= 3 && IsHex(s[1]) && IsHex(s[2]) then 3 else 0
  }

  function HeadByte(s: seq<Byte>): Byte
    requires s != [] && HeadWidth(s) > 0
  {
    if s[0] == PLUS_SIGN then SPACE
    else if s[0] == PERCENT then HexDigit(s[1]) * 16 + HexDigit(s[2])
    else s[0]
  }

  function Decoded(s: seq<Byte>): Option<seq<Byte>> {
    if s == [] then Some([])
    else if HeadWidth(s) == 0 then None
    else match Decoded(s[HeadWidth(s)..])
      case None => None
      case Some(rest) => Some([HeadByte(s)] + rest)
  }

  lemma EncodeStep(text: seq<Byte>, i: nat)
    requires i <= |text|
    ensures UrlEncoded(text[i..]) == if i == |text| then [] else EncodedByte(text[i]) + UrlEncoded(text[i + 1..])
    ensures i == 0 ==> text[i..] == text
  {
    assert i < |text| ==> text[i..][1..] == text[i + 1..];
  }

  method UrlEncode(text: seq<Byte>) returns (out: seq<Byte>)
    ensures out == UrlEncoded(text)
  {
    hide UrlEncoded;
    out := [];
    EncodeStep(text, 0);
    for i := 0 to |text|
      invariant out + UrlEncoded(text[i..]) == UrlEncoded(text)
    {
      var c := text[i];
      EncodeStep(text, i);
      ghost var was := out;
      if Unreserved(c) {
        out := out + [c];
      } else {
        out := out + [PERCENT];
        out := out + [UpperHex(c / 16)];
        out := out + [UpperHex(c % 16)];
        ThreeMore(was, PERCENT, UpperHex(c / 16), UpperHex(c % 16));
      }
      assert out == was + EncodedByte(c);
      Regrouped(was, EncodedByte(c), UrlEncoded(text[i + 1..]));
    }
    EncodeStep(text, |text|);
  }

  lemma DecodeStep(s: seq<Byte>, i: nat)
    requires i <= |s|
    ensures i == 0 ==> s[i..] == s
    ensures i == |s| ==> Decoded(s[i..]) == Some([])
    ensures i < |s| ==>
              var w := HeadWidth(s[i..]);
              Decoded(s[i..]) == if w == 0 || Decoded(s[i + w..]).None? then None else Some([HeadByte(s[i..])] + Decoded(s[i + w..]).value)
  {
    if i < |s| {
      assert s[i..][HeadWidth(s[i..])..] == s[i + HeadWidth(s[i..])..];
    }
  }

  /** The bytes read so far, then what the rest decodes to. */
  predicate DecodesTo(s: seq<Byte>, out: seq<Byte>, i: nat)
    requires i <= |s|
  {
    Decoded(s) == if Decoded(s[i..]).None? then None else Some(out + Decoded(s[i..]).value)
  }

  lemma Regrouped(a: seq<Byte>, b: seq<Byte>, c: seq<Byte>)
    ensures (a + b) + c == a + (b + c)
  {
  }

  lemma ThreeMore(s: seq<Byte>, a: Byte, b: Byte, c: Byte)
    ensures s + [a] + [b] + [c] == s + [a, b, c]
  {
  }

  lemma FourMore(s: seq<Byte>, t: seq<Byte>)
    requires |t| == 4
    ensures s + [t[0]] + [t[1]] + [t[2]] + [t[3]] == s + t
  {
  }

  lemma DecodeMoves(s: seq<Byte>, out: seq<Byte>, i: nat)
    requires i < |s| && DecodesTo(s, out, i)
    ensures HeadWidth(s[i..]) == 0 ==> Decoded(s).None?
    ensures HeadWidth(s[i..]) > 0 ==> DecodesTo(s, out + [HeadByte(s[i..])], i + HeadWidth(s[i..]))
  {
    hide Decoded, HeadWidth, HeadByte;
    DecodeStep(s, i);
    if HeadWidth(s[i..]) > 0 && Decoded(s[i + HeadWidth(s[i..])..]).Some? {
      Regrouped(out, [HeadByte(s[i..])], Decoded(s[i + HeadWidth(s[i..])..]).value);
    }
  }

  method PercentDecode(s: seq<Byte>) returns (ok: bool, out: seq<Byte>)
    ensures Decoded(s) == if ok then Some(out) else None
  {
    hide Decoded, DecodesTo;
    out := [];
    var i := 0;
    DecodeBegins(s);
    while i < |s|
      invariant 0 <= i <= |s| && DecodesTo(s, out, i)
    {
      var c := s[i];
      DecodeMoves(s, out, i);
      if c == PLUS_SIGN {
        out := out + [SPACE];
      } else if c == PERCENT {
        if i + 2 >= |s| || !IsHex(s[i + 1]) || !IsHex(s[i + 2]) {
          return false, out;
        }
        out := out + [HexDigit(s[i + 1]) * 16 + HexDigit(s[i + 2])];
        i := i + 2;
      } else {
        out := out + [c];
      }
      i := i + 1;
    }
    DecodeEnds(s, out);
    ok := true;
  }

  lemma DecodeBegins(s: seq<Byte>)
    ensures DecodesTo(s, [], 0)
  {
    assert s[0..] == s;
    assert Decoded(s).Some? ==> [] + Decoded(s).value == Decoded(s).value;
  }

  lemma DecodeEnds(s: seq<Byte>, out: seq<Byte>)
    requires DecodesTo(s, out, |s|)
    ensures Decoded(s) == Some(out)
  {
    assert out + [] == out;
  }

  lemma EncodedHead(c: Byte, rest: seq<Byte>)
    ensures var s := EncodedByte(c) + rest;
            s != [] && HeadWidth(s) == |EncodedByte(c)| && HeadByte(s) == c && s[HeadWidth(s)..] == rest
  {
    var s := EncodedByte(c) + rest;
    assert s[|EncodedByte(c)|..] == rest;
  }

  /** Percent decoding inverts URL encoding on every byte string. */
  lemma {:induction false} DecodeInvertsEncode(b: seq<Byte>)
    ensures Decoded(UrlEncoded(b)) == Some(b)
    decreases |b|
  {
    hide HeadWidth, HeadByte, EncodedByte;
    if b != [] {
      EncodedHead(b[0], UrlEncoded(b[1..]));
      DecodeInvertsEncode(b[1..]);
      assert b == [b[0]] + b[1..];
    }
  }

  /** The encoding is plain text: unreserved characters and percent signs only. */
  lemma {:induction false} EncodingIsSafe(b: seq<Byte>)
    ensures forall k :: 0 <= k < |UrlEncoded(b)| ==> Unreserved(UrlEncoded(b)[k]) || UrlEncoded(b)[k] == PERCENT
    decreases |b|
  {
    if b != [] {
      EncodingIsSafe(b[1..]);
      assert forall k :: 0 <= k < |EncodedByte(b[0])| ==> Unreserved(EncodedByte(b[0])[k]) || EncodedByte(b[0])[k] == PERCENT;
    }
  }

  // ----- base64url without padding (RFC 4648, section 5) -----

  /** "ABC...abc...012...-_"[v] */
  function Letter(v: nat): (c: Byte)
    requires v < 64
    ensures IsLetter(c) && LetterValue(c) == v
  {
    if v < 26 then 0x41 + v else if v < 52 then 0x61 + v - 26 else if v < 62 then 0x30 + v - 52 else if v == 62 then 0x2D else 0x5F
  }

  predicate IsLetter(c: Byte) {
    0x41 <= c <= 0x5A || 0x61 <= c <= 0x7A || 0x30 <= c <= 0x39 || c == 0x2D || c == 0x5F
  }

  function LetterValue(c: Byte): (v: nat)
    requires IsLetter(c)
    ensures v < 64
  {
    if c == 0x2D then 62 else if c == 0x5F then 63 else if c <= 0x39 then c - 0x30 + 52 else if c >= 0x61 then c - 0x61 + 26 else c - 0x41
  }

  function Bits24(a: Byte, b: Byte, c: Byte): (v: nat)
    ensures v < 0x100_0000
  {
    (a as int) * 0x1_0000 + (b as int) * 0x100 + c as int
  }

  /** The four letters of 24 bits. */
  function Letters(v: nat): (s: seq<Byte>)
    requires v < 0x100_0000
    ensures |s| == 4
  {
    [Letter(v / 0x4_0000), Letter(v / 0x1000 % 64), Letter(v / 64 % 64), Letter(v % 64)]
  }

  function Base64(b: seq<Byte>): seq<Byte> {
    if b == [] then []
    else if |b| == 1 then Letters(Bits24(b[0], 0, 0))[..2]
    else if |b| == 2 then Letters(Bits24(b[0], b[1], 0))[..3]
    else Letters(Bits24(b[0], b[1], b[2])) + Base64(b[3..])
  }

  predicate AllLetters(s: seq<Byte>) {
    forall k :: 0 <= k < |s| ==> IsLetter(s[k])
  }

  /** A decoder for the canonical unpadded form: bits that carry no data are zero. */
  function Unbase64(s: seq<Byte>): Option<seq<Byte>> {
    if s == [] then Some([])
    else if !AllLetters(s) || |s| == 1 then None
    else
      var x, y := LetterValue(s[0]), LetterValue(s[1]);
      if |s| == 2 then if y % 16 == 0 then Some([x * 4 + y / 16]) else None
      else
        var z := LetterValue(s[2]);
        if |s| == 3 then if z % 4 == 0 then Some([x * 4 + y / 16, y % 16 * 16 + z / 4]) else None
        else
          var u := LetterValue(s[3]);
          match Unbase64(s[4..])
          case None => None
          case Some(rest) => Some([x * 4 + y / 16, y % 16 * 16 + z / 4, z % 4 * 64 + u] + rest)
  }

  lemma Base64Step(b: seq<Byte>, i: nat)
    requires i <= |b|
    ensures i == 0 ==> b[i..] == b
    ensures Base64(b[i..]) ==
              if i == |b| then []
              else if i + 1 == |b| then Letters(Bits24(b[i], 0, 0))[..2]
              else if i + 2 == |b| then Letters(Bits24(b[i], b[i + 1], 0))[..3]
              else Letters(Bits24(b[i], b[i + 1], b[i + 2])) + Base64(b[i + 3..])
  {
    hide Letters;
    assert i + 3 <= |b| ==> b[i..][3..] == b[i + 3..];
  }

  method Base64Url(bytes: seq<Byte>) returns (out: seq<Byte>)
    ensures out == Base64(bytes)
  {
    hide Base64;
    out := [];
    var i := 0;
    Base64Step(bytes, 0);
    while i + 3 <= |bytes|
      invariant 0 <= i <= |bytes|
      invariant out + Base64(bytes[i..]) == Base64(bytes)
    {
      var v := Bits24(bytes[i], bytes[i + 1], bytes[i + 2]);
      Base64Step(bytes, i);
      ghost var was := out;
      out := out + [Letter(v / 0x4_0000)] + [Letter(v / 0x1000 % 64)] + [Letter(v / 64 % 64)] + [Letter(v % 64)];
      FourMore(was, Letters(v));
      Regrouped(was, Letters(v), Base64(bytes[i + 3..]));
      i := i + 3;
    }
    Base64Step(bytes, i);
    var rest := |bytes| - i;
    if rest == 1 {
      var v := Bits24(bytes[i], 0, 0);
      out := out + [Letter(v / 0x4_0000)] + [Letter(v / 0x1000 % 64)];
    } else if rest == 2 {
      var v := Bits24(bytes[i], bytes[i + 1], 0);
      out := out + [Letter(v / 0x4_0000)] + [Letter(v / 0x1000 % 64)] + [Letter(v / 64 % 64)];
    }
  }

  lemma Regroup(a: Byte, b: Byte, c: Byte)
    ensures var v := Bits24(a, b, c);
            && v / 0x4_0000 == a / 4 && v / 0x1000 % 64 == a % 4 * 16 + b / 16
            && v / 64 % 64 == b % 16 * 4 + c / 64 && v % 64 == c % 64
  {
    var v, x, y := Bits24(a, b, c), a % 4 * 16 + b / 16, b % 16 * 4 + c / 64;
    assert v == ((a / 4 * 64 + x) * 64 + y) * 64 + c % 64;
    Take64((a / 4 * 64 + x) * 64 + y, c % 64);
    Take64(a / 4 * 64 + x, y);
    Take64(a / 4, x);
    ByParts(v);
  }

  lemma Take64(q: nat, r: nat)
    requires r < 64
    ensures (q * 64 + r) / 64 == q && (q * 64 + r) % 64 == r
  {
  }

  lemma ByParts(v: nat)
    ensures v / 0x1000 == v / 64 / 64 && v / 0x4_0000 == v / 64 / 64 / 64
  {
  }

  /** How three bytes regroup into four six-bit values, and back. */
  lemma LettersValues(a: Byte, b: Byte, c: Byte)
    ensures var s := Letters(Bits24(a, b, c));
            && AllLetters(s)
            && LetterValue(s[0]) == a / 4 && LetterValue(s[1]) == a % 4 * 16 + b / 16
            && LetterValue(s[2]) == b % 16 * 4 + c / 64 && LetterValue(s[3]) == c % 64
  {
    hide Letter, LetterValue, IsLetter, Bits24;
    Regroup(a, b, c);
  }

  lemma Back(a: Byte, b: Byte, c: Byte)
    ensures var x, y, z, u := a / 4, a % 4 * 16 + b / 16, b % 16 * 4 + c / 64, c % 64;
            x * 4 + y / 16 == a && y % 16 * 16 + z / 4 == b && z % 4 * 64 + u == c
            && (b == 0 ==> y % 16 == 0) && (c == 0 ==> z % 4 == 0)
  {
  }

  lemma {:induction false} LengthIsCeiling(b: seq<Byte>)
    ensures |Base64(b)| == (4 * |b| + 2) / 3
    decreases |b|
  {
    hide Letters;
    if |b| >= 3 {
      LengthIsCeiling(b[3..]);
    }
  }

  /** The decoder inverts the encoding on every byte string. */
  lemma {:induction false} UnbaseInverts(b: seq<Byte>)
    ensures AllLetters(Base64(b)) && Unbase64(Base64(b)) == Some(b)
    decreases |b|
  {
    hide Letters, IsLetter, LetterValue, Bits24;
    if b != [] {
      var b1, b2 := if |b| > 1 then b[1] else 0, if |b| > 2 then b[2] else 0;
      var s := Letters(Bits24(b[0], b1, b2));
      LettersValues(b[0], b1, b2);
      Back(b[0], b1, b2);
      if |b| >= 3 {
        UnbaseInverts(b[3..]);
        assert Base64(b) == s + Base64(b[3..]) && Base64(b)[4..] == Base64(b[3..]);
        assert b == [b[0], b[1], b[2]] + b[3..];
      } else if |b| == 2 {
        assert b == [b[0], b[1]];
      } else {
        assert b == [b[0]];
      }
    }
  }

  lemma LetterBack(c: Byte)
    requires IsLetter(c)
    ensures Letter(LetterValue(c)) == c
  {
  }

  lemma Forth(x: nat, y: nat, z: nat, u: nat)
    requires x < 64 && y < 64 && z < 64 && u < 64
    ensures var a, b, c := x * 4 + y / 16, y % 16 * 16 + z / 4, z % 4 * 64 + u;
            && a < 256 && b < 256 && c < 256
            && a / 4 == x && a % 4 * 16 + b / 16 == y && b % 16 * 4 + c / 64 == z && c % 64 == u
  {
  }

  /** The letters that the values of four letters regroup to. */
  lemma LettersBack(s: seq<Byte>, a: Byte, b: Byte, c: Byte)
    requires |s| == 4 && AllLetters(s)
    requires var x, y, z, u := LetterValue(s[0]), LetterValue(s[1]), LetterValue(s[2]), LetterValue(s[3]);
             a == x * 4 + y / 16 && b == y % 16 * 16 + z / 4 && c == z % 4 * 64 + u
    ensures Letters(Bits24(a, b, c)) == s
  {
    hide Bits24, Letter, LetterValue, IsLetter;
    Regroup(a, b, c);
    Forth(LetterValue(s[0]), LetterValue(s[1]), LetterValue(s[2]), LetterValue(s[3]));
    forall k | 0 <= k < 4 ensures Letter(LetterValue(s[k])) == s[k] {
      LetterBack(s[k]);
    }
  }

  /** ... and the encoding inverts the decoder: each text it accepts is the one encoding of what it yields. */
  lemma {:induction false} BaseInverts(s: seq<Byte>)
    requires Unbase64(s).Some?
    ensures Base64(Unbase64(s).value) == s
    decreases |s|
  {
    hide Letters, IsLetter, LetterValue, Bits24;
    if s != [] {
      var A: seq<Byte> := [0x41];
      ZeroLetter();
      var q := if |s| == 2 then s + A + A else if |s| == 3 then s + A else s[..4];
      var x, y, z, u := LetterValue(q[0]), LetterValue(q[1]), LetterValue(q[2]), LetterValue(q[3]);
      Forth(x, y, z, u);
      var a: Byte, b: Byte, c: Byte := x * 4 + y / 16, y % 16 * 16 + z / 4, z % 4 * 64 + u;
      LettersBack(q, a, b, c);
      if |s| >= 4 {
        BaseInverts(s[4..]);
        var rest := Unbase64(s[4..]).value;
        assert ([a, b, c] + rest)[3..] == rest;
      }
    }
  }

  lemma ZeroLetter()
    ensures IsLetter(0x41) && LetterValue(0x41) == 0
  {
  }
}
