/** UTF-8 as JsonSyntax::utf8_tail reads it (src/core/StreamlabsTikTok.cpp), against RFC 3629.
    Bytes are numbers; the source's masks and shifts on them are written as remainders and products. */
module Utf8 {

  type Byte = b: int | 0 <= b < 256

  /** The outcome of reading something at a position: what was read and where it ended. */
  datatype Parsed<T> = No | Yes(tree: T, end: nat)

  /** How many continuation bytes follow the lead byte; 0 = not a lead byte of a multi-byte sequence. */
  function Extra(c: Byte): nat {
    if 0xC2 <= c <= 0xDF then 1 else if 0xE0 <= c <= 0xEF then 2 else if 0xF0 <= c <= 0xF4 then 3 else 0
  }

  function LeadBits(c: Byte): nat {
    if Extra(c) == 1 then c % 0x20 else if Extra(c) == 2 then c % 0x10 else c % 8
  }

  predicate IsTail(c: Byte) {
    c / 0x40 == 2
  }

  /** The bits of `n` continuation bytes after the bits `cp`, or No when one is missing. */
  function Tail(t: seq<Byte>, i: nat, n: nat, cp: nat): (r: Parsed<nat>)
    ensures r.Yes? ==> i + n == r.end <= |t|
    decreases n
  {
    if n == 0 then if i <= |t| then Yes(cp, i) else No
    else if i >= |t| || !IsTail(t[i]) then No
    else Tail(t, i + 1, n - 1, cp * 0x40 + t[i] % 0x40)
  }

  predicate Scalar(cp: nat) {
    cp <= 0x10FFFF && !(0xD800 <= cp <= 0xDFFF)
  }

  /** What utf8_tail accepts once the code point is assembled. */
  predicate Accepts(extra: nat, cp: nat) {
    !(extra == 2 && cp < 0x800) && !(extra == 3 && cp < 0x10000) && !(0xD800 <= cp <= 0xDFFF) && cp <= 0x10FFFF
  }

  /** One multi-byte sequence starting at its lead byte t[i]. */
  function ReadUtf8(t: seq<Byte>, i: nat): (r: Parsed<nat>)
    requires i < |t|
    ensures r.Yes? ==> i < r.end <= |t|
  {
    if Extra(t[i]) == 0 then No else
    var r := Tail(t, i + 1, Extra(t[i]), LeadBits(t[i]));
    if r.Yes? && Accepts(Extra(t[i]), r.tree) then r else No
  }

  /** RFC 3629, section 3. */
  function Encode(cp: nat): (s: seq<Byte>)
    requires cp <= 0x10FFFF
    ensures 1 <= |s| <= 4
  {
    if cp < 0x80 then [cp]
    else if cp < 0x800 then [0xC0 + cp / 0x40, 0x80 + cp % 0x40]
    else if cp < 0x10000 then [0xE0 + cp / 0x1000, 0x80 + cp / 0x40 % 0x40, 0x80 + cp % 0x40]
    else [0xF0 + cp / 0x40000, 0x80 + cp / 0x1000 % 0x40, 0x80 + cp / 0x40 % 0x40, 0x80 + cp % 0x40]
  }

  /** `s` stands in `t` from position `i` on. */
  predicate At(t: seq<Byte>, i: nat, s: seq<Byte>) {
    i + |s| <= |t| && t[i..i + |s|] == s
  }

  /** RFC 3629, section 4: UTF8-2, UTF8-3 and UTF8-4. */
  predicate Multibyte(s: seq<Byte>) {
    || (|s| == 2 && 0xC2 <= s[0] <= 0xDF && IsTail(s[1]))
    || (|s| == 3 && IsTail(s[2]) && (
          || (s[0] == 0xE0 && 0xA0 <= s[1] <= 0xBF)
          || (0xE1 <= s[0] <= 0xEC && IsTail(s[1]))
          || (s[0] == 0xED && 0x80 <= s[1] <= 0x9F)
          || (0xEE <= s[0] <= 0xEF && IsTail(s[1]))))
    || (|s| == 4 && IsTail(s[2]) && IsTail(s[3]) && (
          || (s[0] == 0xF0 && 0x90 <= s[1] <= 0xBF)
          || (0xF1 <= s[0] <= 0xF3 && IsTail(s[1]))
          || (s[0] == 0xF4 && 0x80 <= s[1] <= 0x8F)))
  }

  /** The reader unfolded: continuation bytes one by one. */
  lemma TailUnfolds(t: seq<Byte>, i: nat, cp: nat)
    requires i <= |t|
    ensures Tail(t, i, 1, cp) == if i < |t| && IsTail(t[i]) then Yes(cp * 0x40 + t[i] % 0x40, i + 1) else No
    ensures Tail(t, i, 2, cp) == if i + 1 < |t| && IsTail(t[i]) && IsTail(t[i + 1])
                                 then Yes((cp * 0x40 + t[i] % 0x40) * 0x40 + t[i + 1] % 0x40, i + 2) else No
  {
    if i < |t| {
      assert Tail(t, i + 1, 0, cp * 0x40 + t[i] % 0x40) == Yes(cp * 0x40 + t[i] % 0x40, i + 1);
      if i + 1 < |t| {
        var c2 := (cp * 0x40 + t[i] % 0x40) * 0x40 + t[i + 1] % 0x40;
        assert Tail(t, i + 2, 0, c2) == Yes(c2, i + 2);
      }
    }
  }

  lemma Tail3(t: seq<Byte>, i: nat, cp: nat)
    requires i <= |t|
    ensures Tail(t, i, 3, cp) == if i + 2 < |t| && IsTail(t[i]) && IsTail(t[i + 1]) && IsTail(t[i + 2])
                                 then Yes(((cp * 0x40 + t[i] % 0x40) * 0x40 + t[i + 1] % 0x40) * 0x40 + t[i + 2] % 0x40, i + 3) else No
  {
    if i < |t| && IsTail(t[i]) {
      TailUnfolds(t, i + 1, cp * 0x40 + t[i] % 0x40);
    }
  }

  // ----- the arithmetic of six-bit groups -----

  lemma Group(a: nat, b: nat)
    requires b < 0x40
    ensures (a * 0x40 + b) / 0x40 == a && (a * 0x40 + b) % 0x40 == b
  {
  }

  lemma Shifts(cp: nat)
    ensures cp / 0x1000 == cp / 0x40 / 0x40 && cp / 0x40000 == cp / 0x40 / 0x40 / 0x40
  {
  }

  /** A lead byte and a continuation byte are their base plus the bits they carry. */
  lemma LeadByte(c: Byte)
    ensures Extra(c) == 1 ==> LeadBits(c) == c - 0xC0
    ensures Extra(c) == 2 ==> LeadBits(c) == c - 0xE0
    ensures Extra(c) == 3 ==> LeadBits(c) == c - 0xF0
  {
  }

  lemma TailByte(c: Byte)
    ensures IsTail(c) <==> 0x80 <= c < 0xC0
    ensures IsTail(c) ==> c == 0x80 + c % 0x40
  {
  }

  lemma Groups(cp: nat, a: nat, b: nat, c: nat, d: nat)
    requires b < 0x40 && c < 0x40 && d < 0x40 && cp == ((a * 0x40 + b) * 0x40 + c) * 0x40 + d
    ensures cp % 0x40 == d && cp / 0x40 % 0x40 == c && cp / 0x1000 % 0x40 == b && cp / 0x40000 == a
    ensures a == 0 ==> cp / 0x1000 == b
    ensures a == 0 && b == 0 ==> cp / 0x40 == c
  {
    Group((a * 0x40 + b) * 0x40 + c, d);
    Group(a * 0x40 + b, c);
    Group(a, b);
    Shifts(cp);
  }

  lemma Regroup(cp: nat)
    ensures cp == cp / 0x40 * 0x40 + cp % 0x40
    ensures cp / 0x40 == cp / 0x1000 * 0x40 + cp / 0x40 % 0x40
    ensures cp / 0x1000 == cp / 0x40000 * 0x40 + cp / 0x1000 % 0x40
  {
    Shifts(cp);
  }

  // ----- reading against encoding -----

  /** Decode then encode is the identity, and only scalar values beyond ASCII are read. */
  lemma ReadIsEncoded(t: seq<Byte>, i: nat)
    requires i < |t| && ReadUtf8(t, i).Yes?
    ensures var r := ReadUtf8(t, i);
            0x80 <= r.tree && Scalar(r.tree) && t[i..r.end] == Encode(r.tree)
  {
    hide LeadBits, IsTail, Encode, Tail;
    var n, r := Extra(t[i]), ReadUtf8(t, i);
    LeadByte(t[i]);
    TailUnfolds(t, i + 1, LeadBits(t[i]));
    Tail3(t, i + 1, LeadBits(t[i]));
    forall k: nat | k < |t| ensures IsTail(t[k]) ==> 0x80 <= t[k] < 0xC0 && t[k] == 0x80 + t[k] % 0x40 {
      TailByte(t[k]);
    }
    if n == 1 {
      EncodeTwo(t[i] - 0xC0, t[i + 1] - 0x80);
      assert t[i..i + 2] == [t[i], t[i + 1]];
    } else if n == 2 {
      EncodeThree(t[i] - 0xE0, t[i + 1] - 0x80, t[i + 2] - 0x80);
      assert t[i..i + 3] == [t[i], t[i + 1], t[i + 2]];
    } else {
      EncodeFour(t[i] - 0xF0, t[i + 1] - 0x80, t[i + 2] - 0x80, t[i + 3] - 0x80);
      assert t[i..i + 4] == [t[i], t[i + 1], t[i + 2], t[i + 3]];
    }
  }

  lemma EncodeTwo(c: nat, d: nat)
    requires 2 <= c < 0x20 && d < 0x40
    ensures 0x80 <= c * 0x40 + d < 0x800 && Encode(c * 0x40 + d) == [0xC0 + c, 0x80 + d]
  {
    Groups(c * 0x40 + d, 0, 0, c, d);
  }

  lemma EncodeThree(b: nat, c: nat, d: nat)
    requires b < 0x10 && c < 0x40 && d < 0x40
    ensures var cp := (b * 0x40 + c) * 0x40 + d;
            cp < 0x10000 && (cp >= 0x800 ==> Encode(cp) == [0xE0 + b, 0x80 + c, 0x80 + d])
  {
    Groups((b * 0x40 + c) * 0x40 + d, 0, b, c, d);
  }

  lemma EncodeFour(a: nat, b: nat, c: nat, d: nat)
    requires a < 8 && b < 0x40 && c < 0x40 && d < 0x40
    ensures var cp := ((a * 0x40 + b) * 0x40 + c) * 0x40 + d;
            0x10000 <= cp <= 0x10FFFF ==> Encode(cp) == [0xF0 + a, 0x80 + b, 0x80 + c, 0x80 + d]
  {
    Groups(((a * 0x40 + b) * 0x40 + c) * 0x40 + d, a, b, c, d);
  }

  lemma EncodedBytes(t: seq<Byte>, i: nat, cp: nat, k: nat)
    requires cp <= 0x10FFFF && At(t, i, Encode(cp)) && k < |Encode(cp)|
    ensures t[i + k] == Encode(cp)[k]
  {
    hide Encode;
    assert t[i..i + |Encode(cp)|][k] == t[i + k];
  }

  /** Reading the continuation bytes after the bits of the lead byte. */
  lemma EncodedTail2(t: seq<Byte>, i: nat, cp: nat)
    requires 0x80 <= cp < 0x800 && At(t, i, Encode(cp))
    ensures i < |t| && Extra(t[i]) == 1 && Tail(t, i + 1, 1, LeadBits(t[i])) == Yes(cp, i + 2)
  {
    hide Tail, LeadBits, IsTail, At;
    EncodedLength(t, i, cp);
    EncodedBytes(t, i, cp, 0);
    EncodedBytes(t, i, cp, 1);
    Regroup(cp);
    LeadByte(t[i]);
    TailUnfolds(t, i + 1, LeadBits(t[i]));
    TailByte(t[i + 1]);
  }

  lemma EncodedTail3(t: seq<Byte>, i: nat, cp: nat)
    requires 0x800 <= cp < 0x10000 && At(t, i, Encode(cp))
    ensures i < |t| && Extra(t[i]) == 2 && Tail(t, i + 1, 2, LeadBits(t[i])) == Yes(cp, i + 3)
  {
    hide Tail, LeadBits, IsTail, At;
    EncodedLength(t, i, cp);
    EncodedBytes(t, i, cp, 0);
    EncodedBytes(t, i, cp, 1);
    EncodedBytes(t, i, cp, 2);
    Regroup(cp);
    LeadByte(t[i]);
    TailUnfolds(t, i + 1, LeadBits(t[i]));
    TailByte(t[i + 1]);
    TailByte(t[i + 2]);
  }

  lemma EncodedTail4(t: seq<Byte>, i: nat, cp: nat)
    requires 0x10000 <= cp <= 0x10FFFF && At(t, i, Encode(cp))
    ensures i < |t| && Extra(t[i]) == 3 && Tail(t, i + 1, 3, LeadBits(t[i])) == Yes(cp, i + 4)
  {
    hide Tail, LeadBits, IsTail, At;
    EncodedLength(t, i, cp);
    EncodedBytes(t, i, cp, 0);
    EncodedBytes(t, i, cp, 1);
    EncodedBytes(t, i, cp, 2);
    EncodedBytes(t, i, cp, 3);
    Regroup(cp);
    LeadByte(t[i]);
    Tail3(t, i + 1, LeadBits(t[i]));
    TailByte(t[i + 1]);
    TailByte(t[i + 2]);
    TailByte(t[i + 3]);
  }

  lemma EncodedLength(t: seq<Byte>, i: nat, cp: nat)
    requires cp <= 0x10FFFF && At(t, i, Encode(cp))
    ensures i + |Encode(cp)| <= |t|
  {
    hide Encode;
  }

  /** Encode then decode is the identity. */
  lemma EncodedIsRead(t: seq<Byte>, i: nat, cp: nat)
    requires 0x80 <= cp && Scalar(cp) && At(t, i, Encode(cp))
    ensures i < |t| && t[i] >= 0x80 && ReadUtf8(t, i) == Yes(cp, i + |Encode(cp)|)
  {
    hide Tail, LeadBits, At;
    if cp < 0x800 {
      EncodedTail2(t, i, cp);
    } else if cp < 0x10000 {
      EncodedTail3(t, i, cp);
    } else {
      EncodedTail4(t, i, cp);
    }
  }

  /** The sequences read are exactly the multi-byte sequences of RFC 3629, section 4. */
  lemma ReadsExactlyRfc3629(s: seq<Byte>)
    requires s != []
    ensures ReadUtf8(s, 0).Yes? && ReadUtf8(s, 0).end == |s| <==> Multibyte(s)
  {
    hide LeadBits, IsTail, Tail;
    LeadByte(s[0]);
    TailUnfolds(s, 1, LeadBits(s[0]));
    Tail3(s, 1, LeadBits(s[0]));
    forall k: nat | k < |s| ensures IsTail(s[k]) <==> 0x80 <= s[k] < 0xC0 ensures IsTail(s[k]) ==> s[k] == 0x80 + s[k] % 0x40 {
      TailByte(s[k]);
    }
  }
}
