/** streamlabs_sha256 (src/core/StreamlabsLogin.cpp) against FIPS 180-4: the in-place compression of section 6.2
    and the padding of section 5.1.1, for every message length. */
module Sha256 {

  type Word = bv32
  type Octet = bv8

  /** The round constants, in rows of eight. */
  const ROW0: seq<Word> := [0x428a2f98, 0x71374491, 0xb5c0fbcf, 0xe9b5dba5, 0x3956c25b, 0x59f111f1, 0x923f82a4, 0xab1c5ed5]
  const ROW1: seq<Word> := [0xd807aa98, 0x12835b01, 0x243185be, 0x550c7dc3, 0x72be5d74, 0x80deb1fe, 0x9bdc06a7, 0xc19bf174]
  const ROW2: seq<Word> := [0xe49b69c1, 0xefbe4786, 0x0fc19dc6, 0x240ca1cc, 0x2de92c6f, 0x4a7484aa, 0x5cb0a9dc, 0x76f988da]
  const ROW3: seq<Word> := [0x983e5152, 0xa831c66d, 0xb00327c8, 0xbf597fc7, 0xc6e00bf3, 0xd5a79147, 0x06ca6351, 0x14292967]
  const ROW4: seq<Word> := [0x27b70a85, 0x2e1b2138, 0x4d2c6dfc, 0x53380d13, 0x650a7354, 0x766a0abb, 0x81c2c92e, 0x92722c85]
  const ROW5: seq<Word> := [0xa2bfe8a1, 0xa81a664b, 0xc24b8b70, 0xc76c51a3, 0xd192e819, 0xd6990624, 0xf40e3585, 0x106aa070]
  const ROW6: seq<Word> := [0x19a4c116, 0x1e376c08, 0x2748774c, 0x34b0bcb5, 0x391c0cb3, 0x4ed8aa4a, 0x5b9cca4f, 0x682e6ff3]
  const ROW7: seq<Word> := [0x748f82ee, 0x78a5636f, 0x84c87814, 0x8cc70208, 0x90befffa, 0xa4506ceb, 0xbef9a3f7, 0xc67178f2]
  const K: seq<Word> := ROW0 + ROW1 + ROW2 + ROW3 + ROW4 + ROW5 + ROW6 + ROW7

  const H0: seq<Word> := [0x6a09e667, 0xbb67ae85, 0x3c6ef372, 0xa54ff53a, 0x510e527f, 0x9b05688c, 0x1f83d9ab, 0x5be0cd19]

  // ----- FIPS 180-4, sections 3.2 and 4.1.2 -----

  /** Addition modulo 2^32. */
  function Add(x: Word, y: Word): Word { x + y }

  function Rotr(x: Word, n: nat): Word
    requires 0 < n < 32
  {
    (x >> n) | (x << (32 - n))
  }

  function Ch(x: Word, y: Word, z: Word): Word { (x & y) ^ (!x & z) }

  function Maj(x: Word, y: Word, z: Word): Word { (x & y) ^ (x & z) ^ (y & z) }

  function BigSigma0(x: Word): Word { Rotr(x, 2) ^ Rotr(x, 13) ^ Rotr(x, 22) }

  function BigSigma1(x: Word): Word { Rotr(x, 6) ^ Rotr(x, 11) ^ Rotr(x, 25) }

  function SmallSigma0(x: Word): Word { Rotr(x, 7) ^ Rotr(x, 18) ^ (x >> 3) }

  function SmallSigma1(x: Word): Word { Rotr(x, 17) ^ Rotr(x, 19) ^ (x >> 10) }

  // ----- section 6.2.2 -----

  function WordAt(block: seq<Octet>, t: nat): Word
    requires |block| == 64 && t < 16
  {
    ((block[4 * t] as Word) << 24) | ((block[4 * t + 1] as Word) << 16) | ((block[4 * t + 2] as Word) << 8) | (block[4 * t + 3] as Word)
  }

  /** Step 1: the message schedule (the standard's sum of four words modulo 2^32). */
  function W(block: seq<Octet>, t: nat): Word
    requires |block| == 64
  {
    if t < 16 then WordAt(block, t)
    else Add(Add(Add(W(block, t - 16), SmallSigma0(W(block, t - 15))), W(block, t - 7)), SmallSigma1(W(block, t - 2)))
  }

  datatype Vars = Vars(a: Word, b: Word, c: Word, d: Word, e: Word, f: Word, g: Word, h: Word)

  /** Step 3: one round. */
  function Round(v: Vars, k: Word, w: Word): Vars {
    var t1 := Add(Add(Add(Add(v.h, BigSigma1(v.e)), Ch(v.e, v.f, v.g)), k), w);
    var t2 := Add(BigSigma0(v.a), Maj(v.a, v.b, v.c));
    Vars(Add(t1, t2), v.a, v.b, v.c, Add(v.d, t1), v.e, v.f, v.g)
  }

  function Rounds(v: Vars, block: seq<Octet>, t: nat): Vars
    requires |block| == 64 && t <= 64
  {
    if t == 0 then v else Round(Rounds(v, block, t - 1), K[t - 1], W(block, t - 1))
  }

  function Load(h: seq<Word>): Vars
    requires |h| == 8
  {
    Vars(h[0], h[1], h[2], h[3], h[4], h[5], h[6], h[7])
  }

  /** Steps 2 to 4: the next intermediate hash value. */
  function Compress(h: seq<Word>, block: seq<Octet>): (r: seq<Word>)
    requires |h| == 8 && |block| == 64
    ensures |r| == 8
  {
    var v := Rounds(Load(h), block, 64);
    [Add(h[0], v.a), Add(h[1], v.b), Add(h[2], v.c), Add(h[3], v.d), Add(h[4], v.e), Add(h[5], v.f), Add(h[6], v.g), Add(h[7], v.h)]
  }

  // ----- section 5.1.1: the padded message -----

  /** The octet of a number that counts 256^i. */
  function OctetAt(x: nat, i: nat): (o: nat)
    ensures o < 256
  {
    if i == 0 then x % 256 else OctetAt(x / 256, i - 1)
  }

  /** The 64-bit big-endian length. */
  function LengthBytes(bits: nat): (s: seq<Octet>)
    ensures |s| == 8 && forall i :: 0 <= i < 8 ==> s[i] == OctetAt(bits, 7 - i) as Octet
  {
    seq(8, i requires 0 <= i < 8 => OctetAt(bits, 7 - i) as Octet)
  }

  /** The smallest number of zero octets that makes the whole a multiple of 64 octets. */
  function ZeroCount(n: nat): (k: nat)
    ensures (n + 1 + k + 8) % 64 == 0 && k < 64
  {
    (119 - n % 64) % 64
  }

  function Zeros(k: nat): (s: seq<Octet>)
    ensures |s| == k
  {
    seq(k, i => 0)
  }

  function Padded(m: seq<Octet>): (p: seq<Octet>)
    ensures |p| % 64 == 0
  {
    m + [0x80] + Zeros(ZeroCount(|m|)) + LengthBytes(8 * |m|)
  }

  /** The hash value after the first `n` blocks. */
  function HashBlocks(p: seq<Octet>, n: nat): (h: seq<Word>)
    requires n * 64 <= |p|
    ensures |h| == 8
  {
    if n == 0 then H0 else Compress(HashBlocks(p, n - 1), p[(n - 1) * 64..n * 64])
  }

  function OctetsOf(w: Word): (s: seq<Octet>)
    ensures |s| == 4
  {
    [((w >> 24) & 0xFF) as Octet, ((w >> 16) & 0xFF) as Octet, ((w >> 8) & 0xFF) as Octet, (w & 0xFF) as Octet]
  }

  function Digest(m: seq<Octet>): seq<Word> {
    HashBlocks(Padded(m), |Padded(m)| / 64)
  }

  // ----- the program -----

  method FillSchedule(block: seq<Octet>) returns (w: array<Word>)
    requires |block| == 64
    ensures fresh(w) && w.Length == 64 && forall t :: 0 <= t < 64 ==> w[t] == W(block, t)
  {
    hide WordAt, Add, SmallSigma0, SmallSigma1;
    w := new Word[64];
    for i := 0 to 16
      invariant forall t :: 0 <= t < i ==> w[t] == W(block, t)
    {
      w[i] := WordAt(block, i);
    }
    for i := 16 to 64
      invariant forall t :: 0 <= t < i ==> w[t] == W(block, t)
    {
      var s0 := SmallSigma0(w[i - 15]);
      var s1 := SmallSigma1(w[i - 2]);
      w[i] := Add(Add(Add(w[i - 16], s0), w[i - 7]), s1);
    }
  }

  /** The 64 rounds, the eight working variables shifted in place. */
  method Mix(block: seq<Octet>, start: Vars) returns (v: Vars)
    requires |block| == 64
    ensures v == Rounds(start, block, 64)
  {
    hide W, Add, BigSigma0, BigSigma1, Ch, Maj;
    var w := FillSchedule(block);
    var a, b, c, d, e, f, g, hh := start.a, start.b, start.c, start.d, start.e, start.f, start.g, start.h;
    for i := 0 to 64
      invariant forall t :: 0 <= t < 64 ==> w[t] == W(block, t)
      invariant Vars(a, b, c, d, e, f, g, hh) == Rounds(start, block, i)
    {
      var t1 := Add(Add(Add(Add(hh, BigSigma1(e)), Ch(e, f, g)), K[i]), w[i]);
      var t2 := Add(BigSigma0(a), Maj(a, b, c));
      hh := g;
      g := f;
      f := e;
      e := Add(d, t1);
      d := c;
      c := b;
      b := a;
      a := Add(t1, t2);
    }
    v := Vars(a, b, c, d, e, f, g, hh);
  }

  method Sha256Block(h: array<Word>, block: seq<Octet>)
    requires h.Length == 8 && |block| == 64
    modifies h
    ensures h[..] == Compress(old(h[..]), block)
  {
    hide Rounds, Add;
    var v := Mix(block, Vars(h[0], h[1], h[2], h[3], h[4], h[5], h[6], h[7]));
    h[0], h[1], h[2], h[3] := Add(h[0], v.a), Add(h[1], v.b), Add(h[2], v.c), Add(h[3], v.d);
    h[4], h[5], h[6], h[7] := Add(h[4], v.e), Add(h[5], v.f), Add(h[6], v.g), Add(h[7], v.h);
    assert |h[..]| == 8;
  }

  // ----- blocks and padding -----

  const TWO_64: nat := 0x1_0000_0000_0000_0000

  /** The program's block `i`: from the data while it has a whole block, else from the tail. */
  predicate IsTail(m: seq<Octet>, tail: seq<Octet>) {
    var full := |m| / 64 * 64;
    |tail| % 64 == 0 && m[..full] + tail == Padded(m)
  }

  function Pow256(k: nat): (p: nat)
    ensures p > 0
  {
    if k == 0 then 1 else 256 * Pow256(k - 1)
  }

  lemma {:induction false} Product(a: nat, b: nat, d: nat)
    requires a < b
    ensures a * d + d <= b * d
    decreases b
  {
    if a + 1 == b {
      assert b * d == a * d + d;
    } else {
      Product(a, b - 1, d);
      assert b * d == (b - 1) * d + d;
    }
  }

  lemma QuotientUnique(d: nat, q: nat, r: nat, k: nat, s: nat)
    requires q * d + r == k * d + s && r < d && s < d
    ensures q == k && r == s
  {
    if q < k {
      Product(q, k, d);
    } else if k < q {
      Product(k, q, d);
    }
  }

  lemma DivModUnique(x: nat, d: nat, q: nat, r: nat)
    requires d > 0 && x == q * d + r && r < d
    ensures x / d == q && x % d == r
  {
    QuotientUnique(d, q, r, x / d, x % d);
  }

  lemma ModOfMultiple(x: nat, m: nat)
    requires m > 0
    ensures x % (256 * m) / 256 == x / 256 % m && x % (256 * m) % 256 == x % 256
  {
    var a, b := x / 256, x % 256;
    var q, r := a / m, a % m;
    assert a == q * m + r;
    assert x == q * (256 * m) + (256 * r + b);
    DivModUnique(x, 256 * m, q, 256 * r + b);
  }

  /** The bit count wraps at 2^64 in the program; its eight octets are those of the full count. */
  lemma {:induction false} WrapKeepsOctets(x: nat, k: nat, i: nat)
    requires i < k
    ensures OctetAt(x % Pow256(k), i) == OctetAt(x, i)
    decreases i
  {
    ModOfMultiple(x, Pow256(k - 1));
    if i > 0 {
      WrapKeepsOctets(x / 256, k - 1, i - 1);
    }
  }

  lemma Pow256Of8()
    ensures Pow256(8) == TWO_64
  {
    assert Pow256(4) == 0x1_0000_0000;
  }

  method BuildTail(m: seq<Octet>) returns (tail: array<Octet>, tailLen: nat)
    ensures fresh(tail) && tail.Length == 128 && (tailLen == 64 || tailLen == 128)
    ensures IsTail(m, tail[..tailLen])
  {
    hide IsTail, OctetAt, Pow256, LengthBytes;
    var full, rest := |m| / 64, |m| % 64;
    tail := new Octet[128](i => 0);
    for i := 0 to rest
      invariant forall k :: 0 <= k < i ==> tail[k] == m[full * 64 + k]
      invariant forall k :: i <= k < 128 ==> tail[k] == 0
    {
      tail[i] := m[full * 64 + i];
    }
    tail[rest] := 0x80;
    tailLen := if rest < 56 then 64 else 128;
    var bits := 8 * |m| % TWO_64;
    for i := 0 to 8
      invariant forall k :: 0 <= k < rest ==> tail[k] == m[full * 64 + k]
      invariant tail[rest] == 0x80
      invariant forall k :: rest < k < tailLen - i ==> tail[k] == 0
      invariant forall k :: tailLen - i <= k < tailLen ==> tail[k] == LengthBytes(8 * |m|)[k - (tailLen - 8)]
    {
      Pow256Of8();
      WrapKeepsOctets(8 * |m|, 8, i);
      tail[tailLen - 1 - i] := OctetAt(bits, i) as Octet;
    }
    TailIsPadding(m, tail[..tailLen]);
  }

  lemma TailIsPadding(m: seq<Octet>, tail: seq<Octet>)
    requires var full, rest := |m| / 64 * 64, |m| % 64;
             && |tail| == (if rest < 56 then 64 else 128)
             && (forall k :: 0 <= k < rest ==> tail[k] == m[full + k]) && tail[rest] == 0x80
             && (forall k :: rest < k < |tail| - 8 ==> tail[k] == 0)
             && (forall k :: |tail| - 8 <= k < |tail| ==> tail[k] == LengthBytes(8 * |m|)[k - (|tail| - 8)])
    ensures IsTail(m, tail)
  {
    hide LengthBytes;
    var full, rest := |m| / 64 * 64, |m| % 64;
    assert |tail| - rest - 9 == ZeroCount(|m|);
    assert tail == m[full..] + [0x80] + Zeros(ZeroCount(|m|)) + LengthBytes(8 * |m|);
    assert m == m[..full] + m[full..];
    assert m[..full] + tail == Padded(m);
  }

  /** The blocks of the padded message are those of the data, then those of the tail. */
  lemma TailBlock(m: seq<Octet>, tail: seq<Octet>, j: nat)
    requires IsTail(m, tail) && (j + 1) * 64 <= |tail|
    ensures var b := |m| / 64 + j;
            (b + 1) * 64 <= |Padded(m)| && Padded(m)[b * 64..(b + 1) * 64] == tail[j * 64..(j + 1) * 64]
  {
    var full := |m| / 64 * 64;
    assert |m[..full]| == full;
    assert (m[..full] + tail)[full + j * 64..full + (j + 1) * 64] == tail[j * 64..(j + 1) * 64];
  }

  lemma DataBlock(m: seq<Octet>, i: nat)
    requires (i + 1) * 64 <= |m|
    ensures (i + 1) * 64 <= |Padded(m)| && Padded(m)[i * 64..(i + 1) * 64] == m[i * 64..(i + 1) * 64]
  {
  }

  /** No fewer zero octets would do. */
  lemma ZeroCountLeast(n: nat, j: nat)
    requires j < ZeroCount(n)
    ensures (n + 1 + j + 8) % 64 != 0
  {
  }

  method StreamlabsSha256(data: seq<Octet>) returns (out: seq<Octet>)
    ensures |out| == 32 && forall i :: 0 <= i < 8 ==> out[4 * i..4 * i + 4] == OctetsOf(Digest(data)[i])
  {
    hide Compress, OctetsOf, Padded, IsTail;
    var h := new Word[8](i requires 0 <= i < 8 => H0[i]);
    assert h[..] == H0;
    var tail, tailLen := BuildTail(data);
    ghost var t := tail[..tailLen];
    ghost var p := Padded(data);
    TailLength(data, t);
    var full := |data| / 64;
    for i := 0 to full
      invariant h[..] == HashBlocks(p, i) && tail[..tailLen] == t
    {
      DataBlock(data, i);
      Sha256Block(h, data[i * 64..(i + 1) * 64]);
    }
    TailBlock(data, t, 0);
    assert t[0..64] == tail[..64];
    Sha256Block(h, tail[..64]);
    if tailLen == 128 {
      TailBlock(data, t, 1);
      assert t[64..128] == tail[64..128];
      Sha256Block(h, tail[64..128]);
    }
    assert |p| / 64 == full + tailLen / 64 && h[..] == HashBlocks(p, |p| / 64);
    assert h[..] == Digest(data);
    out := WriteWords(h[..]);
  }

  lemma TailLength(m: seq<Octet>, tail: seq<Octet>)
    requires IsTail(m, tail)
    ensures |Padded(m)| == |m| / 64 * 64 + |tail|
  {
  }

  method WriteWords(h: seq<Word>) returns (out: seq<Octet>)
    requires |h| == 8
    ensures |out| == 32 && forall i :: 0 <= i < 8 ==> out[4 * i..4 * i + 4] == OctetsOf(h[i])
  {
    hide OctetsOf;
    out := [];
    for i := 0 to 8
      invariant |out| == 4 * i
      invariant forall k :: 0 <= k < i ==> out[4 * k..4 * k + 4] == OctetsOf(h[k])
    {
      ghost var was := out;
      out := out + OctetsOf(h[i]);
      assert forall k :: 0 <= k < i ==> out[4 * k..4 * k + 4] == was[4 * k..4 * k + 4];
    }
  }
}
