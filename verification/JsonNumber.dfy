/** Number bounds of JsonSyntax::number (src/core/StreamlabsTikTok.cpp): the comparison of digit strings
    decides exactly the 64-bit range. */
module JsonNumber {
  import opened Utf8

  const ZERO: Byte := 0x30
  const MINUS: Byte := 0x2D
  const PLUS: Byte := 0x2B
  const DOT: Byte := 0x2E

  predicate IsDigit(c: Byte) {
    0x30 <= c <= 0x39
  }

  predicate AllDigits(s: seq<Byte>) {
    forall k :: 0 <= k < |s| ==> IsDigit(s[k])
  }

  /** The number a digit string writes, read on from the number `acc`. */
  function ValueFrom(s: seq<Byte>, acc: nat): (v: nat)
    requires AllDigits(s)
    decreases |s|
  {
    if s == [] then acc else ValueFrom(s[1..], acc * 10 + (s[0] - ZERO))
  }

  function DigitsValue(s: seq<Byte>): nat
    requires AllDigits(s)
  {
    ValueFrom(s, 0)
  }

  /** std::string::compare <= 0 on texts of one length. */
  predicate LexLe(a: seq<Byte>, b: seq<Byte>)
    requires |a| == |b|
    decreases |a|
  {
    a == [] || a[0] < b[0] || (a[0] == b[0] && LexLe(a[1..], b[1..]))
  }

  const MAX_INT64 := 0x7FFF_FFFF_FFFF_FFFF
  const MIN_INT64 := -0x8000_0000_0000_0000

  /** "922337203685477580" */
  const LIMIT_HEAD: seq<Byte> := [0x39, 0x32, 0x32, 0x33, 0x33, 0x37] + [0x32, 0x30, 0x33, 0x36, 0x38, 0x35] + [0x34, 0x37, 0x37, 0x35, 0x38, 0x30]
  const POSITIVE_LIMIT: seq<Byte> := LIMIT_HEAD + [0x37]
  const NEGATIVE_LIMIT: seq<Byte> := LIMIT_HEAD + [0x38]

  /** The source's test of an integer without fraction and exponent. */
  predicate Fits(negative: bool, whole: seq<Byte>) {
    |whole| < 19 || (|whole| == 19 && LexLe(whole, if negative then NEGATIVE_LIMIT else POSITIVE_LIMIT))
  }

  function Pow10(n: nat): (p: nat)
    ensures p > 0
  {
    if n == 0 then 1 else 10 * Pow10(n - 1)
  }

  /** Reading on from `acc` shifts it; the digits read stay below the power of ten of their count. */
  lemma {:induction false} ValueSplits(s: seq<Byte>, acc: nat)
    requires AllDigits(s)
    ensures ValueFrom(s, acc) == acc * Pow10(|s|) + DigitsValue(s)
    ensures DigitsValue(s) < Pow10(|s|)
    decreases |s|
  {
    if s != [] {
      var d := s[0] - ZERO;
      ValueSplits(s[1..], acc * 10 + d);
      ValueSplits(s[1..], d);
      Carry(acc, d, Pow10(|s| - 1), DigitsValue(s[1..]));
    }
  }

  lemma Carry(acc: nat, d: nat, p: nat, v: nat)
    requires d <= 9 && v < p
    ensures (acc * 10 + d) * p + v == acc * (10 * p) + (d * p + v) && d * p + v < 10 * p
  {
    assert (acc * 10 + d) * p == acc * (10 * p) + d * p;
    assert d * p <= 9 * p;
  }

  lemma FirstDigit(s: seq<Byte>)
    requires AllDigits(s) && s != []
    ensures DigitsValue(s) == (s[0] - ZERO) * Pow10(|s| - 1) + DigitsValue(s[1..]) && DigitsValue(s[1..]) < Pow10(|s| - 1)
  {
    ValueSplits(s[1..], s[0] - ZERO);
  }

  lemma LeadDecides(x: nat, u: nat, y: nat, v: nat, p: nat)
    requires u < p && v < p
    ensures x * p + u <= y * p + v <==> x < y || (x == y && u <= v)
  {
    if x < y {
      assert (x + 1) * p <= y * p;
    } else if y < x {
      assert (y + 1) * p <= x * p;
    }
  }

  /** Digit strings of one length compare as the numbers they write. */
  lemma {:induction false} LexIsNumeric(a: seq<Byte>, b: seq<Byte>)
    requires |a| == |b| && AllDigits(a) && AllDigits(b)
    ensures LexLe(a, b) <==> DigitsValue(a) <= DigitsValue(b)
    decreases |a|
  {
    hide DigitsValue, Pow10;
    if a != [] {
      FirstDigit(a);
      FirstDigit(b);
      LexIsNumeric(a[1..], b[1..]);
      LeadDecides(a[0] - ZERO, DigitsValue(a[1..]), b[0] - ZERO, DigitsValue(b[1..]), Pow10(|a| - 1));
    } else {
      assert a == b;
    }
  }

  lemma {:induction false} ValueAppend(s: seq<Byte>, t: seq<Byte>, acc: nat)
    requires AllDigits(s) && AllDigits(t)
    ensures ValueFrom(s + t, acc) == ValueFrom(t, ValueFrom(s, acc))
    decreases |s|
  {
    if s == [] {
      assert s + t == t;
    } else {
      assert (s + t)[1..] == s[1..] + t;
      ValueAppend(s[1..], t, acc * 10 + (s[0] - ZERO));
    }
  }

  lemma OneDigit(s: seq<Byte>, acc: nat)
    requires s != [] && AllDigits(s)
    ensures ValueFrom(s, acc) == ValueFrom(s[1..], acc * 10 + (s[0] - ZERO))
  {
  }

  lemma ThreeDigits(s: seq<Byte>, acc: nat)
    requires |s| == 3 && AllDigits(s)
    ensures ValueFrom(s, acc) == acc * 1000 + (s[0] - ZERO) * 100 + (s[1] - ZERO) * 10 + (s[2] - ZERO)
  {
    hide ValueFrom;
    var t, u, a := s[1..], s[2..], acc * 10 + (s[0] - ZERO);
    assert t[1..] == u && u[1..] == [];
    OneDigit(s, acc);
    OneDigit(t, a);
    OneDigit(u, a * 10 + (s[1] - ZERO));
    NoDigit((a * 10 + (s[1] - ZERO)) * 10 + (s[2] - ZERO));
  }

  lemma NoDigit(acc: nat)
    ensures ValueFrom([], acc) == acc
  {
  }

  lemma SixDigits(s: seq<Byte>, acc: nat)
    requires |s| == 6 && AllDigits(s)
    ensures ValueFrom(s, acc) == acc * 1000000 + (s[0] - ZERO) * 100000 + (s[1] - ZERO) * 10000 + (s[2] - ZERO) * 1000
                                 + (s[3] - ZERO) * 100 + (s[4] - ZERO) * 10 + (s[5] - ZERO)
  {
    hide ValueFrom;
    assert s == s[..3] + s[3..];
    ValueAppend(s[..3], s[3..], acc);
    ThreeDigits(s[..3], acc);
    ThreeDigits(s[3..], ValueFrom(s[..3], acc));
  }

  lemma HeadValue()
    ensures AllDigits(LIMIT_HEAD) && DigitsValue(LIMIT_HEAD) == 922337203685477580
  {
    hide ValueFrom;
    var a: seq<Byte>, b: seq<Byte>, c: seq<Byte> :=
      [0x39, 0x32, 0x32, 0x33, 0x33, 0x37], [0x32, 0x30, 0x33, 0x36, 0x38, 0x35], [0x34, 0x37, 0x37, 0x35, 0x38, 0x30];
    ValueAppend(a + b, c, 0);
    ValueAppend(a, b, 0);
    SixDigits(a, 0);
    SixDigits(b, 922337);
    SixDigits(c, 922337203685);
  }

  lemma LimitValues()
    ensures AllDigits(POSITIVE_LIMIT) && DigitsValue(POSITIVE_LIMIT) == MAX_INT64
    ensures AllDigits(NEGATIVE_LIMIT) && DigitsValue(NEGATIVE_LIMIT) == -MIN_INT64
  {
    HeadValue();
    ValueAppend(LIMIT_HEAD, [0x37], 0);
    ValueAppend(LIMIT_HEAD, [0x38], 0);
    assert forall acc: nat, d: Byte :: IsDigit(d) ==> ValueFrom([d], acc) == acc * 10 + (d - ZERO);
  }

  function SignedValue(negative: bool, whole: seq<Byte>): int
    requires AllDigits(whole)
  {
    var v: int := DigitsValue(whole);
    if negative then -v else v
  }

  lemma {:induction false} Pow10Grows(m: nat, n: nat)
    requires m <= n
    ensures Pow10(m) <= Pow10(n)
    decreases n
  {
    if m < n {
      Pow10Grows(m, n - 1);
    }
  }

  lemma Pow10At18And19()
    ensures Pow10(18) == 1000000000000000000 && Pow10(19) == 10000000000000000000
  {
    assert Pow10(6) == 1000000;
    assert Pow10(12) == 1000000000000;
  }

  /** For a JSON integer the test accepts exactly the numbers of 64-bit range. */
  lemma FitsExactlyInt64(negative: bool, whole: seq<Byte>)
    requires AllDigits(whole) && whole != [] && (|whole| > 1 ==> whole[0] != ZERO)
    ensures Fits(negative, whole) <==> MIN_INT64 <= SignedValue(negative, whole) <= MAX_INT64
  {
    hide DigitsValue, Pow10, LexLe;
    Pow10At18And19();
    FirstDigit(whole);
    LimitValues();
    if |whole| < 19 {
      ValueSplits(whole, 0);
      Pow10Grows(|whole|, 18);
    } else if |whole| == 19 {
      LexIsNumeric(whole, if negative then NEGATIVE_LIMIT else POSITIVE_LIMIT);
    } else {
      Pow10Grows(19, |whole| - 1);
      assert (whole[0] - ZERO) * Pow10(|whole| - 1) >= Pow10(|whole| - 1);
    }
  }
}
