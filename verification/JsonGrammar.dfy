/** The JSON grammar of RFC 8259 (sections 2 and 4 to 7) as concrete syntax trees: a tree's text is what it
    was written as, whitespace and spelling included.  `Good` is the grammar with the strict checker's further
    rules: raw member names differ, strings hold no NUL and no unpaired surrogate, numbers are in range. */
module JsonGrammar {
  import opened HexDigits
  import opened Utf8
  import opened JsonNumber

  const QUOTE: Byte := 0x22
  const BACKSLASH: Byte := 0x5C
  const SMALL_U: Byte := 0x75
  const COMMA: Byte := 0x2C
  const COLON: Byte := 0x3A
  const OPEN_BRACKET: Byte := 0x5B
  const CLOSE_BRACKET: Byte := 0x5D
  const OPEN_BRACE: Byte := 0x7B
  const CLOSE_BRACE: Byte := 0x7D

  /** strtod followed by isfinite: not computed here. */
  type Finite = seq<Byte> -> bool

  predicate IsWs(c: Byte) {
    c == 0x20 || c == 0x09 || c == 0x0A || c == 0x0D
  }

  predicate AllWs(s: seq<Byte>) {
    forall k :: 0 <= k < |s| ==> IsWs(s[k])
  }

  // ----- strings -----

  datatype Unit =
    | Plain(c: Byte)
    | Short(e: Byte)                            // \n and the like
    | Hex(h: seq<Byte>)                         // \uXXXX
    | Pair(high: seq<Byte>, low: seq<Byte>)     // \uXXXX\uXXXX
    | Wide(cp: nat)                             // a code point beyond ASCII, in UTF-8

  predicate IsHex4(h: seq<Byte>) {
    |h| == 4 && forall k :: 0 <= k < 4 ==> IsHex(h[k])
  }

  function HexValue(h: seq<Byte>): nat
    requires IsHex4(h)
  {
    ((HexDigit(h[0]) * 16 + HexDigit(h[1])) * 16 + HexDigit(h[2])) * 16 + HexDigit(h[3])
  }

  predicate IsShort(e: Byte) {
    e == QUOTE || e == BACKSLASH || e == 0x2F || e == 0x62 || e == 0x66 || e == 0x6E || e == 0x72 || e == 0x74
  }

  predicate HighSurrogate(h: seq<Byte>) {
    IsHex4(h) && 0xD800 <= HexValue(h) <= 0xDBFF
  }

  predicate LowSurrogate(h: seq<Byte>) {
    IsHex4(h) && 0xDC00 <= HexValue(h) <= 0xDFFF
  }

  predicate GoodUnit(u: Unit) {
    match u
    case Plain(c) => 0x20 <= c < 0x80 && c != QUOTE && c != BACKSLASH
    case Short(e) => IsShort(e)
    case Hex(h) => IsHex4(h) && HexValue(h) != 0 && !HighSurrogate(h) && !LowSurrogate(h)
    case Pair(high, low) => HighSurrogate(high) && LowSurrogate(low)
    case Wide(cp) => 0x80 <= cp && Scalar(cp)
  }

  function UnitText(u: Unit): seq<Byte> {
    match u
    case Plain(c) => [c]
    case Short(e) => [BACKSLASH, e]
    case Hex(h) => [BACKSLASH, SMALL_U] + h
    case Pair(high, low) => [BACKSLASH, SMALL_U] + high + [BACKSLASH, SMALL_U] + low
    case Wide(cp) => if cp <= 0x10FFFF then Encode(cp) else []
  }

  predicate GoodUnits(us: seq<Unit>) {
    forall k :: 0 <= k < |us| ==> GoodUnit(us[k])
  }

  function UnitsText(us: seq<Unit>): seq<Byte> {
    if us == [] then [] else UnitText(us[0]) + UnitsText(us[1..])
  }

  function StringText(us: seq<Unit>): seq<Byte> {
    [QUOTE] + UnitsText(us) + [QUOTE]
  }

  // ----- numbers -----

  /** An absent fraction or exponent is empty; `mark` is the e with its sign. */
  datatype Num = Num(negative: bool, whole: seq<Byte>, fraction: seq<Byte>, mark: seq<Byte>, exponent: seq<Byte>)

  predicate IsMark(m: seq<Byte>) {
    1 <= |m| <= 2 && (m[0] == 0x65 || m[0] == 0x45) && (|m| == 2 ==> m[1] == PLUS || m[1] == MINUS)
  }

  /** RFC 8259, section 6. */
  predicate IsNum(n: Num) {
    && n.whole != [] && AllDigits(n.whole) && (|n.whole| > 1 ==> n.whole[0] != ZERO)
    && AllDigits(n.fraction) && AllDigits(n.exponent)
    && (if n.exponent == [] then n.mark == [] else IsMark(n.mark))
  }

  predicate IsReal(n: Num) {
    n.fraction != [] || n.exponent != []
  }

  function NumText(n: Num): seq<Byte> {
    (if n.negative then [MINUS] else []) + n.whole + (if n.fraction == [] then [] else [DOT] + n.fraction) + n.mark + n.exponent
  }

  predicate GoodNum(n: Num, finite: Finite) {
    IsNum(n) && if IsReal(n) then finite(NumText(n)) else MIN_INT64 <= SignedValue(n.negative, n.whole) <= MAX_INT64
  }

  // ----- values -----

  datatype Value =
    | Word(w: seq<Byte>) | Number(n: Num) | Text(us: seq<Unit>)
    | Array(gap: seq<Byte>, items: Items) | Object(gap: seq<Byte>, members: Members)

  /** `gap` is the whitespace of an empty container. */
  datatype Items = NoItem | Item(before: seq<Byte>, v: Value, after: seq<Byte>, rest: Items)

  datatype Members =
    | NoMember
    | Member(before: seq<Byte>, name: seq<Unit>, colonBefore: seq<Byte>, colonAfter: seq<Byte>, v: Value, after: seq<Byte>, rest: Members)

  const TRUE_WORD: seq<Byte> := [0x74, 0x72, 0x75, 0x65]
  const FALSE_WORD: seq<Byte> := [0x66, 0x61, 0x6C, 0x73, 0x65]
  const NULL_WORD: seq<Byte> := [0x6E, 0x75, 0x6C, 0x6C]

  function ValueText(v: Value): seq<Byte> {
    match v
    case Word(w) => w
    case Number(n) => NumText(n)
    case Text(us) => StringText(us)
    case Array(gap, items) => [OPEN_BRACKET] + gap + ItemsText(items) + [CLOSE_BRACKET]
    case Object(gap, ms) => [OPEN_BRACE] + gap + MembersText(ms) + [CLOSE_BRACE]
  }

  function ItemsText(items: Items): seq<Byte> {
    if items.NoItem? then []
    else items.before + ValueText(items.v) + items.after + if items.rest.NoItem? then [] else [COMMA] + ItemsText(items.rest)
  }

  function MembersText(ms: Members): seq<Byte> {
    if ms.NoMember? then []
    else MemberText(ms.before, StringText(ms.name), ms.colonBefore, ms.colonAfter, ValueText(ms.v), ms.after)
         + if ms.rest.NoMember? then [] else [COMMA] + MembersText(ms.rest)
  }

  function MemberText(before: seq<Byte>, name: seq<Byte>, colonBefore: seq<Byte>, colonAfter: seq<Byte>, v: seq<Byte>, after: seq<Byte>): seq<Byte> {
    before + name + colonBefore + [COLON] + colonAfter + v + after
  }

  function Max(a: nat, b: nat): nat {
    if a < b then b else a
  }

  /** How many containers stand around the innermost value. */
  function Nesting(v: Value): nat {
    match v
    case Array(_, items) => ItemsNesting(items)
    case Object(_, ms) => MembersNesting(ms)
    case _ => 0
  }

  function ItemsNesting(items: Items): nat {
    if items.NoItem? then 0 else Max(1 + Nesting(items.v), ItemsNesting(items.rest))
  }

  function MembersNesting(ms: Members): nat {
    if ms.NoMember? then 0 else Max(1 + Nesting(ms.v), MembersNesting(ms.rest))
  }

  predicate Good(v: Value, finite: Finite) {
    match v
    case Word(w) => w == TRUE_WORD || w == FALSE_WORD || w == NULL_WORD
    case Number(n) => GoodNum(n, finite)
    case Text(us) => GoodUnits(us)
    case Array(gap, items) => AllWs(gap) && (items.Item? ==> gap == []) && GoodItems(items, finite)
    case Object(gap, ms) => AllWs(gap) && (ms.Member? ==> gap == []) && GoodMembers(ms, finite) && NamesDiffer(ms)
  }

  predicate GoodItems(items: Items, finite: Finite) {
    items.Item? ==> AllWs(items.before) && Good(items.v, finite) && AllWs(items.after) && GoodItems(items.rest, finite)
  }

  predicate GoodMembers(ms: Members, finite: Finite) {
    ms.Member? ==>
      && AllWs(ms.before) && GoodUnits(ms.name) && AllWs(ms.colonBefore) && AllWs(ms.colonAfter)
      && Good(ms.v, finite) && AllWs(ms.after) && GoodMembers(ms.rest, finite)
  }

  /** Some member's name is spelled exactly `key`. */
  predicate NameSpelled(ms: Members, key: seq<Byte>) {
    ms.Member? && (StringText(ms.name) == key || NameSpelled(ms.rest, key))
  }

  predicate NamesDiffer(ms: Members) {
    ms.Member? ==> !NameSpelled(ms.rest, StringText(ms.name)) && NamesDiffer(ms.rest)
  }
}
