/** The login callback: streamlabs_login_parse_callback (src/core/StreamlabsLogin.cpp) and the read loop around it
    (src/pipeline/StreamlabsLoginFlow.cpp), which must not depend on how the connection cuts the bytes. */
module LoginCallback {
  import opened Codecs
  import opened Options
  import opened Utf8

  const CALLBACK_MAX: nat := 8192
  const CODE_MAX: nat := 2048
  const BUFFER: nat := 2048

  const CR: Byte := 0x0D
  const LF: Byte := 0x0A
  const SP: Byte := 0x20
  const SLASH: Byte := 0x2F
  const QUESTION: Byte := 0x3F
  const HASH: Byte := 0x23
  const AMP: Byte := 0x26
  const EQUALS: Byte := 0x3D

  const GET_WORD: seq<Byte> := [0x47, 0x45, 0x54]
  const HTTP_WORD: seq<Byte> := [0x48, 0x54, 0x54, 0x50, 0x2F]
  const SUCCESS_WORD: seq<Byte> := [0x73, 0x75, 0x63, 0x63, 0x65, 0x73, 0x73]
  const CODE_WORD: seq<Byte> := [0x63, 0x6F, 0x64, 0x65]
  const TRUE_WORD: seq<Byte> := [0x74, 0x72, 0x75, 0x65]

  datatype Verdict = Incomplete | NotCallback | Failed | Code(code: seq<Byte>)

  // ----- the parser as functions -----

  /** The first position of `c` from `i` on, else the length. */
  function Find(s: seq<Byte>, c: Byte, i: nat): (p: nat)
    requires i <= |s|
    ensures i <= p <= |s| && (p < |s| ==> s[p] == c)
    ensures forall k :: i <= k < p ==> s[k] != c
    decreases |s| - i
  {
    if i == |s| || s[i] == c then i else Find(s, c, i + 1)
  }

  /** Where the first CRLF from `i` on begins, else the length. */
  function FindCrlf(s: seq<Byte>, i: nat): (p: nat)
    requires i <= |s|
    ensures i <= p <= |s| && (p < |s| ==> p + 1 < |s| && s[p] == CR && s[p + 1] == LF)
    decreases |s| - i
  {
    if i + 1 >= |s| then |s| else if s[i] == CR && s[i + 1] == LF then i else FindCrlf(s, i + 1)
  }

  predicate StartsAt(s: seq<Byte>, i: nat, w: seq<Byte>) {
    i + |w| <= |s| && s[i..i + |w|] == w
  }

  /** The query of a request line `GET /path?query#fragment HTTP/...`. */
  function QueryOf(line: seq<Byte>): Option<seq<Byte>> {
    var sp1 := Find(line, SP, 0);
    if sp1 == |line| then None else
    var sp2 := Find(line, SP, sp1 + 1);
    if sp2 == |line| || line[..sp1] != GET_WORD || !StartsAt(line, sp2 + 1, HTTP_WORD) then None else
    var target := line[sp1 + 1..sp2];
    if target == [] || target[0] != SLASH then None else
    var q := Find(target, QUESTION, 0);
    if q == |target| then None else
    var query := target[q + 1..];
    Some(query[..Find(query, HASH, 0)])
  }

  function Pieces(query: seq<Byte>): (ps: seq<seq<Byte>>)
    ensures ps != []
    decreases |query|
  {
    var a := Find(query, AMP, 0);
    if a == |query| then [query] else [query[..a]] + Pieces(query[a + 1..])
  }

  function NameOf(piece: seq<Byte>): seq<Byte> {
    piece[..Find(piece, EQUALS, 0)]
  }

  function RawOf(piece: seq<Byte>): seq<Byte> {
    var eq := Find(piece, EQUALS, 0);
    if eq == |piece| then [] else piece[eq + 1..]
  }

  /** The raw value of the last pair of that name. */
  function LastRaw(ps: seq<seq<Byte>>, name: seq<Byte>): Option<seq<Byte>>
    decreases |ps|
  {
    if ps == [] then None
    else if NameOf(ps[|ps| - 1]) == name then Some(RawOf(ps[|ps| - 1]))
    else LastRaw(ps[..|ps| - 1], name)
  }

  predicate Matters(piece: seq<Byte>) {
    NameOf(piece) == SUCCESS_WORD || NameOf(piece) == CODE_WORD
  }

  predicate AllDecode(ps: seq<seq<Byte>>) {
    forall k :: 0 <= k < |ps| && Matters(ps[k]) ==> Decoded(RawOf(ps[k])).Some?
  }

  predicate GoodCode(code: seq<Byte>) {
    1 <= |code| <= CODE_MAX && forall k :: 0 <= k < |code| ==> 0x21 <= code[k] <= 0x7E
  }

  /** The last success must decode to exactly "true" and the last code to a usable one. */
  function QueryVerdict(ps: seq<seq<Byte>>): Verdict {
    var success, code := LastRaw(ps, SUCCESS_WORD), LastRaw(ps, CODE_WORD);
    if success.None? && code.None? then NotCallback
    else if AllDecode(ps) && success.Some? && code.Some? && Decoded(success.value) == Some(TRUE_WORD)
            && Decoded(code.value).Some? && GoodCode(Decoded(code.value).value)
    then Code(Decoded(code.value).value)
    else Failed
  }

  function Parse(request: seq<Byte>): Verdict {
    var end := FindCrlf(request, 0);
    if end == |request| then if |request| >= CALLBACK_MAX then NotCallback else Incomplete
    else if end >= CALLBACK_MAX then NotCallback
    else match QueryOf(request[..end])
      case None => NotCallback
      case Some(query) => QueryVerdict(Pieces(query))
  }

  // ----- the read loop -----

  function Capped(data: seq<Byte>): seq<Byte> {
    if |data| <= CALLBACK_MAX then data else data[..CALLBACK_MAX]
  }

  lemma {:induction false} CrlfStays(r: seq<Byte>, s: seq<Byte>, i: nat)
    requires r <= s && i <= |r| && FindCrlf(r, i) < |r|
    ensures FindCrlf(s, i) == FindCrlf(r, i)
    decreases |r| - i
  {
    if !(r[i] == CR && r[i + 1] == LF) {
      CrlfStays(r, s, i + 1);
    }
  }

  /** A verdict reached with the line end present is unchanged by whatever follows. */
  lemma VerdictStays(r: seq<Byte>, s: seq<Byte>)
    requires r <= s && FindCrlf(r, 0) < |r|
    ensures Parse(s) == Parse(r)
  {
    hide QueryOf, Pieces, QueryVerdict;
    CrlfStays(r, s, 0);
    assert r[..FindCrlf(r, 0)] == s[..FindCrlf(r, 0)];
  }

  /** Reads until the parser decides, the cap, or the end of the connection.  Every recv may deliver any number of
      the waiting bytes; cancel, the time limit and socket errors may end the loop at any turn. */
  method ReadCallback(data: seq<Byte>) returns (verdict: Verdict, cut: bool)
    ensures !cut ==> verdict == Parse(Capped(data))
    ensures cut ==> verdict == Incomplete || verdict == Parse(Capped(data))
  {
    hide Parse;
    var request: seq<Byte> := [];
    verdict := Incomplete;
    cut := false;
    IncompleteMeans(request);
    while |request| < CALLBACK_MAX
      invariant request <= Capped(data)
      invariant verdict == Incomplete && !cut
      invariant Parse(request) == Incomplete || |request| == CALLBACK_MAX
      decreases CALLBACK_MAX - |request|
    {
      var stop: bool := *;
      if stop {
        cut := true;
        break;
      }
      var room := CALLBACK_MAX - |request|;
      var waiting := |data| - |request|;
      var most := if room < BUFFER then room else BUFFER;
      if waiting < most {
        most := waiting;
      }
      if most == 0 {
        assert request == Capped(data);
        break;   // the connection ended
      }
      var n: nat :| 1 <= n <= most;
      request := request + data[|request|..|request| + n];
      verdict := Parse(request);
      if verdict != Incomplete {
        break;
      }
    }
    PrefixVerdict(request, Capped(data));
    assert |request| >= |Capped(data)| ==> request == Capped(data);
    if verdict == Incomplete {
      verdict := Parse(request);
    }
  }

  lemma IncompleteMeans(request: seq<Byte>)
    ensures request == [] ==> Parse(request) == Incomplete
  {
  }

  /** The verdict on a prefix is the verdict on the whole, or still open. */
  lemma PrefixVerdict(r: seq<Byte>, whole: seq<Byte>)
    requires r <= whole && |whole| <= CALLBACK_MAX
    ensures Parse(r) == Incomplete || Parse(r) == Parse(whole)
  {
    if FindCrlf(r, 0) < |r| {
      VerdictStays(r, whole);
    } else if |r| == CALLBACK_MAX {
      assert r == whole;
    }
  }

  // ----- the parser as the program runs it -----

  method FindByte(s: seq<Byte>, c: Byte, start: nat) returns (p: nat)
    requires start <= |s|
    ensures p == Find(s, c, start)
  {
    p := start;
    while p < |s| && s[p] != c
      invariant start <= p <= |s| && Find(s, c, p) == Find(s, c, start)
    {
      p := p + 1;
    }
  }

  method FindLineEnd(s: seq<Byte>) returns (p: nat)
    ensures p == FindCrlf(s, 0)
  {
    p := 0;
    while p + 1 < |s| && !(s[p] == CR && s[p + 1] == LF)
      invariant p <= |s| && FindCrlf(s, p) == FindCrlf(s, 0)
    {
      p := p + 1;
    }
    if p + 1 >= |s| {
      p := |s|;
    }
  }

  lemma PiecesStep(query: seq<Byte>, pos: nat)
    requires pos <= |query|
    ensures var amp := Find(query, AMP, pos);
            Pieces(query[pos..]) == if amp == |query| then [query[pos..]] else [query[pos..amp]] + Pieces(query[amp + 1..])
  {
    hide Find;
    FindSlice(query, AMP, pos);
    var amp := Find(query, AMP, pos);
    if amp < |query| {
      assert query[pos..][..amp - pos] == query[pos..amp] && query[pos..][amp - pos + 1..] == query[amp + 1..];
    }
  }

  lemma {:induction false} FindSlice(s: seq<Byte>, c: Byte, i: nat)
    requires i <= |s|
    ensures Find(s[i..], c, 0) == Find(s, c, i) - i
  {
    FindFrom(s, c, i, 0);
  }

  lemma {:induction false} FindFrom(s: seq<Byte>, c: Byte, i: nat, k: nat)
    requires i + k <= |s|
    ensures Find(s[i..], c, k) == Find(s, c, i + k) - i
    decreases |s| - i - k
  {
    if i + k < |s| && s[i + k] != c {
      FindFrom(s, c, i, k + 1);
    }
  }

  lemma LastRawAppend(ps: seq<seq<Byte>>, piece: seq<Byte>, name: seq<Byte>)
    ensures LastRaw(ps + [piece], name) == if NameOf(piece) == name then Some(RawOf(piece)) else LastRaw(ps, name)
  {
    assert (ps + [piece])[..|ps|] == ps;
  }

  /** What the loop's variables say about the pieces read so far. */
  predicate Gathered(done: seq<seq<Byte>>, hasSuccess: bool, hasCode: bool, decodeOk: bool, success: seq<Byte>, code: seq<Byte>) {
    && (hasSuccess <==> LastRaw(done, SUCCESS_WORD).Some?)
    && (hasCode <==> LastRaw(done, CODE_WORD).Some?)
    && (decodeOk <==> AllDecode(done))
    && (hasSuccess && decodeOk ==> Decoded(LastRaw(done, SUCCESS_WORD).value) == Some(success))
    && (hasCode && decodeOk ==> Decoded(LastRaw(done, CODE_WORD).value) == Some(code))
    && (!hasCode ==> code == [])
  }

  /** One more piece; `out` is what its value decodes to, if it does. */
  lemma GatheredStep(done: seq<seq<Byte>>, hasSuccess: bool, hasCode: bool, decodeOk: bool, success: seq<Byte>, code: seq<Byte>,
                     piece: seq<Byte>, out: seq<Byte>)
    requires Gathered(done, hasSuccess, hasCode, decodeOk, success, code)
    requires Matters(piece) && Decoded(RawOf(piece)).Some? ==> Decoded(RawOf(piece)) == Some(out)
    ensures var ok := Decoded(RawOf(piece)).Some? && decodeOk;
            && (NameOf(piece) == SUCCESS_WORD ==> Gathered(done + [piece], true, hasCode, ok, out, code))
            && (NameOf(piece) == CODE_WORD ==> Gathered(done + [piece], hasSuccess, true, ok, success, out))
            && (!Matters(piece) ==> Gathered(done + [piece], hasSuccess, hasCode, decodeOk, success, code))
  {
    hide Decoded, NameOf, RawOf, LastRaw;
    LastRawAppend(done, piece, SUCCESS_WORD);
    LastRawAppend(done, piece, CODE_WORD);
    WordsDiffer();
    AllDecodeAppend(done, piece);
  }

  lemma WordsDiffer()
    ensures SUCCESS_WORD != CODE_WORD
  {
    assert |SUCCESS_WORD| != |CODE_WORD|;
  }

  lemma AllDecodeAppend(ps: seq<seq<Byte>>, piece: seq<Byte>)
    ensures AllDecode(ps + [piece]) <==> AllDecode(ps) && (Matters(piece) ==> Decoded(RawOf(piece)).Some?)
  {
    hide Decoded, RawOf, Matters;
    assert forall k :: 0 <= k < |ps| ==> (ps + [piece])[k] == ps[k];
    assert (ps + [piece])[|ps|] == piece;
  }

  method ParseQuery(query: seq<Byte>) returns (v: Verdict)
    ensures v == QueryVerdict(Pieces(query))
  {
    hide Decoded, Pieces, NameOf, RawOf, LastRaw, AllDecode, Gathered, Matters;
    var hasSuccess, hasCode, decodeOk := false, false, true;
    var success: seq<Byte>, code: seq<Byte> := [], [];
    var pos := 0;
    ghost var done: seq<seq<Byte>> := [];
    NothingGathered();
    assert query[0..] == query;
    while pos <= |query|
      invariant 0 <= pos <= |query| + 1
      invariant Gathered(done, hasSuccess, hasCode, decodeOk, success, code)
      invariant if pos <= |query| then done + Pieces(query[pos..]) == Pieces(query) else done == Pieces(query)
      decreases |query| + 1 - pos
    {
      PiecesStep(query, pos);
      var amp := FindByte(query, AMP, pos);
      var pair := query[pos..amp];
      assert amp == |query| ==> pair == query[pos..];
      MattersMeans(pair);
      var name, raw := SplitPair(pair);
      if name == SUCCESS_WORD {
        var ok, out := PercentDecode(raw);
        GatheredStep(done, hasSuccess, hasCode, decodeOk, success, code, pair, out);
        hasSuccess := true;
        decodeOk := ok && decodeOk;
        success := out;
      } else if name == CODE_WORD {
        var ok, out := PercentDecode(raw);
        GatheredStep(done, hasSuccess, hasCode, decodeOk, success, code, pair, out);
        hasCode := true;
        decodeOk := ok && decodeOk;
        code := out;
      } else {
        GatheredStep(done, hasSuccess, hasCode, decodeOk, success, code, pair, []);
      }
      done := done + [pair];
      pos := amp + 1;
    }
    GatheredMeans(done, hasSuccess, hasCode, decodeOk, success, code);
    if !hasSuccess && !hasCode {
      return NotCallback;
    }
    var codeOk := decodeOk && code != [] && |code| <= CODE_MAX;
    for i := 0 to |code|
      invariant codeOk <==> decodeOk && code != [] && |code| <= CODE_MAX && forall k :: 0 <= k < i ==> 0x21 <= code[k] <= 0x7E
    {
      if code[i] < 0x21 || code[i] > 0x7E {
        codeOk := false;
      }
    }
    if !hasSuccess || success != TRUE_WORD || !codeOk {
      return Failed;
    }
    return Code(code);
  }

  lemma NothingGathered()
    ensures Gathered([], false, false, true, [], [])
  {
  }

  lemma MattersMeans(piece: seq<Byte>)
    ensures Matters(piece) <==> NameOf(piece) == SUCCESS_WORD || NameOf(piece) == CODE_WORD
  {
  }

  lemma GatheredMeans(ps: seq<seq<Byte>>, hasSuccess: bool, hasCode: bool, decodeOk: bool, success: seq<Byte>, code: seq<Byte>)
    requires Gathered(ps, hasSuccess, hasCode, decodeOk, success, code)
    ensures QueryVerdict(ps) ==
              if !hasSuccess && !hasCode then NotCallback
              else if hasSuccess && success == TRUE_WORD && decodeOk && GoodCode(code) then Code(code) else Failed
  {
    hide Decoded, LastRaw, AllDecode;
  }

  method SplitPair(pair: seq<Byte>) returns (name: seq<Byte>, raw: seq<Byte>)
    ensures name == NameOf(pair) && raw == RawOf(pair)
  {
    var eq := FindByte(pair, EQUALS, 0);
    name := pair[..eq];
    raw := if eq == |pair| then [] else pair[eq + 1..];
  }

  method ParseCallback(request: seq<Byte>) returns (v: Verdict)
    ensures v == Parse(request)
  {
    hide Pieces, QueryVerdict, FindCrlf;
    var lineEnd := FindLineEnd(request);
    if lineEnd == |request| {
      if |request| >= CALLBACK_MAX {
        return NotCallback;
      }
      return Incomplete;
    }
    if lineEnd >= CALLBACK_MAX {
      return NotCallback;
    }
    var line := request[..lineEnd];
    var sp1 := FindByte(line, SP, 0);
    if sp1 == |line| {
      return NotCallback;
    }
    var sp2 := FindByte(line, SP, sp1 + 1);
    if sp2 == |line| || line[..sp1] != GET_WORD || !StartsAt(line, sp2 + 1, HTTP_WORD) {
      return NotCallback;
    }
    var target := line[sp1 + 1..sp2];
    if target == [] || target[0] != SLASH {
      return NotCallback;
    }
    var q := FindByte(target, QUESTION, 0);
    if q == |target| {
      return NotCallback;
    }
    var query := target[q + 1..];
    var hash := FindByte(query, HASH, 0);
    query := query[..hash];
    v := ParseQuery(query);
  }

  // ----- which request lines carry a query -----

  predicate Lacks(s: seq<Byte>, c: Byte) {
    forall k :: 0 <= k < |s| ==> s[k] != c
  }

  /** GET SP path ? query [#fragment] SP HTTP/version */
  ghost predicate RequestLine(line: seq<Byte>, path: seq<Byte>, query: seq<Byte>, fragment: seq<Byte>, version: seq<Byte>) {
    && line == GET_WORD + [SP] + (path + [QUESTION] + query + fragment) + [SP] + HTTP_WORD + version
    && path != [] && path[0] == SLASH && Lacks(path, SP) && Lacks(path, QUESTION)
    && Lacks(query, SP) && Lacks(query, HASH) && Lacks(fragment, SP) && (fragment != [] ==> fragment[0] == HASH)
  }

  lemma {:induction false} FindIs(s: seq<Byte>, c: Byte, i: nat, p: nat)
    requires i <= p <= |s| && (p < |s| ==> s[p] == c) && forall k :: i <= k < p ==> s[k] != c
    ensures Find(s, c, i) == p
    decreases p - i
  {
    if i < p {
      FindIs(s, c, i + 1, p);
    }
  }

  lemma LineHasQuery(line: seq<Byte>, path: seq<Byte>, query: seq<Byte>, fragment: seq<Byte>, version: seq<Byte>)
    requires RequestLine(line, path, query, fragment, version)
    ensures QueryOf(line) == Some(query)
  {
    hide Find;
    var target := path + [QUESTION] + query + fragment;
    assert line[..3] == GET_WORD && line[3] == SP;
    FindIs(line, SP, 0, 3);
    assert line[4..4 + |target|] == target && line[4 + |target|] == SP;
    FindIs(line, SP, 4, 4 + |target|);
    assert line[5 + |target|..10 + |target|] == HTTP_WORD;
    FindIs(target, QUESTION, 0, |path|);
    assert target[|path| + 1..] == query + fragment;
    FindIs(query + fragment, HASH, 0, |query|);
    assert (query + fragment)[..|query|] == query;
  }

  lemma LineParts(line: seq<Byte>, sp1: nat, sp2: nat)
    requires sp1 < sp2 && sp2 + 6 <= |line| && line[sp1] == SP && line[sp2] == SP
    ensures line == line[..sp1] + [SP] + line[sp1 + 1..sp2] + [SP] + line[sp2 + 1..sp2 + 6] + line[sp2 + 6..]
  {
  }

  lemma TargetParts(target: seq<Byte>, q: nat, h: nat)
    requires q < |target| && target[q] == QUESTION && h <= |target[q + 1..]|
    ensures target == target[..q] + [QUESTION] + target[q + 1..][..h] + target[q + 1..][h..]
  {
  }

  lemma TargetLacks(line: seq<Byte>, i: nat, j: nat, q: nat, h: nat)
    requires i <= j <= |line| && forall k :: i <= k < j ==> line[k] != SP
    requires q < j - i && h <= j - i - q - 1
    ensures var target := line[i..j]; Lacks(target[..q], SP) && Lacks(target[q + 1..][..h], SP) && Lacks(target[q + 1..][h..], SP)
  {
  }

  lemma LineIs(line: seq<Byte>, target: seq<Byte>, path: seq<Byte>, query: seq<Byte>, fragment: seq<Byte>, version: seq<Byte>)
    requires target == path + [QUESTION] + query + fragment && line == GET_WORD + [SP] + target + [SP] + HTTP_WORD + version
    requires path != [] && path[0] == SLASH && Lacks(path, SP) && Lacks(path, QUESTION)
    requires Lacks(query, SP) && Lacks(query, HASH) && Lacks(fragment, SP) && (fragment != [] ==> fragment[0] == HASH)
    ensures RequestLine(line, path, query, fragment, version)
  {
  }

  lemma QueryHasLine(line: seq<Byte>)
    requires QueryOf(line).Some?
    ensures exists path, fragment, version :: RequestLine(line, path, QueryOf(line).value, fragment, version)
  {
    hide Find, RequestLine;
    var sp1 := Find(line, SP, 0);
    var sp2 := Find(line, SP, sp1 + 1);
    var target := line[sp1 + 1..sp2];
    var q := Find(target, QUESTION, 0);
    var rest := target[q + 1..];
    var h := Find(rest, HASH, 0);
    LineParts(line, sp1, sp2);
    TargetParts(target, q, h);
    TargetLacks(line, sp1 + 1, sp2, q, h);
    assert line[sp2 + 1..sp2 + 6] == HTTP_WORD;
    assert QueryOf(line).value == rest[..h];
    LineIs(line, target, target[..q], rest[..h], rest[h..], line[sp2 + 6..]);
  }

  /** The parser takes a query from a request line exactly when it is a GET of an absolute path with a query. */
  lemma QueryExactly(line: seq<Byte>, query: seq<Byte>)
    ensures QueryOf(line) == Some(query) <==> exists path, fragment, version :: RequestLine(line, path, query, fragment, version)
  {
    hide QueryOf, RequestLine;
    if QueryOf(line).Some? {
      QueryHasLine(line);
    }
    if exists path, fragment, version :: RequestLine(line, path, query, fragment, version) {
      var path, fragment, version :| RequestLine(line, path, query, fragment, version);
      LineHasQuery(line, path, query, fragment, version);
    }
  }
}
