/** What the login callback's verdict means on the text of the request: the query as fields `name=value` joined by '&',
    the last field of a name deciding. */
module LoginVerdict {
  import opened AsciiText
  import opened Codecs
  import opened LoginCallback
  import opened Options
  import opened Utf8

  lemma WordsSpelled()
    ensures GET_WORD == Ascii("GET") && HTTP_WORD == Ascii("HTTP/") && TRUE_WORD == Ascii("true")
    ensures SUCCESS_WORD == Ascii("success") && CODE_WORD == Ascii("code")
    ensures [CR, LF] == Ascii("\r\n") && [SP, SLASH, QUESTION, HASH, AMP, EQUALS] == Ascii(" /?#&=")
  {
  }

  // ----- a query as text -----

  /** `name=value`, or a name alone, whose value is empty. */
  datatype Field = Valued(name: seq<Byte>, value: seq<Byte>) | Bare(name: seq<Byte>)

  function Value(f: Field): seq<Byte> {
    match f
    case Valued(_, value) => value
    case Bare(_) => []
  }

  function FieldText(f: Field): seq<Byte> {
    match f
    case Valued(name, value) => name + [EQUALS] + value
    case Bare(name) => name
  }

  function QueryText(fs: seq<Field>): seq<Byte> {
    if fs == [] then [] else if |fs| == 1 then FieldText(fs[0]) else FieldText(fs[0]) + [AMP] + QueryText(fs[1..])
  }

  predicate GoodField(f: Field) {
    Lacks(f.name, EQUALS) && Lacks(f.name, AMP) && Lacks(Value(f), AMP)
  }

  predicate GoodFields(fs: seq<Field>) {
    fs != [] && forall k :: 0 <= k < |fs| ==> GoodField(fs[k])
  }

  /** Field i is the last one of that name. */
  predicate LastOf(fs: seq<Field>, name: seq<Byte>, i: nat) {
    i < |fs| && fs[i].name == name && forall k :: i < k < |fs| ==> fs[k].name != name
  }

  predicate Named(fs: seq<Field>, name: seq<Byte>) {
    exists k :: 0 <= k < |fs| && fs[k].name == name
  }

  /** Every value of either name decodes. */
  predicate ValuesDecode(fs: seq<Field>) {
    forall k :: 0 <= k < |fs| && (fs[k].name == SUCCESS_WORD || fs[k].name == CODE_WORD) ==> Decoded(Value(fs[k])).Some?
  }

  predicate LastDecodesTo(fs: seq<Field>, name: seq<Byte>, text: seq<Byte>) {
    exists i: nat :: i < |fs| && LastOf(fs, name, i) && Decoded(Value(fs[i])) == Some(text)
  }

  /** The login is granted with code `c`. */
  predicate Grants(fs: seq<Field>, c: seq<Byte>) {
    && ValuesDecode(fs) && LastDecodesTo(fs, SUCCESS_WORD, TRUE_WORD) && LastDecodesTo(fs, CODE_WORD, c)
    && 1 <= |c| <= 2048 && forall k :: 0 <= k < |c| ==> 0x21 <= c[k] <= 0x7E
  }

  // ----- the parser finds the fields -----

  lemma FieldIsPiece(f: Field)
    requires GoodField(f)
    ensures NameOf(FieldText(f)) == f.name && RawOf(FieldText(f)) == Value(f) && Lacks(FieldText(f), AMP)
  {
    hide Find;
    FindIs(FieldText(f), EQUALS, 0, |f.name|);
    assert FieldText(f)[..|f.name|] == f.name;
  }

  /** The parser's pieces are the fields, in order. */
  lemma {:induction false} PiecesAreFields(fs: seq<Field>)
    requires GoodFields(fs)
    ensures var ps := Pieces(QueryText(fs)); |ps| == |fs| && forall k :: 0 <= k < |fs| ==> ps[k] == FieldText(fs[k])
    decreases |fs|
  {
    hide Find, FieldText, GoodField;
    var q, t := QueryText(fs), FieldText(fs[0]);
    FieldIsPiece(fs[0]);
    FindIs(q, AMP, 0, |t|);
    if |fs| > 1 {
      assert q[..|t|] == t && q[|t| + 1..] == QueryText(fs[1..]);
      PiecesAreFields(fs[1..]);
    }
  }

  /** The search from the end finds the last field of the name. */
  lemma {:induction false} LastRawIsLast(fs: seq<Field>, ps: seq<seq<Byte>>, name: seq<Byte>)
    requires |ps| == |fs| && forall k :: 0 <= k < |fs| ==> NameOf(ps[k]) == fs[k].name && RawOf(ps[k]) == Value(fs[k])
    ensures LastRaw(ps, name).Some? <==> Named(fs, name)
    ensures forall i: nat :: LastOf(fs, name, i) ==> LastRaw(ps, name) == Some(Value(fs[i]))
    ensures Named(fs, name) ==> exists i: nat :: LastOf(fs, name, i)
    decreases |fs|
  {
    hide NameOf, RawOf;
    if fs != [] {
      var n := |fs| - 1;
      if fs[n].name == name {
        assert LastOf(fs, name, n);
      } else {
        LastRawIsLast(fs[..n], ps[..n], name);
        forall i: nat ensures LastOf(fs, name, i) <==> LastOf(fs[..n], name, i) {
        }
        assert Named(fs, name) ==> Named(fs[..n], name);
        assert Named(fs[..n], name) ==> Named(fs, name);
      }
    }
  }

  lemma AllDecodeMeans(fs: seq<Field>, ps: seq<seq<Byte>>)
    requires |ps| == |fs| && forall k :: 0 <= k < |fs| ==> NameOf(ps[k]) == fs[k].name && RawOf(ps[k]) == Value(fs[k])
    ensures AllDecode(ps) <==> ValuesDecode(fs)
  {
    hide NameOf, RawOf, Decoded, Value;
    WordsSpelled();
    assert forall k :: 0 <= k < |fs| ==> (Matters(ps[k]) <==> fs[k].name == SUCCESS_WORD || fs[k].name == CODE_WORD);
  }

  lemma LastIsOne(fs: seq<Field>, name: seq<Byte>, text: seq<Byte>, i: nat)
    requires LastOf(fs, name, i)
    ensures LastDecodesTo(fs, name, text) <==> Decoded(Value(fs[i])) == Some(text)
    ensures Named(fs, name)
  {
    hide Decoded, Value;
    assert forall j: nat :: LastOf(fs, name, j) ==> j == i;
  }

  /** The verdict on the fields of a query: a code exactly if the login is granted with it, no callback exactly if no field
      has either name. */
  lemma VerdictOnFields(fs: seq<Field>, c: seq<Byte>)
    requires GoodFields(fs)
    ensures var v := QueryVerdict(Pieces(QueryText(fs)));
            && (v == Code(c) <==> Grants(fs, c))
            && (v == NotCallback <==> !Named(fs, SUCCESS_WORD) && !Named(fs, CODE_WORD))
            && v != Incomplete
  {
    hide Pieces, QueryText, NameOf, RawOf, LastRaw, AllDecode, ValuesDecode, Decoded, Value, FieldText, LastOf, Named, LastDecodesTo, GoodField;
    var ps := Pieces(QueryText(fs));
    PiecesAreFields(fs);
    forall k | 0 <= k < |fs| ensures NameOf(ps[k]) == fs[k].name && RawOf(ps[k]) == Value(fs[k]) {
      FieldIsPiece(fs[k]);
    }
    WordsSpelled();
    AllDecodeMeans(fs, ps);
    LastMeans(fs, ps, SUCCESS_WORD, TRUE_WORD);
    LastMeans(fs, ps, CODE_WORD, c);
  }

  lemma LastMeans(fs: seq<Field>, ps: seq<seq<Byte>>, name: seq<Byte>, text: seq<Byte>)
    requires |ps| == |fs| && forall k :: 0 <= k < |fs| ==> NameOf(ps[k]) == fs[k].name && RawOf(ps[k]) == Value(fs[k])
    ensures LastRaw(ps, name).Some? <==> Named(fs, name)
    ensures LastDecodesTo(fs, name, text) <==> LastRaw(ps, name).Some? && Decoded(LastRaw(ps, name).value) == Some(text)
  {
    hide NameOf, RawOf, LastRaw, Decoded, Value, LastOf;
    LastRawIsLast(fs, ps, name);
    if Named(fs, name) {
      var i: nat :| LastOf(fs, name, i);
      LastIsOne(fs, name, text, i);
    }
  }

  /** Every query is a list of fields. */
  lemma {:induction false} QueryHasFields(q: seq<Byte>) returns (fs: seq<Field>)
    ensures GoodFields(fs) && QueryText(fs) == q
    decreases |q|
  {
    hide Find;
    var a := Find(q, AMP, 0);
    var f := PieceHasField(q[..a]);
    if a == |q| {
      fs := [f];
      assert q[..a] == q;
    } else {
      var rest := QueryHasFields(q[a + 1..]);
      fs := [f] + rest;
      assert fs[1..] == rest;
      assert q == q[..a] + [AMP] + q[a + 1..];
    }
  }

  lemma PieceHasField(p: seq<Byte>) returns (f: Field)
    requires Lacks(p, AMP)
    ensures GoodField(f) && FieldText(f) == p
  {
    hide Find;
    var e := Find(p, EQUALS, 0);
    if e == |p| {
      f := Bare(p);
    } else {
      f := Valued(p[..e], p[e + 1..]);
    }
  }

  // ----- the request -----

  predicate CrlfAt(r: seq<Byte>, i: nat) {
    i + 1 < |r| && r[i] == 0x0D && r[i + 1] == 0x0A
  }

  /** The request is `line`, the first CRLF, and anything. */
  predicate FirstLine(r: seq<Byte>, line: seq<Byte>) {
    CrlfAt(r, |line|) && r[..|line|] == line && forall k: nat :: k < |line| ==> !CrlfAt(r, k)
  }

  lemma {:induction false} CrlfIsFirst(r: seq<Byte>, i: nat)
    requires i <= |r|
    ensures var e := FindCrlf(r, i);
            && (e < |r| ==> CrlfAt(r, e)) && (e == |r| ==> forall k: nat :: i <= k ==> !CrlfAt(r, k))
            && forall k: nat :: i <= k < e ==> !CrlfAt(r, k)
    decreases |r| - i
  {
    if i + 1 < |r| && !CrlfAt(r, i) {
      CrlfIsFirst(r, i + 1);
    }
  }

  /** The request asks, in a first line shorter than 8192 bytes, with the fields `fs`. */
  ghost predicate Asks(r: seq<Byte>, fs: seq<Field>) {
    && GoodFields(fs)
    && exists line, path, fragment, version ::
         FirstLine(r, line) && |line| < 8192 && RequestLine(line, path, QueryText(fs), fragment, version)
  }

  lemma AsksParses(r: seq<Byte>, fs: seq<Field>)
    requires Asks(r, fs)
    ensures Parse(r) == QueryVerdict(Pieces(QueryText(fs))) && GoodFields(fs)
  {
    hide FindCrlf, QueryOf, QueryText, RequestLine, GoodFields, QueryVerdict, Pieces;
    CrlfIsFirst(r, 0);
    var line, path, fragment, version :|
      FirstLine(r, line) && |line| < 8192 && RequestLine(line, path, QueryText(fs), fragment, version);
    assert FindCrlf(r, 0) == |line|;
    LineHasQuery(line, path, QueryText(fs), fragment, version);
  }

  /** The verdict on a request that asks. */
  lemma Answer(r: seq<Byte>, fs: seq<Field>, d: seq<Byte>)
    requires Asks(r, fs)
    ensures Parse(r) == Code(d) <==> Grants(fs, d)
    ensures Parse(r) == NotCallback <==> !Named(fs, SUCCESS_WORD) && !Named(fs, CODE_WORD)
    ensures Parse(r) != Incomplete
  {
    hide Asks, Parse, Pieces, QueryVerdict, QueryText, Grants, Named, GoodFields;
    AsksParses(r, fs);
    VerdictOnFields(fs, d);
  }

  lemma AnswerWasAsked(r: seq<Byte>) returns (fs: seq<Field>)
    requires Parse(r).Code? || Parse(r) == Failed
    ensures Asks(r, fs)
  {
    hide FindCrlf, QueryOf, QueryText, RequestLine, GoodFields, QueryVerdict, Pieces;
    var end := FindCrlf(r, 0);
    CrlfIsFirst(r, 0);
    fs := QueryHasFields(QueryOf(r[..end]).value);
    QueryHasLine(r[..end]);
    assert FirstLine(r, r[..end]);
  }

  lemma IncompleteExactly(r: seq<Byte>)
    ensures Parse(r) == Incomplete <==> |r| < 8192 && forall k: nat :: !CrlfAt(r, k)
  {
    hide FindCrlf, QueryOf, QueryVerdict, Pieces;
    CrlfIsFirst(r, 0);
    forall ps ensures QueryVerdict(ps) != Incomplete {
      NeverIncomplete(ps);
    }
    if FindCrlf(r, 0) < |r| {
      assert CrlfAt(r, FindCrlf(r, 0));
    }
  }

  lemma NeverIncomplete(ps: seq<seq<Byte>>)
    ensures QueryVerdict(ps) != Incomplete
  {
    hide LastRaw, AllDecode, Decoded;
  }

  /** It answers a code exactly if the first line asks with fields that grant it. */
  lemma CodeExactly(r: seq<Byte>, c: seq<Byte>)
    ensures Parse(r) == Code(c) <==> exists fs :: Asks(r, fs) && Grants(fs, c)
  {
    hide Parse, Asks, Grants;
    if Parse(r) == Code(c) {
      var fs := AnswerWasAsked(r);
      Answer(r, fs, c);
    }
    if fs :| Asks(r, fs) && Grants(fs, c) {
      Answer(r, fs, c);
    }
  }

  /** It answers a failure exactly if the first line asks with a field of either name and no code is granted. */
  lemma FailedExactly(r: seq<Byte>)
    ensures Parse(r) == Failed <==>
              exists fs :: Asks(r, fs) && (Named(fs, SUCCESS_WORD) || Named(fs, CODE_WORD)) && forall d :: !Grants(fs, d)
  {
    hide Parse, Asks, Grants, Named;
    if Parse(r) == Failed {
      var fs := AnswerWasAsked(r);
      forall d ensures !Grants(fs, d) {
        Answer(r, fs, d);
      }
      Answer(r, fs, []);
    }
    if fs :| Asks(r, fs) && (Named(fs, SUCCESS_WORD) || Named(fs, CODE_WORD)) && forall d :: !Grants(fs, d) {
      Answer(r, fs, if Parse(r).Code? then Parse(r).code else []);
    }
  }

  // ----- the redirect that completes a login -----

  /** What Streamlabs redirects to: `path?success=true&code=` and the code, URL-encoded. */
  function Redirect(path: seq<Byte>, c: seq<Byte>): seq<Byte> {
    Ascii("GET ") + path + Ascii("?success=true&code=") + UrlEncoded(c) + Ascii(" HTTP/1.1")
  }

  lemma {:induction false} PlainDecodes(s: seq<Byte>)
    requires Lacks(s, PERCENT) && Lacks(s, PLUS_SIGN)
    ensures Decoded(s) == Some(s)
    decreases |s|
  {
    if s != [] {
      PlainDecodes(s[1..]);
      assert s == [s[0]] + s[1..];
    }
  }

  function RedirectFields(e: seq<Byte>): seq<Field> {
    [Valued(SUCCESS_WORD, TRUE_WORD), Valued(CODE_WORD, e)]
  }

  lemma RedirectGrants(e: seq<Byte>, c: seq<Byte>)
    requires Decoded(e) == Some(c) && 1 <= |c| <= 2048 && forall k :: 0 <= k < |c| ==> 0x21 <= c[k] <= 0x7E
    ensures Grants(RedirectFields(e), c)
  {
    hide Decoded;
    var fs := RedirectFields(e);
    PlainDecodes(TRUE_WORD);
    assert |SUCCESS_WORD| != |CODE_WORD|;
    assert LastOf(fs, SUCCESS_WORD, 0) && LastOf(fs, CODE_WORD, 1);
  }

  lemma MiddleSpelled()
    ensures Ascii("?success=true&code=") == [QUESTION] + (SUCCESS_WORD + [EQUALS] + TRUE_WORD + [AMP] + (CODE_WORD + [EQUALS]))
  {
  }

  lemma EndsSpelled()
    ensures Ascii("GET ") == GET_WORD + [SP] && Ascii(" HTTP/1.1") == [SP] + HTTP_WORD + Ascii("1.1")
  {
  }

  lemma FieldsText(e: seq<Byte>)
    ensures QueryText(RedirectFields(e)) == SUCCESS_WORD + [EQUALS] + TRUE_WORD + [AMP] + (CODE_WORD + [EQUALS] + e)
  {
    var fs := RedirectFields(e);
    assert fs[1..] == [fs[1]];
  }

  lemma Reassociated(a: seq<Byte>, p: seq<Byte>, q: seq<Byte>, m: seq<Byte>, n: seq<Byte>, e: seq<Byte>, b: seq<Byte>, h: seq<Byte>, v: seq<Byte>)
    ensures a + p + (q + (m + n)) + e + (b + h + v) == a + (p + q + (m + (n + e)) + []) + b + h + v
  {
  }

  lemma RedirectIsLine(path: seq<Byte>, c: seq<Byte>)
    ensures var q := QueryText(RedirectFields(UrlEncoded(c)));
            Redirect(path, c) == GET_WORD + [SP] + (path + [QUESTION] + q + []) + [SP] + HTTP_WORD + Ascii("1.1")
  {
    hide QueryText, RedirectFields, UrlEncoded, Ascii;
    var e := UrlEncoded(c);
    MiddleSpelled();
    EndsSpelled();
    FieldsText(e);
    Reassociated(GET_WORD + [SP], path, [QUESTION], SUCCESS_WORD + [EQUALS] + TRUE_WORD + [AMP], CODE_WORD + [EQUALS], e,
                 [SP], HTTP_WORD, Ascii("1.1"));
  }

  lemma QueryIsClean(e: seq<Byte>)
    requires Lacks(e, SP) && Lacks(e, HASH) && Lacks(e, AMP)
    ensures var q := QueryText(RedirectFields(e)); Lacks(q, SP) && Lacks(q, HASH) && (Lacks(e, CR) ==> Lacks(q, CR))
    ensures GoodFields(RedirectFields(e))
  {
    FieldsText(e);
  }

  lemma RedirectAsks(line: seq<Byte>, path: seq<Byte>, e: seq<Byte>, rest: seq<Byte>)
    requires |line| < 8192 && Lacks(line, CR)
    requires path != [] && path[0] == SLASH && Lacks(path, SP) && Lacks(path, QUESTION)
    requires Lacks(e, SP) && Lacks(e, HASH) && Lacks(e, AMP)
    requires line == GET_WORD + [SP] + (path + [QUESTION] + QueryText(RedirectFields(e)) + []) + [SP] + HTTP_WORD + Ascii("1.1")
    ensures Asks(line + [CR, LF] + rest, RedirectFields(e))
  {
    hide QueryText, RedirectFields, Ascii;
    QueryIsClean(e);
    assert RequestLine(line, path, QueryText(RedirectFields(e)), [], Ascii("1.1"));
    assert FirstLine(line + [CR, LF] + rest, line);
  }

  lemma LineLacksCr(path: seq<Byte>, q: seq<Byte>)
    requires Lacks(path, CR) && Lacks(q, CR)
    ensures Lacks(GET_WORD + [SP] + (path + [QUESTION] + q + []) + [SP] + HTTP_WORD + Ascii("1.1"), CR)
  {
  }

  /** Every code of up to 2048 visible characters arrives, whatever follows the line. */
  lemma RedirectIsAnswered(path: seq<Byte>, c: seq<Byte>, rest: seq<Byte>)
    requires path != [] && path[0] == 0x2F && Lacks(path, 0x20) && Lacks(path, 0x3F) && Lacks(path, 0x0D)
    requires 1 <= |c| <= 2048 && forall k :: 0 <= k < |c| ==> 0x21 <= c[k] <= 0x7E
    requires |Redirect(path, c)| < 8192
    ensures Parse(Redirect(path, c) + [0x0D, 0x0A] + rest) == Code(c)
  {
    hide Parse, Asks, Grants, UrlEncoded, Redirect, RedirectFields, QueryText, Decoded, Ascii;
    var e := UrlEncoded(c);
    DecodeInvertsEncode(c);
    EncodingIsSafe(c);
    RedirectGrants(e, c);
    RedirectIsLine(path, c);
    QueryIsClean(e);
    LineLacksCr(path, QueryText(RedirectFields(e)));
    RedirectAsks(Redirect(path, c), path, e, rest);
    Answer(Redirect(path, c) + [CR, LF] + rest, RedirectFields(e), c);
  }
}
