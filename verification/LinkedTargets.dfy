/** What the target comparison means on the texts: which key a server URL has, and which endpoints are selected. */
module LinkedTargets {
  import opened LinkedStart
  import opened Options

  // ----- trimming -----

  predicate Blank(c: char) {
    c in " \t\r\n"
  }

  predicate Blanks(s: string) {
    forall k :: 0 <= k < |s| ==> Blank(s[k])
  }

  predicate Trimmed(s: string) {
    s != "" ==> !Blank(s[0]) && !Blank(s[|s| - 1])
  }

  /** `t` is `s` without the blanks around it. */
  ghost predicate IsTrim(s: string, t: string) {
    Trimmed(t) && exists left, right :: Around(s, left, t, right)
  }

  predicate Around(s: string, left: string, t: string, right: string) {
    s == left + t + right && Blanks(left) && Blanks(right)
  }

  lemma BlankIs(c: char)
    ensures IsBlank(c) <==> Blank(c)
  {
    assert Blank(c) <==> c == ' ' || c == '\t' || c == '\r' || c == '\n';
  }

  lemma {:induction false} LeftBlanks(s: string) returns (left: string)
    ensures s == left + TrimLeft(s) && Blanks(left) && (TrimLeft(s) != "" ==> !Blank(TrimLeft(s)[0]))
    decreases |s|
  {
    hide Blank, IsBlank;
    if s != "" {
      BlankIs(s[0]);
    }
    if s != "" && IsBlank(s[0]) {
      var l := LeftBlanks(s[1..]);
      left := [s[0]] + l;
      assert s == [s[0]] + s[1..];
    } else {
      left := "";
    }
  }

  lemma {:induction false} RightBlanks(s: string) returns (right: string)
    ensures s == TrimRight(s) + right && Blanks(right) && (TrimRight(s) != "" ==> !Blank(TrimRight(s)[|TrimRight(s)| - 1]))
    ensures TrimRight(s) != "" ==> TrimRight(s)[0] == s[0]
    decreases |s|
  {
    hide Blank, IsBlank;
    if s != "" {
      BlankIs(s[|s| - 1]);
    }
    if s != "" && IsBlank(s[|s| - 1]) {
      var r := RightBlanks(s[..|s| - 1]);
      right := r + [s[|s| - 1]];
      assert s == s[..|s| - 1] + [s[|s| - 1]];
    } else {
      right := "";
    }
  }

  lemma TrimIsTrim(s: string)
    ensures IsTrim(s, Trim(s))
  {
    var left := LeftBlanks(s);
    var right := RightBlanks(TrimLeft(s));
    assert Around(s, left, Trim(s), right);
  }

  lemma OneTrim(s: string, t: string, u: string)
    requires IsTrim(s, t) && IsTrim(s, u)
    ensures t == u
  {
    var l, r :| Around(s, l, t, r);
    var m, q :| Around(s, m, u, q);
    if t != "" && u != "" {
      FirstNonBlank(s, l, t, r, m, u, q);
    } else if t == "" {
      AllBlank(s, l, r, m, u, q);
    } else {
      AllBlank(s, m, q, l, t, r);
    }
  }

  lemma AllBlank(s: string, l: string, r: string, m: string, u: string, q: string)
    requires Around(s, l, "", r) && Around(s, m, u, q) && Trimmed(u)
    ensures u == ""
  {
    assert forall k :: 0 <= k < |s| ==> Blank(s[k]);
    assert forall k :: 0 <= k < |u| ==> u[k] == s[|m| + k];
  }

  lemma FirstNonBlank(s: string, l: string, t: string, r: string, m: string, u: string, q: string)
    requires Around(s, l, t, r) && Around(s, m, u, q) && Trimmed(t) && Trimmed(u) && t != "" && u != ""
    ensures t == u
  {
    EndsOf(s, l, t, r);
    EndsOf(s, m, u, q);
    assert |l| == |m| && |l| + |t| == |m| + |u|;
  }

  /** The text begins at the first character of `s` that is no blank and ends at the last. */
  lemma EndsOf(s: string, l: string, t: string, r: string)
    requires Around(s, l, t, r) && Trimmed(t) && t != ""
    ensures (forall k :: 0 <= k < |l| ==> Blank(s[k])) && !Blank(s[|l|])
    ensures (forall k :: |l| + |t| <= k < |s| ==> Blank(s[k])) && !Blank(s[|l| + |t| - 1]) && t == s[|l|..|l| + |t|]
  {
    assert forall k :: |l| + |t| <= k < |s| ==> s[k] == r[k - |l| - |t|];
    assert s[|l|] == t[0] && s[|l| + |t| - 1] == t[|t| - 1];
  }

  // ----- the key of a URL -----

  predicate IsLower(t: string, s: string) {
    |t| == |s| && forall k :: 0 <= k < |s| ==>
      if 'A' <= s[k] <= 'Z' then 'a' <= t[k] <= 'z' && t[k] as int - 'a' as int == s[k] as int - 'A' as int else t[k] == s[k]
  }

  predicate SchemeAt(s: string, i: int) {
    0 <= i && i + 3 <= |s| && s[i..i + 3] == "://"
  }

  /** A scheme ends at the first "://", an authority at the first slash after it. */
  ghost predicate Parts(s: string, scheme: string, authority: string, path: string) {
    && s == scheme + authority + path
    && (if scheme == "" then forall i :: !SchemeAt(s, i) else SchemeAt(s, |scheme| - 3) && forall i :: i < |scheme| - 3 ==> !SchemeAt(s, i))
    && (forall k :: 0 <= k < |authority| ==> authority[k] != '/') && (path == "" || path[0] == '/')
  }

  /** `bare` is the authority without the default port of its scheme, if it has it and more. */
  predicate WithoutPort(scheme: string, authority: string, bare: string) {
    if scheme == "rtmp://" && |authority| > 5 && authority[|authority| - 5..] == ":1935" then authority == bare + ":1935"
    else if scheme == "rtmps://" && |authority| > 4 && authority[|authority| - 4..] == ":443" then authority == bare + ":443"
    else bare == authority
  }

  /** `bare` is the path without the slashes it ends in. */
  predicate WithoutSlashes(path: string, bare: string) {
    && bare <= path && (bare != "" ==> bare[|bare| - 1] != '/') && forall k :: |bare| <= k < |path| ==> path[k] == '/'
  }

  /** The key of a URL: trimmed, scheme and authority in lower case, no default port, no slash at the end. */
  ghost predicate IsKey(url: string, key: string) {
    exists s :: IsTrim(url, s) && if s == "" then key == "" else
      exists scheme, authority, path, a, b, c, d :: KeyOf(s, scheme, authority, path, a, b, c, d) && key == a + c + d
  }

  ghost predicate KeyOf(s: string, scheme: string, authority: string, path: string, a: string, b: string, c: string, d: string) {
    Parts(s, scheme, authority, path) && IsLower(a, scheme) && IsLower(b, authority) && WithoutPort(a, b, c) && WithoutSlashes(path, d)
  }

  lemma {:induction false} SchemeIsFirst(s: string, i: nat)
    requires i <= |s|
    ensures var p := FindScheme(s, i);
            && (p < |s| ==> SchemeAt(s, p)) && (forall k :: i <= k < p ==> !SchemeAt(s, k))
            && (p == |s| ==> forall k :: i <= k ==> !SchemeAt(s, k))
    decreases |s| - i
  {
    if i + 3 <= |s| && s[i..i + 3] != "://" {
      SchemeIsFirst(s, i + 1);
    }
  }

  lemma SchemeFits(s: string, i: int)
    ensures SchemeAt(s, i) ==> 0 <= i && i + 3 <= |s|
  {
  }

  lemma CutIsParts(s: string)
    ensures var (scheme, authority, path) := Cut(s); Parts(s, scheme, authority, path)
  {
    hide FindScheme, Find, SchemeAt;
    SchemeIsFirst(s, 0);
    var p := FindScheme(s, 0);
    SchemeFits(s, p);
    var a := if p == |s| then 0 else p + 3;
    var b := Find(s, '/', a);
    assert s == s[..a] + s[a..b] + s[b..];
    assert forall k :: SchemeAt(s, k) ==> k >= 0 by {
      forall k | SchemeAt(s, k) ensures k >= 0 {
        SchemeFits(s, k);
      }
    }
  }

  lemma OneCut(s: string, scheme: string, authority: string, path: string)
    requires Parts(s, scheme, authority, path)
    ensures Cut(s) == (scheme, authority, path)
  {
    hide FindScheme, Find;
    SchemeIsFirst(s, 0);
    var p := FindScheme(s, 0);
    if scheme == "" {
      assert p < |s| ==> SchemeAt(s, p);
      assert p == |s|;
    } else {
      assert SchemeAt(s, |scheme| - 3);
      assert p < |s|;
      assert p == |scheme| - 3;
    }
    var b := Find(s, '/', |scheme|);
    assert forall k :: |scheme| <= k < |scheme| + |authority| ==> s[k] == authority[k - |scheme|];
    assert path != "" ==> s[|scheme| + |authority|] == path[0];
    assert b == |scheme| + |authority|;
    assert s[..|scheme|] == scheme && s[|scheme|..b] == authority && s[b..] == path;
  }

  lemma LowerIsLower(s: string, t: string)
    ensures IsLower(t, s) <==> t == Lower(s)
  {
    if IsLower(t, s) {
      assert forall k :: 0 <= k < |s| ==> t[k] as int == LowerChar(s[k]) as int;
    }
  }

  lemma PortIsDropped(scheme: string, authority: string, bare: string)
    ensures WithoutPort(scheme, authority, bare) <==> bare == DropPort(authority, DefaultPort(scheme))
  {
    var n := |authority|;
    if scheme == "rtmp://" && n > 5 && authority[n - 5..] == ":1935" {
      assert authority == authority[..n - 5] + ":1935";
      assert (bare + ":1935")[..|bare|] == bare;
    } else if scheme == "rtmps://" && n > 4 && authority[n - 4..] == ":443" {
      assert authority == authority[..n - 4] + ":443";
      assert (bare + ":443")[..|bare|] == bare;
    }
  }

  lemma {:induction false} SlashesAreDropped(path: string)
    ensures WithoutSlashes(path, DropSlashes(path))
    decreases |path|
  {
    if path != "" && path[|path| - 1] == '/' {
      SlashesAreDropped(path[..|path| - 1]);
    }
  }

  lemma OneWithoutSlashes(path: string, d: string, e: string)
    requires WithoutSlashes(path, d) && WithoutSlashes(path, e)
    ensures d == e
  {
    assert e != "" ==> path[|e| - 1] != '/';
    assert d != "" ==> path[|d| - 1] != '/';
    assert d == path[..|d|] && e == path[..|e|];
  }

  /** Every URL has exactly one key, and the program computes it. */
  lemma KeyIsComputed(url: string, key: string)
    ensures IsKey(url, key) <==> key == Normalize(url)
  {
    hide Trim, IsTrim, Cut, Lower, IsLower, DropPort, DefaultPort, WithoutPort, DropSlashes, WithoutSlashes, Parts;
    TrimIsTrim(url);
    var s := Trim(url);
    forall u | IsTrim(url, u) ensures u == s {
      OneTrim(url, s, u);
    }
    if s != "" {
      CutIsParts(s);
      var (scheme, authority, path) := Cut(s);
      LowerIsLower(scheme, Lower(scheme));
      LowerIsLower(authority, Lower(authority));
      PortIsDropped(Lower(scheme), Lower(authority), DropPort(Lower(authority), DefaultPort(Lower(scheme))));
      SlashesAreDropped(path);
      assert KeyOf(s, scheme, authority, path, Lower(scheme), Lower(authority),
                   DropPort(Lower(authority), DefaultPort(Lower(scheme))), DropSlashes(path));
      forall sc, au, pa, a, b, c, d | KeyOf(s, sc, au, pa, a, b, c, d) ensures a + c + d == Normalize(url) {
        OnlyKey(s, sc, au, pa, a, b, c, d);
      }
    }
  }

  lemma OnlyKey(s: string, scheme: string, authority: string, path: string, a: string, b: string, c: string, d: string)
    requires KeyOf(s, scheme, authority, path, a, b, c, d)
    ensures Cut(s) == (scheme, authority, path) && a == Lower(scheme)
    ensures c == DropPort(Lower(authority), DefaultPort(Lower(scheme))) && d == DropSlashes(path)
  {
    hide Trim, Cut, Lower, IsLower, DropPort, DefaultPort, WithoutPort, DropSlashes, WithoutSlashes, Parts;
    OneCut(s, scheme, authority, path);
    LowerIsLower(scheme, a);
    LowerIsLower(authority, b);
    PortIsDropped(a, b, c);
    SlashesAreDropped(path);
    OneWithoutSlashes(path, d, DropSlashes(path));
  }

  /** Two targets are the same exactly if their trimmed stream keys are one that is not empty, and their URLs have one key. */
  lemma SameTargetMeans(a: Target, b: Target)
    ensures SameTarget(a, b) <==>
              && (exists k :: k != "" && IsTrim(a.key, k) && IsTrim(b.key, k))
              && (exists u :: IsKey(a.url, u) && IsKey(b.url, u))
  {
    hide Trim, IsTrim, Normalize, IsKey;
    KeyIsComputed(a.url, Normalize(a.url));
    KeyIsComputed(b.url, Normalize(b.url));
    TrimIsTrim(a.key);
    TrimIsTrim(b.key);
    forall u | IsKey(a.url, u) && IsKey(b.url, u) ensures Normalize(a.url) == Normalize(b.url) {
      KeyIsComputed(a.url, u);
      KeyIsComputed(b.url, u);
    }
    if SameTarget(a, b) {
      KeyIsComputed(b.url, Normalize(a.url));
    }
    forall k | IsTrim(a.key, k) && IsTrim(b.key, k) ensures k == Trim(a.key) == Trim(b.key) {
      OneTrim(a.key, k, Trim(a.key));
      OneTrim(b.key, k, Trim(b.key));
    }
  }

  // ----- the selection -----

  /** `ps` are the positions of the enabled and linked endpoints, ascending. */
  ghost predicate SelectedAt(all: seq<Endpoint>, ps: seq<nat>) {
    && (forall i, j :: 0 <= i < j < |ps| ==> ps[i] < ps[j])
    && (forall k: nat :: k in ps <==> k < |all| && all[k].enabled && all[k].linked)
  }

  ghost predicate IsSelection(all: seq<Endpoint>, ps: seq<nat>, out: seq<Endpoint>) {
    SelectedAt(all, ps) && |out| == |ps| && forall i :: 0 <= i < |ps| ==> ps[i] < |all| && out[i] == all[ps[i]]
  }

  /** The selection is the endpoints at these positions, each once, in the order of the list. */
  lemma {:induction false} SelectionIs(all: seq<Endpoint>) returns (ps: seq<nat>)
    ensures IsSelection(all, ps, Select(all))
    decreases |all|
  {
    hide IsSelection;
    if all == [] {
      ps := [];
      NothingSelected();
    } else {
      var n := |all| - 1;
      ps := SelectionIs(all[..n]);
      OneMore(all, ps, Select(all[..n]));
      assert Select(all[..n]) + [] == Select(all[..n]);
      ps := if all[n].enabled && all[n].linked then ps + [n] else ps;
    }
  }

  lemma NothingSelected()
    ensures IsSelection([], [], [])
  {
  }

  lemma OneMore(all: seq<Endpoint>, ps: seq<nat>, out: seq<Endpoint>)
    requires all != [] && IsSelection(all[..|all| - 1], ps, out)
    ensures var n := |all| - 1;
            if all[n].enabled && all[n].linked then IsSelection(all, ps + [n], out + [all[n]]) else IsSelection(all, ps, out)
  {
    var n := |all| - 1;
    assert forall k: nat :: k in ps + [n] <==> k in ps || k == n;
  }
}
