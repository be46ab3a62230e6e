/** Which linked endpoints start with the main stream (src/core/LinkedStart.cpp), and the target comparison it
    rests on (src/core/EndpointValidation.cpp). */
module LinkedStart {
  import opened Options

  datatype Target = Target(url: string, key: string)
  datatype Endpoint = Endpoint(id: string, name: string, enabled: bool, linked: bool, target: Target)
  datatype DuplicateKind = NoDuplicate | OtherEndpoint(name: string) | MainService
  datatype Skipped = Skipped(name: string, kind: DuplicateKind)

  // ----- texts -----

  predicate IsBlank(c: char) {
    c == ' ' || c == '\t' || c == '\r' || c == '\n'
  }

  function TrimLeft(s: string): string {
    if s != [] && IsBlank(s[0]) then TrimLeft(s[1..]) else s
  }

  function TrimRight(s: string): string {
    if s != [] && IsBlank(s[|s| - 1]) then TrimRight(s[..|s| - 1]) else s
  }

  function Trim(s: string): string {
    TrimRight(TrimLeft(s))
  }

  function LowerChar(c: char): char {
    if 'A' <= c <= 'Z' then (c as int - 'A' as int + 'a' as int) as char else c
  }

  function Lower(s: string): (t: string)
    ensures |t| == |s| && forall k :: 0 <= k < |s| ==> t[k] == LowerChar(s[k])
  {
    if s == [] then [] else [LowerChar(s[0])] + Lower(s[1..])
  }

  /** The first position of `c` from `i` on, else the length. */
  function Find(s: string, c: char, i: nat): (p: nat)
    requires i <= |s|
    ensures i <= p <= |s| && (p < |s| ==> s[p] == c) && forall k :: i <= k < p ==> s[k] != c
    decreases |s| - i
  {
    if i == |s| || s[i] == c then i else Find(s, c, i + 1)
  }

  /** Where "://" first begins, else the length. */
  function FindScheme(s: string, i: nat): (p: nat)
    requires i <= |s|
    ensures i <= p <= |s| && (p < |s| ==> p + 3 <= |s| && s[p..p + 3] == "://")
    decreases |s| - i
  {
    if i + 3 > |s| then |s| else if s[i..i + 3] == "://" then i else FindScheme(s, i + 1)
  }

  function DropSlashes(s: string): string {
    if s != [] && s[|s| - 1] == '/' then DropSlashes(s[..|s| - 1]) else s
  }

  function DefaultPort(scheme: string): string {
    if scheme == "rtmp://" then ":1935" else if scheme == "rtmps://" then ":443" else ""
  }

  predicate EndsWith(s: string, suffix: string) {
    |suffix| <= |s| && s[|s| - |suffix|..] == suffix
  }

  function DropPort(authority: string, port: string): string {
    if port != "" && |authority| > |port| && EndsWith(authority, port) then authority[..|authority| - |port|] else authority
  }

  /** Scheme with "://", authority and path of a trimmed URL. */
  function Cut(s: string): (string, string, string) {
    var p := FindScheme(s, 0);
    var a := if p == |s| then 0 else p + 3;
    var b := Find(s, '/', a);
    (s[..a], s[a..b], s[b..])
  }

  function Normalize(url: string): string {
    var s := Trim(url);
    if s == "" then "" else
    var (scheme, authority, path) := Cut(s);
    Lower(scheme) + DropPort(Lower(authority), DefaultPort(Lower(scheme))) + DropSlashes(path)
  }

  predicate SameTarget(a: Target, b: Target) {
    Trim(a.key) != "" && Trim(a.key) == Trim(b.key) && Normalize(a.url) == Normalize(b.url)
  }

  // ----- the URL normalisation with its loops -----

  method LowerAscii(s: string) returns (t: string)
    ensures t == Lower(s)
  {
    t := s;
    for i := 0 to |s|
      invariant |t| == |s| && (forall k :: 0 <= k < i ==> t[k] == LowerChar(s[k])) && forall k :: i <= k < |s| ==> t[k] == s[k]
    {
      if 'A' <= t[i] <= 'Z' {
        t := t[i := (t[i] as int - 'A' as int + 'a' as int) as char];
      }
    }
  }

  method NormalizeServerUrl(url: string) returns (r: string)
    ensures r == Normalize(url)
  {
    hide Trim, FindScheme, Find, DropPort, EndsWith;
    var s := Trim(url);
    if s == "" {
      return "";
    }
    var scheme, start := "", 0;
    var pos := FindScheme(s, 0);
    if pos != |s| {
      scheme := LowerAscii(s[..pos + 3]);
      start := pos + 3;
    }
    var pathStart := Find(s, '/', start);
    var authority, path := s[start..pathStart], s[pathStart..];
    while path != "" && path[|path| - 1] == '/'
      invariant DropSlashes(path) == DropSlashes(s[pathStart..])
      decreases |path|
    {
      path := path[..|path| - 1];
    }
    authority := LowerAscii(authority);
    if DefaultPort(scheme) != "" {
      authority := DropPort(authority, DefaultPort(scheme));
    }
    NoPort(authority);
    r := scheme + authority + path;
  }

  lemma NoPort(authority: string)
    ensures DropPort(authority, "") == authority && Lower("") == ""
  {
  }

  lemma SameTargetSymmetric(a: Target, b: Target)
    ensures SameTarget(a, b) == SameTarget(b, a)
  {
  }

  lemma SameTargetTransitive(a: Target, b: Target, c: Target)
    requires SameTarget(a, b) && SameTarget(b, c)
    ensures SameTarget(a, c)
  {
  }

  // ----- the plan -----

  predicate Chosen(ep: Endpoint) {
    ep.enabled && ep.linked
  }

  function Select(all: seq<Endpoint>): seq<Endpoint> {
    if all == [] then [] else Select(all[..|all| - 1]) + if Chosen(all[|all| - 1]) then [all[|all| - 1]] else []
  }

  /** find_duplicate: the first other enabled endpoint with the candidate's target, else the main service. */
  function FindDuplicate(candidate: Endpoint, others: seq<Endpoint>, main: Option<Target>): DuplicateKind
    decreases |others|
  {
    if others == [] then if main.Some? && SameTarget(candidate.target, main.value) then MainService else NoDuplicate
    else if others[0].id != candidate.id && others[0].enabled && SameTarget(candidate.target, others[0].target) then OtherEndpoint(others[0].name)
    else FindDuplicate(candidate, others[1..], main)
  }

  /** Position k of the selection is started. */
  function Started(sel: seq<Endpoint>, main: Option<Target>): (to: seq<Endpoint>)
    decreases |sel|
  {
    if sel == [] then [] else
    var before := Started(sel[..|sel| - 1], main);
    if FindDuplicate(sel[|sel| - 1], before, main).NoDuplicate? then before + [sel[|sel| - 1]] else before
  }

  function SkippedOf(sel: seq<Endpoint>, main: Option<Target>): seq<Skipped>
    decreases |sel|
  {
    if sel == [] then [] else
    var last, front := sel[|sel| - 1], sel[..|sel| - 1];
    var dup := FindDuplicate(last, Started(front, main), main);
    SkippedOf(front, main) + if dup.NoDuplicate? then [] else [Skipped(last.name, dup)]
  }

  method SelectLinked(all: seq<Endpoint>) returns (out: seq<Endpoint>)
    ensures out == Select(all)
  {
    out := [];
    for i := 0 to |all|
      invariant out == Select(all[..i])
    {
      assert all[..i + 1][..i] == all[..i];
      if all[i].enabled && all[i].linked {
        out := out + [all[i]];
      }
    }
    assert all[..|all|] == all;
  }

  method Duplicate(candidate: Endpoint, others: seq<Endpoint>, main: Option<Target>) returns (kind: DuplicateKind)
    ensures kind == FindDuplicate(candidate, others, main)
  {
    for i := 0 to |others|
      invariant FindDuplicate(candidate, others[i..], main) == FindDuplicate(candidate, others, main)
    {
      assert others[i..][1..] == others[i + 1..];
      if others[i].id == candidate.id || !others[i].enabled {
        continue;
      }
      if SameTarget(candidate.target, others[i].target) {
        return OtherEndpoint(others[i].name);
      }
    }
    if main.Some? && SameTarget(candidate.target, main.value) {
      return MainService;
    }
    return NoDuplicate;
  }

  lemma PlanStep(sel: seq<Endpoint>, main: Option<Target>, n: nat)
    requires n <= |sel|
    ensures n == 0 ==> Started(sel[..n], main) == [] && SkippedOf(sel[..n], main) == []
    ensures n > 0 ==>
              var before := Started(sel[..n - 1], main);
              var dup := FindDuplicate(sel[n - 1], before, main);
              && Started(sel[..n], main) == before + (if dup.NoDuplicate? then [sel[n - 1]] else [])
              && SkippedOf(sel[..n], main) == SkippedOf(sel[..n - 1], main) + if dup.NoDuplicate? then [] else [Skipped(sel[n - 1].name, dup)]
  {
    hide FindDuplicate;
    if n > 0 {
      assert sel[..n][..n - 1] == sel[..n - 1];
    }
  }

  method Plan(all: seq<Endpoint>, main: Option<Target>) returns (toStart: seq<Endpoint>, skipped: seq<Skipped>)
    ensures toStart == Started(Select(all), main) && skipped == SkippedOf(Select(all), main)
  {
    hide FindDuplicate, Started, SkippedOf;
    var sel := SelectLinked(all);
    toStart, skipped := [], [];
    PlanStep(sel, main, 0);
    for i := 0 to |sel|
      invariant toStart == Started(sel[..i], main) && skipped == SkippedOf(sel[..i], main)
    {
      PlanStep(sel, main, i + 1);
      var dup := Duplicate(sel[i], toStart, main);
      if dup != NoDuplicate {
        skipped := skipped + [Skipped(sel[i].name, dup)];
      } else {
        toStart := toStart + [sel[i]];
      }
    }
    assert sel[..|sel|] == sel;
  }

  // ----- what the plan promises -----

  predicate DistinctIds(eps: seq<Endpoint>) {
    forall i, j :: 0 <= i < j < |eps| ==> eps[i].id != eps[j].id
  }

  predicate AllEnabled(eps: seq<Endpoint>) {
    forall i :: 0 <= i < |eps| ==> eps[i].enabled
  }

  /** The main service or an earlier selected endpoint, started or not, has the target of the k-th. */
  predicate Taken(sel: seq<Endpoint>, main: Option<Target>, k: nat)
    requires k < |sel|
  {
    TakenByMain(sel, main, k) || exists j :: 0 <= j < k && SameTarget(sel[k].target, sel[j].target)
  }

  predicate TakenByMain(sel: seq<Endpoint>, main: Option<Target>, k: nat)
    requires k < |sel|
  {
    main.Some? && SameTarget(sel[k].target, main.value)
  }

  /** The positions below n that are taken (or not), in order. */
  function Positions(sel: seq<Endpoint>, main: Option<Target>, n: nat, taken: bool): (ps: seq<nat>)
    requires n <= |sel|
    ensures forall i :: 0 <= i < |ps| ==> ps[i] < n
  {
    if n == 0 then [] else
    Positions(sel, main, n - 1, taken) + if Taken(sel, main, n - 1) == taken then [n - 1] else []
  }

  lemma {:induction false} PositionsHave(sel: seq<Endpoint>, main: Option<Target>, n: nat, taken: bool, k: nat)
    requires k < n <= |sel| && Taken(sel, main, k) == taken
    ensures k in Positions(sel, main, n, taken)
  {
    hide Taken;
    var before := Positions(sel, main, n - 1, taken);
    if k < n - 1 {
      PositionsHave(sel, main, n - 1, taken, k);
      assert k in before + [n - 1] && before + [] == before;
    } else {
      assert k in before + [n - 1];
    }
  }

  lemma {:induction false} PositionsAscend(sel: seq<Endpoint>, main: Option<Target>, n: nat, taken: bool, i: nat, j: nat)
    requires n <= |sel| && i <= j < |Positions(sel, main, n, taken)|
    ensures var ps := Positions(sel, main, n, taken); Taken(sel, main, ps[j]) == taken && (i < j ==> ps[i] < ps[j])
  {
    hide Taken;
    var before := Positions(sel, main, n - 1, taken);
    assert before + [] == before;
    if j < |before| {
      PositionsAscend(sel, main, n - 1, taken, i, j);
    }
  }

  /** They ascend, and they are exactly the positions that are taken (or not). */
  lemma PositionsAre(sel: seq<Endpoint>, main: Option<Target>, n: nat, taken: bool)
    requires n <= |sel|
    ensures var ps := Positions(sel, main, n, taken);
            && (forall i :: 0 <= i < |ps| ==> Taken(sel, main, ps[i]) == taken)
            && (forall i, j :: 0 <= i < j < |ps| ==> ps[i] < ps[j])
            && (forall k: nat :: k < n && Taken(sel, main, k) == taken ==> k in ps)
  {
    hide Taken, Positions;
    var ps := Positions(sel, main, n, taken);
    forall i | 0 <= i < |ps| ensures Taken(sel, main, ps[i]) == taken {
      PositionsAscend(sel, main, n, taken, i, i);
    }
    forall i, j | 0 <= i < j < |ps| ensures ps[i] < ps[j] {
      PositionsAscend(sel, main, n, taken, i, j);
    }
    forall k: nat | k < n && Taken(sel, main, k) == taken ensures k in ps {
      PositionsHave(sel, main, n, taken, k);
    }
  }

  lemma {:induction false} DuplicateMeans(candidate: Endpoint, others: seq<Endpoint>, main: Option<Target>)
    requires forall k :: 0 <= k < |others| ==> others[k].enabled && others[k].id != candidate.id
    ensures FindDuplicate(candidate, others, main).NoDuplicate? <==>
              && !(main.Some? && SameTarget(candidate.target, main.value))
              && forall k :: 0 <= k < |others| ==> !SameTarget(candidate.target, others[k].target)
    decreases |others|
  {
    hide SameTarget;
    if others != [] {
      DuplicateMeans(candidate, others[1..], main);
      assert forall k :: 1 <= k < |others| ==> others[k] == others[1..][k - 1];
    }
  }

  /** The kind names the first endpoint with the target, or the main service when no endpoint has it. */
  lemma {:induction false} KindMeans(candidate: Endpoint, others: seq<Endpoint>, main: Option<Target>)
    ensures var kind := FindDuplicate(candidate, others, main);
            && (kind.OtherEndpoint? ==> exists k :: 0 <= k < |others| && SameTarget(candidate.target, others[k].target) && kind.name == others[k].name)
            && (kind.MainService? ==> main.Some? && SameTarget(candidate.target, main.value))
    decreases |others|
  {
    hide SameTarget;
    if others != [] {
      KindMeans(candidate, others[1..], main);
      assert forall k :: 1 <= k < |others| ==> others[k] == others[1..][k - 1];
    }
  }

  /** Whatever an earlier endpoint shares a target with, the main service or a first one covers. */
  lemma {:induction false} Covered(sel: seq<Endpoint>, main: Option<Target>, k: nat, j: nat)
    requires j < k < |sel| && SameTarget(sel[k].target, sel[j].target)
    ensures TakenByMain(sel, main, k) || exists m :: 0 <= m <= j && !Taken(sel, main, m) && SameTarget(sel[k].target, sel[m].target)
    decreases j
  {
    hide Normalize, Trim;
    if Taken(sel, main, j) && !TakenByMain(sel, main, j) {
      var i :| 0 <= i < j && SameTarget(sel[j].target, sel[i].target);
      SameTargetTransitive(sel[k].target, sel[j].target, sel[i].target);
      Covered(sel, main, k, i);
    }
  }

  /** `to` is what started of the first n: exactly the first ones of their targets. */
  ghost predicate Matches(sel: seq<Endpoint>, main: Option<Target>, n: nat, to: seq<Endpoint>)
    requires n <= |sel|
  {
    Picks(sel, Positions(sel, main, n, false), to)
  }

  /** `to` holds the endpoints at the positions ps, in that order. */
  ghost predicate Picks(sel: seq<Endpoint>, ps: seq<nat>, to: seq<Endpoint>) {
    |to| == |ps| && forall i :: 0 <= i < |to| ==> ps[i] < |sel| && to[i] == sel[ps[i]]
  }

  lemma PositionsStep(sel: seq<Endpoint>, main: Option<Target>, n: nat, taken: bool)
    requires 0 < n <= |sel|
    ensures Positions(sel, main, n, taken) == Positions(sel, main, n - 1, taken) + if Taken(sel, main, n - 1) == taken then [n - 1] else []
  {
    hide Taken;
  }

  lemma StartedOnesOnly(sel: seq<Endpoint>, main: Option<Target>, n: nat, to: seq<Endpoint>)
    requires n < |sel| && AllEnabled(sel) && DistinctIds(sel) && Matches(sel, main, n, to)
    ensures forall k :: 0 <= k < |to| ==> to[k].enabled && to[k].id != sel[n].id
    ensures forall k :: 0 <= k < |to| ==> exists m :: 0 <= m < n && to[k] == sel[m]
    ensures forall m :: 0 <= m < n && !Taken(sel, main, m) ==> sel[m] in to
  {
    hide Taken;
    var kept := Positions(sel, main, n, false);
    PositionsAre(sel, main, n, false);
    forall m | 0 <= m < n && !Taken(sel, main, m) ensures sel[m] in to {
      var i :| 0 <= i < |kept| && kept[i] == m;
      assert to[i] == sel[m];
    }
  }

  lemma NoDuplicateIffFirst(sel: seq<Endpoint>, main: Option<Target>, n: nat, to: seq<Endpoint>)
    requires n < |sel| && AllEnabled(sel) && DistinctIds(sel) && Matches(sel, main, n, to)
    ensures FindDuplicate(sel[n], to, main).NoDuplicate? <==> !Taken(sel, main, n)
  {
    hide FindDuplicate, SameTarget, Matches;
    StartedOnesOnly(sel, main, n, to);
    DuplicateMeans(sel[n], to, main);
    if Taken(sel, main, n) && !TakenByMain(sel, main, n) {
      var j :| 0 <= j < n && SameTarget(sel[n].target, sel[j].target);
      Covered(sel, main, n, j);
      var m :| 0 <= m <= j && !Taken(sel, main, m) && SameTarget(sel[n].target, sel[m].target);
      assert sel[m] in to;
    }
  }

  /** The kind recorded for the k-th: the main service exactly when it has the target, else a started endpoint that has. */
  ghost predicate KindIs(sel: seq<Endpoint>, main: Option<Target>, k: nat, kind: DuplicateKind)
    requires k < |sel|
  {
    && !kind.NoDuplicate?
    && (kind.MainService? <==> TakenByMain(sel, main, k))
    && (kind.OtherEndpoint? ==> exists m :: 0 <= m < k && !Taken(sel, main, m) && SameTarget(sel[k].target, sel[m].target) && kind.name == sel[m].name)
  }

  lemma KindOfSkipped(sel: seq<Endpoint>, main: Option<Target>, n: nat, to: seq<Endpoint>)
    requires n < |sel| && AllEnabled(sel) && DistinctIds(sel) && Matches(sel, main, n, to) && Taken(sel, main, n)
    ensures KindIs(sel, main, n, FindDuplicate(sel[n], to, main))
  {
    hide FindDuplicate, Normalize, Trim, Matches;
    NoDuplicateIffFirst(sel, main, n, to);
    KindMeans(sel[n], to, main);
    var kind := FindDuplicate(sel[n], to, main);
    if kind.OtherEndpoint? {
      var k :| 0 <= k < |to| && SameTarget(sel[n].target, to[k].target) && kind.name == to[k].name;
      StartedAt(sel, main, n, to, k);
      var m :| 0 <= m < n && !Taken(sel, main, m) && to[k] == sel[m];
    }
  }

  lemma StartedAt(sel: seq<Endpoint>, main: Option<Target>, n: nat, to: seq<Endpoint>, k: nat)
    requires n <= |sel| && Matches(sel, main, n, to) && k < |to|
    ensures exists m :: 0 <= m < n && !Taken(sel, main, m) && to[k] == sel[m]
  {
    hide Taken;
    PositionsAre(sel, main, n, false);
    var m := Positions(sel, main, n, false)[k];
    assert to[k] == sel[m] && !Taken(sel, main, m);
  }

  lemma MatchesNext(sel: seq<Endpoint>, main: Option<Target>, n: nat, to: seq<Endpoint>)
    requires n < |sel| && Matches(sel, main, n, to)
    ensures Matches(sel, main, n + 1, if Taken(sel, main, n) then to else to + [sel[n]])
  {
    hide Taken, Picks;
    PositionsStep(sel, main, n + 1, false);
    var kept := Positions(sel, main, n, false);
    assert kept + [] == kept;
    PicksOneMore(sel, kept, to, n);
  }

  lemma PicksOneMore(sel: seq<Endpoint>, ps: seq<nat>, to: seq<Endpoint>, n: nat)
    requires n < |sel| && Picks(sel, ps, to)
    ensures Picks(sel, ps + [n], to + [sel[n]])
  {
  }

  /** A selected endpoint starts exactly when it is the first of the selection with its target and the main service
      does not have it. */
  lemma {:induction false} StartedAreFirst(sel: seq<Endpoint>, main: Option<Target>, n: nat)
    requires n <= |sel| && AllEnabled(sel) && DistinctIds(sel)
    ensures Matches(sel, main, n, Started(sel[..n], main))
    decreases n
  {
    hide FindDuplicate, Started, Matches, Taken;
    PlanStep(sel, main, n);
    if n == 0 {
      NothingMatches(sel, main);
    } else {
      StartedAreFirst(sel, main, n - 1);
      NoDuplicateIffFirst(sel, main, n - 1, Started(sel[..n - 1], main));
      MatchesNext(sel, main, n - 1, Started(sel[..n - 1], main));
      assert Started(sel[..n - 1], main) + [] == Started(sel[..n - 1], main);
    }
  }

  lemma NothingMatches(sel: seq<Endpoint>, main: Option<Target>)
    ensures Matches(sel, main, 0, [])
  {
  }

  lemma {:induction false} SkippedAreTaken(sel: seq<Endpoint>, main: Option<Target>, n: nat)
    requires n <= |sel| && AllEnabled(sel) && DistinctIds(sel)
    ensures var dropped, sk := Positions(sel, main, n, true), SkippedOf(sel[..n], main);
            |sk| == |dropped| && forall i :: 0 <= i < |sk| ==> sk[i].name == sel[dropped[i]].name && KindIs(sel, main, dropped[i], sk[i].kind)
    decreases n
  {
    hide FindDuplicate, Started, SkippedOf, Matches, Taken, KindIs;
    PlanStep(sel, main, n);
    if n > 0 {
      SkippedAreTaken(sel, main, n - 1);
      StartedAreFirst(sel, main, n - 1);
      NoDuplicateIffFirst(sel, main, n - 1, Started(sel[..n - 1], main));
      PositionsStep(sel, main, n, true);
      if Taken(sel, main, n - 1) {
        KindOfSkipped(sel, main, n - 1, Started(sel[..n - 1], main));
      }
    }
  }

  lemma {:induction false} SelectKeeps(all: seq<Endpoint>)
    ensures AllEnabled(Select(all))
    ensures forall i :: 0 <= i < |Select(all)| ==> Select(all)[i] in all
    ensures DistinctIds(all) ==> DistinctIds(Select(all))
    decreases |all|
  {
    if all != [] {
      var front := all[..|all| - 1];
      SelectKeeps(front);
      assert forall i :: 0 <= i < |Select(front)| ==> Select(front)[i] in front;
    }
  }

  /** With distinct ids the selection is split in order: the first endpoint of every target the main service does not
      have starts, every other one is skipped, with the one that covers it. */
  lemma PlanSplitsInOrder(all: seq<Endpoint>, main: Option<Target>)
    requires DistinctIds(all)
    ensures var sel := Select(all);
            var kept, dropped := Positions(sel, main, |sel|, false), Positions(sel, main, |sel|, true);
            && |Started(sel, main)| == |kept| && (forall i :: 0 <= i < |kept| ==> Started(sel, main)[i] == sel[kept[i]])
            && |SkippedOf(sel, main)| == |dropped|
            && (forall i :: 0 <= i < |dropped| ==>
                  SkippedOf(sel, main)[i].name == sel[dropped[i]].name && KindIs(sel, main, dropped[i], SkippedOf(sel, main)[i].kind))
  {
    hide Started, SkippedOf, Positions, Select, KindIs;
    var sel := Select(all);
    SelectKeeps(all);
    StartedAreFirst(sel, main, |sel|);
    SkippedAreTaken(sel, main, |sel|);
    assert sel[..|sel|] == sel;
  }

  /** No two started endpoints share a target, and none shares the main service's. */
  lemma StartedShareNothing(all: seq<Endpoint>, main: Option<Target>, i: nat, j: nat)
    requires DistinctIds(all)
    ensures var to := Started(Select(all), main);
            && (i < j < |to| ==> !SameTarget(to[i].target, to[j].target))
            && (i < |to| && main.Some? ==> !SameTarget(to[i].target, main.value))
  {
    hide Started, SkippedOf, SameTarget, Select;
    PlanSplitsInOrder(all, main);
    var sel := Select(all);
    var kept, to := Positions(sel, main, |sel|, false), Started(sel, main);
    PositionsAre(sel, main, |sel|, false);
    if i < j < |to| {
      SameTargetSymmetric(to[i].target, to[j].target);
      assert !Taken(sel, main, kept[j]);
    }
    if i < |to| {
      assert !Taken(sel, main, kept[i]);
    }
  }

  /** A skipped endpoint's target is covered by the main service or by an endpoint started before it. */
  lemma SkippedAreCovered(all: seq<Endpoint>, main: Option<Target>, i: nat)
    requires DistinctIds(all)
    ensures var sel := Select(all); var dropped := Positions(sel, main, |sel|, true);
            i < |dropped| ==>
              || TakenByMain(sel, main, dropped[i])
              || exists m :: 0 <= m < dropped[i] && !Taken(sel, main, m) && sel[m] in Started(sel, main)
                             && SameTarget(sel[dropped[i]].target, sel[m].target)
  {
    hide Started, SkippedOf, SameTarget, Select;
    PlanSplitsInOrder(all, main);
    var sel := Select(all);
    var kept, dropped := Positions(sel, main, |sel|, false), Positions(sel, main, |sel|, true);
    PositionsAre(sel, main, |sel|, false);
    PositionsAre(sel, main, |sel|, true);
    if i < |dropped| && !TakenByMain(sel, main, dropped[i]) {
      var k := dropped[i];
      assert Taken(sel, main, k);
      var j :| 0 <= j < k && SameTarget(sel[k].target, sel[j].target);
      Covered(sel, main, k, j);
      var m :| 0 <= m <= j && !Taken(sel, main, m) && SameTarget(sel[k].target, sel[m].target);
      var p :| 0 <= p < |kept| && kept[p] == m;
      assert Started(sel, main)[p] == sel[m];
    }
  }
}
