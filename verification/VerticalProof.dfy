/** What every run of a vertical encode session machine keeps: each handle is given to the reaper exactly once,
    late posts of an older session change nothing, and an encode error restarts at most once. */
module VerticalProof {
  import opened Options
  import opened VerticalSession

  // ----- handles -----

  predicate Has(h: Handles, x: Ref) {
    x != 0 && (x == h.output || x == h.video || x == h.audio || x == h.canvas)
  }

  predicate Differ(h: Handles) {
    && (h.output != 0 ==> h.output != h.video && h.output != h.audio && h.output != h.canvas)
    && (h.video != 0 ==> h.video != h.audio && h.video != h.canvas)
    && (h.audio != 0 ==> h.audio != h.canvas)
  }

  function Last<T>(s: seq<T>): T
    requires s != []
  {
    s[|s| - 1]
  }

  function Front<T>(s: seq<T>): seq<T>
    requires s != []
  {
    s[..|s| - 1]
  }

  /** `x` was in a session handed to the reaper. */
  predicate Gone(rs: seq<Handles>, x: Ref)
    decreases |rs|
  {
    rs != [] && (Has(Last(rs), x) || Gone(Front(rs), x))
  }

  /** No reference occurs twice among the sessions handed to the reaper. */
  ghost predicate Once(rs: seq<Handles>)
    decreases |rs|
  {
    rs == [] || (Differ(Last(rs)) && Once(Front(rs)) && forall x: Ref :: Has(Last(rs), x) ==> !Gone(Front(rs), x))
  }

  /** Every reference created is in the session, with the reaper, or in `held`, and in only one of them. */
  ghost predicate Balanced(session: Handles, reaped: seq<Handles>, next: Ref, held: Handles) {
    && next > 0 && Once(reaped) && Differ(session) && Differ(held)
    && (forall x: Ref :: Has(session, x) ==> !Gone(reaped, x) && !Has(held, x))
    && (forall x: Ref :: Has(held, x) ==> !Gone(reaped, x))
    && (forall x: Ref :: Has(session, x) || Gone(reaped, x) || Has(held, x) <==> 0 < x < next)
  }

  lemma GoneWith(rs: seq<Handles>, h: Handles)
    ensures forall x: Ref :: Gone(rs + [h], x) <==> Gone(rs, x) || Has(h, x)
    ensures Once(rs) && Differ(h) && (forall x: Ref :: Has(h, x) ==> !Gone(rs, x)) ==> Once(rs + [h])
  {
    assert Front(rs + [h]) == rs && Last(rs + [h]) == h;
  }

  lemma NothingIn()
    ensures forall r: Ref :: !Has(NO_HANDLES, r)
    ensures Differ(NO_HANDLES)
  {
  }

  lemma HeldAlike(session: Handles, reaped: seq<Handles>, next: Ref, h: Handles, kept: Handles)
    requires Balanced(session, reaped, next, h) && Differ(kept) && forall r: Ref :: Has(h, r) <==> Has(kept, r)
    ensures Balanced(session, reaped, next, kept)
  {
    hide Has, Differ, Once, Gone;
  }

  lemma HeldReaped(session: Handles, reaped: seq<Handles>, next: Ref, h: Handles, x: Handles, kept: Handles)
    requires Balanced(session, reaped, next, h) && Differ(x) && Differ(kept)
    requires forall r: Ref :: Has(h, r) <==> Has(x, r) || Has(kept, r)
    requires forall r: Ref :: Has(x, r) ==> !Has(kept, r)
    ensures Balanced(session, reaped + [x], next, kept)
  {
    hide Has, Differ, Once, Gone;
    GoneWith(reaped, x);
  }

  /** What was held goes to the reaper, except for `kept`. */
  lemma ReapBalances(session: Handles, k: Stock, h: Handles, x: Handles, kept: Handles)
    requires Balanced(session, k.reaped, k.next, h) && Differ(x) && Differ(kept)
    requires forall r: Ref :: Has(h, r) <==> Has(x, r) || Has(kept, r)
    requires forall r: Ref :: Has(x, r) ==> !Has(kept, r)
    ensures var k' := Reap(k, x);
            Balanced(session, k'.reaped, k'.next, kept) && forall r: Ref :: Has(x, r) ==> Gone(k'.reaped, r)
  {
    hide Has, Differ, Once, Gone, Balanced;
    NothingIn();
    if x == NO_HANDLES {
      HeldAlike(session, k.reaped, k.next, h, kept);
    } else {
      HeldReaped(session, k.reaped, k.next, h, x, kept);
      GoneWith(k.reaped, x);
    }
  }

  lemma CreateBalances(session: Handles, k: Stock, a: Attempt, canvas: Ref)
    requires Balanced(session, k.reaped, k.next, Only(canvas))
    ensures var x := Created(k.next, a).(canvas := canvas);
            Balanced(session, k.reaped, NextAfter(k.next, a), x) && Differ(x)
  {
    assert Has(Only(canvas), canvas) || canvas == 0;
    var x := Created(k.next, a).(canvas := canvas);
    assert forall r: Ref :: Has(x, r) <==> (k.next <= r < NextAfter(k.next, a) || Has(Only(canvas), r));
  }

  lemma Apart(x: Handles, canvas: Ref)
    requires x.canvas == 0 && Differ(x.(canvas := canvas))
    ensures Differ(x) && Differ(Only(canvas))
    ensures forall r: Ref :: Has(x.(canvas := canvas), r) <==> Has(x, r) || Has(Only(canvas), r)
    ensures forall r: Ref :: Has(x, r) ==> !Has(Only(canvas), r)
  {
  }

  /** What was held becomes the session. */
  lemma PublishBalances(reaped: seq<Handles>, next: Ref, h: Handles)
    requires Balanced(NO_HANDLES, reaped, next, h)
    ensures Balanced(h, reaped, next, NO_HANDLES)
  {
    hide Once, Gone;
  }

  /** ... and back: a detached session is held by the caller. */
  lemma DetachBalances(reaped: seq<Handles>, next: Ref, h: Handles)
    requires Balanced(h, reaped, next, NO_HANDLES)
    ensures Balanced(NO_HANDLES, reaped, next, h)
  {
    hide Once, Gone;
  }

  /** A session is complete or there is none. */
  predicate Whole(c: Current) {
    && (c.mode == Idle <==> c.handles == NO_HANDLES) && (c.connected <==> c.mode != Idle)
    && (c.mode != Idle ==> c.handles.output != 0 && c.handles.video != 0 && c.handles.audio != 0 && c.handles.canvas != 0)
    && (c.clipOf != 0 ==> c.mode != Idle && c.clipOf == c.id)
  }

  /** What an attempt leaves: a whole session with the canvas, or none and the canvas still held. */
  ghost predicate AttemptOk(c: Current, k: Stock, t: Tried, canvas: Ref) {
    && c.id <= t.cur.id && k.next <= t.stock.next && Whole(t.cur)
    && (if t.ok then t.cur.handles.canvas == canvas && t.cur.mode == Running && Balanced(t.cur.handles, t.stock.reaped, t.stock.next, NO_HANDLES)
        else t.cur.mode == Idle && Balanced(NO_HANDLES, t.stock.reaped, t.stock.next, Only(canvas)))
  }

  lemma TryStartBalances(c: Current, k: Stock, choice: Choice, canvas: Ref, withMain: bool, a: Attempt)
    requires Balanced(NO_HANDLES, k.reaped, k.next, Only(canvas)) && canvas != 0 && c.mode == Idle && Whole(c) && k.next > 0
    ensures AttemptOk(c, k, TryStart(c, k, choice, canvas, withMain, a), canvas)
  {
    hide Once, Gone, Has, Differ, Balanced;
    var x := Created(k.next, a);
    var k1 := k.(next := NextAfter(k.next, a));
    CreateBalances(NO_HANDLES, k, a, canvas);
    Apart(x, canvas);
    ReapBalances(NO_HANDLES, k1, x.(canvas := canvas), x, Only(canvas));
    PublishBalances(k1.reaped, k1.next, x.(canvas := canvas));
  }

  lemma TryTwiceBalances(c: Current, k: Stock, choice: Choice, canvas: Ref, withMain: bool, env: Env, available: set<string>)
    requires Balanced(NO_HANDLES, k.reaped, k.next, Only(canvas)) && canvas != 0 && c.mode == Idle && Whole(c) && k.next > 0
    ensures AttemptOk(c, k, TryTwice(c, k, choice, canvas, withMain, env, available), canvas)
  {
    hide TryStart, Balanced;
    TryStartBalances(c, k, choice, canvas, withMain, env.first);
    var t := TryStart(c, k, choice, canvas, withMain, env.first);
    var fallback := FallbackEncoder(choice.typeId, available);
    if !t.ok && fallback.Some? {
      TryStartBalances(t.cur, t.stock, fallback.value, canvas, withMain, env.second);
    }
  }

  lemma Acquire(session: Handles, k: Stock)
    requires Balanced(session, k.reaped, k.next, NO_HANDLES)
    ensures Balanced(session, k.reaped, k.next + 1, Only(k.next)) && k.next > 0
  {
    hide Once, Gone;
  }

  lemma GiveBack(session: Handles, k: Stock, canvas: Ref)
    requires Balanced(session, k.reaped, k.next, Only(canvas)) && canvas != 0
    ensures var k' := Reap(k, Only(canvas));
            Balanced(session, k'.reaped, k'.next, NO_HANDLES) && Gone(k'.reaped, canvas)
  {
    NothingIn();
    ReapBalances(session, k, Only(canvas), Only(canvas), NO_HANDLES);
    assert Has(Only(canvas), canvas);
  }

  ghost predicate HandlesOk(s: State) {
    Balanced(s.cur.handles, s.stock.reaped, s.stock.next, NO_HANDLES) && Whole(s.cur) && (s.shutDown ==> s.cur.mode == Idle)
  }

  /** A start that succeeds owns the canvas reference it acquired, also when its first try failed; one that fails
      has given it to the reaper. */
  lemma StartBalances(s: State, withMain: bool, forced: Option<Choice>, restarted: bool, env: Env, available: set<string>)
    requires HandlesOk(s)
    ensures var (t, ok) := StartSession(s, withMain, forced, restarted, env, available);
            && HandlesOk(t) && s.cur.id <= t.cur.id
            && (ok ==> t.cur.mode == Running && t.cur.handles.canvas == s.stock.next && !s.shutDown && s.cur.mode == Idle)
            && (!ok ==> t.cur.mode == s.cur.mode && (s.stock.next < t.stock.next ==> Gone(t.stock.reaped, s.stock.next)))
  {
    hide TryTwice, Balanced, Gone;
    if !(s.shutDown || s.cur.mode != Idle || !env.folder || !env.canvas) {
      var canvas, k := s.stock.next, s.stock.(next := s.stock.next + 1);
      Acquire(s.cur.handles, s.stock);
      if !env.hasVideo {
        GiveBack(s.cur.handles, k, canvas);
      } else {
        var choice := if forced.Some? then forced.value else ChooseEncoder(available);
        TryTwiceBalances(s.cur, k, choice, canvas, withMain, env, available);
        var t := TryTwice(s.cur, k, choice, canvas, withMain, env, available);
        if !t.ok {
          GiveBack(t.cur.handles, t.stock, canvas);
        }
      }
    }
  }

  // ----- the post queue -----

  /** At most one restart waits, and a finish posted before it belongs to a session that is over. */
  ghost predicate PostsOk(posts: seq<Post>, id: nat, r: Restarts) {
    && r.cancelled <= r.posted
    && (forall i :: 0 <= i < |posts| && posts[i].Finish? ==> posts[i].session <= id)
    && (forall i :: 0 <= i < |posts| && posts[i].Restart? ==>
          posts[i].number < r.posted && (r.pending ==> posts[i].number >= r.cancelled && posts[i].withMain == r.withMain))
    && (forall i, j :: 0 <= i < j < |posts| && posts[j].Restart? ==> posts[i].Finish? && posts[i].session < id)
  }

  /** At most one restart is posted for each start by hand; a restarted session posts none. */
  predicate RestartsOk(r: Restarts, mode: Mode) {
    r.autos <= 1 && (mode != Idle && !r.restarted ==> r.autos == 0)
  }

  ghost predicate Inv(s: State) {
    HandlesOk(s) && PostsOk(s.posts, s.cur.id, s.restarts) && RestartsOk(s.restarts, s.cur.mode)
  }

  lemma PostsLater(posts: seq<Post>, id: nat, r: Restarts, id': nat, r': Restarts)
    requires PostsOk(posts, id, r) && id <= id' && r.posted == r'.posted && r'.cancelled <= r'.posted
    requires r'.pending ==> r.pending && r'.cancelled == r.cancelled && r'.withMain == r.withMain
    ensures PostsOk(posts, id', r')
  {
  }

  lemma StartKeeps(s: State, withMain: bool, forced: Option<Choice>, restarted: bool, env: Env, available: set<string>)
    requires Inv(s)
    ensures Inv(StartSession(s, withMain, forced, restarted, env, available).0)
  {
    hide HandlesOk, TryTwice;
    StartBalances(s, withMain, forced, restarted, env, available);
    var t := StartSession(s, withMain, forced, restarted, env, available).0;
    PostsLater(s.posts, s.cur.id, s.restarts, t.cur.id, t.restarts);
  }

  lemma DetachReap(s: State)
    requires HandlesOk(s)
    ensures var k := Reap(s.stock, s.cur.handles);
            Balanced(NO_HANDLES, k.reaped, k.next, NO_HANDLES) && Whole(Detach(s.cur))
  {
    hide Once, Gone, Balanced;
    var h := s.cur.handles;
    DetachBalances(s.stock.reaped, s.stock.next, h);
    NothingIn();
    assert Differ(h) by { HandlesDiffer(h, s.stock); }
    ReapBalances(NO_HANDLES, s.stock, h, h, NO_HANDLES);
  }

  lemma HandlesDiffer(h: Handles, k: Stock)
    requires Balanced(h, k.reaped, k.next, NO_HANDLES)
    ensures Differ(h)
  {
  }

  /** `fresh`: no restart waits in the queue when the finish is not stale. */
  lemma FinishKeeps(s: State, session: nat, code: int, available: set<string>)
    requires Inv(s)
    requires session == s.cur.id && s.cur.mode == Running ==> forall i :: 0 <= i < |s.posts| ==> !s.posts[i].Restart?
    ensures Inv(FinishSession(s, session, code, available))
  {
    hide Balanced, Whole, RuntimeFallback;
    if session == s.cur.id && s.cur.mode != Idle {
      DetachReap(s);
      FallbackOnce(code, s.cur.encoder, s.restarts.restarted, available);
    }
  }

  lemma FallbackOnce(code: int, session: string, restarted: bool, available: set<string>)
    ensures RuntimeFallback(code, session, restarted, available).Some? ==>
              code == STOP_ENCODE_ERROR && !restarted && session in NVENC_IDS && RuntimeFallback(code, session, restarted, available).value == X264
  {
  }

  lemma StopKeeps(s: State, active: bool, available: set<string>)
    requires Inv(s)
    ensures Inv(Stop(s, active, available))
  {
    hide Balanced, FinishSession;
    var t := CancelRestarts(s);
    PostsLater(s.posts, s.cur.id, s.restarts, s.cur.id, t.restarts);
    var u := t.(cur := s.cur.(mode := Stopping));
    if s.cur.mode == Running {
      assert Inv(u);
      FinishKeeps(u, s.cur.id, STOP_SUCCESS, available);
    }
  }

  lemma CancelKeeps(s: State)
    requires Inv(s)
    ensures Inv(CancelRestarts(s))
  {
    hide HandlesOk;
    PostsLater(s.posts, s.cur.id, s.restarts, s.cur.id, CancelRestarts(s).restarts);
    SameHandles(s, CancelRestarts(s));
  }

  lemma SameHandles(s: State, t: State)
    requires HandlesOk(s) && t.cur == s.cur && t.stock == s.stock && (t.shutDown ==> s.shutDown)
    ensures HandlesOk(t)
  {
  }

  lemma StopNowKeeps(s: State)
    requires Inv(s)
    ensures Inv(StopNow(s)) && StopNow(s).cur.mode == Idle && Inv(Shutdown(s))
  {
    hide Balanced, Whole, PostsOk;
    DetachReap(s);
    PostsLater(s.posts, s.cur.id, s.restarts, s.cur.id, CancelRestarts(s).restarts);
    PostsLater(s.posts, s.cur.id, s.restarts, s.cur.id + 1, CancelRestarts(s).restarts);
  }

  lemma PostPopped(posts: seq<Post>, id: nat, r: Restarts)
    requires PostsOk(posts, id, r) && posts != []
    ensures PostsOk(posts[1..], id, r)
    ensures posts[0].Finish? && posts[0].session == id ==> forall i :: 0 <= i < |posts[1..]| ==> !posts[1..][i].Restart?
    ensures posts[0].Restart? ==> forall i :: 0 <= i < |posts[1..]| ==> !posts[1..][i].Restart?
  {
    assert forall i :: 0 <= i < |posts[1..]| ==> posts[1..][i] == posts[i + 1];
  }

  lemma PostKeeps(s: State, mainActive: bool, env: Env, available: set<string>)
    requires Inv(s) && s.posts != []
    ensures Inv(RunPost(s, mainActive, env, available))
  {
    hide HandlesOk, PostsOk, StartSession, FinishSession;
    PostPopped(s.posts, s.cur.id, s.restarts);
    var t := s.(posts := s.posts[1..]);
    SameHandles(s, t);
    match s.posts[0]
    case Finish(session, code) => FinishKeeps(t, session, code, available);
    case Restart(choice, withMain, _) =>
      var u := t.(restarts := t.restarts.(pending := false));
      PostsLater(t.posts, t.cur.id, t.restarts, t.cur.id, u.restarts);
      SameHandles(t, u);
      StartKeeps(u, withMain, Some(choice), true, env, available);
      var v := StartSession(u, withMain, Some(choice), true, env, available).0;
      SameHandles(v, v.(stoppedOnError := true));
  }

  lemma SignalKeeps(s: State, code: int)
    requires Inv(s)
    ensures Inv(s.(posts := s.posts + [Finish(s.cur.id, code)]))
  {
    hide Balanced, Whole;
  }

  lemma Keeps(s: State, ev: Event, available: set<string>)
    requires Inv(s) && Enabled(s, ev)
    ensures Inv(Apply(s, ev, available))
  {
    hide Inv, StartSession, Stop, StopNow, Shutdown, RunPost;
    match ev
    case DoStart(withMain, env) => StartKeeps(s, withMain, None, false, env, available);
    case DoStop(active) => StopKeeps(s, active, available);
    case DoStopNow => StopNowKeeps(s);
    case DoMainStopping(active) =>
      CancelKeeps(s);
      StopKeeps(s, active, available);
      StopKeeps(CancelRestarts(s), active, available);
    case DoShutdown => StopNowKeeps(s);
    case DoPost(mainActive, env) => PostKeeps(s, mainActive, env, available);
    case StopSignal(code) => SignalKeeps(s, code);
    case SaveClip(active) => if s.cur.mode == Running && active { ClipKeeps(s, s.cur.id); }
    case ClipSaved => ClipKeeps(s, 0);
  }

  lemma ClipKeeps(s: State, clip: nat)
    requires Inv(s) && (clip == 0 || (clip == s.cur.id && s.cur.mode == Running))
    ensures Inv(s.(cur := s.cur.(clipOf := clip)))
  {
    hide Balanced, PostsOk;
  }

  lemma {:induction false} RunKeeps(s: State, evs: seq<Event>, t: State, available: set<string>)
    requires Inv(s) && Runs(s, evs, t, available)
    ensures Inv(t)
    decreases |evs|
  {
    hide Inv;
    if evs != [] {
      Keeps(s, evs[0], available);
      RunKeeps(Apply(s, evs[0], available), evs[1..], t, available);
    }
  }

  lemma ReachableInv(t: State, available: set<string>)
    requires Reachable(t, available)
    ensures Inv(t)
  {
    hide Inv;
    var evs :| Runs(START, evs, t, available);
    StartInv();
    RunKeeps(START, evs, t, available);
  }

  lemma StartInv()
    ensures Inv(START)
  {
  }

  // ----- main results -----

  /** Each reference ever created is in the current session or was handed to the reaper, in one place and once. */
  lemma HandedOverOnce(s: State, x: Ref, available: set<string>)
    requires Reachable(s, available) && 0 < x < s.stock.next
    ensures Has(s.cur.handles, x) <==> !Gone(s.stock.reaped, x)
    ensures forall i, j :: 0 <= i < j < |s.stock.reaped| ==> !(Has(s.stock.reaped[i], x) && Has(s.stock.reaped[j], x))
    ensures Gone(s.stock.reaped, x) <==> exists i :: 0 <= i < |s.stock.reaped| && Has(s.stock.reaped[i], x)
  {
    hide PostsOk, RestartsOk, Has, Whole;
    ReachableInv(s, available);
    NothingIn();
    GoneMeans(s.stock.reaped, x);
    OnceMeans(s.stock.reaped, x);
  }

  lemma {:induction false} GoneMeans(rs: seq<Handles>, x: Ref)
    ensures Gone(rs, x) <==> exists i :: 0 <= i < |rs| && Has(rs[i], x)
    decreases |rs|
  {
    hide Has;
    if rs != [] {
      GoneMeans(Front(rs), x);
      assert forall i :: 0 <= i < |rs| - 1 ==> Front(rs)[i] == rs[i];
      assert Last(rs) == rs[|rs| - 1];
    }
  }

  lemma {:induction false} OnceMeans(rs: seq<Handles>, x: Ref)
    requires Once(rs)
    ensures forall i, j :: 0 <= i < j < |rs| ==> !(Has(rs[i], x) && Has(rs[j], x))
    decreases |rs|
  {
    hide Has, Differ;
    if rs != [] {
      OnceMeans(Front(rs), x);
      GoneMeans(Front(rs), x);
      assert forall i :: 0 <= i < |rs| - 1 ==> Front(rs)[i] == rs[i];
    }
  }

  lemma {:induction false} IdGrows(s: State, evs: seq<Event>, t: State, available: set<string>)
    requires Inv(s) && Runs(s, evs, t, available)
    ensures s.cur.id <= t.cur.id
    decreases |evs|
  {
    hide Inv;
    if evs != [] {
      Keeps(s, evs[0], available);
      IdStep(s, evs[0], available);
      IdGrows(Apply(s, evs[0], available), evs[1..], t, available);
    }
  }

  lemma IdStep(s: State, ev: Event, available: set<string>)
    requires Inv(s) && Enabled(s, ev)
    ensures s.cur.id <= Apply(s, ev, available).cur.id
  {
    hide Inv, StartSession;
    HandlesOf(s);
    match ev
    case DoStart(withMain, env) => StartBalances(s, withMain, None, false, env, available);
    case DoPost(mainActive, env) =>
      if s.posts[0].Restart? {
        var u := s.(posts := s.posts[1..], restarts := s.restarts.(pending := false));
        SameHandles(s, u);
        StartBalances(u, s.posts[0].withMain, Some(s.posts[0].choice), true, env, available);
      }
    case _ =>
  }

  lemma HandlesOf(s: State)
    requires Inv(s)
    ensures HandlesOk(s)
  {
  }

  /** Once a session is over, a late finish of it changes nothing, however long it waited. */
  lemma LateFinishDoesNothing(s: State, evs: seq<Event>, t: State, session: nat, code: int, available: set<string>)
    requires Reachable(s, available) && session < s.cur.id && Runs(s, evs, t, available)
    ensures FinishSession(t, session, code, available) == t
  {
    hide Inv;
    ReachableInv(s, available);
    IdGrows(s, evs, t, available);
  }

  lemma CancelledDoesNothing(s: State, mainActive: bool, env: Env, available: set<string>)
    requires Inv(s) && s.posts != [] && s.posts[0].Restart? && s.posts[0].number < s.restarts.cancelled
    ensures var t := RunPost(s, mainActive, env, available); t.cur == s.cur && t.stock == s.stock
  {
    hide HandlesOk;
  }

  lemma {:induction false} CancelStays(s: State, evs: seq<Event>, t: State, available: set<string>)
    requires Inv(s) && Runs(s, evs, t, available)
    ensures Inv(t) && s.restarts.cancelled <= t.restarts.cancelled
    decreases |evs|
  {
    hide Inv;
    if evs != [] {
      Keeps(s, evs[0], available);
      CancelStep(s, evs[0], available);
      CancelStays(Apply(s, evs[0], available), evs[1..], t, available);
    }
  }

  lemma CancelStep(s: State, ev: Event, available: set<string>)
    requires Inv(s) && Enabled(s, ev)
    ensures s.restarts.cancelled <= Apply(s, ev, available).restarts.cancelled
  {
    hide HandlesOk, TryTwice, Reap, Detach, RuntimeFallback;
  }

  /** A stop, a forced stop or a shutdown after a restart was posted: when the restart runs it starts nothing. */
  lemma StoppedRestartStartsNothing(s: State, stop: Event, evs: seq<Event>, t: State, mainActive: bool, env: Env, available: set<string>)
    requires Reachable(s, available) && (stop.DoStop? || stop.DoStopNow? || stop.DoShutdown?)
    requires Runs(Apply(s, stop, available), evs, t, available)
    requires t.posts != [] && t.posts[0].Restart? && t.posts[0].number < s.restarts.posted
    ensures var u := RunPost(t, mainActive, env, available); u.cur == t.cur && u.stock == t.stock
  {
    hide Inv, RunPost, StartSession;
    ReachableInv(s, available);
    Keeps(s, stop, available);
    CancelStays(Apply(s, stop, available), evs, t, available);
    CancelledDoesNothing(t, mainActive, env, available);
  }

  predicate Waits(posts: seq<Post>, number: nat) {
    exists i :: 0 <= i < |posts| && posts[i].Restart? && posts[i].number == number
  }

  /** The restart waits and will do nothing, or it is no longer in the queue. */
  predicate Dead(s: State, number: nat) {
    number < s.restarts.posted && (Waits(s.posts, number) ==> !s.restarts.pending)
  }

  lemma DeadStep(s: State, ev: Event, number: nat, available: set<string>)
    requires Inv(s) && Dead(s, number) && Enabled(s, ev)
    ensures Dead(Apply(s, ev, available), number)
  {
    hide HandlesOk, TryTwice, Reap, Detach, RestartsOk;
    match ev
    case DoPost(mainActive, env) => DeadPost(s, mainActive, env, number, available);
    case DoStart(withMain, env) => StartLeavesPosts(s, withMain, None, false, env, available);
    case _ =>
  }

  lemma StartLeavesPosts(s: State, withMain: bool, forced: Option<Choice>, restarted: bool, env: Env, available: set<string>)
    ensures var t := StartSession(s, withMain, forced, restarted, env, available).0;
            t.posts == s.posts && t.restarts.posted == s.restarts.posted && t.restarts.pending == s.restarts.pending
  {
    hide TryTwice;
  }

  lemma DeadPost(s: State, mainActive: bool, env: Env, number: nat, available: set<string>)
    requires Inv(s) && Dead(s, number) && s.posts != []
    ensures Dead(RunPost(s, mainActive, env, available), number)
  {
    hide HandlesOk, StartSession, Reap, Detach, RestartsOk;
    var t := s.(posts := s.posts[1..]);
    var p := s.posts[0];
    assert forall i :: 0 <= i < |t.posts| ==> t.posts[i] == s.posts[i + 1];
    if p.Restart? {
      StartLeavesPosts(t.(restarts := t.restarts.(pending := false)), p.withMain, Some(p.choice), true, env, available);
    } else if Waits(t.posts, number) {
      assert p.session < s.cur.id;
    }
  }

  lemma {:induction false} DeadStays(s: State, evs: seq<Event>, t: State, number: nat, available: set<string>)
    requires Inv(s) && Dead(s, number) && Runs(s, evs, t, available)
    ensures Dead(t, number)
    decreases |evs|
  {
    hide Inv, Dead;
    if evs != [] {
      Keeps(s, evs[0], available);
      DeadStep(s, evs[0], number, available);
      DeadStays(Apply(s, evs[0], available), evs[1..], t, number, available);
    }
  }

  lemma NotPendingDoesNothing(s: State, mainActive: bool, env: Env, available: set<string>)
    requires s.posts != [] && s.posts[0].Restart? && !s.restarts.pending
    ensures var t := RunPost(s, mainActive, env, available); t.cur == s.cur && t.stock == s.stock
  {
    hide StartSession;
  }

  /** The main output stopping, with a restart anywhere in the queue: it leaves the restart pending exactly when the failed
      session was started by hand and no session started with the main output runs, and then changes nothing; else the
      restart starts nothing whenever it runs. */
  lemma MainStoppingCancelsItsOwn(s: State, active: bool, i: nat, evs: seq<Event>, t: State, mainActive: bool, env: Env, available: set<string>)
    requires Reachable(s, available) && i < |s.posts| && s.posts[i].Restart?
    ensures var u := MainStopping(s, active, available);
            && (u.restarts.pending <==> s.restarts.pending && !s.posts[i].withMain && !(s.cur.withMain && s.cur.mode == Running))
            && (u.restarts.pending ==> u == s)
    ensures var u := MainStopping(s, active, available);
            !u.restarts.pending && Runs(u, evs, t, available) && t.posts != [] && t.posts[0] == s.posts[i] ==>
              var v := RunPost(t, mainActive, env, available); v.cur == t.cur && v.stock == t.stock
  {
    hide HandlesOk, Runs, RunPost, RestartsOk, Reap;
    ReachableInv(s, available);
    Keeps(s, DoMainStopping(active), available);
    var u := MainStopping(s, active, available);
    if !u.restarts.pending && Runs(u, evs, t, available) && t.posts != [] && t.posts[0] == s.posts[i] {
      DeadStays(u, evs, t, s.posts[i].number, available);
      assert Waits(t.posts, t.posts[0].number);
      NotPendingDoesNothing(t, mainActive, env, available);
    }
  }

  /** Only an encode error of a session on NVENC that still ran and was not itself a restart is restarted, with x264. */
  lemma RestartOnlyAfterEncodeError(s: State, session: nat, code: int, available: set<string>)
    ensures var t := FinishSession(s, session, code, available);
            |t.posts| > |s.posts| <==>
              session == s.cur.id && s.cur.mode == Running && code == STOP_ENCODE_ERROR && !s.restarts.restarted && s.cur.encoder in NVENC_IDS
    ensures var t := FinishSession(s, session, code, available);
            |t.posts| > |s.posts| ==> t.posts == s.posts + [Restart(X264, s.cur.withMain, s.restarts.posted)]
  {
    FallbackOnce(code, s.cur.encoder, s.restarts.restarted, available);
  }

  /** The finish, taken from the queue, of the running session, after an encode error on NVENC, if that session was not
      itself a restart. */
  predicate EarnsRestart(s: State, ev: Event) {
    && ev.DoPost? && s.posts != [] && s.posts[0] == Finish(s.cur.id, STOP_ENCODE_ERROR) && s.cur.mode == Running
    && !s.restarts.restarted && s.cur.encoder in NVENC_IDS
  }

  predicate RestartWithX264(p: Post) {
    p.Restart? ==> p.choice == X264
  }

  lemma StepPostsEarned(s: State, ev: Event, available: set<string>)
    requires Enabled(s, ev)
    ensures var t := Apply(s, ev, available);
            t.restarts.posted == s.restarts.posted + if EarnsRestart(s, ev) then 1 else 0
    ensures (forall p :: p in s.posts ==> RestartWithX264(p)) ==> forall p :: p in Apply(s, ev, available).posts ==> RestartWithX264(p)
  {
    hide TryTwice, Reap, Detach, RuntimeFallback;
    match ev
    case DoPost(mainActive, env) =>
      var t, p := s.(posts := s.posts[1..]), s.posts[0];
      if p.Finish? {
        RestartOnlyAfterEncodeError(t, p.session, p.code, available);
      } else {
        StartLeavesPosts(t.(restarts := t.restarts.(pending := false)), p.withMain, Some(p.choice), true, env, available);
      }
    case DoStart(withMain, env) => StartLeavesPosts(s, withMain, None, false, env, available);
    case DoStop(_) => NoErrorNoRestart(CancelRestarts(s).(cur := s.cur.(mode := Stopping)), available);
    case DoMainStopping(_) =>
      NoErrorNoRestart(CancelRestarts(s).(cur := s.cur.(mode := Stopping)), available);
    case _ =>
  }

  /** How many events of a run earn a restart. */
  function Earned(s: State, evs: seq<Event>, available: set<string>): nat
    decreases |evs|
  {
    if evs == [] || !Enabled(s, evs[0]) then 0
    else (if EarnsRestart(s, evs[0]) then 1 else 0) + Earned(Apply(s, evs[0], available), evs[1..], available)
  }

  lemma {:induction false} RunPostsEarned(s: State, evs: seq<Event>, t: State, available: set<string>)
    requires Runs(s, evs, t, available) && forall p :: p in s.posts ==> RestartWithX264(p)
    ensures t.restarts.posted == s.restarts.posted + Earned(s, evs, available)
    ensures forall p :: p in t.posts ==> RestartWithX264(p)
    decreases |evs|
  {
    hide Apply, EarnsRestart, RestartWithX264;
    if evs != [] {
      StepPostsEarned(s, evs[0], available);
      RunPostsEarned(Apply(s, evs[0], available), evs[1..], t, available);
    }
  }

  /** From the first event on, there is one restart for each encode error of a running NVENC session that was not a restart
      itself, and none for anything else; each is with x264. */
  lemma RestartsAreEarned(evs: seq<Event>, t: State, available: set<string>)
    requires Runs(START, evs, t, available)
    ensures t.restarts.posted == Earned(START, evs, available)
    ensures forall p :: p in t.posts && p.Restart? ==> p.choice == X264
  {
    hide Runs, Earned;
    RunPostsEarned(START, evs, t, available);
  }

  /** How many events of a run are starts by hand that succeed. */
  function HandStarts(s: State, evs: seq<Event>, available: set<string>): nat
    decreases |evs|
  {
    if evs == [] || !Enabled(s, evs[0]) then 0
    else (if ByHand(s, evs[0], available) then 1 else 0) + HandStarts(Apply(s, evs[0], available), evs[1..], available)
  }

  predicate ByHand(s: State, ev: Event, available: set<string>) {
    ev.DoStart? && StartSession(s, ev.withMain, None, false, ev.env, available).1
  }

  lemma StartCounts(s: State, withMain: bool, forced: Option<Choice>, restarted: bool, env: Env, available: set<string>)
    ensures var (t, ok) := StartSession(s, withMain, forced, restarted, env, available);
            t.restarts.autos == (if ok && !restarted then 0 else s.restarts.autos) && t.restarts.posted == s.restarts.posted
  {
    hide TryTwice;
  }

  lemma CountStep(s: State, ev: Event, available: set<string>)
    requires Enabled(s, ev)
    ensures var r, r' := s.restarts, Apply(s, ev, available).restarts;
            && r'.autos == (if ByHand(s, ev, available) then 0 else r.autos + r'.posted - r.posted)
            && r'.posted >= r.posted && (ByHand(s, ev, available) ==> r'.posted == r.posted)
  {
    hide StartSession, Reap, Detach, RuntimeFallback;
    match ev
    case DoStart(withMain, env) => StartCounts(s, withMain, None, false, env, available);
    case DoPost(mainActive, env) =>
      var t, p := s.(posts := s.posts[1..], restarts := s.restarts.(pending := false)), s.posts[0];
      if p.Restart? {
        StartCounts(t, p.withMain, Some(p.choice), true, env, available);
      }
    case _ =>
  }

  lemma AutosBounded(s: State)
    requires Inv(s)
    ensures s.restarts.autos <= 1
  {
    hide HandlesOk, PostsOk;
  }

  lemma {:induction false} PostedAreFew(s: State, evs: seq<Event>, t: State, available: set<string>)
    requires Inv(s) && Runs(s, evs, t, available)
    ensures s.restarts.autos + t.restarts.posted <= s.restarts.posted + HandStarts(s, evs, available) + 1
    decreases |evs|
  {
    hide Inv, Apply, ByHand;
    AutosBounded(s);
    if evs != [] {
      Keeps(s, evs[0], available);
      CountStep(s, evs[0], available);
      PostedAreFew(Apply(s, evs[0], available), evs[1..], t, available);
    }
  }

  /** From any state on, the restarts posted are at most one more than the starts by hand that succeed, whatever errors
      follow; so between two of them at most one is posted. */
  lemma AtMostOneRestart(s: State, evs: seq<Event>, t: State, available: set<string>)
    requires Reachable(s, available) && Runs(s, evs, t, available)
    ensures t.restarts.posted <= s.restarts.posted + HandStarts(s, evs, available) + 1
  {
    hide Inv, Runs, HandStarts;
    ReachableInv(s, available);
    PostedAreFew(s, evs, t, available);
  }

  lemma NoErrorNoRestart(s: State, available: set<string>)
    ensures var t := FinishSession(s, s.cur.id, STOP_SUCCESS, available); t.restarts.posted == s.restarts.posted && t.posts == s.posts
  {
    hide Reap, Detach;
  }

  /** After shutdown nothing runs again. */
  lemma ShutdownIsFinal(s: State, available: set<string>)
    requires Reachable(s, available) && s.shutDown
    ensures s.cur.mode == Idle && s.cur.handles == NO_HANDLES
  {
    hide Balanced, PostsOk;
    ReachableInv(s, available);
  }

  /** A pending clip was asked for in the session that runs. */
  lemma ClipBelongsToSession(s: State, available: set<string>)
    requires Reachable(s, available) && s.cur.clipOf != 0
    ensures s.cur.mode != Idle && s.cur.clipOf == s.cur.id
  {
    hide Balanced, PostsOk;
    ReachableInv(s, available);
  }
}
