/** What the calls of a vertical encode session bring about: exactly when a start succeeds and with which encoder, and what
    ends a session. */
module VerticalCalls {
  import opened Options
  import opened VerticalProof
  import opened VerticalSession

  // ----- a start -----

  /** Both encoders and the output could be created, and the output started. */
  predicate Works(a: Attempt) {
    a.video && a.audio && a.output && a.started
  }

  /** The encoder a start asks for first: a forced one, else the first registered NVENC encoder, else x264. */
  function Asked(forced: Option<Choice>, available: set<string>): string {
    match forced
    case Some(c) => c.typeId
    case None =>
      if "obs_nvenc_hevc_tex" in available then "obs_nvenc_hevc_tex"
      else if "jim_hevc_nvenc" in available then "jim_hevc_nvenc" else "obs_x264"
  }

  predicate IsNvenc(encoder: string) {
    encoder == "obs_nvenc_hevc_tex" || encoder == "jim_hevc_nvenc"
  }

  /** The encoders with their rate control, and what replaces a failed one: x264 an NVENC encoder, nothing any other. */
  lemma EncoderTable(failed: string, available: set<string>)
    ensures var c, x264 := ChooseEncoder(available), Choice("obs_x264", "CRF", "crf", 20);
            && c.typeId == Asked(None, available)
            && c == (if IsNvenc(c.typeId) then Choice(c.typeId, "CQP", "cqp", 20) else x264)
            && X264 == x264
            && FallbackEncoder(failed, available) == if IsNvenc(failed) then Some(x264) else None
  {
    assert failed in NVENC_IDS <==> IsNvenc(failed);
  }

  /** A new machine is idle: no session, no handle, nothing queued, nothing asked for, not shut down. */
  lemma StartsIdle()
    ensures START.cur.mode == Idle && START.cur.handles == Handles(0, 0, 0, 0) && !START.cur.connected && START.cur.clipOf == 0
    ensures START.posts == [] && START.stock.reaped == [] && !START.shutDown && !START.stoppedOnError
    ensures !START.restarts.pending && !START.restarts.restarted && START.restarts.posted == 0
  {
  }

  /** The machine is free and the environment offers what a recording needs; the second attempt is for a failed NVENC one. */
  predicate CanStart(s: State, encoder: string, env: Env) {
    && !s.shutDown && s.cur.mode == Idle && env.folder && env.canvas && env.hasVideo
    && (Works(env.first) || (IsNvenc(encoder) && Works(env.second)))
  }

  /** A complete session runs: four handles of its own, signals connected, no clip asked for. */
  predicate RunsWith(c: Current, encoder: string, withMain: bool) {
    && c.mode == Running && c.encoder == encoder && c.withMain == withMain && c.connected && c.clipOf == 0
    && c.handles.output != 0 && c.handles.video != 0 && c.handles.audio != 0 && c.handles.canvas != 0
  }

  lemma Attempts(c: Current, k: Stock, choice: Choice, canvas: Ref, withMain: bool, env: Env, available: set<string>)
    requires k.next > 0 && canvas > 0
    ensures var t := TryTwice(c, k, choice, canvas, withMain, env, available);
            && (t.ok <==> Works(env.first) || (IsNvenc(choice.typeId) && Works(env.second)))
            && (t.ok ==> RunsWith(t.cur, if Works(env.first) then choice.typeId else "obs_x264", withMain) && t.cur.id > c.id)
            && (!t.ok && c.mode == Idle ==> t.cur.mode == Idle)
  {
    assert choice.typeId in NVENC_IDS <==> IsNvenc(choice.typeId);
  }

  /** A start succeeds exactly if it can; then a new session runs, with the encoder asked for, or with x264 if that failed.
      A start that fails leaves the machine idle or as it was. */
  lemma StartsExactly(s: State, withMain: bool, forced: Option<Choice>, restarted: bool, env: Env, available: set<string>)
    requires Reachable(s, available)
    ensures var encoder := Asked(forced, available);
            var (t, ok) := StartSession(s, withMain, forced, restarted, env, available);
            && (ok <==> CanStart(s, encoder, env))
            && (ok ==> RunsWith(t.cur, if Works(env.first) then encoder else "obs_x264", withMain) && t.cur.id > s.cur.id
                       && !t.stoppedOnError && t.restarts.restarted == restarted)
            && (!ok ==> t.cur.mode == s.cur.mode && t.stoppedOnError == s.stoppedOnError && t.restarts == s.restarts)
            && t.posts == s.posts && t.shutDown == s.shutDown && t.restarts.pending == s.restarts.pending
  {
    hide TryTwice, Reachable;
    NextIsFree(s, available);
    var choice := if forced.Some? then forced.value else ChooseEncoder(available);
    Attempts(s.cur, s.stock.(next := s.stock.next + 1), choice, s.stock.next, withMain, env, available);
  }

  lemma NextIsFree(s: State, available: set<string>)
    requires Reachable(s, available)
    ensures s.stock.next > 0
  {
    hide Inv, Reachable;
    ReachableInv(s, available);
    StockOf(s);
  }

  lemma StockOf(s: State)
    requires Inv(s)
    ensures s.stock.next > 0
  {
  }

  lemma QueuedRestartsUseX264(s: State, available: set<string>)
    requires Reachable(s, available)
    ensures forall p :: p in s.posts && p.Restart? ==> p.choice == X264
  {
    var evs :| Runs(START, evs, s, available);
    RestartsAreEarned(evs, s, available);
  }

  /** A pending restart at the head of the queue starts x264 exactly if the machine is free, the main output it goes with is
      active, and the first attempt works; a restart that was tried and failed is shown as an error. */
  lemma PendingRestartStarts(s: State, mainActive: bool, env: Env, available: set<string>)
    requires Reachable(s, available) && s.posts != [] && s.posts[0].Restart? && s.restarts.pending
    ensures var p, t := s.posts[0], RunPost(s, mainActive, env, available);
            var tried := !s.shutDown && s.cur.mode == Idle && (p.withMain ==> mainActive);
            var starts := tried && env.folder && env.canvas && env.hasVideo && Works(env.first);
            && (starts ==> RunsWith(t.cur, "obs_x264", p.withMain) && t.cur.id > s.cur.id && t.restarts.restarted)
            && (!starts ==> t.cur.mode == s.cur.mode)
            && t.stoppedOnError == (if tried then !starts else s.stoppedOnError)
            && !t.restarts.pending && t.posts == s.posts[1..]
  {
    hide StartSession, Reachable;
    QueuedRestartsUseX264(s, available);
    RestartStarts(s.(posts := s.posts[1..], restarts := s.restarts.(pending := false)), s.posts[0].withMain, env, available, s);
  }

  /** `StartsExactly` for the state without the post. */
  lemma RestartStarts(t: State, withMain: bool, env: Env, available: set<string>, s: State)
    requires Reachable(s, available) && t.stock == s.stock
    ensures var (u, ok) := StartSession(t, withMain, Some(X264), true, env, available);
            && (ok <==> !t.shutDown && t.cur.mode == Idle && env.folder && env.canvas && env.hasVideo && Works(env.first))
            && (ok ==> RunsWith(u.cur, "obs_x264", withMain) && u.cur.id > t.cur.id && !u.stoppedOnError && u.restarts.restarted)
            && (!ok ==> u.cur.mode == t.cur.mode)
            && u.posts == t.posts && u.restarts.pending == t.restarts.pending
  {
    hide TryTwice, Reachable;
    NextIsFree(s, available);
    Attempts(t.cur, t.stock.(next := t.stock.next + 1), X264, t.stock.next, withMain, env, available);
  }

  // ----- the end of a session -----

  /** The session is over: its handles went to the reaper in one piece, and its number is past. */
  predicate Ended(s: State, t: State) {
    && t.cur.mode == Idle && t.cur.handles == NO_HANDLES && t.cur.id > s.cur.id && !t.cur.connected && t.cur.clipOf == 0
    && t.stock.next == s.stock.next
    && t.stock.reaped == s.stock.reaped + if s.cur.handles == NO_HANDLES then [] else [s.cur.handles]
  }

  /** The finish of the session that runs or stops ends it, whatever the code; it is shown as an error exactly if the code
      is none of success and no restart was posted for it. */
  lemma FinishEnds(s: State, mainActive: bool, env: Env, available: set<string>)
    requires s.posts != [] && s.posts[0].Finish? && s.posts[0].session == s.cur.id && s.cur.mode != Idle
    ensures var code, t := s.posts[0].code, RunPost(s, mainActive, env, available);
            var restarts := s.cur.mode == Running && code == -8 && IsNvenc(s.cur.encoder) && !s.restarts.restarted;
            && Ended(s, t) && t.shutDown == s.shutDown
            && t.stoppedOnError == (s.stoppedOnError || (code != 0 && !restarts))
            && t.restarts.pending == restarts && t.restarts.withMain == s.cur.withMain
            && t.posts == s.posts[1..] + if restarts then [Restart(X264, s.cur.withMain, s.restarts.posted)] else []
  {
    assert s.cur.encoder in NVENC_IDS <==> IsNvenc(s.cur.encoder);
    RestartOnlyAfterEncodeError(s.(posts := s.posts[1..]), s.posts[0].session, s.posts[0].code, available);
  }

  /** A stop of a running session: an active output is asked to stop and its finish ends the session, an inactive one ends at
      once; nothing is restarted in either case. A stop of anything else changes nothing but the pending restart. */
  lemma StopEnds(s: State, active: bool, available: set<string>)
    ensures var t := Stop(s, active, available);
            && !t.restarts.pending && t.posts == s.posts && t.shutDown == s.shutDown && t.stoppedOnError == s.stoppedOnError
            && (s.cur.mode != Running ==> t.cur == s.cur && t.stock == s.stock)
            && (s.cur.mode == Running && active && s.cur.handles.output != 0 ==>
                  t.cur == s.cur.(mode := Stopping) && t.stock == s.stock)
            && (s.cur.mode == Running && !(active && s.cur.handles.output != 0) ==> Ended(s, t))
  {
  }

  /** The stop signal of a session that is stopping, alone in the queue, ends it without a restart. */
  lemma StoppingIsFinished(s: State, code: int, mainActive: bool, env: Env, available: set<string>)
    requires s.cur.mode == Stopping && s.cur.connected && s.posts == []
    ensures var t := RunPost(Apply(s, StopSignal(code), available), mainActive, env, available);
            Ended(s, t) && t.posts == [] && !t.restarts.pending
  {
    FinishEnds(Apply(s, StopSignal(code), available), mainActive, env, available);
  }

  /** A forced stop and the shutdown end whatever runs or stops, at once. */
  lemma ForcedStopEnds(s: State)
    ensures s.cur.mode != Idle ==> Ended(s, StopNow(s)) && Ended(s, Shutdown(s))
    ensures s.cur.mode == Idle ==> StopNow(s).cur == s.cur && StopNow(s).stock == s.stock
    ensures Shutdown(s).shutDown && !Shutdown(s).restarts.pending && !StopNow(s).restarts.pending
    ensures StopNow(s).posts == s.posts && StopNow(s).shutDown == s.shutDown && StopNow(s).stoppedOnError == s.stoppedOnError
  {
  }

  /** The main output stopping takes along a session started with it, as a stop does, and leaves one started by hand. */
  lemma MainStoppingTakesAlong(s: State, active: bool, available: set<string>)
    ensures var t := MainStopping(s, active, available);
            && (s.cur.withMain && s.cur.mode == Running && active && s.cur.handles.output != 0 ==> t.cur == s.cur.(mode := Stopping))
            && (s.cur.withMain && s.cur.mode == Running && !(active && s.cur.handles.output != 0) ==> Ended(s, t))
            && (!(s.cur.withMain && s.cur.mode == Running) ==> t.cur == s.cur && t.stock == s.stock)
            && t.posts == s.posts && t.shutDown == s.shutDown && t.stoppedOnError == s.stoppedOnError
  {
    hide Stop;
    StopEnds(if s.restarts.withMain then CancelRestarts(s) else s, active, available);
  }

  // ----- clips -----

  lemma ClipStep(s: State, ev: Event, available: set<string>)
    requires Enabled(s, ev) && !ev.ClipSaved? && s.cur.clipOf == s.cur.id && Apply(s, ev, available).cur.id == s.cur.id
    requires s.cur.mode != Idle && s.stock.next > 0
    ensures var t := Apply(s, ev, available); t.cur.clipOf == s.cur.id && t.cur.mode != Idle
  {
    hide TryTwice, RuntimeFallback, Reap, StartSession;
    match ev
    case DoStart(withMain, env) => NoStartBeside(s, withMain, None, false, env, available);
    case DoPost(mainActive, env) =>
      var t, p := s.(posts := s.posts[1..], restarts := s.restarts.(pending := false)), s.posts[0];
      if p.Restart? {
        NoStartBeside(t, p.withMain, Some(p.choice), true, env, available);
      }
    case _ =>
  }

  lemma NoStartBeside(s: State, withMain: bool, forced: Option<Choice>, restarted: bool, env: Env, available: set<string>)
    requires s.cur.mode != Idle
    ensures StartSession(s, withMain, forced, restarted, env, available) == (s, false)
  {
  }

  lemma {:induction false} ClipStays(s: State, evs: seq<Event>, t: State, available: set<string>)
    requires Inv(s) && Runs(s, evs, t, available) && ClipSaved !in evs && t.cur.id == s.cur.id
    requires s.cur.clipOf == s.cur.id && s.cur.mode != Idle
    ensures t.cur.clipOf == s.cur.id
    decreases |evs|
  {
    hide Apply, Inv;
    if evs != [] {
      var u := Apply(s, evs[0], available);
      Keeps(s, evs[0], available);
      IdStep(s, evs[0], available);
      IdGrows(u, evs[1..], t, available);
      StockOf(s);
      ClipStep(s, evs[0], available);
      ClipStays(u, evs[1..], t, available);
    }
  }

  /** A clip asked for while the session runs with an active output stays pending, through everything but its saving, as
      long as that session lasts. */
  lemma ClipIsPending(s: State, evs: seq<Event>, t: State, available: set<string>)
    requires Reachable(s, available) && s.cur.mode == Running
    requires Runs(Apply(s, SaveClip(true), available), evs, t, available) && ClipSaved !in evs && t.cur.id == s.cur.id
    ensures t.cur.clipOf == s.cur.id
  {
    hide Reachable, Runs, Inv;
    ReachableInv(s, available);
    Keeps(s, SaveClip(true), available);
    ClipStays(Apply(s, SaveClip(true), available), evs, t, available);
  }
}
