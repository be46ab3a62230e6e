/** VerticalRecorder and VerticalReplayBuffer are one machine twice: numbered encode sessions on the UI thread,
    "stop" signals that only post back to it, and one restart after an encode error.  `State` is the abstract
    value of the class below; handles are references (0 = null), the reaper's queue and the UI post queue are
    sequences, and what the environment decides (folder, canvas, encoders, libobs) are parameters. */
module VerticalSession {
  import opened Options

  type Ref = nat

  // ----- encoder choice (src/core/VerticalRecord.cpp) -----

  datatype Choice = Choice(typeId: string, rateControl: string, qualityKey: string, quality: int)
  const NVENC_IDS: seq<string> := ["obs_nvenc_hevc_tex", "jim_hevc_nvenc"]
  const X264 := Choice("obs_x264", "CRF", "crf", 20)
  const STOP_ENCODE_ERROR := -8
  const STOP_SUCCESS := 0

  function Nvenc(id: string): Choice {
    Choice(id, "CQP", "cqp", 20)
  }

  /** The first registered NVENC encoder, else x264. */
  function ChooseEncoder(available: set<string>): Choice {
    if NVENC_IDS[0] in available then Nvenc(NVENC_IDS[0])
    else if NVENC_IDS[1] in available then Nvenc(NVENC_IDS[1]) else X264
  }

  function FallbackEncoder(failed: string, available: set<string>): Option<Choice> {
    if failed in NVENC_IDS then Some(ChooseEncoder(available - {NVENC_IDS[0], NVENC_IDS[1]})) else None
  }

  function RuntimeFallback(code: int, session: string, restarted: bool, available: set<string>): Option<Choice> {
    if code != STOP_ENCODE_ERROR || restarted then None else FallbackEncoder(session, available)
  }

  // ----- state -----

  datatype Handles = Handles(output: Ref, video: Ref, audio: Ref, canvas: Ref)

  const NO_HANDLES := Handles(0, 0, 0, 0)

  datatype Mode = Idle | Running | Stopping

  /** What waits on the UI thread; `number` counts the restarts ever posted. */
  datatype Post = Finish(session: nat, code: int) | Restart(choice: Choice, withMain: bool, number: nat)

  /** The current session; `clipOf` is the session a clip was asked for in (0 = no pending clip). */
  datatype Current = Current(handles: Handles, mode: Mode, id: nat, encoder: string, withMain: bool, connected: bool, clipOf: nat)

  /** The sessions handed to the reaper, and the next unused reference. */
  datatype Stock = Stock(reaped: seq<Handles>, next: Ref)

  /** Restart bookkeeping; history: restarts posted, how many of them had a stop after them, and how many were
      posted since the last start by hand. */
  datatype Restarts = Restarts(pending: bool, withMain: bool, restarted: bool, posted: nat, cancelled: nat, autos: nat)

  datatype State = State(cur: Current, stock: Stock, restarts: Restarts, stoppedOnError: bool, posts: seq<Post>, shutDown: bool)

  const START := State(Current(NO_HANDLES, Idle, 0, "", false, false, 0), Stock([], 1), Restarts(false, false, false, 0, 0, 0),
                       false, [], false)

  /** Which handles an attempt could create, and whether obs_output_start succeeded. */
  datatype Attempt = Attempt(video: bool, audio: bool, output: bool, started: bool)

  datatype Env = Env(folder: bool, canvas: bool, hasVideo: bool, first: Attempt, second: Attempt)

  datatype Tried = Tried(cur: Current, stock: Stock, ok: bool)

  // ----- operations -----

  function Only(canvas: Ref): Handles {
    Handles(0, 0, 0, canvas)
  }

  function Reap(k: Stock, x: Handles): Stock {
    if x == NO_HANDLES then k else k.(reaped := k.reaped + [x])
  }

  function Detach(c: Current): Current {
    c.(handles := NO_HANDLES, mode := Idle, withMain := false, clipOf := 0, id := c.id + 1, connected := false)
  }

  /** The handles an attempt creates take the next references. */
  function Created(next: Ref, a: Attempt): Handles {
    var n1 := if a.video then next + 1 else next;
    var n2 := if a.audio then n1 + 1 else n1;
    Handles(if a.output then n2 else 0, if a.video then next else 0, if a.audio then n1 else 0, 0)
  }

  function NextAfter(next: Ref, a: Attempt): Ref {
    next + (if a.video then 1 else 0) + (if a.audio then 1 else 0) + (if a.output then 1 else 0)
  }

  function TryStart(c: Current, k: Stock, choice: Choice, canvas: Ref, withMain: bool, a: Attempt): Tried {
    var x, k1 := Created(k.next, a), k.(next := NextAfter(k.next, a));
    if !a.video || !a.audio || !a.output then Tried(c, Reap(k1, x), false) else
    var t := Current(x.(canvas := canvas), Running, c.id + 1, choice.typeId, withMain, true, 0);
    if a.started then Tried(t, k1, true) else Tried(Detach(t), Reap(k1, x), false)
  }

  /** start_with_encoder_fallback */
  function TryTwice(c: Current, k: Stock, choice: Choice, canvas: Ref, withMain: bool, env: Env, available: set<string>): Tried {
    var t := TryStart(c, k, choice, canvas, withMain, env.first);
    var fallback := FallbackEncoder(choice.typeId, available);
    if t.ok || fallback.None? then t else TryStart(t.cur, t.stock, fallback.value, canvas, withMain, env.second)
  }

  function StartSession(s: State, withMain: bool, forced: Option<Choice>, restarted: bool, env: Env, available: set<string>): (State, bool) {
    if s.shutDown || s.cur.mode != Idle || !env.folder || !env.canvas then (s, false) else
    var canvas, k := s.stock.next, s.stock.(next := s.stock.next + 1);
    if !env.hasVideo then (s.(stock := Reap(k, Only(canvas))), false) else
    var choice := if forced.Some? then forced.value else ChooseEncoder(available);
    var t := TryTwice(s.cur, k, choice, canvas, withMain, env, available);
    if !t.ok then (s.(cur := t.cur, stock := Reap(t.stock, Only(canvas))), false)
    else (s.(cur := t.cur, stock := t.stock, stoppedOnError := false,
             restarts := s.restarts.(restarted := restarted, autos := if restarted then s.restarts.autos else 0)), true)
  }

  function FinishSession(s: State, session: nat, code: int, available: set<string>): State {
    var c, r := s.cur, s.restarts;
    if session != c.id || c.mode == Idle then s else
    var restart := if c.mode == Running then RuntimeFallback(code, c.encoder, r.restarted, available) else None;
    var t := s.(cur := Detach(c), stock := Reap(s.stock, c.handles),
                restarts := r.(pending := restart.Some?, withMain := c.withMain),
                stoppedOnError := s.stoppedOnError || (code != STOP_SUCCESS && restart.None?));
    if restart.None? then t
    else t.(posts := t.posts + [Restart(restart.value, c.withMain, r.posted)],
            restarts := t.restarts.(posted := r.posted + 1, autos := r.autos + 1))
  }

  /** A stop cancels every restart posted so far. */
  function CancelRestarts(s: State): State {
    s.(restarts := s.restarts.(pending := false, cancelled := s.restarts.posted))
  }

  function Stop(s: State, active: bool, available: set<string>): State {
    var t := CancelRestarts(s);
    if s.cur.mode != Running then t else
    var u := t.(cur := s.cur.(mode := Stopping));
    if s.cur.handles.output != 0 && active then u else FinishSession(u, s.cur.id, STOP_SUCCESS, available)
  }

  function StopNow(s: State): State {
    var t := CancelRestarts(s);
    if s.cur.mode == Idle then t else t.(cur := Detach(s.cur), stock := Reap(s.stock, s.cur.handles))
  }

  function MainStopping(s: State, active: bool, available: set<string>): State {
    var t := if s.restarts.withMain then CancelRestarts(s) else s;
    if s.cur.withMain && s.cur.mode == Running then Stop(t, active, available) else t
  }

  function Shutdown(s: State): State {
    StopNow(s).(shutDown := true)
  }

  function RestartAfterError(s: State, choice: Choice, withMain: bool, mainActive: bool, env: Env, available: set<string>): State {
    var t := s.(restarts := s.restarts.(pending := false));
    if !s.restarts.pending || s.shutDown || s.cur.mode != Idle || (withMain && !mainActive) then t else
    var (u, ok) := StartSession(t, withMain, Some(choice), true, env, available);
    if ok then u else u.(stoppedOnError := true)
  }

  /** The UI thread runs the post at the head of its queue. */
  function RunPost(s: State, mainActive: bool, env: Env, available: set<string>): State
    requires s.posts != []
  {
    var t := s.(posts := s.posts[1..]);
    match s.posts[0]
    case Finish(session, code) => FinishSession(t, session, code, available)
    case Restart(choice, withMain, _) => RestartAfterError(t, choice, withMain, mainActive, env, available)
  }

  // ----- runs -----

  datatype Event =
    | DoStart(withMain: bool, env: Env) | DoStop(active: bool) | DoStopNow | DoMainStopping(active: bool) | DoShutdown
    | DoPost(mainActive: bool, env: Env)
    | StopSignal(code: int) | SaveClip(active: bool) | ClipSaved

  predicate Enabled(s: State, ev: Event) {
    match ev
    case DoPost(_, _) => s.posts != []
    // a stop signal comes only from an output of ours that was started and whose handler is connected
    case StopSignal(_) => s.cur.connected
    case ClipSaved => s.cur.connected
    case _ => true
  }

  function Apply(s: State, ev: Event, available: set<string>): State
    requires Enabled(s, ev)
  {
    match ev
    case DoStart(withMain, env) => StartSession(s, withMain, None, false, env, available).0
    case DoStop(active) => Stop(s, active, available)
    case DoStopNow => StopNow(s)
    case DoMainStopping(active) => MainStopping(s, active, available)
    case DoShutdown => Shutdown(s)
    case DoPost(mainActive, env) => RunPost(s, mainActive, env, available)
    case StopSignal(code) => s.(posts := s.posts + [Finish(s.cur.id, code)])
    case SaveClip(active) => if s.cur.mode == Running && active then s.(cur := s.cur.(clipOf := s.cur.id)) else s
    case ClipSaved => s.(cur := s.cur.(clipOf := 0))
  }

  predicate Runs(s: State, evs: seq<Event>, t: State, available: set<string>)
    decreases |evs|
  {
    if evs == [] then s == t else Enabled(s, evs[0]) && Runs(Apply(s, evs[0], available), evs[1..], t, available)
  }

  ghost predicate Reachable(t: State, available: set<string>) {
    exists evs :: Runs(START, evs, t, available)
  }
}
