/** The encoder fallback of one session (src/core/EncoderRecovery.cpp) and the bounded start and reconnect loops
    that use it (src/pipeline/OutputController.cpp). */
module EncoderRecovery {

  datatype Backend = X264 | Nvenc | Qsv | Amf

  const STOP_ENCODE_ERROR: int := -8
  const FALLBACK_AFTER: nat := 3
  const STABLE_LIVE_MS: int := 60000
  const MAX_ATTEMPTS: nat := 10

  datatype Recovery = Recovery(failures: nat, fallback: bool, afterEncodeError: bool)

  const FRESH := Recovery(0, false, false)

  datatype StartFailure =
    | EncoderCreate
    | StartRefused(videoEncoderError: bool, serviceReady: bool, serviceAttached: bool)
    | StopBeforeLive(code: int)

  // ----- the rules as functions: the new state and whether this call switched the fallback on -----

  function EncoderFailure(s: Recovery, configured: Backend): (Recovery, bool) {
    var t := s.(failures := s.failures + 1);
    if s.fallback || configured.X264? || t.failures < FALLBACK_AFTER then (t, false) else (t.(fallback := true), true)
  }

  function StopCode(s: Recovery, code: int, configured: Backend): (Recovery, bool) {
    if code != STOP_ENCODE_ERROR then (s.(afterEncodeError := false), false)
    else EncoderFailure(s.(afterEncodeError := true), configured)
  }

  function RestartFailure(s: Recovery, configured: Backend): (Recovery, bool) {
    if s.afterEncodeError then EncoderFailure(s, configured) else (s, false)
  }

  function LiveFor(s: Recovery, ms: int): Recovery {
    if ms >= STABLE_LIVE_MS then s.(failures := 0, afterEncodeError := false) else s
  }

  predicate EncoderRefused(f: StartFailure) {
    match f
    case EncoderCreate => true
    case StartRefused(videoError, ready, attached) => attached && (videoError || ready)
    case StopBeforeLive(code) => code == STOP_ENCODE_ERROR
  }

  function FirstStartFailure(s: Recovery, f: StartFailure, configured: Backend, x264: bool): (Recovery, bool) {
    if !EncoderRefused(f) || configured.X264? || !x264 || s.fallback then (s, false) else (s.(fallback := true), true)
  }

  function EffectiveBackend(configured: Backend, s: Recovery, x264: bool): Backend {
    if s.fallback && x264 then X264 else configured
  }

  // ----- a session's history -----

  datatype Event = FirstStart(f: StartFailure, x264: bool) | Stopped(code: int) | RestartFailed | Live(ms: int)

  function Step(s: Recovery, ev: Event, configured: Backend): Recovery {
    match ev
    case FirstStart(f, x264) => FirstStartFailure(s, f, configured, x264).0
    case Stopped(code) => StopCode(s, code, configured).0
    case RestartFailed => RestartFailure(s, configured).0
    case Live(ms) => LiveFor(s, ms)
  }

  function After(evs: seq<Event>, configured: Backend): Recovery
    decreases |evs|
  {
    if evs == [] then FRESH else Step(After(evs[..|evs| - 1], configured), evs[|evs| - 1], configured)
  }

  /** The last event that says whose fault a failing restart is was an encode error. */
  predicate BlamesEncoder(evs: seq<Event>)
    decreases |evs|
  {
    evs != [] &&
    var e := evs[|evs| - 1];
    if e.Stopped? then e.code == -8
    else if e.Live? && e.ms >= 60000 then false
    else BlamesEncoder(evs[..|evs| - 1])
  }

  /** Encoder failures since the session was last live for long enough. */
  function FailuresIn(evs: seq<Event>): nat
    decreases |evs|
  {
    if evs == [] then 0 else
    var e, before := evs[|evs| - 1], evs[..|evs| - 1];
    if e.Live? && e.ms >= 60000 then 0
    else FailuresIn(before) + if (e.Stopped? && e.code == -8) || (e.RestartFailed? && BlamesEncoder(before)) then 1 else 0
  }

  /** A failed first start the encoder has nothing to do with: another stop code, no service, or a service that cannot
      connect while the encoder reports no error. */
  predicate Excused(f: StartFailure) {
    || (f.StopBeforeLive? && f.code != -8)
    || (f.StartRefused? && (!f.serviceAttached || (!f.serviceReady && !f.videoEncoderError)))
  }

  /** At some point of the session a first start was refused by the encoder with x264 at hand, or three encoder
      failures had come in a row. */
  ghost predicate Earned(evs: seq<Event>) {
    exists k :: 0 < k <= |evs| && EarnedAt(evs, k)
  }

  predicate EarnedAt(evs: seq<Event>, k: nat)
    requires 0 < k <= |evs|
  {
    (evs[k - 1].FirstStart? && !Excused(evs[k - 1].f) && evs[k - 1].x264) || FailuresIn(evs[..k]) >= 3
  }

  lemma EarnedStep(evs: seq<Event>)
    requires evs != []
    ensures Earned(evs) <==> Earned(evs[..|evs| - 1]) || EarnedAt(evs, |evs|)
  {
    var before := evs[..|evs| - 1];
    forall k | 0 < k <= |before| ensures EarnedAt(before, k) <==> EarnedAt(evs, k) {
      assert before[..k] == evs[..k];
    }
    if Earned(evs) {
      var k :| 0 < k <= |evs| && EarnedAt(evs, k);
      assert k < |evs| ==> EarnedAt(before, k);
    }
    if Earned(before) {
      var k :| 0 < k <= |before| && EarnedAt(before, k);
      assert EarnedAt(evs, k);
    }
  }

  /** The counters agree with the session's history; the fallback is on exactly when the history earned it, and
      never for an endpoint configured for x264. */
  lemma {:induction false} FallbackExactly(evs: seq<Event>, configured: Backend)
    ensures var s := After(evs, configured);
            && s.failures == FailuresIn(evs) && s.afterEncodeError == BlamesEncoder(evs)
            && (s.fallback <==> configured != X264 && Earned(evs))
    decreases |evs|
  {
    if evs != [] {
      FallbackExactly(evs[..|evs| - 1], configured);
      EarnedStep(evs);
      assert evs[..|evs|] == evs;
      var before := evs[..|evs| - 1];
      assert before[..|before|] == before;
      assert before != [] && FailuresIn(before) >= 3 ==> EarnedAt(before, |before|);
    }
  }

  /** The fallback stays on for the rest of the session. */
  lemma {:induction false} FallbackStays(evs: seq<Event>, more: seq<Event>, configured: Backend)
    ensures After(evs, configured).fallback ==> After(evs + more, configured).fallback
    decreases |more|
  {
    if more == [] {
      assert evs + more == evs;
    } else {
      FallbackStays(evs, more[..|more| - 1], configured);
      assert (evs + more)[..|evs + more| - 1] == evs + more[..|more| - 1];
    }
  }

  /** Each rule tells of the switch exactly when it made it. */
  lemma SwitchIsTold(s: Recovery, configured: Backend, x264: bool, f: StartFailure, code: int)
    ensures var r := EncoderFailure(s, configured); r.1 <==> r.0.fallback && !s.fallback
    ensures var r := StopCode(s, code, configured); r.1 <==> r.0.fallback && !s.fallback
    ensures var r := RestartFailure(s, configured); r.1 <==> r.0.fallback && !s.fallback
    ensures var r := FirstStartFailure(s, f, configured, x264); r.1 <==> r.0.fallback && !s.fallback
  {
  }

  /** Whatever the session went through, x264 is used only as configured or as the earned fallback. */
  lemma BackendIsConfiguredOrFallback(evs: seq<Event>, configured: Backend, x264: bool)
    ensures var b := EffectiveBackend(configured, After(evs, configured), x264);
            b == if configured != X264 && Earned(evs) && x264 then X264 else configured
  {
    FallbackExactly(evs, configured);
  }

  // ----- backoff -----

  const SCHEDULE: seq<int> := [1, 2, 5, 10, 30, 60]

  function ReconnectDelay(attempt: nat): int {
    if attempt >= MAX_ATTEMPTS then -1 else SCHEDULE[if attempt < |SCHEDULE| then attempt else |SCHEDULE| - 1]
  }

  /** The delays of the ten attempts, and none after them. */
  lemma DelayTable(a: nat)
    ensures a < 10 ==> ReconnectDelay(a) == [1, 2, 5, 10, 30, 60, 60, 60, 60, 60][a]
    ensures a >= 10 ==> ReconnectDelay(a) < 0
  {
  }

  /** Delays never shrink, stay within a minute, and end exactly at the tenth attempt. */
  lemma DelaysGrow(a: nat, b: nat)
    requires a <= b
    ensures ReconnectDelay(a) < 0 <==> a >= MAX_ATTEMPTS
    ensures b < MAX_ATTEMPTS ==> 1 <= ReconnectDelay(a) <= ReconnectDelay(b) <= 60
  {
  }

  // ----- the loops -----

  /** What one call of the encoder factory made. */
  datatype Made = Made(video: bool, audio: bool)

  /** How obs_output_start answered: started, or refused with the facts read afterwards. */
  datatype Answer = Started | Refused(videoError: bool, ready: bool, attached: bool)

  predicate Whole(m: Made) {
    m.video && m.audio
  }

  predicate ByEncoder(a: Answer) {
    a.Refused? && a.attached && (a.videoError || a.ready)
  }

  /** How one turn of the reconnect loop ends: left before it counts; left after; another turn without a start; a start. */
  datatype Turn = Changed | Gone | CanvasRefused | StillActive | NoEncoders | StartFailed | StartFailedGone | Restarted

  /** The loop goes on after the turn. */
  predicate GoesOn(t: Turn) {
    t.StillActive? || t.NoEncoders? || t.StartFailed?
  }

  predicate CallsStart(t: Turn) {
    t.StartFailed? || t.StartFailedGone? || t.Restarted?
  }

  /** The first turn the loop does not go on after, else all of them. */
  function LastTurn(turns: seq<Turn>, i: nat): (n: nat)
    requires i <= |turns|
    ensures i <= n <= |turns| && (n < |turns| ==> !GoesOn(turns[n])) && forall j :: i <= j < n ==> GoesOn(turns[j])
    decreases |turns| - i
  {
    if i < |turns| && GoesOn(turns[i]) then LastTurn(turns, i + 1) else i
  }

  /** The recovery state after the first n turns, each failed creation or start reported once. */
  function AfterTurns(s: Recovery, turns: seq<Turn>, n: nat, configured: Backend): Recovery
    requires n <= |turns|
  {
    if n == 0 then s
    else
      var before := AfterTurns(s, turns, n - 1, configured);
      if turns[n - 1].NoEncoders? || turns[n - 1].StartFailed? then RestartFailure(before, configured).0 else before
  }

  function StartsIn(turns: seq<Turn>, n: nat): nat
    requires n <= |turns|
  {
    if n == 0 then 0 else StartsIn(turns, n - 1) + if CallsStart(turns[n - 1]) then 1 else 0
  }

  lemma {:induction false} StartsAtMost(turns: seq<Turn>, n: nat)
    requires n <= |turns|
    ensures StartsIn(turns, n) <= n
  {
    if n > 0 {
      StartsAtMost(turns, n - 1);
    }
  }

  /** The controller's side of a session's starts. What the encoders, libobs and other threads do is given to each call;
      the ghost counters count the calls. */
  class Starter {
    var recovery: Recovery
    var attempt: nat
    const configured: Backend
    const x264: bool
    ghost var creations: nat
    ghost var starts: nat
    ghost var reconnectStarts: nat

    constructor (configured: Backend, x264: bool)
      ensures Bounded() && recovery == FRESH && this.configured == configured && this.x264 == x264
    {
      recovery, attempt := FRESH, 0;
      this.configured, this.x264 := configured, x264;
      creations, starts, reconnectStarts := 0, 0, 0;
    }

    /** What holds between calls, from start() on. */
    ghost predicate Bounded()
      reads this
    {
      && attempt <= MAX_ATTEMPTS && reconnectStarts <= attempt
      && (recovery.fallback ==> configured != X264)
    }

    /** The fallback can still be switched on. */
    predicate CanFallBack()
      reads `recovery
    {
      configured != X264 && x264 && !recovery.fallback
    }

    method FirstFailure(f: StartFailure) returns (retry: bool)
      modifies `recovery
      ensures (recovery, retry) == FirstStartFailure(old(recovery), f, configured, x264)
    {
      if !EncoderRefused(f) || configured == X264 || !x264 || recovery.fallback {
        return false;
      }
      recovery := recovery.(fallback := true);
      return true;
    }

    /** One retry at most: a video encoder that cannot be created switches the fallback on, and then there is none left. */
    method CreateStartEncoders(first: Made, second: Made) returns (ok: bool)
      modifies `recovery, `creations
      ensures var retry := !first.video && old(CanFallBack());
              && ok == (Whole(first) || (retry && Whole(second)))
              && recovery == old(recovery).(fallback := old(recovery).fallback || retry)
              && creations == old(creations) + if retry then 2 else 1
    {
      var made := first;
      while true
        invariant made == first || (made == second && !first.video && old(CanFallBack()))
        invariant recovery == old(recovery).(fallback := recovery.fallback)
        invariant recovery.fallback == (old(recovery).fallback || creations != old(creations))
        invariant creations == old(creations) + if !first.video && old(CanFallBack()) && recovery.fallback then 1 else 0
        invariant creations == old(creations) ==> made == first
        invariant creations != old(creations) ==> made == second
        decreases if recovery.fallback then 0 else 1
      {
        creations := creations + 1;
        if made.video && made.audio {
          return true;
        }
        var retry := false;
        if !made.video {
          retry := FirstFailure(EncoderCreate);
        }
        if !retry {
          return false;
        }
        made := second;
      }
    }

    /** start(): a new session's counters, then the encoders (first, and once more after the fallback) and obs_output_start
        (once more if the encoder refused the first): it succeeds exactly in the three ways below. */
    method Start(first: Made, second: Made, answer: Answer, again: Answer) returns (ok: bool)
      modifies this
      ensures var fallback := configured != X264 && x264;
              ok == ((Whole(first) && answer.Started?)
                     || (fallback && !first.video && Whole(second) && answer.Started?)
                     || (fallback && Whole(first) && ByEncoder(answer) && Whole(second) && again.Started?))
      ensures creations <= old(creations) + 2 && starts <= old(starts) + 2
      ensures ok ==> starts > old(starts)
      ensures attempt == 0 && reconnectStarts == 0 && Bounded()
      ensures recovery == FRESH.(fallback := configured != X264 && x264 && (!first.video || (Whole(first) && ByEncoder(answer))))
    {
      attempt, recovery, reconnectStarts := 0, FRESH, 0;
      var created := CreateStartEncoders(first, second);
      if !created {
        return false;
      }
      var now := answer;
      while true
        invariant attempt == 0 && reconnectStarts == 0 && Bounded() && recovery == FRESH.(fallback := recovery.fallback)
        invariant starts == old(starts) || starts == old(starts) + 1
        invariant starts == old(starts) ==>
                    && now == answer && (recovery.fallback <==> configured != X264 && x264 && !first.video)
                    && (if recovery.fallback then Whole(second) else Whole(first))
                    && creations == old(creations) + if recovery.fallback then 2 else 1
        invariant starts > old(starts) ==>
                    && now == again && recovery.fallback && configured != X264 && x264 && Whole(first) && ByEncoder(answer) && Whole(second)
                    && creations == old(creations) + 2
        decreases old(starts) + 2 - starts
      {
        starts := starts + 1;
        if now.Started? {
          return true;
        }
        var retry := FirstFailure(StartRefused(now.videoError, now.ready, now.attached));
        if !retry {
          return false;
        }
        created := CreateStartEncoders(second, second);
        if !created {
          return false;
        }
        now := again;
      }
    }

    /** reconnect_thread_func, turn by turn until the list ends in a stop: it succeeds exactly if a turn within the limit
        restarts the output and none before it left the loop; every turn but a changed session costs one attempt, every
        failed creation or start is reported once, and every obs_output_start call is paid for by one attempt. */
    method Reconnect(turns: seq<Turn>) returns (ok: bool)
      requires Bounded()
      modifies this
      ensures var n := LastTurn(turns, 0);
              var within := old(attempt) + n < MAX_ATTEMPTS;
              && ok == (within && n < |turns| && turns[n].Restarted?)
              && attempt == (if !within then MAX_ATTEMPTS
                             else old(attempt) + n + if n < |turns| && !turns[n].Changed? then 1 else 0)
              && recovery == AfterTurns(old(recovery), turns, attempt - old(attempt), configured)
              && reconnectStarts == old(reconnectStarts) + StartsIn(turns, attempt - old(attempt))
      ensures Bounded() && reconnectStarts - old(reconnectStarts) <= attempt - old(attempt)
    {
      var i := 0;
      while i < |turns|
        invariant 0 <= i <= |turns| && Bounded() && attempt == old(attempt) + i
        invariant LastTurn(turns, i) == LastTurn(turns, 0)
        invariant recovery == AfterTurns(old(recovery), turns, i, configured)
        invariant reconnectStarts == old(reconnectStarts) + StartsIn(turns, i)
      {
        StartsAtMost(turns, i);
        DelaysGrow(attempt, attempt);
        if ReconnectDelay(attempt) < 0 {
          return false;
        }
        var turn := turns[i];
        if turn.Changed? {
          return false;
        }
        attempt := attempt + 1;
        i := i + 1;
        if turn.StillActive? {
          continue;
        }
        if turn.Gone? || turn.CanvasRefused? {
          return false;
        }
        if turn.NoEncoders? {
          var switched := OnRestartFailure();
          continue;
        }
        reconnectStarts := reconnectStarts + 1;
        if turn.Restarted? {
          return true;
        }
        if turn.StartFailedGone? {
          return false;
        }
        var switched := OnRestartFailure();
      }
      StartsAtMost(turns, i);
      return false;
    }

    /** The recovery part of handle_stop: a refused first start, a long Live time, then the stop code. */
    method HandleStop(code: int, starting: bool, live: bool, liveMs: int) returns (firstStart: bool, switched: bool)
      modifies `recovery
      ensures var a := if starting then FirstStartFailure(old(recovery), StopBeforeLive(code), configured, x264) else (old(recovery), false);
              var b := if live then LiveFor(a.0, liveMs) else a.0;
              (recovery, switched) == StopCode(b, code, configured) && firstStart == a.1
    {
      firstStart := false;
      if starting {
        firstStart := FirstFailure(StopBeforeLive(code));
      }
      if live && liveMs >= STABLE_LIVE_MS {
        recovery := recovery.(failures := 0, afterEncodeError := false);
      }
      switched := OnStopCode(code);
    }

    method OnEncoderFailure() returns (switched: bool)
      modifies `recovery
      ensures (recovery, switched) == EncoderFailure(old(recovery), configured)
    {
      recovery := recovery.(failures := recovery.failures + 1);
      if recovery.fallback || configured == X264 || recovery.failures < FALLBACK_AFTER {
        return false;
      }
      recovery := recovery.(fallback := true);
      return true;
    }

    method OnRestartFailure() returns (switched: bool)
      modifies `recovery
      ensures (recovery, switched) == RestartFailure(old(recovery), configured)
    {
      if !recovery.afterEncodeError {
        return false;
      }
      switched := OnEncoderFailure();
    }

    method OnStopCode(code: int) returns (switched: bool)
      modifies `recovery
      ensures (recovery, switched) == StopCode(old(recovery), code, configured)
    {
      if code != STOP_ENCODE_ERROR {
        recovery := recovery.(afterEncodeError := false);
        return false;
      }
      recovery := recovery.(afterEncodeError := true);
      switched := OnEncoderFailure();
    }
  }
}
