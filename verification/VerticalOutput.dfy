/** The object behind VerticalRecorder and VerticalReplayBuffer, its fields changed in place by its methods;
    every method is proved to be the operation of the same name on its abstract value. */
module VerticalOutput {
  import opened Options
  import opened VerticalSession

  class VerticalOutput {
    var cur: Current
    var stock: Stock           // the reaper's queue
    var pending: bool
    var restartWithMain: bool
    var restarted: bool
    var stoppedOnError: bool
    var posts: seq<Post>       // the UI thread's queue
    var shutDown: bool
    const available: set<string>
    var posted: nat            // numbers the restarts; read by nothing but the proofs
    ghost var cancelled: nat
    ghost var autos: nat

    ghost function Value(): State
      reads this
    {
      State(cur, stock, Restarts(pending, restartWithMain, restarted, posted, cancelled, autos), stoppedOnError, posts, shutDown)
    }

    constructor (available: set<string>)
      ensures Value() == START && this.available == available
    {
      this.available := available;
      cur, stock := Current(NO_HANDLES, Idle, 0, "", false, false, 0), Stock([], 1);
      pending, restartWithMain, restarted, stoppedOnError, posts, shutDown := false, false, false, false, [], false;
      posted, cancelled, autos := 0, 0, 0;
    }

    static method Choose(available: set<string>) returns (c: Choice)
      ensures c == ChooseEncoder(available)
    {
      for i := 0 to |NVENC_IDS|
        invariant forall k :: 0 <= k < i ==> NVENC_IDS[k] !in available
      {
        if NVENC_IDS[i] in available {
          return Nvenc(NVENC_IDS[i]);
        }
      }
      return X264;
    }

    static method Fallback(failed: string, available: set<string>) returns (c: Option<Choice>)
      ensures c == FallbackEncoder(failed, available)
    {
      var wasNvenc, left := false, available;
      for i := 0 to |NVENC_IDS|
        invariant wasNvenc <==> failed in NVENC_IDS[..i]
        invariant left == available - set k | 0 <= k < i :: NVENC_IDS[k]
      {
        wasNvenc := wasNvenc || failed == NVENC_IDS[i];
        left := left - {NVENC_IDS[i]};
      }
      assert left == available - {NVENC_IDS[0], NVENC_IDS[1]};
      if !wasNvenc {
        return None;
      }
      var choice := Choose(left);
      return Some(choice);
    }

    static method AfterError(code: int, session: string, alreadyRestarted: bool, available: set<string>) returns (c: Option<Choice>)
      ensures c == RuntimeFallback(code, session, alreadyRestarted, available)
    {
      if code != STOP_ENCODE_ERROR || alreadyRestarted {
        return None;
      }
      c := Fallback(session, available);
    }

    method GiveToReaper(x: Handles)
      modifies `stock
      ensures stock == Reap(old(stock), x)
    {
      if x.output == 0 && x.video == 0 && x.audio == 0 && x.canvas == 0 {
        return;
      }
      stock := stock.(reaped := stock.reaped + [x]);
    }

    method NewRef(ok: bool) returns (x: Ref)
      modifies `stock
      ensures x == (if ok then old(stock.next) else 0)
      ensures stock == old(stock).(next := old(stock.next) + if ok then 1 else 0)
    {
      x := 0;
      if ok {
        x := stock.next;
        stock := stock.(next := stock.next + 1);
      }
    }

    method TakeSession() returns (x: Handles)
      modifies `cur
      ensures cur == Detach(old(cur)) && x == old(cur.handles)
    {
      x := cur.handles;
      cur := cur.(handles := NO_HANDLES, mode := Idle, withMain := false, clipOf := 0, id := cur.id + 1, connected := false);
    }

    method Try(choice: Choice, canvas: Ref, withMain: bool, a: Attempt) returns (ok: bool)
      modifies `cur, `stock
      ensures Tried(cur, stock, ok) == TryStart(old(cur), old(stock), choice, canvas, withMain, a)
    {
      var video := NewRef(a.video);
      var audio := NewRef(a.audio);
      var output := NewRef(a.output);
      var s := Handles(output, video, audio, 0);
      assert s == Created(old(stock.next), a);
      if !a.video || !a.audio || !a.output {
        GiveToReaper(s);
        return false;
      }
      cur := Current(s.(canvas := canvas), Running, cur.id + 1, choice.typeId, withMain, true, 0);
      if !a.started {
        var dead := TakeSession();
        GiveToReaper(dead.(canvas := 0));   // the canvas is still the caller's
        return false;
      }
      return true;
    }

    method StartWithFallback(choice: Choice, canvas: Ref, withMain: bool, env: Env) returns (ok: bool)
      modifies `cur, `stock
      ensures Tried(cur, stock, ok) == TryTwice(old(cur), old(stock), choice, canvas, withMain, env, available)
    {
      ok := Try(choice, canvas, withMain, env.first);
      if ok {
        return;
      }
      var fallback := Fallback(choice.typeId, available);
      if fallback.None? {
        return false;
      }
      ok := Try(fallback.value, canvas, withMain, env.second);
    }

    method Start(withMain: bool, forced: Option<Choice>, runtimeRestart: bool, env: Env) returns (ok: bool)
      modifies this
      ensures (Value(), ok) == StartSession(old(Value()), withMain, forced, runtimeRestart, env, available)
    {
      if shutDown || cur.mode != Idle {
        return false;
      }
      if !env.folder || !env.canvas {
        return false;
      }
      var canvas := NewRef(true);
      if !env.hasVideo {
        GiveToReaper(Only(canvas));
        return false;
      }
      var choice;
      if forced.Some? {
        choice := forced.value;
      } else {
        choice := Choose(available);
      }
      ok := StartWithFallback(choice, canvas, withMain, env);
      if !ok {
        GiveToReaper(Only(canvas));
        return false;
      }
      restarted := runtimeRestart;
      stoppedOnError := false;
      autos := if runtimeRestart then autos else 0;
    }

    method OnFinish(session: nat, code: int)
      modifies this
      ensures Value() == FinishSession(old(Value()), session, code, available)
    {
      hide RuntimeFallback, Reap, Detach;
      if session != cur.id || cur.mode == Idle {
        return;
      }
      var withMain := cur.withMain;
      var restart: Option<Choice> := None;
      if cur.mode == Running {
        restart := AfterError(code, cur.encoder, restarted, available);
      }
      pending, restartWithMain := restart.Some?, withMain;
      if code != STOP_SUCCESS && restart.None? {
        stoppedOnError := true;
      }
      var s := TakeSession();
      GiveToReaper(s);
      if restart.Some? {
        posts := posts + [Restart(restart.value, withMain, posted)];
        posted, autos := posted + 1, autos + 1;
      }
    }

    method OnStop(active: bool)
      modifies this
      ensures Value() == Stop(old(Value()), active, available)
    {
      pending, cancelled := false, posted;
      if cur.mode != Running {
        return;
      }
      cur := cur.(mode := Stopping);
      if cur.handles.output == 0 || !active {
        OnFinish(cur.id, STOP_SUCCESS);
      }
    }

    method OnStopNow()
      modifies this
      ensures Value() == StopNow(old(Value()))
    {
      pending, cancelled := false, posted;
      if cur.mode == Idle {
        return;
      }
      var s := TakeSession();
      GiveToReaper(s);
    }

    method OnMainStopping(active: bool)
      modifies this
      ensures Value() == MainStopping(old(Value()), active, available)
    {
      if restartWithMain {
        pending, cancelled := false, posted;
      }
      if cur.withMain && cur.mode == Running {
        OnStop(active);
      }
    }

    method OnShutdown()
      modifies this
      ensures Value() == Shutdown(old(Value()))
    {
      OnStopNow();
      shutDown, pending := true, false;
    }

    method OnRestart(choice: Choice, withMain: bool, mainActive: bool, env: Env)
      modifies this
      ensures Value() == RestartAfterError(old(Value()), choice, withMain, mainActive, env, available)
    {
      var was := pending;
      pending := false;
      if !was || shutDown || cur.mode != Idle {
        return;
      }
      if withMain && !mainActive {
        return;
      }
      var ok := Start(withMain, Some(choice), true, env);
      if !ok {
        stoppedOnError := true;
      }
    }
  }
}
