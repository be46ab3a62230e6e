/** What one teardown job does over a run: it force-stops its output, then releases what it holds, the canvas last. */
module OutputTeardown {
  import opened OutputLifecycle
  import opened OutputOrder
  import opened OutputOwnership

  ghost predicate Gone(m: Store, x: Ref) {
    x in m.holder && m.holder[x].0.Released?
  }

  /** Job n has got as far as releasing. */
  predicate Begun(w: Reaper, n: nat) {
    n < w.head || (n == w.head && w.stage.Forced?)
  }

  /** The job is over, or in the line as a teardown that names its output. */
  predicate Known(w: Reaper, n: nat, out: Ref) {
    || n < w.head
    || (n < w.head + |w.line| && w.line[n - w.head].Teardown? && (out != 0 ==> w.line[n - w.head].output == out))
  }

  /** What is left of `r`: each reference is still there or was released, and the canvas goes with the last of them. */
  ghost predicate Left(m: Store, now: Refs, r: Refs) {
    && (forall b: Slot :: In(now, b) == In(r, b) || (In(now, b) == 0 && Gone(m, In(r, b))))
    && (now.canvas == r.canvas || now == NONE)
  }

  /** Job n once held `r`. */
  ghost predicate Follows(m: Store, w: Reaper, forced: set<Ref>, n: nat, r: Refs) {
    && Known(w, n, r.output)
    && (n < w.head ==> Bundle(m, InJob(n)) == NONE)
    && (!Begun(w, n) ==> Bundle(m, InJob(n)) == r)
    && (Begun(w, n) && r.output != 0 ==> r.output in forced)
    && Left(m, Bundle(m, InJob(n)), r)
  }

  /** At the releasing stage the job's output has been force-stopped. */
  ghost predicate StageOk(w: Reaper, forced: set<Ref>) {
    w.stage.Forced? ==> w.line != [] && w.line[0].Teardown? && w.line[0].output in forced
  }

  /** Nothing but an append happens to the line, and no reference of a job moves. */
  ghost predicate Undisturbed(s: State, u: State) {
    && u.reaper.head == s.reaper.head && u.reaper.stage == s.reaper.stage && s.reaper.line <= u.reaper.line
    && u.objects.forced == s.objects.forced
    && forall n: nat :: n < s.reaper.head + |s.reaper.line| ==> Bundle(u.store, InJob(n)) == Bundle(s.store, InJob(n))
  }

  // ----- steps that do not work on the job -----

  lemma UndisturbedFollows(s: State, u: State, n: nat, r: Refs)
    requires Follows(s.store, s.reaper, s.objects.forced, n, r) && Undisturbed(s, u) && Grows(s.store, u.store)
    ensures Follows(u.store, u.reaper, u.objects.forced, n, r)
    ensures StageOk(s.reaper, s.objects.forced) ==> StageOk(u.reaper, u.objects.forced)
  {
    hide In, Bundle;
  }

  lemma UiUndisturbed(s: State, ev: UiEvent)
    requires EnabledUi(s, ev)
    ensures Undisturbed(s, ApplyUi(s, ev))
  {
    hide Drop, CreateEncoders, DropEncoders, MoveEncoders, DropCandidate, Publish, StopDetach, Prepare;
    StopUndisturbed(s);
    PrepareUndisturbed(s, if ev.UiPrepare? then ev.ok else true, if ev.UiPrepare? then ev.at else 0);
    EncodersMove(s.store, UiLocal);
    EncodersMove(s.store, Fields);
    EncodersMove(CreateEncoders(s.store, UiLocal), UiLocal);
    PublishMoves(s.store);
    HelpersMove(s.store, UiLocal, CanvasSlot);
  }

  lemma StopUndisturbed(s: State)
    ensures Undisturbed(s, StopDetach(s))
  {
  }

  lemma PrepareUndisturbed(s: State, ok: bool, at: nat)
    ensures Undisturbed(s, Prepare(s, ok, at))
  {
  }

  lemma ThreadUndisturbed(s: State, t: Tid, ev: ThreadEvent)
    requires EnabledThread(s, t, ev)
    ensures Undisturbed(s, ApplyThread(s, t, ev))
  {
    hide Drop, Create, CreateEncoders, DropEncoders, MoveEncoders, DropCandidate, SwapCanvas, Valid, Current;
    var me := ThreadLocal(t);
    EncodersMove(s.store, me);
    EncodersMove(s.store, Fields);
    HelpersMove(s.store, me, CanvasSlot);
    HelpersMove(MoveEncoders(s.store, me), me, CanvasSlot);
  }

  // ----- the reaper's steps -----

  /** The line changes only at its first place, or loses it. */
  lemma ClaimFollows(s: State, n: nat, r: Refs)
    requires EnabledReaper(s, ReaperClaim) && Follows(s.store, s.reaper, s.objects.forced, n, r)
    requires StageOk(s.reaper, s.objects.forced)
    ensures var u := ApplyReaper(s, ReaperClaim);
            Follows(u.store, u.reaper, u.objects.forced, n, r) && StageOk(u.reaper, u.objects.forced)
  {
    hide In, Bundle;
    var line := s.reaper.line;
    assert forall k :: 0 <= k < |line| - 1 ==> line[1..][k] == line[k + 1];
  }

  lemma DisconnectFollows(s: State, n: nat, r: Refs)
    requires EnabledReaper(s, ReaperDisconnect) && Follows(s.store, s.reaper, s.objects.forced, n, r)
    requires StageOk(s.reaper, s.objects.forced)
    ensures var u := ApplyReaper(s, ReaperDisconnect);
            Follows(u.store, u.reaper, u.objects.forced, n, r) && StageOk(u.reaper, u.objects.forced)
  {
    hide In, Bundle;
  }

  lemma DetachFollows(s: State, n: nat, r: Refs)
    requires EnabledReaper(s, ReaperDetach) && Follows(s.store, s.reaper, s.objects.forced, n, r)
    requires StageOk(s.reaper, s.objects.forced) && Grows(s.store, ApplyReaper(s, ReaperDetach).store)
    ensures var u := ApplyReaper(s, ReaperDetach);
            Follows(u.store, u.reaper, u.objects.forced, n, r) && StageOk(u.reaper, u.objects.forced)
  {
    hide In;
    assert n != s.reaper.head;
  }

  lemma StageFollows(s: State, ev: ReaperEvent, n: nat, r: Refs)
    requires (ev.ReaperJoin? || ev.ReaperForce?) && EnabledReaper(s, ev) && Follows(s.store, s.reaper, s.objects.forced, n, r)
    requires StageOk(s.reaper, s.objects.forced)
    ensures var u := ApplyReaper(s, ev);
            Follows(u.store, u.reaper, u.objects.forced, n, r) && StageOk(u.reaper, u.objects.forced)
  {
    hide In, Bundle;
  }

  /** One release: the next reference goes, the canvas only when it is the last. */
  lemma DropLeft(m: Store, n: nat, r: Refs)
    requires Left(m, Bundle(m, InJob(n)), r) && Bundle(m, InJob(n)) != NONE
    requires Grows(m, Drop(m, InJob(n), NextSlot(Bundle(m, InJob(n)))))
    ensures var m' := Drop(m, InJob(n), NextSlot(Bundle(m, InJob(n)))); Left(m', Bundle(m', InJob(n)), r)
    ensures var m' := Drop(m, InJob(n), NextSlot(Bundle(m, InJob(n)))); forall k: nat :: k != n ==> Bundle(m', InJob(k)) == Bundle(m, InJob(k))
  {
    hide Grows;
    var now := Bundle(m, InJob(n));
    var slot := NextSlot(now);
    PutCells(m, InJob(n), slot, 0);
    assert In(now, slot) != 0;
    GoneStays(m, Drop(m, InJob(n), slot));
  }

  lemma GoneStays(m: Store, m': Store)
    requires Grows(m, m')
    ensures forall x: Ref :: Gone(m, x) ==> Gone(m', x)
  {
  }

  lemma ReleaseFollows(s: State, n: nat, r: Refs)
    requires EnabledReaper(s, ReaperRelease) && Follows(s.store, s.reaper, s.objects.forced, n, r)
    requires StageOk(s.reaper, s.objects.forced) && Grows(s.store, ReleaseNext(s).store)
    ensures var u := ReleaseNext(s); Follows(u.store, u.reaper, u.objects.forced, n, r) && StageOk(u.reaper, u.objects.forced)
  {
    hide In, Drop, NextSlot, Grows, Left, Gone;
    var w := s.reaper;
    var now := Bundle(s.store, InJob(w.head));
    assert forall k :: 0 <= k < |w.line| - 1 ==> w.line[1..][k] == w.line[k + 1];
    if now != NONE {
      if n == w.head {
        DropLeft(s.store, n, r);
      } else {
        OtherJobStays(s.store, w.head, n, r);
      }
    }
  }

  lemma OtherJobStays(m: Store, k: nat, n: nat, r: Refs)
    requires n != k && Left(m, Bundle(m, InJob(n)), r)
    requires Grows(m, Drop(m, InJob(k), NextSlot(Bundle(m, InJob(k)))))
    ensures var m' := Drop(m, InJob(k), NextSlot(Bundle(m, InJob(k))));
            Bundle(m', InJob(n)) == Bundle(m, InJob(n)) && Left(m', Bundle(m', InJob(n)), r)
  {
    hide In, Grows;
    GoneStays(m, Drop(m, InJob(k), NextSlot(Bundle(m, InJob(k)))));
  }

  // ----- every disciplined run -----

  lemma ReaperFollows(s: State, ev: ReaperEvent, n: nat, r: Refs)
    requires EnabledReaper(s, ev) && Follows(s.store, s.reaper, s.objects.forced, n, r)
    requires StageOk(s.reaper, s.objects.forced) && Grows(s.store, ApplyReaper(s, ev).store)
    ensures var u := ApplyReaper(s, ev);
            Follows(u.store, u.reaper, u.objects.forced, n, r) && StageOk(u.reaper, u.objects.forced)
  {
    hide Follows, StageOk, Grows, DetachTo;
    match ev
    case ReaperClaim => ClaimFollows(s, n, r);
    case ReaperDisconnect => DisconnectFollows(s, n, r);
    case ReaperDetach => DetachFollows(s, n, r);
    case ReaperJoin => StageFollows(s, ev, n, r);
    case ReaperForce => StageFollows(s, ev, n, r);
    case ReaperRelease => ReleaseFollows(s, n, r);
  }

  lemma StepFollows(s: State, ev: Event, n: nat, r: Refs)
    requires Order(s) && Conserved(s) && Enabled(s, ev) && Disciplined(s, ev)
    requires Follows(s.store, s.reaper, s.objects.forced, n, r) && StageOk(s.reaper, s.objects.forced)
    ensures var u := Apply(s, ev);
            && Order(u) && Conserved(u)
            && Follows(u.store, u.reaper, u.objects.forced, n, r) && StageOk(u.reaper, u.objects.forced)
  {
    hide Order, Conserved, Follows, StageOk, Grows, Undisturbed, EnabledUi, EnabledThread, EnabledReaper, ApplyUi, ApplyThread, ApplyReaper;
    var u := Apply(s, ev);
    KeepsOrder(s, ev);
    Conserves(s, ev);
    match ev
    case OnUi(e) => UiUndisturbed(s, e); UndisturbedFollows(s, u, n, r);
    case OnSignal(e) => SignalUndisturbed(s, e); UndisturbedFollows(s, u, n, r);
    case OnThread(t, e) => ThreadUndisturbed(s, t, e); UndisturbedFollows(s, u, n, r);
    case OnReaper(e) => ReaperFollows(s, e, n, r);
  }

  lemma SignalUndisturbed(s: State, ev: SignalEvent)
    ensures Undisturbed(s, ApplySignal(s, ev))
  {
  }

  lemma {:induction false} RunFollows(s: State, evs: seq<Event>, t: State, n: nat, r: Refs)
    requires Order(s) && Conserved(s) && DisciplinedRun(s, evs, t)
    requires Follows(s.store, s.reaper, s.objects.forced, n, r) && StageOk(s.reaper, s.objects.forced)
    ensures Conserved(t) && StageOk(t.reaper, t.objects.forced) && Follows(t.store, t.reaper, t.objects.forced, n, r)
    decreases |evs|
  {
    hide Order, Conserved, Follows, StageOk, Enabled, Apply, Disciplined;
    if evs != [] {
      StepFollows(s, evs[0], n, r);
      RunFollows(Apply(s, evs[0]), evs[1..], t, n, r);
    }
  }

  lemma {:induction false} RunStage(s: State, evs: seq<Event>, t: State)
    requires Order(s) && Conserved(s) && DisciplinedRun(s, evs, t) && StageOk(s.reaper, s.objects.forced)
    ensures StageOk(t.reaper, t.objects.forced)
    decreases |evs|
  {
    hide Order, Conserved, StageOk, Enabled, Apply, Disciplined;
    if evs != [] {
      KeepsOrder(s, evs[0]);
      Conserves(s, evs[0]);
      StepStage(s, evs[0]);
      RunStage(Apply(s, evs[0]), evs[1..], t);
    }
  }

  lemma StepStage(s: State, ev: Event)
    requires Enabled(s, ev) && StageOk(s.reaper, s.objects.forced)
    ensures var u := Apply(s, ev); StageOk(u.reaper, u.objects.forced)
  {
    hide EnabledUi, EnabledThread, ApplyUi, ApplyThread, ReleaseNext;
    match ev
    case OnUi(e) => UiUndisturbed(s, e);
    case OnThread(t, e) => ThreadUndisturbed(s, t, e);
    case OnSignal(_) =>
    case OnReaper(e) => if e.ReaperRelease? { ReleaseStage(s); }
  }

  lemma ReleaseStage(s: State)
    requires EnabledReaper(s, ReaperRelease) && StageOk(s.reaper, s.objects.forced)
    ensures var u := ReleaseNext(s); StageOk(u.reaper, u.objects.forced)
  {
  }

  lemma HeldFollows(s: State, n: nat)
    requires WellReached(s) && Bundle(s.store, InJob(n)) != NONE
    ensures Order(s) && Conserved(s) && StageOk(s.reaper, s.objects.forced)
    ensures Follows(s.store, s.reaper, s.objects.forced, n, Bundle(s.store, InJob(n)))
  {
    hide ObjectsOk, ThreadsOk, CapturedOk, SignalsOk, StoppedOk, Exclusive, Drained, Owned, ThreadsHold, Init, DisciplinedRun, In;
    ReachedConserved(s);
    var s0, evs :| Init(s0) && DisciplinedRun(s0, evs, s);
    StagesBegin(s0, evs, s);
  }

  lemma StagesBegin(s: State, evs: seq<Event>, t: State)
    requires Init(s) && DisciplinedRun(s, evs, t)
    ensures StageOk(t.reaper, t.objects.forced)
  {
    hide Order, Conserved, DisciplinedRun;
    InitOrder(s);
    InitConserved(s);
    RunStage(s, evs, t);
  }

  // ----- main results -----

  /** Whatever a job holds at some moment of a run, its canvas is released no earlier than all of it: in every later state
      in which the canvas is gone, the encoders, the output and the service are gone, too. */
  lemma CanvasGoesLast(s: State, evs: seq<Event>, t: State, n: nat, b: Slot)
    requires WellReached(s) && DisciplinedRun(s, evs, t)
    requires var r := Bundle(s.store, InJob(n)); r.canvas != 0 && Gone(t.store, r.canvas) && In(r, b) != 0
    ensures Gone(t.store, In(Bundle(s.store, InJob(n)), b))
  {
    hide Order, WellReached, DisciplinedRun, Exclusive, Drained;
    var r := Bundle(s.store, InJob(n));
    HeldFollows(s, n);
    RunFollows(s, evs, t, n, r);
    HeldNotGone(t, n, CanvasSlot);
  }

  lemma HeldNotGone(t: State, n: nat, b: Slot)
    requires Conserved(t)
    ensures var x := In(Bundle(t.store, InJob(n)), b); x != 0 ==> !Gone(t.store, x)
  {
    hide Exclusive, Drained, UiOk, FieldsOk, ThOk;
  }

  /** A job releases nothing before its output has been force-stopped: at the step that releases the first of what it
      holds, and at every later one, the output is already stopped. */
  lemma ForcedBeforeRelease(s: State, evs: seq<Event>, t: State, ev: Event, n: nat, b: Slot)
    requires WellReached(s) && DisciplinedRun(s, evs, t) && Enabled(t, ev) && Disciplined(t, ev)
    requires var r := Bundle(s.store, InJob(n));
             r.output != 0 && In(r, b) != 0 && !Gone(t.store, In(r, b)) && Gone(Apply(t, ev).store, In(r, b))
    ensures Bundle(s.store, InJob(n)).output in t.objects.forced
  {
    hide Order, WellReached, DisciplinedRun, Conserved, Enabled, Disciplined, Apply, In, StageOk, Follows;
    var r := Bundle(s.store, InJob(n));
    HeldFollows(s, n);
    RunFollows(s, evs, t, n, r);
    OrderAlong(s, evs, t);
    StepFollows(t, ev, n, r);
    HeldNotGone(Apply(t, ev), n, b);
    BegunBefore(t, Apply(t, ev), ev, n, r, b);
  }

  lemma OrderAlong(s: State, evs: seq<Event>, t: State)
    requires Order(s) && Conserved(s) && DisciplinedRun(s, evs, t)
    ensures Order(t) && Conserved(t)
  {
    RunConserves(s, evs, t);
  }

  /** The job had begun to release before the step. */
  lemma BegunBefore(t: State, u: State, ev: Event, n: nat, r: Refs, b: Slot)
    requires Enabled(t, ev) && u == Apply(t, ev)
    requires Follows(t.store, t.reaper, t.objects.forced, n, r) && Follows(u.store, u.reaper, u.objects.forced, n, r)
    requires In(r, b) != 0 && r.output != 0 && In(Bundle(u.store, InJob(n)), b) != In(r, b)
    ensures r.output in t.objects.forced
  {
    hide EnabledUi, EnabledThread, ApplyUi, ApplyThread, Left, Bundle;
    match ev
    case OnUi(e) => UiUndisturbed(t, e);
    case OnThread(k, e) => ThreadUndisturbed(t, k, e);
    case OnSignal(e) => SignalUndisturbed(t, e);
    case OnReaper(e) =>
  }
}
