/** What the calls of the detach-and-reaper protocol bring about when nothing fails: start() goes live, a reconnect attempt
    goes live again, stop() leaves the controller idle at once and hands everything to one job. */
module OutputCalls {
  import opened OutputLifecycle
  import opened OutputOrder
  import opened OutputOwnership
  import opened OutputStates
  import opened OutputStops

  /** A disciplined run from `s` to `t`, which keeps the invariants. */
  ghost predicate Leads(s: State, evs: seq<Event>, t: State) {
    Order(t) && Conserved(t) && DisciplinedRun(s, evs, t)
  }

  lemma {:induction false} RunGoesOn(s: State, evs: seq<Event>, t: State, ev: Event)
    requires DisciplinedRun(s, evs, t) && Enabled(t, ev) && Disciplined(t, ev)
    ensures DisciplinedRun(s, evs + [ev], Apply(t, ev))
    decreases |evs|
  {
    hide Enabled, Apply, Disciplined;
    if evs == [] {
      assert (evs + [ev])[1..] == [];
    } else {
      RunGoesOn(Apply(s, evs[0]), evs[1..], t, ev);
      assert (evs + [ev])[1..] == evs[1..] + [ev];
    }
  }

  lemma Then(s: State, evs: seq<Event>, t: State, ev: Event) returns (u: State)
    requires Leads(s, evs, t) && Enabled(t, ev) && Disciplined(t, ev)
    ensures u == Apply(t, ev) && Leads(s, evs + [ev], u)
  {
    hide Order, Conserved, Enabled, Apply, Disciplined, DisciplinedRun;
    u := Apply(t, ev);
    KeepsOrder(t, ev);
    Conserves(t, ev);
    RunGoesOn(s, evs, t, ev);
  }

  // ----- start() -----

  lemma StaleIsOver(s: State)
    requires Order(s) && Conserved(s) && !SessionState(s.ctl.state)
    ensures Th(s, s.ctl.reconnect).pc.Finished? && s.ctl.signal.Quiet?
  {
    hide ObjectsOk, SignalsOk, JobsOk, StoreOk, Drained;
    if !Th(s, s.ctl.reconnect).pc.Finished? {
      assert false;
    }
  }

  const JOINS: seq<Event> := [OnUi(UiStart), OnUi(UiTakeStale), OnUi(UiJoined)]

  lemma StartJoins(s: State) returns (t: State)
    requires Order(s) && Conserved(s) && s.ctl.ui.Free? && !SessionState(s.ctl.state)
    ensures Leads(s, JOINS, t) && t.store == s.store && t.objects == s.objects
    ensures (Fld(s).output != 0 ==> s.ctl.connected) ==> Starts(t, Resolving)
  {
    hide Order, Conserved;
    StaleIsOver(s);
    t := Then(s, [], s, OnUi(UiStart));
    t := Then(s, [] + [OnUi(UiStart)], t, OnUi(UiTakeStale));
    t := Then(s, [] + [OnUi(UiStart)] + [OnUi(UiTakeStale)], t, OnUi(UiJoined));
  }

  /** From the canvas on to obs_output_start. */
  function Builds(canvas: bool, at: nat): seq<Event> {
    [OnUi(UiResolve(true, canvas)), OnUi(UiPrepare(true, at)), OnUi(UiEncode(true)), OnUi(UiPublish(false)),
     OnUi(UiDropOld), OnUi(UiLaunch(true, false)), OnSignal(SignalStart)]
  }

  predicate IsFree(s: State, at: nat) {
    forall o :: o in s.objects.alive && o in s.objects.address ==> s.objects.address[o] != at
  }

  lemma StoreKept(s: State)
    requires Conserved(s)
    ensures Owned(s.store) && UiOk(s.ctl.ui, Bundle(s.store, UiLocal)) && FieldsOk(s.ctl.ui, Fld(s))
    ensures s.ctl.ui.Resolving? ==> Bundle(s.store, UiLocal) == NONE
  {
    hide Exclusive, Drained, Owned, ThreadsHold, JobsHold;
  }

  lemma LeadsKeep(s: State, evs: seq<Event>, t: State)
    requires Leads(s, evs, t)
    ensures Order(t) && Conserved(t)
  {
  }

  /** No reconnect thread in the field, and no flag of an earlier stop. */
  predicate Fresh(s: State) {
    s.ctl.reconnect == 0 && !s.ctl.stopFlag && !s.ctl.stopped
  }

  /** start() is inside its events, with its signals connected once there is an output. */
  predicate Starts(s: State, ui: Ui) {
    && s.ctl.ui == ui && s.ctl.state.Starting? && s.ctl.signal.Quiet? && (Fld(s).output != 0 ==> s.ctl.connected)
    && Fresh(s)
  }

  lemma Resolves(r: State, canvas: bool)
    requires Conserved(r) && Starts(r, Resolving)
    ensures var t := ApplyUi(r, UiResolve(true, canvas));
            && EnabledUi(r, UiResolve(true, canvas)) && Starts(t, Preparing) && Fld(t) == Fld(r) && t.objects == r.objects
            && (Bundle(t.store, UiLocal).canvas != 0 <==> canvas)
  {
    hide Conserved, Create, Owned;
    StoreKept(r);
    if canvas {
      CreateKeeps(r.store, UiLocal, CanvasSlot);
      NextIsPositive(r.store);
    }
  }

  lemma NextIsPositive(m: Store)
    requires Owned(m)
    ensures m.next > 0
  {
  }

  lemma Prepares(r: State, at: nat)
    requires Conserved(r) && Starts(r, Preparing) && IsFree(r, at)
    ensures var t := ApplyUi(r, UiPrepare(true, at));
            && EnabledUi(r, UiPrepare(true, at)) && Starts(t, Encoding) && Fld(t).output != 0 && (Fld(r).output == 0 ==> Fld(t).service != 0)
            && Bundle(t.store, UiLocal) == Bundle(r.store, UiLocal) && (Fld(r).output != 0 ==> Fld(t) == Fld(r))
  {
    hide Conserved, Create, Owned;
    StoreKept(r);
    NextIsPositive(r.store);
    if Fld(r).output == 0 {
      CreateKeeps(r.store, Fields, OutputSlot);
      CreateKeeps(Create(r.store, Fields, OutputSlot), Fields, ServiceSlot);
      FieldsCreate(r.store);
    }
  }

  lemma FieldsCreate(m: Store)
    ensures Bundle(Create(Create(m, Fields, OutputSlot), Fields, ServiceSlot), UiLocal) == Bundle(m, UiLocal)
  {
  }

  lemma Encodes(r: State)
    requires Conserved(r) && Starts(r, Encoding)
    ensures var t := ApplyUi(r, UiEncode(true));
            && EnabledUi(r, UiEncode(true)) && Starts(t, Publishing) && Fld(t) == Fld(r)
            && Bundle(t.store, UiLocal) == Bundle(r.store, UiLocal).(video := r.store.next, audio := r.store.next + 1)
            && r.store.next > 0
  {
    hide Conserved, CreateEncoders, Owned;
    StoreKept(r);
    NextIsPositive(r.store);
    CreateEncodersKeep(r.store, UiLocal);
  }

  lemma Publishes(r: State)
    requires Conserved(r) && Starts(r, Publishing)
    ensures var t, l := ApplyUi(r, UiPublish(false)), Bundle(r.store, UiLocal);
            && EnabledUi(r, UiPublish(false)) && Starts(t, DroppingOld)
            && Fld(t) == Fld(r).(video := l.video, audio := l.audio, canvas := l.canvas)
  {
    hide Conserved, Publish, Owned;
    StoreKept(r);
    PublishKeeps(r.store);
  }

  lemma DropsOld(r: State)
    requires Conserved(r) && Starts(r, DroppingOld)
    ensures var t := ApplyUi(r, UiDropOld); EnabledUi(r, UiDropOld) && Starts(t, Launch) && Fld(t) == Fld(r)
  {
    hide Conserved, Drop, Owned;
    StoreKept(r);
    DropKeeps(r.store, UiLocal, CanvasSlot);
  }

  /** The state in which a session streams: complete, its output started. */
  predicate Streams(s: State, canvas: bool) {
    && s.ctl.ui.Free? && s.ctl.signal.Quiet? && s.ctl.connected && Fld(s).output != 0 && Fld(s).output in s.objects.running
    && Fld(s).video != 0 && Fld(s).audio != 0 && (Fld(s).canvas != 0 <==> canvas)
  }

  lemma Launches(r: State, canvas: bool)
    requires Starts(r, Launch) && Fld(r).output != 0 && Fld(r).video != 0 && Fld(r).audio != 0 && (Fld(r).canvas != 0 <==> canvas)
    ensures var t := ApplyUi(r, UiLaunch(true, false));
            && EnabledUi(r, UiLaunch(true, false)) && Streams(t, canvas) && t.ctl.state.Starting? && EnabledSignal(t, SignalStart)
            && Streams(ApplySignal(t, SignalStart), canvas) && Fresh(ApplySignal(t, SignalStart)) && ApplySignal(t, SignalStart).ctl.state.Live?
            && Fld(ApplySignal(t, SignalStart)) == Fld(r)
  {
  }

  // ----- signals stay connected -----

  predicate Connected(s: State) {
    Fld(s).output != 0 ==> s.ctl.connected || s.ctl.ui.Detaching? || s.ctl.ui.Relinquished?
  }

  lemma StaysConnected(s: State, ev: Event)
    requires Order(s) && Connected(s) && Enabled(s, ev)
    ensures Connected(Apply(s, ev))
  {
    hide Order, Connected, ApplyThread, ApplyUi, ApplyReaper;
    match ev
    case OnUi(u) => UiStaysConnected(s, u);
    case OnThread(t, r) => ThreadStaysConnected(s, t, r);
    case OnReaper(w) => ReaperStaysConnected(s, w);
    case OnSignal(g) => SignalStaysConnected(s, g);
  }

  lemma SignalStaysConnected(s: State, ev: SignalEvent)
    requires Connected(s) && EnabledSignal(s, ev)
    ensures Connected(ApplySignal(s, ev))
  {
  }

  lemma UiStaysConnected(s: State, ev: UiEvent)
    requires Connected(s) && EnabledUi(s, ev)
    ensures Connected(ApplyUi(s, ev))
  {
    hide DropCandidate, CreateEncoders, Create, Drop, MoveEncoders, DropEncoders, Publish;
    UiMoves(s);
  }

  lemma ReaperStaysConnected(s: State, ev: ReaperEvent)
    requires Order(s) && Connected(s) && EnabledReaper(s, ev)
    ensures Connected(ApplyReaper(s, ev))
  {
    hide ObjectsOk, ThreadsOk, CapturedOk, JobsOk, StoppedOk, Drop;
    JobMoves(s);
  }

  lemma ThreadStaysConnected(s: State, t: Tid, ev: ThreadEvent)
    requires Connected(s) && EnabledThread(s, t, ev)
    ensures Connected(ApplyThread(s, t, ev))
  {
    hide DropCandidate, CreateEncoders, Create, Drop, SwapCanvas, MoveEncoders, DropEncoders;
    ThreadMoves(s, t);
  }

  lemma UiMoves(s: State)
    ensures var m, out := s.store, Fld(s).output;
            && Bundle(Drop(m, UiLocal, CanvasSlot), Fields).output == out && Bundle(Create(m, UiLocal, CanvasSlot), Fields).output == out
            && Bundle(CreateEncoders(m, UiLocal), Fields).output == out && Bundle(DropCandidate(m, UiLocal), Fields).output == out
            && Bundle(DropEncoders(m, Fields), Fields).output == out && Bundle(Publish(m), Fields).output == out
            && Bundle(MoveEncoders(CreateEncoders(m, UiLocal), UiLocal), Fields).output == out
  {
    hide Drop, Create, CreateEncoders, DropCandidate, MoveEncoders, DropEncoders, Publish;
    var m := s.store;
    HelpersMove(m, UiLocal, CanvasSlot);
    EncodersMove(m, UiLocal);
    EncodersMove(m, Fields);
    EncodersMove(CreateEncoders(m, UiLocal), UiLocal);
    PublishMoves(m);
  }

  lemma {:induction false} RunConnected(s: State, evs: seq<Event>, t: State)
    requires Order(s) && Conserved(s) && Connected(s) && DisciplinedRun(s, evs, t)
    ensures Connected(t)
    decreases |evs|
  {
    hide Order, Conserved, Connected, Enabled, Apply, Disciplined;
    if evs != [] {
      StaysConnected(s, evs[0]);
      KeepsOrder(s, evs[0]);
      Conserves(s, evs[0]);
      RunConnected(Apply(s, evs[0]), evs[1..], t);
    }
  }

  lemma ReachedConnected(t: State)
    requires WellReached(t)
    ensures Connected(t)
  {
    hide Order, Conserved, DisciplinedRun;
    var s, evs :| Init(s) && DisciplinedRun(s, evs, t);
    InitOrder(s);
    InitConserved(s);
    RunConnected(s, evs, t);
  }

  const FINISH: seq<Event> := [OnUi(UiEncode(true)), OnUi(UiPublish(false)), OnUi(UiDropOld), OnUi(UiLaunch(true, false)), OnSignal(SignalStart)]

  /** From the encoders on. */
  lemma StartFinishes(s: State, evs: seq<Event>, r: State, canvas: bool) returns (t: State)
    requires Leads(s, evs, r) && Starts(r, Encoding) && Fld(r).output != 0 && (Bundle(r.store, UiLocal).canvas != 0 <==> canvas)
    ensures Leads(s, evs + FINISH, t) && t.ctl.state.Live? && Streams(t, canvas) && Fresh(t)
    ensures Fld(t).output == Fld(r).output && Fld(t).service == Fld(r).service
  {
    hide Order, Conserved, Leads, ApplyUi, ApplySignal, EnabledUi, EnabledSignal, Streams;
    LeadsKeep(s, evs, r);
    Encodes(r);
    t := Then(s, evs, r, OnUi(UiEncode(true)));
    var now := evs + [OnUi(UiEncode(true))];
    LeadsKeep(s, now, t);
    Publishes(t);
    t := Then(s, now, t, OnUi(UiPublish(false)));
    now := now + [OnUi(UiPublish(false))];
    LeadsKeep(s, now, t);
    DropsOld(t);
    t := Then(s, now, t, OnUi(UiDropOld));
    now := now + [OnUi(UiDropOld)];
    Launches(t, canvas);
    t := Then(s, now, t, OnUi(UiLaunch(true, false)));
    now := now + [OnUi(UiLaunch(true, false))];
    t := Then(s, now, t, OnSignal(SignalStart));
    now := now + [OnSignal(SignalStart)];
    assert now == evs + FINISH;
  }

  lemma StartBuilds(s: State, evs: seq<Event>, r: State, canvas: bool, at: nat) returns (t: State)
    requires Leads(s, evs, r) && Starts(r, Resolving) && IsFree(r, at)
    ensures Leads(s, evs + [OnUi(UiResolve(true, canvas))] + [OnUi(UiPrepare(true, at))] + FINISH, t)
    ensures t.ctl.state.Live? && Streams(t, canvas) && Fresh(t) && (Fld(r).output != 0 ==> Fld(t).output == Fld(r).output)
    ensures Fld(r).output == 0 ==> Fld(t).service != 0
  {
    hide Order, Conserved, Leads, ApplyUi, EnabledUi, Streams;
    LeadsKeep(s, evs, r);
    Resolves(r, canvas);
    t := Then(s, evs, r, OnUi(UiResolve(true, canvas)));
    var now := evs + [OnUi(UiResolve(true, canvas))];
    LeadsKeep(s, now, t);
    Prepares(t, at);
    t := Then(s, now, t, OnUi(UiPrepare(true, at)));
    now := now + [OnUi(UiPrepare(true, at))];
    var u := t;
    t := StartFinishes(s, now, u, canvas);
  }

  lemma LeadsRun(s: State, evs: seq<Event>, t: State)
    requires Leads(s, evs, t)
    ensures DisciplinedRun(s, evs, t)
  {
  }

  // ----- main results -----

  /** start() outside a session, nothing failing: the old thread is joined without waiting, and the controller goes live with
      a complete session, on the canvas if there is one, without a reconnect thread. */
  lemma StartGoesLive(s: State, canvas: bool, at: nat) returns (t: State)
    requires WellReached(s) && s.ctl.ui.Free? && !SessionState(s.ctl.state) && IsFree(s, at)
    ensures DisciplinedRun(s, JOINS + Builds(canvas, at), t)
    ensures t.ctl.state.Live? && Streams(t, canvas) && Fresh(t) && (Fld(s).output != 0 ==> Fld(t).output == Fld(s).output)
    ensures Fld(s).output == 0 ==> Fld(t).service != 0
  {
    hide Order, Conserved, WellReached, DisciplinedRun, Leads, ApplyUi, ApplySignal, EnabledUi, EnabledSignal, Streams;
    ReachedConserved(s);
    ReachedConnected(s);
    t := StartJoins(s);
    var r := t;
    t := StartBuilds(s, JOINS, r, canvas, at);
    assert JOINS + [OnUi(UiResolve(true, canvas))] + [OnUi(UiPrepare(true, at))] + FINISH == JOINS + Builds(canvas, at);
    LeadsRun(s, JOINS + Builds(canvas, at), t);
  }

  /** A canvas that start() or an attempt has resolved may be removed by the user up to the moment it is taken over, and a main
      video may not. */
  lemma CanvasMayGo(s: State, t: Tid)
    requires s.ctl.ui.Publishing? && t in s.threads && s.threads[t].pc.Ready?
    ensures EnabledUi(s, UiPublish(true)) <==> Bundle(s.store, UiLocal).canvas != 0
    ensures EnabledThread(s, t, ThreadCommit(true)) <==> Bundle(s.store, ThreadLocal(t)).canvas != 0
  {
  }

  /** A start() that meets a failure ends at once, FailedHard, with what it holds itself released. */
  lemma StartFailsHard(s: State, ev: UiEvent)
    requires WellReached(s) && EnabledUi(s, ev)
    requires match ev
      case UiResolve(ok, _) => !ok
      case UiPrepare(ok, _) => !ok && Fld(s).output == 0
      case UiEncode(ok) => !ok
      case UiPublish(removed) => removed
      case UiLaunch(ok, retry) => !ok && !retry
      case UiRetry(ok) => !ok
      case _ => false
    ensures var t := ApplyUi(s, ev);
            t.ctl.state.FailedHard? && t.ctl.ui.Free? && Fld(t).output == Fld(s).output && Bundle(t.store, UiLocal) == NONE
  {
    hide Order, Conserved, WellReached, Drop, DropCandidate, DropEncoders, Owned;
    ReachedConserved(s);
    StoreKept(s);
    DropKeeps(s.store, UiLocal, CanvasSlot);
    DropCandidateKeeps(s.store, UiLocal);
    DropEncodersKeep(s.store, Fields);
    UiMoves(s);
  }

  // ----- a reconnect attempt -----

  /** Thread t works on the session's output, at `pc`, and has not been told to stop. */
  predicate Works(s: State, t: Tid, pc: Pc) {
    && t in s.threads && s.threads[t] == Thread(pc, Fld(s).output) && Fld(s).output != 0
    && Fld(s).output in s.objects.address && !s.ctl.stopFlag && s.ctl.signal.Quiet? && s.ctl.connected && s.ctl.ui.Free?
  }

  lemma ThreadKept(s: State, t: Tid)
    requires Conserved(s) && t in s.threads
    ensures Owned(s.store) && ThOk(s.threads[t].pc, Bundle(s.store, ThreadLocal(t)))
    ensures s.threads[t].captured == Fld(s).output && BeforeCommit(s.threads[t].pc) ==> Fld(s).video == 0 && Fld(s).audio == 0
  {
    hide UiOk, FieldsOk, JobsHold, Drained, Owned;
    assert ThreadsHold(s.store, s.threads);
  }

  lemma Clears(r: State, t: Tid)
    requires Conserved(r) && Works(r, t, Looping)
    ensures EnabledThread(r, t, ThreadClear) && Works(ApplyThread(r, t, ThreadClear), t, Cleared)
    ensures Fld(ApplyThread(r, t, ThreadClear)) == Fld(r).(video := 0, audio := 0)
  {
    hide Conserved, DropEncoders, Owned;
    ThreadKept(r, t);
    DropEncodersKeep(r.store, Fields);
  }

  lemma ResolvesAgain(r: State, t: Tid, canvas: bool)
    requires Conserved(r) && Works(r, t, Cleared)
    ensures var u := ApplyThread(r, t, ThreadResolve(true, canvas));
            && EnabledThread(r, t, ThreadResolve(true, canvas)) && Works(u, t, Candidate) && Fld(u) == Fld(r)
            && (Bundle(u.store, ThreadLocal(t)).canvas != 0 <==> canvas)
  {
    hide Conserved, Create, Owned;
    ThreadKept(r, t);
    NextIsPositive(r.store);
    if canvas {
      CreateKeeps(r.store, ThreadLocal(t), CanvasSlot);
    }
  }

  lemma EncodesAgain(r: State, t: Tid)
    requires Conserved(r) && Works(r, t, Candidate)
    ensures var u := ApplyThread(r, t, ThreadEncode(true));
            && EnabledThread(r, t, ThreadEncode(true)) && Works(u, t, Ready) && Fld(u) == Fld(r)
            && Bundle(u.store, ThreadLocal(t)) == Bundle(r.store, ThreadLocal(t)).(video := r.store.next, audio := r.store.next + 1)
            && r.store.next > 0
  {
    hide Conserved, CreateEncoders, Owned;
    ThreadKept(r, t);
    NextIsPositive(r.store);
    CreateEncodersKeep(r.store, ThreadLocal(t));
  }

  lemma Commits(r: State, t: Tid)
    requires Conserved(r) && Works(r, t, Ready)
    ensures var u, l := ApplyThread(r, t, ThreadCommit(false)), Bundle(r.store, ThreadLocal(t));
            && EnabledThread(r, t, ThreadCommit(false)) && Works(u, t, Swapped)
            && Fld(u) == Fld(r).(video := l.video, audio := l.audio, canvas := l.canvas)
  {
    hide Conserved, SwapCanvas, MoveEncoders, Owned;
    ThreadKept(r, t);
    TakeOverKeeps(r.store, ThreadLocal(t));
  }

  lemma DropsOldCanvas(r: State, t: Tid)
    requires Conserved(r) && Works(r, t, Swapped)
    ensures var u := ApplyThread(r, t, ThreadDropOld); EnabledThread(r, t, ThreadDropOld) && Works(u, t, Launching) && Fld(u) == Fld(r)
  {
    hide Conserved, Drop, Owned;
    ThreadKept(r, t);
    DropKeeps(r.store, ThreadLocal(t), CanvasSlot);
  }

  lemma LaunchesAgain(r: State, t: Tid, canvas: bool)
    requires Works(r, t, Launching) && Fld(r).video != 0 && Fld(r).audio != 0 && (Fld(r).canvas != 0 <==> canvas)
    ensures var u := ApplyThread(r, t, ThreadLaunch(true));
            && EnabledThread(r, t, ThreadLaunch(true)) && Streams(u, canvas) && EnabledSignal(u, SignalStart)
            && Streams(ApplySignal(u, SignalStart), canvas) && ApplySignal(u, SignalStart).ctl.state.Live?
            && Fld(ApplySignal(u, SignalStart)) == Fld(r) && Th(ApplySignal(u, SignalStart), t).pc.Finished?
  {
  }

  /** The steps of one attempt and the signal that answers it. */
  function Attempt(t: Tid, canvas: bool): seq<Event> {
    [OnThread(t, ThreadClear), OnThread(t, ThreadResolve(true, canvas)), OnThread(t, ThreadEncode(true)),
     OnThread(t, ThreadCommit(false)), OnThread(t, ThreadDropOld), OnThread(t, ThreadLaunch(true)), OnSignal(SignalStart)]
  }

  lemma SessionIsWhole(s: State, t: Tid)
    requires Order(s) && Conserved(s) && Connected(s) && t in s.threads && s.threads[t].pc.Looping? && s.threads[t].captured == Fld(s).output
    requires s.ctl.ui.Free? && !s.ctl.stopFlag
    ensures Works(s, t, Looping)
  {
    hide ThreadsOk, JobsOk, StoreOk, Drained;
  }

  /** An attempt of the session's reconnect thread, nothing failing, brings the session back live, with new encoders, on the
      canvas resolved now. */
  lemma AttemptGoesLive(s: State, t: Tid, canvas: bool) returns (u: State)
    requires WellReached(s) && s.ctl.ui.Free? && !s.ctl.stopFlag
    requires t in s.threads && s.threads[t].pc.Looping? && s.threads[t].captured == Fld(s).output
    ensures DisciplinedRun(s, Attempt(t, canvas), u)
    ensures u.ctl.state.Live? && Streams(u, canvas) && Fld(u).output == Fld(s).output && Th(u, t).pc.Finished?
  {
    hide Order, Conserved, WellReached, DisciplinedRun, Leads, ApplyThread, ApplySignal, EnabledThread, EnabledSignal, Streams, Works;
    ReachedConserved(s);
    ReachedConnected(s);
    SessionIsWhole(s, t);
    assert Leads(s, [], s) by { LeadsNowhere(s); }
    Clears(s, t);
    u := Then(s, [], s, OnThread(t, ThreadClear));
    var now := [] + [OnThread(t, ThreadClear)];
    LeadsKeep(s, now, u);
    ResolvesAgain(u, t, canvas);
    u := Then(s, now, u, OnThread(t, ThreadResolve(true, canvas)));
    now := now + [OnThread(t, ThreadResolve(true, canvas))];
    u := AttemptFinishes(s, now, u, t, canvas);
    assert now + [OnThread(t, ThreadEncode(true))] + [OnThread(t, ThreadCommit(false))] + [OnThread(t, ThreadDropOld)]
           + [OnThread(t, ThreadLaunch(true))] + [OnSignal(SignalStart)] == Attempt(t, canvas);
    LeadsRun(s, Attempt(t, canvas), u);
  }

  lemma LeadsNowhere(s: State)
    requires Order(s) && Conserved(s)
    ensures Leads(s, [], s)
  {
    hide Order, Conserved;
  }

  lemma AttemptFinishes(s: State, evs: seq<Event>, r: State, t: Tid, canvas: bool) returns (u: State)
    requires Leads(s, evs, r) && Works(r, t, Candidate) && (Bundle(r.store, ThreadLocal(t)).canvas != 0 <==> canvas)
    ensures Leads(s, evs + [OnThread(t, ThreadEncode(true))] + [OnThread(t, ThreadCommit(false))] + [OnThread(t, ThreadDropOld)]
                     + [OnThread(t, ThreadLaunch(true))] + [OnSignal(SignalStart)], u)
    ensures u.ctl.state.Live? && Streams(u, canvas) && Fld(u).output == Fld(r).output && Th(u, t).pc.Finished?
  {
    hide Order, Conserved, Leads, ApplyThread, ApplySignal, EnabledThread, EnabledSignal, Streams, Works;
    LeadsKeep(s, evs, r);
    EncodesAgain(r, t);
    u := Then(s, evs, r, OnThread(t, ThreadEncode(true)));
    var now := evs + [OnThread(t, ThreadEncode(true))];
    LeadsKeep(s, now, u);
    Commits(u, t);
    u := Then(s, now, u, OnThread(t, ThreadCommit(false)));
    now := now + [OnThread(t, ThreadCommit(false))];
    LeadsKeep(s, now, u);
    DropsOldCanvas(u, t);
    u := Then(s, now, u, OnThread(t, ThreadDropOld));
    now := now + [OnThread(t, ThreadDropOld)];
    LaunchesAgain(u, t, canvas);
    u := Then(s, now, u, OnThread(t, ThreadLaunch(true)));
    now := now + [OnThread(t, ThreadLaunch(true))];
    u := Then(s, now, u, OnSignal(SignalStart));
  }

  // ----- stop() -----

  lemma StopNeedsNoWait(s: State)
    requires Order(s) && s.ctl.ui.Free? && s.ctl.signal.Quiet? && !NothingToStop(s)
    ensures EnabledUi(s, UiStop)
    ensures var a := ApplyUi(s, UiStop);
            EnabledUi(a, UiDisconnect) && EnabledUi(ApplyUi(a, UiDisconnect), UiDetach)
  {
  }

  /** stop() with no signal in flight: at its return the controller is idle and empty, and all it held, with its reconnect
      thread, is in the job it put at the end of the reaper's line. */
  lemma StopHandsOver(s: State)
    requires WellReached(s) && s.ctl.ui.Free? && s.ctl.signal.Quiet? && !NothingToStop(s)
    ensures var t := ApplyUi(ApplyUi(ApplyUi(s, UiStop), UiDisconnect), UiDetach);
            var n := s.reaper.head + |s.reaper.line|;
            && t.ctl.state.Idle? && t.ctl.ui.Free? && t.ctl.stopped && t.ctl.stopFlag && !t.ctl.connected && t.ctl.reconnect == 0
            && Fld(t) == NONE && Bundle(t.store, InJob(n)) == Fld(s)
            && t.reaper.line == s.reaper.line + [Teardown(s.ctl.reconnect, Fld(s).output)] && t.reaper.head == s.reaper.head
            && t.threads == s.threads
    ensures EnabledUi(s, UiStop) && EnabledUi(ApplyUi(s, UiStop), UiDisconnect)
            && EnabledUi(ApplyUi(ApplyUi(s, UiStop), UiDisconnect), UiDetach)
  {
    hide Order, Conserved, WellReached, Detach, Owned;
    ReachedConserved(s);
    StopNeedsNoWait(s);
    JobIsNew(s);
    StoreKept(s);
    DetachKeeps(s.store, s.reaper.head + |s.reaper.line|);
  }

  lemma JobIsNew(s: State)
    requires Conserved(s)
    ensures Bundle(s.store, InJob(s.reaper.head + |s.reaper.line|)) == NONE
  {
    hide Exclusive, Drained, Owned, ThreadsHold, UiOk, FieldsOk;
  }

  /** stop() of a controller that is idle and empty does nothing. */
  lemma StopOfNothing(s: State)
    requires EnabledUi(s, UiStop) && NothingToStop(s)
    ensures var t := ApplyUi(s, UiStop);
            t.ctl == s.ctl.(stopFlag := true, stopped := true) && t.store == s.store && t.reaper == s.reaper && t.threads == s.threads
  {
  }

  // ----- a job -----

  function Left(r: Refs): nat {
    (if r.output != 0 then 1 else 0) + (if r.service != 0 then 1 else 0) + (if r.video != 0 then 1 else 0)
    + (if r.audio != 0 then 1 else 0) + (if r.canvas != 0 then 1 else 0)
  }

  /** The head job at its releasing stage comes to its end by as many releases as it holds references, and a last step that
      takes it off the line; nobody else is needed, and then it holds nothing. */
  lemma {:induction false} JobEnds(s: State, evs: seq<Event>, r: State) returns (more: seq<Event>, t: State)
    requires Leads(s, evs, r) && r.reaper.line != [] && r.reaper.line[0].Teardown? && r.reaper.stage.Forced?
    ensures Leads(s, evs + more, t) && more == seq(Left(Bundle(r.store, InJob(r.reaper.head))) + 1, _ => OnReaper(ReaperRelease))
    ensures t.reaper.line == r.reaper.line[1..] && t.reaper.head == r.reaper.head + 1 && t.reaper.stage.Waiting?
    ensures Bundle(t.store, InJob(r.reaper.head)) == NONE && Fld(t) == Fld(r) && t.ctl == r.ctl && t.threads == r.threads
    decreases Left(Bundle(r.store, InJob(r.reaper.head)))
  {
    hide Leads, Order, Conserved;
    var ev, me := OnReaper(ReaperRelease), InJob(r.reaper.head);
    LeadsKeep(s, evs, r);
    t := Then(s, evs, r, ev);
    if Bundle(r.store, me) == NONE {
      more := [ev];
    } else {
      ReleaseTakesOne(r);
      var u := t;
      more, t := JobEnds(s, evs + [ev], u);
      assert evs + [ev] + more == evs + ([ev] + more);
      more := [ev] + more;
    }
  }

  lemma ReleaseTakesOne(r: State)
    requires Conserved(r) && EnabledReaper(r, ReaperRelease) && Bundle(r.store, InJob(r.reaper.head)) != NONE
    ensures var t := ApplyReaper(r, ReaperRelease);
            && Left(Bundle(t.store, InJob(r.reaper.head))) == Left(Bundle(r.store, InJob(r.reaper.head))) - 1
            && Fld(t) == Fld(r) && t.reaper == r.reaper && t.ctl == r.ctl && t.threads == r.threads
  {
    hide Conserved, Drop, Owned;
    StoreKept(r);
    DropKeeps(r.store, InJob(r.reaper.head), NextSlot(Bundle(r.store, InJob(r.reaper.head))));
  }

  /** Once its thread is over, the head job runs to its end. */
  lemma HeadJobRuns(s: State) returns (evs: seq<Event>, t: State)
    requires WellReached(s) && s.reaper.line != [] && s.reaper.line[0].Teardown? && s.reaper.stage.Waiting?
    requires Th(s, s.reaper.line[0].t).pc.Finished?
    ensures DisciplinedRun(s, evs, t) && forall ev :: ev in evs ==> ev.OnReaper?
    ensures t.reaper.line == s.reaper.line[1..] && Bundle(t.store, InJob(s.reaper.head)) == NONE && Fld(t) == Fld(s) && t.ctl == s.ctl
  {
    hide Order, Conserved, WellReached, DisciplinedRun, Leads;
    ReachedConserved(s);
    LeadsNowhere(s);
    t := Then(s, [], s, OnReaper(ReaperJoin));
    t := Then(s, [] + [OnReaper(ReaperJoin)], t, OnReaper(ReaperForce));
    var now, r := [] + [OnReaper(ReaperJoin)] + [OnReaper(ReaperForce)], t;
    var more;
    more, t := JobEnds(s, now, r);
    evs := now + more;
    LeadsRun(s, evs, t);
  }
}
