/** What a stop signal leads to: a hard failure or an orderly end is final until somebody starts or detaches the session,
    a lost connection gets exactly one reconnect thread. */
module OutputStops {
  import opened OutputLeak
  import opened OutputLifecycle
  import opened OutputOrder
  import opened OutputOwnership
  import opened OutputStates

  // ----- a session at rest -----

  /** Nobody works on the session's output: it does not run, no signal handler or start() is at work, no live thread has it. */
  ghost predicate Settled(s: State, state: OutputState, out: Ref) {
    && s.ctl.state == state && s.ctl.signal.Quiet? && !InStart(s.ctl.ui)
    && Fld(s).output == out && out != 0 && out !in s.objects.running
    && forall t: Tid :: t in s.threads && !s.threads[t].pc.Finished? ==> s.threads[t].captured != out
  }

  /** The ways out of a rest: start(), and the detach of stop() or of the shutdown. */
  predicate Interrupts(ev: Event) {
    ev == OnUi(UiStart) || ev == OnUi(UiDetach) || ev == OnReaper(ReaperDetach)
  }

  lemma UiRests(s: State, ev: UiEvent, state: OutputState, out: Ref)
    requires Settled(s, state, out) && EnabledUi(s, ev) && !Interrupts(OnUi(ev))
    ensures Settled(ApplyUi(s, ev), state, out) && ApplyUi(s, ev).threads.Keys == s.threads.Keys
  {
  }

  lemma ThreadRests(s: State, t: Tid, ev: ThreadEvent, state: OutputState, out: Ref)
    requires Order(s) && Conserved(s) && Settled(s, state, out) && EnabledThread(s, t, ev)
    ensures Settled(ApplyThread(s, t, ev), state, out) && ApplyThread(s, t, ev).threads.Keys == s.threads.Keys
  {
    hide Order, Conserved, DropCandidate, CreateEncoders, Create, Drop, SwapCanvas, MoveEncoders, DropEncoders;
    ThreadIsOther(s, t, out, state);
    var me := ThreadLocal(t);
    LocalMoves(s.store, me);
  }

  /** What a thread does to what it holds itself leaves the session's output alone. */
  lemma LocalMoves(m: Store, o: Owner)
    requires o.ThreadLocal?
    ensures Bundle(Drop(m, o, CanvasSlot), Fields) == Bundle(m, Fields) && Bundle(Create(m, o, CanvasSlot), Fields) == Bundle(m, Fields)
    ensures Bundle(CreateEncoders(m, o), Fields) == Bundle(m, Fields) && Bundle(DropCandidate(m, o), Fields) == Bundle(m, Fields)
  {
    hide Drop, Create, CreateEncoders, DropCandidate;
    HelpersMove(m, o, CanvasSlot);
    EncodersMove(m, o);
  }

  /** Every live thread has captured, and another output than the session's. */
  lemma ThreadIsOther(s: State, t: Tid, out: Ref, state: OutputState)
    requires Order(s) && Conserved(s) && Settled(s, state, out) && t in s.threads && !s.threads[t].pc.Finished?
    ensures !s.threads[t].pc.Spawned? && !Current(s, t) && !Valid(s, t)
  {
    hide Order, StoreOk, Drained;
    CurrentMeansSame(s, t);
  }

  lemma ReaperRests(s: State, ev: ReaperEvent, state: OutputState, out: Ref)
    requires Settled(s, state, out) && EnabledReaper(s, ev) && !Interrupts(OnReaper(ev))
    ensures Settled(ApplyReaper(s, ev), state, out) && ApplyReaper(s, ev).threads.Keys == s.threads.Keys
  {
  }

  lemma Rests(s: State, ev: Event, state: OutputState, out: Ref)
    requires Order(s) && Conserved(s) && Settled(s, state, out) && Enabled(s, ev) && !Interrupts(ev)
    ensures Settled(Apply(s, ev), state, out) && Apply(s, ev).threads.Keys == s.threads.Keys
  {
    hide Order, Conserved, ApplyUi, ApplyThread, ApplyReaper;
    match ev
    case OnUi(u) => UiRests(s, u, state, out);
    case OnSignal(g) => assert false;
    case OnThread(t, r) => ThreadRests(s, t, r, state, out);
    case OnReaper(w) => ReaperRests(s, w, state, out);
  }

  lemma {:induction false} RunRests(s: State, evs: seq<Event>, t: State, state: OutputState, out: Ref)
    requires Order(s) && Conserved(s) && Settled(s, state, out) && DisciplinedRun(s, evs, t)
    requires forall ev :: ev in evs ==> !Interrupts(ev)
    ensures Settled(t, state, out) && t.threads.Keys == s.threads.Keys
    decreases |evs|
  {
    hide Order, Conserved, Settled, Enabled, Apply, Disciplined;
    if evs != [] {
      Rests(s, evs[0], state, out);
      KeepsOrder(s, evs[0]);
      Conserves(s, evs[0]);
      RunRests(Apply(s, evs[0]), evs[1..], t, state, out);
    }
  }

  // ----- what a stop signal leads to -----

  /** The signal that ends the session without a reconnect. */
  predicate IsFinal(s: State, code: StopCode) {
    code.Success? || code.HardFail? || s.ctl.shutdownDone
  }

  function StateAfter(code: StopCode): OutputState {
    if code.HardFail? then FailedHard else Idle
  }

  lemma StopSettles(s: State, code: StopCode)
    requires Order(s) && Conserved(s) && EnabledSignal(s, SignalStop(code)) && IsFinal(s, code)
    ensures Settled(ApplySignal(s, SignalStop(code)), StateAfter(code), Fld(s).output)
    ensures ApplySignal(s, SignalStop(code)).threads == s.threads
  {
    hide ObjectsOk, ThreadsOk, CapturedOk, JobsOk, StoreOk, Drained;
  }

  /** A hard failure leaves FailedHard, an orderly end or one during the shutdown leaves Idle; until a start() or a detach
      the controller stays there, and no thread is ever spawned, whatever the threads of older sessions do. */
  lemma FinalStopStays(s: State, code: StopCode, evs: seq<Event>, t: State)
    requires WellReached(s) && EnabledSignal(s, SignalStop(code)) && IsFinal(s, code)
    requires DisciplinedRun(ApplySignal(s, SignalStop(code)), evs, t) && forall ev :: ev in evs ==> !Interrupts(ev)
    ensures t.ctl.state == StateAfter(code) && t.threads.Keys == s.threads.Keys && Fld(t).output == Fld(s).output
  {
    hide Order, Conserved, WellReached, DisciplinedRun, EnabledSignal, ApplySignal, Interrupts;
    ReachedConserved(s);
    var u := ApplySignal(s, SignalStop(code));
    StopSettles(s, code);
    KeepsOrder(s, OnSignal(SignalStop(code)));
    Conserves(s, OnSignal(SignalStop(code)));
    RunRests(u, evs, t, StateAfter(code), Fld(s).output);
  }

  /** The handler goes on: the output and the set of threads are as they were. */
  predicate Handles(s: State, t: State) {
    Fld(t).output == Fld(s).output && t.nextTid == s.nextTid && t.threads.Keys == s.threads.Keys && !t.ctl.signal.Quiet?
  }

  lemma UiBesideHandler(s: State, ev: UiEvent)
    requires Order(s) && Conserved(s) && !s.ctl.signal.Quiet? && EnabledUi(s, ev) && Disciplined(s, OnUi(ev))
    ensures Handles(s, ApplyUi(s, ev))
  {
    hide ObjectsOk, ThreadsOk, CapturedOk, JobsOk, StoreOk, Drained;
    assert !InStart(s.ctl.ui) && s.ctl.connected;
  }

  lemma ThreadBesideHandler(s: State, t: Tid, ev: ThreadEvent)
    requires !s.ctl.signal.Quiet? && EnabledThread(s, t, ev)
    ensures Handles(s, ApplyThread(s, t, ev))
  {
    hide DropCandidate, CreateEncoders, Create, Drop, SwapCanvas, MoveEncoders, DropEncoders;
    ThreadMoves(s, t);
  }

  lemma ReaperBesideHandler(s: State, ev: ReaperEvent)
    requires Order(s) && !s.ctl.signal.Quiet? && EnabledReaper(s, ev)
    ensures Handles(s, ApplyReaper(s, ev))
  {
    hide ObjectsOk, ThreadsOk, CapturedOk, JobsOk, Drop;
    JobMoves(s);
    assert s.ctl.connected;
  }

  /** While the signal thread handles a lost connection nobody else changes the output or adds a thread. */
  lemma HandlerStep(s: State, ev: Event)
    requires Order(s) && Conserved(s) && !s.ctl.signal.Quiet? && Enabled(s, ev) && Disciplined(s, ev)
    requires ev != OnSignal(SignalSpawn(true))
    ensures Handles(s, Apply(s, ev))
  {
    hide Order, Conserved, ApplyUi, ApplyThread, ApplyReaper;
    match ev
    case OnUi(u) => UiBesideHandler(s, u);
    case OnSignal(g) =>
    case OnThread(t, r) => ThreadBesideHandler(s, t, r);
    case OnReaper(w) => ReaperBesideHandler(s, w);
  }

  lemma ThreadMoves(s: State, t: Tid)
    ensures var m, me := s.store, ThreadLocal(t); var out := Fld(s).output;
            && Bundle(DropEncoders(m, Fields), Fields).output == out && Bundle(Drop(m, me, CanvasSlot), Fields).output == out
            && Bundle(Create(m, me, CanvasSlot), Fields).output == out && Bundle(CreateEncoders(m, me), Fields).output == out
            && Bundle(DropCandidate(m, me), Fields).output == out && Bundle(SwapCanvas(MoveEncoders(m, me), me), Fields).output == out
  {
    hide Drop, Create, CreateEncoders, DropCandidate, SwapCanvas, MoveEncoders, DropEncoders;
    var m, me := s.store, ThreadLocal(t);
    HelpersMove(m, me, CanvasSlot);
    EncodersMove(m, me);
    EncodersMove(m, Fields);
    HelpersMove(MoveEncoders(m, me), me, CanvasSlot);
  }

  lemma JobMoves(s: State)
    ensures forall n: nat, slot: Slot :: Bundle(Drop(s.store, InJob(n), slot), Fields) == Fld(s)
  {
  }

  lemma {:induction false} HandlerRun(s: State, evs: seq<Event>, t: State)
    requires Order(s) && Conserved(s) && !s.ctl.signal.Quiet? && DisciplinedRun(s, evs, t) && OnSignal(SignalSpawn(true)) !in evs
    ensures Order(t) && Conserved(t)
    ensures Handles(s, t)
    decreases |evs|
  {
    hide Order, Conserved, Enabled, Apply, Disciplined;
    if evs != [] {
      HandlerStep(s, evs[0]);
      KeepsOrder(s, evs[0]);
      Conserves(s, evs[0]);
      HandlerRun(Apply(s, evs[0]), evs[1..], t);
    }
  }

  /** A lost connection: the signal thread can go on at once to its last step, the old reconnect thread being over; undisturbed
      it leaves the new thread with no order to stop. */
  lemma HandlerNeverWaits(s: State)
    requires WellReached(s) && EnabledSignal(s, SignalStop(Retryable)) && !s.ctl.shutdownDone
    ensures var a := ApplySignal(s, SignalStop(Retryable));
            && EnabledSignal(a, SignalTake)
            && var b := ApplySignal(a, SignalTake);
               && EnabledSignal(b, SignalJoined)
               && var c := ApplySignal(b, SignalJoined);
                  EnabledSignal(c, SignalSpawn(true)) && !ApplySignal(c, SignalSpawn(true)).ctl.stopFlag
  {
    hide ObjectsOk, JobsOk, StoreOk, Drained, WellReached;
    ReachedConserved(s);
    StaleIsFinished(s);
  }

  lemma StaleIsFinished(s: State)
    requires Order(s) && Conserved(s) && Fld(s).output in s.objects.running
    ensures Th(s, s.ctl.reconnect).pc.Finished?
  {
    hide ObjectsOk, SignalsOk, JobsOk, StoreOk, Drained;
    var t := s.ctl.reconnect;
    if !Th(s, t).pc.Finished? {
      assert false;
    }
  }

  /** However the other threads run meanwhile, when it takes that step without a shutdown the controller is Reconnecting, and
      exactly one thread is new: the one in the field, which has captured the session's output. */
  lemma LostConnectionSpawnsOne(s: State, evs: seq<Event>, t: State)
    requires WellReached(s) && EnabledSignal(s, SignalStop(Retryable)) && !s.ctl.shutdownDone
    requires DisciplinedRun(ApplySignal(s, SignalStop(Retryable)), evs, t) && OnSignal(SignalSpawn(true)) !in evs
    requires EnabledSignal(t, SignalSpawn(true))
    ensures var u := ApplySignal(t, SignalSpawn(true));
            if t.ctl.shutdownDone then u.ctl.state.Idle? && u.threads == t.threads && u.threads.Keys == s.threads.Keys
            else u.ctl.state.Reconnecting? && u.ctl.signal.Quiet? && u.ctl.reconnect !in s.threads
                 && u.threads.Keys == s.threads.Keys + {u.ctl.reconnect}
                 && u.threads[u.ctl.reconnect] == Thread(Looping, Fld(s).output) && Fld(u).output == Fld(s).output
  {
    hide Order, WellReached, DisciplinedRun, StoreOk, Drained;
    ReachedConserved(s);
    var a := ApplySignal(s, SignalStop(Retryable));
    KeepsOrder(s, OnSignal(SignalStop(Retryable)));
    Conserves(s, OnSignal(SignalStop(Retryable)));
    HandlerRun(a, evs, t);
    SpawnIsNew(t);
  }

  // ----- a thread that gives up -----

  /** The step by which thread t gives its session up: no attempts left, no canvas, or a canvas removed. */
  predicate GivesUp(s: State, t: Tid, ev: ThreadEvent) {
    && EnabledThread(s, t, ev)
    && (ev.ThreadGiveUp? || (ev.ThreadResolve? && !ev.ok && Valid(s, t)) || (ev.ThreadCommit? && ev.removed))
  }

  lemma GiveUpSettles(s: State, t: Tid, ev: ThreadEvent)
    requires Order(s) && Conserved(s) && GivesUp(s, t, ev) && Current(s, t)
    ensures Settled(ApplyThread(s, t, ev), FailedHard, Fld(s).output) && ApplyThread(s, t, ev).threads.Keys == s.threads.Keys
  {
    hide Order, StoreOk, Drained, DropCandidate;
    CurrentMeansSame(s, t);
    MineFacts(s, t);
    LocalMoves(s.store, ThreadLocal(t));
  }

  /** It leaves its own session FailedHard, for good until a start() or a detach; a thread of another session changes nothing. */
  lemma GiveUpStays(s: State, t: Tid, ev: ThreadEvent, evs: seq<Event>, u: State)
    requires WellReached(s) && GivesUp(s, t, ev)
    requires DisciplinedRun(ApplyThread(s, t, ev), evs, u) && forall e :: e in evs ==> !Interrupts(e)
    ensures ApplyThread(s, t, ev).threads[t].pc.Finished?
    ensures s.threads[t].captured == Fld(s).output ==> u.ctl.state.FailedHard? && u.threads.Keys == s.threads.Keys
    ensures s.threads[t].captured != Fld(s).output ==> ApplyThread(s, t, ev).ctl == s.ctl
  {
    hide Order, Conserved, WellReached, DisciplinedRun, Interrupts, DropCandidate;
    ReachedConserved(s);
    NoneSpawned(s);
    CurrentMeansSame(s, t);
    if Current(s, t) {
      GiveUpSettles(s, t, ev);
      KeepsOrder(s, OnThread(t, ev));
      Conserves(s, OnThread(t, ev));
      RunRests(ApplyThread(s, t, ev), evs, u, FailedHard, Fld(s).output);
    }
  }

  // ----- without the assumptions -----

  /** Some run that keeps the rules `r` comes out of a hard failure although nobody starts or detaches the session. */
  ghost predicate Revives(r: Rules) {
    exists s, evs, t ::
      && Reaches(r, s) && EnabledSignal(s, SignalStop(HardFail))
      && RunsUnder(r, ApplySignal(s, SignalStop(HardFail)), evs, t) && (forall ev :: ev in evs ==> !Interrupts(ev))
      && !t.ctl.state.FailedHard?
  }

  /** start() and an old thread work on one output: start() starts it, it fails hard, and the thread starts it again. */
  lemma CrossedRevives(r: Rules, s: State, c: Control, o: Ref, address: map<Ref, nat>, h: Held)
    requires Reaches(r, s) && Crossed(s, c, o, address, h) && c.connected && c.signal.Quiet?
    ensures Revives(r)
  {
    hide Reaches, Holds, Drop;
    var t := BothPublish(r, s, c, o, address, h);
    var k := h.(fields := Refs(o, o + 1, h.next, h.next + 1, 0), next := h.next + 4);
    Bundles(t.store, k);
    t := Take(r, t, OnUi(UiDropOld));
    t := Take(r, t, OnUi(UiLaunch(true, false)));
    ThreadStartsAgain(r, t, k, o);
  }

  lemma ThreadStartsAgain(r: Rules, s: State, k: Held, o: Ref)
    requires Reaches(r, s) && EnabledSignal(s, SignalStop(HardFail)) && Holds(s.store, k) && k.fields.output == o && k.thread == NONE
    requires 1 in s.threads && s.threads[1] == Thread(Swapped, o)
    ensures Revives(r)
  {
    hide Reaches, Drop;
    ThreadHasNoCanvas(s.store, k);
    var t0 := ApplySignal(s, SignalStop(HardFail));
    var t1 := Apply(t0, OnThread(1, ThreadDropOld));
    var t2 := Apply(t1, OnThread(1, ThreadLaunch(true)));
    var t3 := Apply(t2, OnSignal(SignalStart));
    var e3 := [OnSignal(SignalStart)];
    var e2 := [OnThread(1, ThreadLaunch(true))] + e3;
    var e1 := [OnThread(1, ThreadDropOld)] + e2;
    assert e3[1..] == [] && e2[1..] == e3 && e1[1..] == e2;
    assert RunsUnder(r, t3, [], t3);
    assert RunsUnder(r, t2, e3, t3);
    assert RunsUnder(r, t1, e2, t3);
    assert RunsUnder(r, t0, e1, t3);
  }

  lemma ThreadHasNoCanvas(m: Store, k: Held)
    requires Holds(m, k) && k.thread == NONE
    ensures Drop(m, ThreadLocal(1), CanvasSlot) == m
  {
  }

  /** A hard failure stays under both assumptions, and without either of them it need not. */
  lemma FailureStaysUnderBoth(r: Rules)
    ensures Revives(r) <==> !r.noRestart || !r.promptCapture
  {
    hide Reaches, RunsUnder, EnabledSignal, ApplySignal, Interrupts, DisciplinedRun;
    if !r.noRestart {
      var t := StartWhileReconnecting(r);
      CrossedRevives(r, t, Control(Starting, 1, false, false, true, Encoding, Quiet, false), 1, map[1 := 0], FIRST);
    } else if !r.promptCapture {
      var t := LateCapture(r);
      CrossedRevives(r, t, Control(Starting, 0, false, false, true, Encoding, Quiet, false), 5, map[1 := 0, 5 := 1], SECOND);
    } else {
      forall s, evs, t | Reaches(r, s) && EnabledSignal(s, SignalStop(HardFail))
                         && RunsUnder(r, ApplySignal(s, SignalStop(HardFail)), evs, t) && forall ev :: ev in evs ==> !Interrupts(ev)
        ensures t.ctl.state.FailedHard?
      {
        ReachedUnderBoth(s);
        BothRulesAreDiscipline(ApplySignal(s, SignalStop(HardFail)), evs, t);
        FinalStopStays(s, HardFail, evs, t);
      }
    }
  }

  lemma ReachedUnderBoth(s: State)
    requires Reaches(Rules(true, true), s)
    ensures WellReached(s)
  {
    hide RunsUnder, DisciplinedRun, Init;
    var i, evs :| Init(i) && RunsUnder(Rules(true, true), i, evs, s);
    BothRulesAreDiscipline(i, evs, s);
  }
}
