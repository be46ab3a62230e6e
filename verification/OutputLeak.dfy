/** Why reference conservation needs its two assumptions, and both of them: a run that may break either one can lose an
    encoder reference. In both runs start() and a reconnect thread publish their encoders into the same fields. */
module OutputLeak {
  import opened OutputLifecycle
  import opened OutputStates
  import opened OutputOrder
  import opened OutputOwnership

  // ----- runs under either assumption, one event at a time -----

  /** Which of the two assumptions a run keeps: no start() while Reconnecting, and capture atomic with spawn. */
  datatype Rules = Rules(noRestart: bool, promptCapture: bool)

  predicate Allowed(r: Rules, s: State, ev: Event) {
    && (r.noRestart && ev.OnUi? && ev.u.UiStart? ==> !s.ctl.state.Reconnecting?)
    && (r.promptCapture && ev.OnSignal? && ev.g.SignalSpawn? ==> ev.g.captured)
  }

  predicate RunsUnder(r: Rules, s: State, evs: seq<Event>, t: State)
    decreases |evs|
  {
    if evs == [] then s == t else Enabled(s, evs[0]) && Allowed(r, s, evs[0]) && RunsUnder(r, Apply(s, evs[0]), evs[1..], t)
  }

  ghost predicate Reaches(r: Rules, t: State) {
    exists s, evs :: Init(s) && RunsUnder(r, s, evs, t)
  }

  lemma {:induction false} RunsOneMore(r: Rules, s: State, evs: seq<Event>, t: State, ev: Event)
    requires RunsUnder(r, s, evs, t) && Enabled(t, ev) && Allowed(r, t, ev)
    ensures RunsUnder(r, s, evs + [ev], Apply(t, ev))
    decreases |evs|
  {
    hide Enabled, Apply, Allowed;
    if evs == [] {
      assert (evs + [ev])[1..] == [];
    } else {
      RunsOneMore(r, Apply(s, evs[0]), evs[1..], t, ev);
      assert (evs + [ev])[1..] == evs[1..] + [ev];
    }
  }

  lemma Take(r: Rules, t: State, ev: Event) returns (u: State)
    requires Reaches(r, t) && Enabled(t, ev) && Allowed(r, t, ev)
    ensures Reaches(r, u) && u == Apply(t, ev)
  {
    hide Enabled, Apply, Init, RunsUnder, Allowed;
    var s, evs :| Init(s) && RunsUnder(r, s, evs, t);
    RunsOneMore(r, s, evs, t, ev);
    u := Apply(t, ev);
  }

  // ----- what a state of the two runs looks like -----

  /** What the fields, start(), thread 1 and job 0 hold; nobody else holds anything. `next` is the next reference. */
  datatype Held = Held(fields: Refs, ui: Refs, thread: Refs, job: Refs, next: Ref)

  ghost predicate Holds(m: Store, h: Held) {
    && Bundle(m, Fields) == h.fields && Bundle(m, UiLocal) == h.ui && Bundle(m, ThreadLocal(1)) == h.thread
    && Bundle(m, InJob(0)) == h.job && m.next == h.next
    && HasNone(m, {Fields, UiLocal, ThreadLocal(1), InJob(0)})
  }

  ghost predicate HasNone(m: Store, others: set<Owner>) {
    forall o: Owner :: o !in others ==> Bundle(m, o) == NONE
  }

  function Pair(n: Ref): Refs {
    Refs(0, 0, n, n + 1, 0)
  }

  lemma UiEncodes(m: Store, h: Held)
    requires Holds(m, h) && h.ui == NONE
    ensures Holds(CreateEncoders(m, UiLocal), h.(ui := Pair(h.next), next := h.next + 2))
  {
  }

  lemma UiPublishes(m: Store, h: Held, n: Ref)
    requires Holds(m, h) && h.fields.canvas == 0 && n > 0 && h.ui == Pair(n)
    ensures Holds(Publish(m), h.(fields := h.fields.(video := n, audio := n + 1), ui := NONE))
    ensures n in Publish(m).holder && Publish(m).holder[n] == (Fields, VideoSlot)
  {
  }

  lemma ThreadClears(m: Store, h: Held)
    requires Holds(m, h)
    ensures Holds(DropEncoders(m, Fields), h.(fields := h.fields.(video := 0, audio := 0)))
  {
  }

  lemma ThreadEncodes(m: Store, h: Held)
    requires Holds(m, h) && h.thread == NONE
    ensures Holds(CreateEncoders(m, ThreadLocal(1)), h.(thread := Pair(h.next), next := h.next + 2))
  {
  }

  /** The thread's encoders replace those in the fields, which nobody releases. */
  lemma ThreadPublishes(m: Store, h: Held, n: Ref)
    requires Holds(m, h) && h.fields.canvas == 0 && n > 0 && h.thread == Pair(n)
    ensures var m' := SwapCanvas(MoveEncoders(m, ThreadLocal(1)), ThreadLocal(1));
            && Holds(m', h.(fields := h.fields.(video := n, audio := n + 1), thread := NONE))
            && forall x: Ref :: x != n && x != n + 1 && x in m.holder ==> x in m'.holder && m'.holder[x] == m.holder[x]
  {
  }

  lemma CreatesOutput(m: Store, h: Held)
    requires Holds(m, h)
    ensures Holds(Create(Create(m, Fields, OutputSlot), Fields, ServiceSlot),
                  h.(fields := h.fields.(output := h.next, service := h.next + 1), next := h.next + 2))
  {
  }

  lemma Detaches(m: Store, h: Held)
    requires Holds(m, h)
    ensures Holds(Detach(m, 0), h.(fields := NONE, job := h.fields))
  {
  }

  lemma Bundles(m: Store, h: Held)
    requires Holds(m, h)
    ensures Bundle(m, Fields) == h.fields && Bundle(m, UiLocal) == h.ui && m.next == h.next
    ensures h.ui.canvas == 0 ==> Drop(m, UiLocal, CanvasSlot) == m
  {
  }

  ghost predicate Looks(s: State, c: Control, th: Thread, nextTid: Tid, running: set<Ref>, address: map<Ref, nat>) {
    && s.ctl == c && Th(s, 1) == th && s.nextTid == nextTid && 0 !in s.threads
    && s.objects.running == running && s.objects.address == address && s.objects.alive == address.Keys
    && s.reaper.head == 0
  }

  const NO_THREAD := Thread(Finished, 0)
  const FIRST := Held(Refs(1, 2, 3, 4, 0), NONE, NONE, NONE, 5)

  // ----- the first session -----

  lemma Started(r: Rules) returns (t: State)
    ensures Reaches(r, t) && Looks(t, Control(Starting, 0, false, false, false, Preparing, Quiet, false), NO_THREAD, 1, {}, map[])
    ensures Holds(t.store, Held(NONE, NONE, NONE, NONE, 1)) && t.reaper.line == []
  {
    var s := State(Store(map[], map[], 1), Control(Idle, 0, false, false, false, Free, Quiet, false), map[], 1,
                   Reaper([], Waiting, 0, map[], map[]), Objects({}, {}, {}, map[]));
    assert Init(s) && RunsUnder(r, s, [], s);
    t := Take(r, s, OnUi(UiStart));
    t := Take(r, t, OnUi(UiTakeStale));
    assert t.ctl.ui == Joining(0);
    t := Take(r, t, OnUi(UiJoined));
    t := Take(r, t, OnUi(UiResolve(true, false)));
  }

  lemma Encoded(r: Rules) returns (t: State)
    ensures Reaches(r, t) && Looks(t, Control(Starting, 0, false, false, true, Publishing, Quiet, false), NO_THREAD, 1, {}, map[1 := 0])
    ensures Holds(t.store, Held(Refs(1, 2, 0, 0, 0), Pair(3), NONE, NONE, 5)) && t.reaper.line == []
  {
    hide Reaches, Holds, CreateEncoders, Publish, DropEncoders, Drop, Create, Detach;
    t := Started(r);
    var h := Held(NONE, NONE, NONE, NONE, 1);
    Bundles(t.store, h);
    CreatesOutput(t.store, h);
    t := Take(r, t, OnUi(UiPrepare(true, 0)));
    UiEncodes(t.store, h.(fields := Refs(1, 2, 0, 0, 0), next := 3));
    t := Take(r, t, OnUi(UiEncode(true)));
  }

  lemma Live(r: Rules) returns (t: State)
    ensures Reaches(r, t) && Looks(t, Control(Starting, 0, false, false, true, Free, Quiet, false), NO_THREAD, 1, {1}, map[1 := 0])
    ensures Holds(t.store, FIRST) && t.reaper.line == []
  {
    hide Reaches, Holds, CreateEncoders, Publish, DropEncoders, Drop, Create, Detach;
    t := Encoded(r);
    UiPublishes(t.store, Held(Refs(1, 2, 0, 0, 0), Pair(3), NONE, NONE, 5), 3);
    t := Take(r, t, OnUi(UiPublish(false)));
    Bundles(t.store, FIRST);
    t := Take(r, t, OnUi(UiDropOld));
    t := Take(r, t, OnUi(UiLaunch(true, false)));
  }

  /** The connection drops; the signal thread is about to join a stale reconnect thread, of which there is none. */
  lemma Dropped(r: Rules) returns (t: State)
    ensures Reaches(r, t)
    ensures Looks(t, Control(Reconnecting, 0, false, false, true, Free, JoiningStale(0), false), NO_THREAD, 1, {}, map[1 := 0])
    ensures Holds(t.store, FIRST) && t.reaper.line == []
  {
    hide Reaches, Holds;
    t := Live(r);
    Bundles(t.store, FIRST);
    t := Take(r, t, OnSignal(SignalStop(Retryable)));
    t := Take(r, t, OnSignal(SignalTake));
  }

  // ----- two who publish -----

  /** A reference that was never released and that nobody points to any more. */
  ghost predicate Lost(s: State, x: Ref) {
    && x in s.store.holder && !s.store.holder[x].0.Released?
    && forall o: Owner, slot: Slot :: In(Bundle(s.store, o), slot) != x
  }

  ghost predicate Leaks(r: Rules) {
    exists t, x :: Reaches(r, t) && Lost(t, x)
  }

  lemma NobodyHas(m: Store, h: Held, x: Ref)
    requires Holds(m, h) && h.ui == h.thread == NONE && x != 0
    requires x !in {h.fields.output, h.fields.service, h.fields.video, h.fields.audio, h.fields.canvas}
    requires x !in {h.job.output, h.job.service, h.job.video, h.job.audio, h.job.canvas}
    ensures forall o: Owner, slot: Slot :: In(Bundle(m, o), slot) != x
  {
  }

  /** A thread of the session in its attempt, and start() about to create encoders for the same output. */
  ghost predicate Crossed(s: State, c: Control, o: Ref, address: map<Ref, nat>, h: Held) {
    && Looks(s, c, Thread(Looping, o), 2, {}, address) && c.ui.Encoding? && !c.stopFlag
    && o in address && 0 < o < h.next && h.fields == Refs(o, o + 1, h.fields.video, h.fields.audio, 0) && h.ui == h.thread == NONE
    && Holds(s.store, h) && o + 1 < h.next && h.job.canvas == 0
    && h.job.output < h.next && h.job.service < h.next && h.job.video < h.next && h.job.audio < h.next
  }

  lemma ThreadReady(r: Rules, s: State, c: Control, o: Ref, address: map<Ref, nat>, h: Held) returns (t: State)
    requires Reaches(r, s) && Crossed(s, c, o, address, h)
    ensures Reaches(r, t) && Looks(t, c, Thread(Ready, o), 2, {}, address)
    ensures Holds(t.store, h.(fields := Refs(o, o + 1, 0, 0, 0), thread := Pair(h.next), next := h.next + 2))
  {
    hide Reaches, Holds, CreateEncoders, Publish, DropEncoders, Drop, Create, Detach;
    Bundles(s.store, h);
    ThreadClears(s.store, h);
    t := Take(r, s, OnThread(1, ThreadClear));
    var k := h.(fields := Refs(o, o + 1, 0, 0, 0));
    Bundles(t.store, k);
    t := Take(r, t, OnThread(1, ThreadResolve(true, false)));
    ThreadEncodes(t.store, k);
    t := Take(r, t, OnThread(1, ThreadEncode(true)));
  }

  /** From there both publish: the thread's encoders end in the fields, over those of start(). */
  lemma BothPublish(r: Rules, s: State, c: Control, o: Ref, address: map<Ref, nat>, h: Held) returns (t: State)
    requires Reaches(r, s) && Crossed(s, c, o, address, h)
    ensures Reaches(r, t) && Looks(t, c.(ui := DroppingOld), Thread(Swapped, o), 2, {}, address)
    ensures var k := h.(fields := Refs(o, o + 1, h.next, h.next + 1, 0), next := h.next + 4);
            Holds(t.store, k) && h.next + 2 in t.store.holder && t.store.holder[h.next + 2] == (Fields, VideoSlot)
  {
    hide Reaches, Holds, CreateEncoders, Publish, MoveEncoders, SwapCanvas, DropEncoders, Drop, Create, Detach, In;
    t := ThreadReady(r, s, c, o, address, h);
    var n := h.next;
    var k := h.(fields := Refs(o, o + 1, 0, 0, 0), thread := Pair(n), next := n + 2);
    Bundles(t.store, k);
    UiEncodes(t.store, k);
    t := Take(r, t, OnUi(UiEncode(true)));
    UiPublishes(t.store, k.(ui := Pair(n + 2), next := n + 4), n + 2);
    t := Take(r, t, OnUi(UiPublish(false)));
    k := k.(fields := Refs(o, o + 1, n + 2, n + 3, 0), next := n + 4);
    Bundles(t.store, k);
    ThreadPublishes(t.store, k, n);
    t := Take(r, t, OnThread(1, ThreadCommit(false)));
  }

  /** And those are lost. */
  lemma CrossedLoses(r: Rules, s: State, c: Control, o: Ref, address: map<Ref, nat>, h: Held) returns (t: State)
    requires Reaches(r, s) && Crossed(s, c, o, address, h)
    ensures Reaches(r, t) && Lost(t, h.next + 2)
  {
    hide Reaches, Holds;
    t := BothPublish(r, s, c, o, address, h);
    NobodyHas(t.store, h.(fields := Refs(o, o + 1, h.next, h.next + 1, 0), next := h.next + 4), h.next + 2);
  }

  // ----- start() while Reconnecting -----

  /** The connection drops, start() is called, and only then the reconnect thread is spawned. */
  lemma StartWhileReconnecting(r: Rules) returns (t: State)
    requires !r.noRestart
    ensures Reaches(r, t)
    ensures Crossed(t, Control(Starting, 1, false, false, true, Encoding, Quiet, false), 1, map[1 := 0], FIRST)
  {
    hide Reaches, Holds, CreateEncoders, Publish, DropEncoders, Drop, Create, Detach;
    t := Dropped(r);
    Bundles(t.store, FIRST);
    t := Take(r, t, OnUi(UiStart));
    t := Take(r, t, OnUi(UiTakeStale));
    t := Take(r, t, OnUi(UiJoined));
    t := Take(r, t, OnUi(UiResolve(true, false)));
    t := Take(r, t, OnSignal(SignalJoined));
    t := Take(r, t, OnSignal(SignalSpawn(true)));
    t := Take(r, t, OnUi(UiPrepare(true, 1)));
  }

  /** So without the first assumption a run loses an encoder. */
  lemma StartWhileReconnectingLeaks(r: Rules)
    requires !r.noRestart
    ensures Leaks(r)
  {
    hide Reaches, Lost, Holds;
    var t := StartWhileReconnecting(r);
    t := CrossedLoses(r, t, Control(Starting, 1, false, false, true, Encoding, Quiet, false), 1, map[1 := 0], FIRST);
  }

  // ----- a thread that captures late -----

  /** The reconnect thread is spawned but has not captured its output when stop() detaches the session. */
  lemma StoppedBeforeCapture(r: Rules) returns (t: State)
    requires !r.promptCapture
    ensures Reaches(r, t)
    ensures Looks(t, Control(Idle, 0, true, false, false, Free, Quiet, true), Thread(Spawned, 0), 2, {}, map[1 := 0])
    ensures Holds(t.store, Held(NONE, NONE, NONE, FIRST.fields, 5))
  {
    hide Reaches, Holds, CreateEncoders, Publish, DropEncoders, Drop, Create, Detach;
    t := Dropped(r);
    Bundles(t.store, FIRST);
    Detaches(t.store, FIRST);
    t := Take(r, t, OnSignal(SignalJoined));
    t := Take(r, t, OnSignal(SignalSpawn(false)));
    t := Take(r, t, OnUi(UiStop));
    t := Take(r, t, OnUi(UiDisconnect));
    t := Take(r, t, OnUi(UiDetach));
  }

  const SECOND := Held(Refs(5, 6, 0, 0, 0), NONE, NONE, FIRST.fields, 7)

  /** The next start() creates its output, and the old thread takes that one for its own. */
  lemma LateCapture(r: Rules) returns (t: State)
    requires !r.promptCapture
    ensures Reaches(r, t)
    ensures Crossed(t, Control(Starting, 0, false, false, true, Encoding, Quiet, false), 5, map[1 := 0, 5 := 1], SECOND)
  {
    hide Reaches, Holds, CreateEncoders, Publish, DropEncoders, Drop, Create, Detach;
    t := StoppedBeforeCapture(r);
    var h := Held(NONE, NONE, NONE, FIRST.fields, 5);
    Bundles(t.store, h);
    CreatesOutput(t.store, h);
    t := Take(r, t, OnUi(UiStart));
    t := Take(r, t, OnUi(UiTakeStale));
    t := Take(r, t, OnUi(UiJoined));
    t := Take(r, t, OnUi(UiResolve(true, false)));
    t := Take(r, t, OnUi(UiPrepare(true, 1)));
    Bundles(t.store, SECOND);
    t := Take(r, t, OnThread(1, ThreadEnter));
  }

  /** So without the second assumption a run loses an encoder, too. */
  lemma LateCaptureLeaks(r: Rules)
    requires !r.promptCapture
    ensures Leaks(r)
  {
    hide Reaches, Lost, Holds;
    var t := LateCapture(r);
    t := CrossedLoses(r, t, Control(Starting, 0, false, false, true, Encoding, Quiet, false), 5, map[1 := 0, 5 := 1], SECOND);
  }

  // ----- main result -----

  lemma {:induction false} BothRulesAreDiscipline(s: State, evs: seq<Event>, t: State)
    requires RunsUnder(Rules(true, true), s, evs, t)
    ensures DisciplinedRun(s, evs, t)
    decreases |evs|
  {
    hide Enabled, Apply;
    if evs != [] {
      BothRulesAreDiscipline(Apply(s, evs[0]), evs[1..], t);
    }
  }

  lemma NothingLostUnderBoth(t: State, x: Ref)
    requires Reaches(Rules(true, true), t)
    ensures !Lost(t, x)
  {
    hide Init, RunsUnder, DisciplinedRun;
    var s, evs :| Init(s) && RunsUnder(Rules(true, true), s, evs, t);
    BothRulesAreDiscipline(s, evs, t);
    KnownReferences(t, x);
    if x in t.store.holder {
      OneHolder(t, x);
      var (o, slot) := t.store.holder[x];
      assert o.Released? || In(Bundle(t.store, o), slot) == x;
    }
  }

  lemma KnownReferences(t: State, x: Ref)
    requires WellReached(t)
    ensures x in t.store.holder ==> 0 < x < t.store.next
  {
    hide Order, Exclusive, Drained;
    ReachedConserved(t);
  }

  /** References are lost in some run exactly when one of the two assumptions is dropped. */
  lemma BothAssumptionsNeeded(r: Rules)
    ensures Leaks(r) <==> !r.noRestart || !r.promptCapture
  {
    hide Reaches, Lost;
    if !r.noRestart {
      StartWhileReconnectingLeaks(r);
    } else if !r.promptCapture {
      LateCaptureLeaks(r);
    } else {
      forall t, x | Reaches(r, t) ensures !Lost(t, x) {
        NothingLostUnderBoth(t, x);
      }
    }
  }
}
