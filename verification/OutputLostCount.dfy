/** Why the attempt bound needs start() to wait for threads that are counting: a thread abandoned by stop() stores an old
    count into the new session, which then starts its output more than ten times. */
module OutputLostCount {
  import opened OutputLifecycle
  import opened OutputStates
  import opened OutputOwnership
  import opened OutputAttempts
  import Leak = OutputLeak

  type Held = Leak.Held

  ghost predicate Reached(r: Rule, x: Race) {
    exists b, es :: Begins(b) && Races(r, b, es, x)
  }

  lemma {:induction false} RacesOneMore(r: Rule, b: Race, es: seq<Step>, x: Race, e: Step)
    requires Races(r, b, es, x) && Can(x, e) && Apart(r, x, e)
    ensures Races(r, b, es + [e], Do(x, e))
    decreases |es|
  {
    hide Can, Do, Apart;
    if es == [] {
      assert (es + [e])[1..] == [];
    } else {
      RacesOneMore(r, Do(b, es[0]), es[1..], x, e);
      assert (es + [e])[1..] == es[1..] + [e];
    }
  }

  lemma Take(r: Rule, x: Race, e: Step) returns (y: Race)
    requires Reached(r, x) && Can(x, e) && Apart(r, x, e)
    ensures Reached(r, y) && y == Do(x, e)
  {
    hide Can, Do, Begins, Races, Apart;
    var b, es :| Begins(b) && Races(r, b, es, x);
    RacesOneMore(r, b, es, x, e);
    y := Do(x, e);
  }

  lemma TakeUi(r: Rule, x: Race, u: UiEvent) returns (y: Race)
    requires Reached(r, x) && EnabledUi(x.s, u) && (u.UiStart? ==> !x.s.ctl.state.Reconnecting? && Apart(r, x, Protocol(OnUi(u))))
    ensures Reached(r, y) && y.s == ApplyUi(x.s, u) && y.phase == x.phase && y.launched == x.launched
    ensures y.session == x.session + (if u.UiStart? then 1 else 0) && y.attempt == if u.UiStart? then 0 else x.attempt
  {
    hide EnabledUi, ApplyUi, Reached;
    y := Take(r, x, Protocol(OnUi(u)));
  }

  lemma TakeSignal(r: Rule, x: Race, g: SignalEvent) returns (y: Race)
    requires Reached(r, x) && EnabledSignal(x.s, g) && (g.SignalSpawn? ==> g.captured)
    ensures Reached(r, y) && y == x.(s := ApplySignal(x.s, g))
  {
    hide EnabledSignal, ApplySignal, Reached;
    y := Take(r, x, Protocol(OnSignal(g)));
  }

  // ----- a session up to its reconnect thread -----

  ghost predicate Stands(s: State, c: Control, threads: map<Tid, Thread>, nextTid: Tid, address: map<Ref, nat>, w: Reaper) {
    && s.ctl == c && s.threads == threads && 0 !in threads && s.nextTid == nextTid && s.reaper == w
    && s.objects.running == {} && s.objects.address == address && s.objects.alive == address.Keys
  }

  /** start() up to the encoders. */
  lemma StartUp(r: Rule, x: Race, stopFlag: bool, stopped: bool, threads: map<Tid, Thread>, n: Tid, address: map<Ref, nat>, w: Reaper, h: Held, at: nat)
    returns (y: Race)
    requires Reached(r, x) && Stands(x.s, Control(Idle, 0, stopFlag, false, false, Free, Quiet, stopped), threads, n, address, w)
    requires Apart(r, x, Protocol(OnUi(UiStart)))
    requires Leak.Holds(x.s.store, h) && h.fields == NONE && h.ui == NONE && forall o: Ref :: o in address ==> address[o] != at
    ensures Reached(r, y)
    ensures Stands(y.s, Control(Starting, 0, false, false, true, Encoding, Quiet, false), threads, n, address[h.next := at], w)
    ensures Leak.Holds(y.s.store, h.(fields := Refs(h.next, h.next + 1, 0, 0, 0), next := h.next + 2))
    ensures y.phase == x.phase && y.launched == x.launched && y.session == x.session + 1 && y.attempt == 0
  {
    hide Reached, Leak.Holds, Create, CreateEncoders, Publish, DropEncoders, Drop, Detach;
    Leak.Bundles(x.s.store, h);
    Leak.CreatesOutput(x.s.store, h);
    y := TakeUi(r, x, UiStart);
    y := TakeUi(r, y, UiTakeStale);
    y := TakeUi(r, y, UiJoined);
    y := TakeUi(r, y, UiResolve(true, false));
    y := TakeUi(r, y, UiPrepare(true, at));
  }

  lemma GoUp(r: Rule, x: Race, threads: map<Tid, Thread>, n: Tid, address: map<Ref, nat>, w: Reaper, h: Held) returns (y: Race)
    requires Reached(r, x) && Stands(x.s, Control(Starting, 0, false, false, true, Encoding, Quiet, false), threads, n, address, w)
    requires Leak.Holds(x.s.store, h) && h.fields == Refs(h.fields.output, h.fields.service, 0, 0, 0) && h.ui == NONE && h.next > 0
    requires h.fields.output in address
    ensures Reached(r, y) && y == x.(s := y.s)
    ensures y.s.ctl == Control(Starting, 0, false, false, true, Free, Quiet, false)
    ensures y.s.threads == threads && y.s.nextTid == n && y.s.reaper == w && y.s.objects == x.s.objects.(running := {h.fields.output})
    ensures Leak.Holds(y.s.store, h.(fields := h.fields.(video := h.next, audio := h.next + 1), next := h.next + 2))
  {
    hide Reached, Leak.Holds, Create, CreateEncoders, Publish, DropEncoders, Drop, Detach;
    Leak.UiEncodes(x.s.store, h);
    y := TakeUi(r, x, UiEncode(true));
    Leak.UiPublishes(y.s.store, h.(ui := Leak.Pair(h.next), next := h.next + 2), h.next);
    y := TakeUi(r, y, UiPublish(false));
    Leak.Bundles(y.s.store, h.(fields := h.fields.(video := h.next, audio := h.next + 1), next := h.next + 2));
    y := TakeUi(r, y, UiDropOld);
    y := TakeUi(r, y, UiLaunch(true, false));
  }

  /** The connection drops and a reconnect thread is spawned. */
  lemma GoDown(r: Rule, x: Race, threads: map<Tid, Thread>, n: Tid, w: Reaper, h: Held) returns (y: Race)
    requires Reached(r, x) && x.s.ctl == Control(Starting, 0, false, false, true, Free, Quiet, false)
    requires x.s.threads == threads && 0 !in threads && x.s.nextTid == n > 0 && x.s.reaper == w
    requires Leak.Holds(x.s.store, h) && x.s.objects.running == {h.fields.output} && x.s.objects.alive == x.s.objects.address.Keys
    ensures Reached(r, y) && y == x.(s := y.s) && y.s.store == x.s.store
    ensures Stands(y.s, Control(Reconnecting, n, false, false, true, Free, Quiet, false), threads[n := Thread(Looping, h.fields.output)], n + 1,
                   x.s.objects.address, w)
  {
    hide Reached, Leak.Holds;
    Leak.Bundles(x.s.store, h);
    y := TakeSignal(r, x, SignalStop(Retryable));
    y := TakeSignal(r, y, SignalTake);
    y := TakeSignal(r, y, SignalJoined);
    y := TakeSignal(r, y, SignalSpawn(true));
  }

  /** stop(): the session goes to job 0 with its thread unfinished. */
  lemma GoAway(r: Rule, x: Race, threads: map<Tid, Thread>, n: Tid, address: map<Ref, nat>, w: Reaper, h: Held) returns (y: Race)
    requires Reached(r, x) && Stands(x.s, Control(Reconnecting, n, false, false, true, Free, Quiet, false), threads, n + 1, address, w)
    requires Leak.Holds(x.s.store, h) && h.fields.output != 0 && w.line == [] && w.head == 0
    ensures Reached(r, y) && y == x.(s := y.s)
    ensures Stands(y.s, Control(Idle, 0, true, false, false, Free, Quiet, true), threads, n + 1, address, y.s.reaper)
    ensures Leak.Holds(y.s.store, h.(fields := NONE, job := h.fields))
  {
    hide Reached, Leak.Holds, Detach;
    Leak.Bundles(x.s.store, h);
    Leak.Detaches(x.s.store, h);
    y := TakeUi(r, x, UiStop);
    y := TakeUi(r, y, UiDisconnect);
    y := TakeUi(r, y, UiDetach);
  }

  // ----- attempts -----

  /** Thread t is at the top of its loop, with its output in place and nobody to stop it. */
  predicate Spins(x: Race, t: Tid, o: Ref) {
    && t in x.s.threads && x.s.threads[t] == Thread(Looping, o) && PhaseOf(x.phase, t).Top?
    && !x.s.ctl.stopFlag && Fld(x.s).output == o && o in x.s.objects.address && o != 0
  }

  /** Between x and y only thread t has worked. */
  ghost predicate Alone(x: Race, y: Race, t: Tid) {
    && y.session == x.session
    && (forall u: Tid :: u != t ==> PhaseOf(y.phase, u) == PhaseOf(x.phase, u))
    && forall u: Tid :: u != t && u in x.s.threads ==> u in y.s.threads && y.s.threads[u] == x.s.threads[u]
  }

  /** One turn of the loop up to the lock. */
  lemma CountUp(r: Rule, x: Race, t: Tid, o: Ref) returns (y: Race)
    requires Reached(r, x) && Spins(x, t, o) && x.attempt < MAX_ATTEMPTS
    ensures Reached(r, y) && Alone(x, y, t) && y.s == x.s && y.launched == x.launched && y.attempt == x.attempt + 1
    ensures PhaseOf(y.phase, t) == Counted(Ticket(x.session, x.attempt))
  {
    hide Reached;
    y := Take(r, x, Pass(t));
    y := Take(r, y, Check(t));
    y := Take(r, y, Load(t));
    y := Take(r, y, Save(t));
  }

  /** An event of a thread that goes on, or whose output did not start. */
  predicate Onward(pc: Pc, ev: ThreadEvent) {
    match ev
    case ThreadClear => pc.Looping?
    case ThreadResolve(ok, canvas) => pc.Cleared? && ok && !canvas
    case ThreadEncode(ok) => pc.Candidate? && ok
    case ThreadCommit(removed) => pc.Ready? && !removed
    case ThreadDropOld => pc.Swapped?
    case ThreadLaunch(ok) => pc.Launching? && !ok
    case _ => false
  }

  function NextPc(ev: ThreadEvent): Pc {
    match ev
    case ThreadClear => Cleared
    case ThreadResolve(_, _) => Candidate
    case ThreadEncode(_) => Ready
    case ThreadCommit(_) => Swapped
    case ThreadDropOld => Launching
    case _ => Looping
  }

  lemma GoesOn(s: State, t: Tid, o: Ref, ev: ThreadEvent)
    requires t in s.threads && s.threads[t].captured == o && Onward(s.threads[t].pc, ev)
    requires !s.ctl.stopFlag && Fld(s).output == o && o in s.objects.address && o != 0
    ensures EnabledThread(s, t, ev)
    ensures var u := ApplyThread(s, t, ev);
            && u.threads == s.threads[t := Thread(NextPc(ev), o)] && u.ctl == s.ctl && u.objects == s.objects && Fld(u).output == o
  {
    hide Fld, Drop, Create, CreateEncoders, DropEncoders, MoveEncoders, DropCandidate, SwapCanvas;
    ThreadOutput(s, t, ev);
  }

  lemma TakeThread(r: Rule, x: Race, t: Tid, o: Ref, ev: ThreadEvent) returns (y: Race)
    requires Reached(r, x) && t in x.s.threads && x.s.threads[t].captured == o && Onward(x.s.threads[t].pc, ev)
    requires !x.s.ctl.stopFlag && Fld(x.s).output == o && o in x.s.objects.address && o != 0
    requires ev.ThreadClear? ==> PhaseOf(x.phase, t).Counted?
    ensures Reached(r, y) && Alone(x, y, t) && y.attempt == x.attempt && y.s.ctl == x.s.ctl && y.s.objects == x.s.objects
    ensures Fld(y.s).output == o && t in y.s.threads && y.s.threads[t] == Thread(NextPc(ev), o)
    ensures PhaseOf(y.phase, t) == if ev.ThreadLaunch? then Top else PhaseOf(x.phase, t)
    ensures y.launched == if ev.ThreadLaunch? then x.launched + [PhaseTicket(PhaseOf(x.phase, t))] else x.launched
  {
    hide Reached, Fld, ApplyThread, EnabledThread, Onward;
    GoesOn(x.s, t, o, ev);
    OnwardStays(x.s.threads[t].pc, ev);
    y := Take(r, x, Protocol(OnThread(t, ev)));
  }

  lemma OnwardStays(pc: Pc, ev: ThreadEvent)
    requires Onward(pc, ev)
    ensures NextPc(ev).Looping? <==> ev.ThreadLaunch?
  {
  }

  /** An attempt from the lock to its encoders. */
  lemma Equip(r: Rule, x: Race, t: Tid, o: Ref) returns (y: Race)
    requires Reached(r, x) && t in x.s.threads && x.s.threads[t] == Thread(Looping, o) && PhaseOf(x.phase, t).Counted?
    requires !x.s.ctl.stopFlag && Fld(x.s).output == o && o in x.s.objects.address && o != 0
    ensures Reached(r, y) && Alone(x, y, t) && y.attempt == x.attempt && y.launched == x.launched
    ensures y.s.ctl == x.s.ctl && y.s.objects == x.s.objects && PhaseOf(y.phase, t) == PhaseOf(x.phase, t)
    ensures Fld(y.s).output == o && t in y.s.threads && y.s.threads[t] == Thread(Ready, o)
  {
    hide Reached, Fld;
    y := TakeThread(r, x, t, o, ThreadClear);
    y := TakeThread(r, y, t, o, ThreadResolve(true, false));
    y := TakeThread(r, y, t, o, ThreadEncode(true));
  }

  /** One whole attempt that does not connect. */
  lemma OneAttempt(r: Rule, x: Race, t: Tid, o: Ref) returns (y: Race)
    requires Reached(r, x) && Spins(x, t, o) && x.attempt < MAX_ATTEMPTS
    ensures Reached(r, y) && Spins(y, t, o) && Alone(x, y, t) && y.attempt == x.attempt + 1
    ensures y.launched == x.launched + [Ticket(x.session, x.attempt)]
  {
    hide Reached, Fld;
    y := CountUp(r, x, t, o);
    y := Equip(r, y, t, o);
    y := TakeThread(r, y, t, o, ThreadCommit(false));
    y := TakeThread(r, y, t, o, ThreadDropOld);
    y := TakeThread(r, y, t, o, ThreadLaunch(false));
  }

  lemma Attempts(r: Rule, x: Race, t: Tid, o: Ref, n: nat) returns (y: Race)
    requires Reached(r, x) && Spins(x, t, o) && x.attempt + n <= MAX_ATTEMPTS
    ensures Reached(r, y) && Spins(y, t, o) && Alone(x, y, t) && y.attempt == x.attempt + n
    ensures x.launched <= y.launched && |y.launched| == |x.launched| + n
    ensures forall i :: |x.launched| <= i < |y.launched| ==> y.launched[i].session == x.session
    decreases n
  {
    hide Reached, Spins;
    y := x;
    if n > 0 {
      y := Attempts(r, x, t, o, n - 1);
      y := OneAttempt(r, y, t, o);
    }
  }

  // ----- the run -----

  /** The first session's thread passed its session check, and loaded the counter too if start() may come then. */
  lemma Abandoned(r: Rule) returns (x: Race)
    requires !r.NoCount?
    ensures Reached(r, x) && x.session == 1 && x.launched == [] && x.attempt == 0
    ensures Stands(x.s, Control(Idle, 0, true, false, false, Free, Quiet, true), map[1 := Thread(Looping, 1)], 2, map[1 := 0], x.s.reaper)
    ensures Leak.Holds(x.s.store, Leak.Held(NONE, NONE, NONE, Refs(1, 2, 3, 4, 0), 5))
    ensures PhaseOf(x.phase, 1) == (if r.AnyStart? then Loaded(Ticket(1, 0), 0) else Checked(Ticket(1, 0))) && PhaseOf(x.phase, 2).Top?
  {
    hide Reached, Leak.Holds;
    x := Beginning(r);
    var w := x.s.reaper;
    x := StartUp(r, x, false, false, map[], 1, map[], w, Leak.Held(NONE, NONE, NONE, NONE, 1), 0);
    x := GoUp(r, x, map[], 1, map[1 := 0], w, Leak.Held(Refs(1, 2, 0, 0, 0), NONE, NONE, NONE, 3));
    x := GoDown(r, x, map[], 1, w, Leak.FIRST);
    Leak.Bundles(x.s.store, Leak.FIRST);
    x := Take(r, x, Pass(1));
    x := Take(r, x, Check(1));
    if r.AnyStart? {
      x := Take(r, x, Load(1));
    }
    x := GoAway(r, x, map[1 := Thread(Looping, 1)], 1, map[1 := 0], w, Leak.FIRST);
  }

  lemma Beginning(r: Rule) returns (x: Race)
    ensures Reached(r, x) && x.session == 0 && x.launched == [] && x.attempt == 0 && x.phase == map[]
    ensures Stands(x.s, Control(Idle, 0, false, false, false, Free, Quiet, false), map[], 1, map[], x.s.reaper)
    ensures x.s.reaper.line == [] && x.s.reaper.head == 0 && Leak.Holds(x.s.store, Leak.Held(NONE, NONE, NONE, NONE, 1))
  {
    var s := State(Store(map[], map[], 1), Control(Idle, 0, false, false, false, Free, Quiet, false), map[], 1,
                   Reaper([], Waiting, 0, map[], map[]), Objects({}, {}, {}, map[]));
    x := Race(s, 0, 0, map[], []);
    assert Begins(x) && Races(r, x, [], x);
  }

  /** The next session, with a thread of its own, and the old thread about to store its count. */
  lemma Restarted(r: Rule) returns (x: Race)
    requires !r.NoCount?
    ensures Reached(r, x) && x.session == 2 && x.launched == [] && x.attempt == 0 && Spins(x, 2, 5)
    ensures 1 in x.s.threads && x.s.threads[1].pc.Looping? && PhaseOf(x.phase, 1) == Loaded(Ticket(1, 0), 0)
  {
    hide Reached, Leak.Holds;
    x := Abandoned(r);
    var w, threads := x.s.reaper, map[1 := Thread(Looping, 1)];
    var h := Leak.Held(NONE, NONE, NONE, Refs(1, 2, 3, 4, 0), 5);
    x := StartUp(r, x, true, true, threads, 2, map[1 := 0], w, h, 1);
    h := h.(fields := Refs(5, 6, 0, 0, 0), next := 7);
    x := GoUp(r, x, threads, 2, map[1 := 0, 5 := 1], w, h);
    h := h.(fields := Refs(5, 6, 7, 8, 0), next := 9);
    x := GoDown(r, x, threads, 2, w, h);
    Leak.Bundles(x.s.store, h);
    if !r.AnyStart? {
      x := Take(r, x, Load(1));
    }
  }

  lemma {:induction false} AllOfSession(launched: seq<Ticket>, session: nat)
    requires forall i :: 0 <= i < |launched| ==> launched[i].session == session
    ensures |LaunchesOf(launched, session)| == |launched|
    decreases |launched|
  {
    if launched == [] {
      assert LaunchesOf(launched, session) == {};
    } else {
      var front := launched[..|launched| - 1];
      AllOfSession(front, session);
      assert LaunchesOf(launched, session) == LaunchesOf(front, session) + {|launched| - 1};
    }
  }

  /** Some run starts the output of one session more than ten times. */
  ghost predicate Exceeds(r: Rule) {
    exists b, es, x, session :: Begins(b) && Races(r, b, es, x) && |LaunchesOf(x.launched, session)| > MAX_ATTEMPTS
  }

  /** Nine attempts, the old thread's store, and nine more. That thread loaded the counter before start(), or just passed its
      session check then and loaded after it: it is not enough that no increment is half done. */
  lemma LostCount(r: Rule)
    requires !r.NoCount?
    ensures Exceeds(r)
  {
    hide Spins;
    var x := Restarted(r);
    x := Attempts(r, x, 2, 5, 9);
    x := Overwritten(r, x);
    x := Attempts(r, x, 2, 5, 9);
    AllOfSession(x.launched, 2);
    var b, es :| Begins(b) && Races(r, b, es, x);
  }

  lemma Overwritten(r: Rule, x: Race) returns (y: Race)
    requires Reached(r, x) && Spins(x, 2, 5) && 1 in x.s.threads && x.s.threads[1].pc.Looping? && PhaseOf(x.phase, 1) == Loaded(Ticket(1, 0), 0)
    ensures Reached(r, y) && Spins(y, 2, 5) && y.attempt == 1 && y.session == x.session && y.launched == x.launched
  {
    hide Reached;
    y := Take(r, x, Save(1));
  }

  // ----- main result -----

  /** The bound of ten holds over every disciplined run exactly when start() waits until no thread is counting. */
  lemma BoundNeedsNoCount(r: Rule)
    ensures Exceeds(r) <==> !r.NoCount?
  {
    hide Begins, Races, LaunchesOf;
    if r.NoCount? {
      forall b, es, x, session | Begins(b) && Races(r, b, es, x) ensures |LaunchesOf(x.launched, session)| <= MAX_ATTEMPTS {
        AtMostTenReconnects(b, es, x, session);
      }
    } else {
      LostCount(r);
    }
  }
}
