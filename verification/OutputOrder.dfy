/** Ordering in the detach-and-reaper protocol, with no discipline assumed of the callers: nobody starts an
    output that was force-stopped or released, and a stopped controller stays idle. */
module OutputOrder {
  import opened OutputLifecycle
  import opened OutputStates

  /** The thread may still use its captured output. */
  predicate UsesOutput(pc: Pc) {
    !pc.Spawned? && !pc.Finished?
  }

  ghost predicate AliveOk(out: Ref, tornAt: map<Ref, nat>, ob: Objects, next: Ref) {
    && (out != 0 ==> out in ob.alive && out !in ob.forced && out !in tornAt)
    && 0 !in ob.alive && 0 !in tornAt && next > 0
    && (forall o: Ref :: o in ob.alive ==> o in ob.address && o < next && (o == out || o in tornAt))
    && (forall o: Ref :: o in ob.forced || o in tornAt || o in ob.address ==> o < next)
    && (forall o: Ref, p: Ref :: o in ob.alive && p in ob.alive && ob.address[o] == ob.address[p] ==> o == p)
  }

  /** Until its output may be released, job number n is in the line and names it. */
  ghost predicate TornOk(w: Reaper, tornAt: map<Ref, nat>, alive: set<Ref>, forced: set<Ref>) {
    forall o: Ref :: o in tornAt && tornAt[o] >= w.head && (tornAt[o] == w.head ==> !w.stage.Forced?) ==>
      && tornAt[o] < w.head + |w.line| && w.line[tornAt[o] - w.head].Teardown? && w.line[tornAt[o] - w.head].output == o
      && o in alive && o !in forced
  }

  ghost predicate NamedOk(line: seq<Job>, head: nat, tornAt: map<Ref, nat>) {
    forall k :: 0 <= k < |line| && line[k].Teardown? && line[k].output != 0 ==>
      line[k].output in tornAt && tornAt[line[k].output] == head + k
  }

  /** An output is alive from its creation to its release; job `tornAt[o]` tears it down. */
  ghost predicate ObjectsOk(out: Ref, w: Reaper, ob: Objects, next: Ref) {
    AliveOk(out, w.tornAt, ob, next) && TornOk(w, w.tornAt, ob.alive, ob.forced) && NamedOk(w.line, w.head, w.tornAt)
  }

  ghost predicate ThreadsOk(threads: map<Tid, Thread>, reconnect: Tid, ui: Ui, signal: Signal, w: Reaper, nextTid: Tid) {
    && nextTid > 0
    && (forall t: Tid :: t in threads || t in w.joinAt ==> 0 < t < nextTid)
    && reconnect < nextTid && (ui.Joining? ==> ui.t < nextTid) && (signal.JoiningStale? ==> signal.t < nextTid)
    // an unfinished thread is in the field, a local about to join it, or a job
    && (forall t: Tid :: t in threads && !threads[t].pc.Finished? ==>
          t in w.joinAt || t == reconnect || signal == JoiningStale(t) || ui == Joining(t))
    && reconnect !in w.joinAt
    && (forall t: Tid :: t in w.joinAt && t in threads && (w.joinAt[t] < w.head || (w.joinAt[t] == w.head && !w.stage.Waiting?)) ==>
          threads[t].pc.Finished?)
    && (forall t: Tid :: t in w.joinAt && w.joinAt[t] >= w.head ==>
          && w.joinAt[t] < w.head + |w.line| && w.line[w.joinAt[t] - w.head].Teardown?
          && w.line[w.joinAt[t] - w.head].t == t)
  }

  /** A thread's captured output is the session's, or is torn down no earlier than the thread is joined. */
  ghost predicate CapturedOk(threads: map<Tid, Thread>, out: Ref, joinAt: map<Tid, nat>, tornAt: map<Ref, nat>) {
    forall t: Tid :: t in threads && UsesOutput(threads[t].pc) ==>
      var o := threads[t].captured;
      o != 0 && (o == out || (o in tornAt && t in joinAt && joinAt[t] <= tornAt[o]))
  }

  predicate NeedsOutput(ui: Ui) {
    ui.Encoding? || ui.Publishing? || ui.DroppingOld? || ui.Launch? || ui.Retry?
  }

  ghost predicate SignalsOk(out: Ref, connected: bool, ui: Ui, signal: Signal, reconnect: Tid, line: seq<Job>, stage: Stage) {
    && (connected ==> out != 0)
    && (!signal.Quiet? ==> connected)
    && (signal.JoiningStale? || signal.Spawning? ==> reconnect == 0)
    && (ui.Detaching? ==> !connected)
    && (NeedsOutput(ui) ==> out != 0)
    && (line == [] ==> stage.Waiting?)
    && (forall k :: 0 <= k < |line| && !line[k].Teardown? ==>
          && ui.Relinquished? && k == |line| - 1
          && (k > 0 ==> line[k].ShutdownNew?)
          && (line[k].ShutdownDisconnected? ==> !connected)
          && (k == 0 ==> stage.Waiting?))
  }

  ghost predicate JobsOk(m: Store, line: seq<Job>, head: nat) {
    forall n: nat :: head <= n < head + |line| && line[n - head].Teardown? ==>
      Bundle(m, InJob(n)).output == 0 || Bundle(m, InJob(n)).output == line[n - head].output
  }

  predicate StoppedOk(stopped: bool, state: OutputState, out: Ref, canvas: Ref, ui: Ui) {
    stopped ==> state.Idle? && out == 0 && canvas == 0 && (ui.Free? || ui.Relinquished?)
  }

  ghost predicate Order(s: State) {
    && ObjectsOk(Fld(s).output, s.reaper, s.objects, s.store.next)
    && ThreadsOk(s.threads, s.ctl.reconnect, s.ctl.ui, s.ctl.signal, s.reaper, s.nextTid)
    && CapturedOk(s.threads, Fld(s).output, s.reaper.joinAt, s.reaper.tornAt)
    && SignalsOk(Fld(s).output, s.ctl.connected, s.ctl.ui, s.ctl.signal, s.ctl.reconnect, s.reaper.line, s.reaper.stage)
    && JobsOk(s.store, s.reaper.line, s.reaper.head)
    && StoppedOk(s.ctl.stopped, s.ctl.state, Fld(s).output, Fld(s).canvas, s.ctl.ui)
  }

  // ----- reference moves that leave outputs alone -----

  ghost predicate Moved(m: Store, m': Store) {
    && Bundle(m', Fields).output == Bundle(m, Fields).output && m.next <= m'.next
    && forall n: nat :: Bundle(m', InJob(n)) == Bundle(m, InJob(n))
  }

  /** ... and the session's fields too. */
  ghost predicate MovedAside(m: Store, m': Store) {
    Moved(m, m') && Bundle(m', Fields) == Bundle(m, Fields)
  }

  predicate Local(o: Owner) {
    o.Fields? || o.UiLocal? || o.ThreadLocal?
  }

  lemma PutMoves(m: Store, o: Owner, slot: Slot, x: Ref)
    requires Local(o) && (slot.OutputSlot? ==> !o.Fields?)
    ensures Moved(m, Put(m, o, slot, x)) && (!o.Fields? ==> MovedAside(m, Put(m, o, slot, x)))
  {
  }

  lemma HelpersMove(m: Store, o: Owner, slot: Slot)
    requires Local(o) && !slot.OutputSlot?
    ensures Moved(m, Drop(m, o, slot)) && Moved(m, Create(m, o, slot)) && Moved(m, Move(m, o, Fields, slot))
    ensures Moved(m, SwapCanvas(m, o))
    ensures !o.Fields? ==> MovedAside(m, Drop(m, o, slot)) && MovedAside(m, Create(m, o, slot))
  {
    hide Put;
    PutMoves(m, o, slot, 0);
    PutMoves(m, o, slot, m.next);
    PutMoves(Put(m, o, slot, 0), Fields, slot, In(Bundle(m, o), slot));
    PutMoves(m, Fields, CanvasSlot, Bundle(m, o).canvas);
    PutMoves(Put(m, Fields, CanvasSlot, Bundle(m, o).canvas), o, CanvasSlot, Bundle(m, Fields).canvas);
  }

  lemma EncodersMove(m: Store, o: Owner)
    requires Local(o)
    ensures Moved(m, DropEncoders(m, o)) && Moved(m, CreateEncoders(m, o)) && Moved(m, MoveEncoders(m, o))
    ensures Moved(m, DropCandidate(m, o))
    ensures !o.Fields? ==> MovedAside(m, CreateEncoders(m, o)) && MovedAside(m, DropCandidate(m, o))
  {
    hide Drop, Create, Move;
    HelpersMove(m, o, VideoSlot);
    HelpersMove(Drop(m, o, VideoSlot), o, AudioSlot);
    HelpersMove(Create(m, o, VideoSlot), o, AudioSlot);
    HelpersMove(Move(m, o, Fields, VideoSlot), o, AudioSlot);
    HelpersMove(DropEncoders(m, o), o, CanvasSlot);
  }

  lemma PublishMoves(m: Store)
    ensures Moved(m, Publish(m))
  {
    hide DropEncoders, MoveEncoders, SwapCanvas;
    var a := DropEncoders(m, Fields);
    EncodersMove(m, Fields);
    EncodersMove(a, UiLocal);
    HelpersMove(MoveEncoders(a, UiLocal), UiLocal, CanvasSlot);
  }

  // ----- the UI thread -----

  lemma ThreadsGo(ts: map<Tid, Thread>, ts': map<Tid, Thread>, reconnect: Tid, ui: Ui, ui': Ui, signal: Signal, w: Reaper, nextTid: Tid)
    requires ThreadsOk(ts, reconnect, ui, signal, w, nextTid)
    requires forall x: Tid :: x in ts' ==> x in ts && (ts[x].pc.Finished? ==> ts'[x].pc.Finished?)
    requires ui' == ui || (!ui'.Joining? && (ui.Joining? && ui.t in ts ==> ts[ui.t].pc.Finished?))
    ensures ThreadsOk(ts', reconnect, ui', signal, w, nextTid)
  {
  }

  lemma CapturedGo(ts: map<Tid, Thread>, ts': map<Tid, Thread>, out: Ref, joinAt: map<Tid, nat>, tornAt: map<Ref, nat>)
    requires CapturedOk(ts, out, joinAt, tornAt)
    requires forall x: Tid :: x in ts' && UsesOutput(ts'[x].pc) ==> x in ts && UsesOutput(ts[x].pc) && ts'[x].captured == ts[x].captured
    ensures CapturedOk(ts', out, joinAt, tornAt)
  {
  }

  lemma ObjectsGo(out: Ref, w: Reaper, ob: Objects, ob': Objects, next: Ref, next': Ref)
    requires ObjectsOk(out, w, ob, next) && next <= next' && ob' == ob.(running := ob'.running)
    ensures ObjectsOk(out, w, ob', next')
  {
  }

  /** The UI thread moves references and goes on to `c.ui`. */
  lemma UiGoes(s: State, m: Store, c: Control, ob: Objects)
    requires Order(s) && Moved(s.store, m) && ob == s.objects.(running := ob.running)
    requires c == s.ctl.(ui := c.ui, state := c.state, stopFlag := c.stopFlag, stopped := c.stopped)
    requires !c.ui.Joining? && !c.ui.Detaching? && !s.ctl.ui.Relinquished?
    requires s.ctl.ui.Joining? ==> Th(s, s.ctl.ui.t).pc.Finished?
    requires NeedsOutput(c.ui) ==> Fld(s).output != 0 || NeedsOutput(s.ctl.ui)
    requires StoppedOk(c.stopped, c.state, Bundle(m, Fields).output, Bundle(m, Fields).canvas, c.ui)
    ensures Order(s.(store := m, ctl := c, objects := ob))
  {
    hide ObjectsOk, ThreadsOk, CapturedOk;
    ObjectsGo(Fld(s).output, s.reaper, s.objects, ob, s.store.next, m.next);
    ThreadsGo(s.threads, s.threads, s.ctl.reconnect, s.ctl.ui, c.ui, s.ctl.signal, s.reaper, s.nextTid);
    assert SignalsOk(Fld(s).output, c.connected, c.ui, c.signal, c.reconnect, s.reaper.line, s.reaper.stage);
  }

  lemma NotStopped(s: State)
    requires Order(s) && !s.ctl.ui.Free? && !s.ctl.ui.Relinquished?
    ensures !s.ctl.stopped
  {
    hide ObjectsOk, ThreadsOk, CapturedOk, SignalsOk, JobsOk;
  }

  lemma GotoKeepsOrder(s: State, m: Store, ui: Ui)
    requires Order(s) && Moved(s.store, m) && !s.ctl.stopped
    requires !ui.Joining? && !ui.Detaching? && !s.ctl.ui.Relinquished? && !s.ctl.ui.Joining?
    requires NeedsOutput(ui) ==> Fld(s).output != 0 || NeedsOutput(s.ctl.ui)
    ensures Order(Goto(s, m, ui))
  {
    hide Order, Moved;
    UiGoes(s, m, s.ctl.(ui := ui), s.objects);
  }

  lemma FailKeepsOrder(s: State, m: Store)
    requires Order(s) && Moved(s.store, m) && !s.ctl.stopped && !s.ctl.ui.Relinquished? && !s.ctl.ui.Joining?
    ensures Order(Fail(s, m))
  {
    hide Order, Moved;
    UiGoes(s, m, s.ctl.(state := FailedHard, ui := Free), s.objects);
  }

  lemma StayMoved(m: Store)
    ensures Moved(m, m) && MovedAside(m, m)
  {
  }

  lemma MovedTrans(a: Store, b: Store, c: Store)
    requires Moved(a, b) && Moved(b, c)
    ensures Moved(a, c)
  {
  }

  lemma PrepareKeepsOrder(s: State, ok: bool, at: nat)
    requires Order(s) && EnabledUi(s, UiPrepare(ok, at)) && !s.ctl.stopped
    ensures Order(Prepare(s, ok, at))
  {
    hide Order, Moved, Create, Drop;
    if Fld(s).output != 0 {
      StayMoved(s.store);
      GotoKeepsOrder(s, s.store, Encoding);
    } else if !ok {
      HelpersMove(s.store, UiLocal, CanvasSlot);
      FailKeepsOrder(s, Drop(s.store, UiLocal, CanvasSlot));
    } else {
      NewOutputKeepsOrder(s, at);
    }
  }

  lemma NewOutput(w: Reaper, ob: Objects, o: Ref, at: nat)
    requires ObjectsOk(0, w, ob, o)
    requires forall p :: p in ob.alive && p in ob.address ==> ob.address[p] != at
    ensures ObjectsOk(o, w, ob.(alive := ob.alive + {o}, address := ob.address[o := at]), o + 2)
  {
  }

  lemma NewOutputKeepsOrder(s: State, at: nat)
    requires Order(s) && EnabledUi(s, UiPrepare(true, at)) && Fld(s).output == 0 && !s.ctl.stopped
    ensures Order(Prepare(s, true, at))
  {
    hide ObjectsOk, ThreadsOk;
    NewOutput(s.reaper, s.objects, s.store.next, at);
    ThreadsGo(s.threads, s.threads, s.ctl.reconnect, s.ctl.ui, Encoding, s.ctl.signal, s.reaper, s.nextTid);
    assert s.store.next != 0 by { NextPositive(Fld(s).output, s.reaper, s.objects, s.store.next); }
    assert JobsOk(Prepare(s, true, at).store, s.reaper.line, s.reaper.head);
  }

  lemma NextPositive(out: Ref, w: Reaper, ob: Objects, next: Ref)
    requires ObjectsOk(out, w, ob, next)
    ensures next > 0
  {
  }

  lemma LaunchKeepsOrder(s: State, ok: bool, retry: bool)
    requires Order(s) && s.ctl.ui.Launch? && !s.ctl.stopped
    ensures Order(LaunchOutput(s, ok, retry))
  {
    hide Order, Moved, DropEncoders;
    StayMoved(s.store);
    EncodersMove(s.store, Fields);
    if ok {
      UiGoes(s, s.store, s.ctl.(ui := Free), s.objects.(running := s.objects.running + {Fld(s).output}));
    } else if retry {
      GotoKeepsOrder(s, DropEncoders(s.store, Fields), Retry);
    } else {
      FailKeepsOrder(s, DropEncoders(s.store, Fields));
    }
  }

  lemma TakeStaleKeepsOrder(s: State)
    requires Order(s) && s.ctl.ui.LazyJoin?
    ensures Order(ApplyUi(s, UiTakeStale))
  {
    hide ObjectsOk, CapturedOk, JobsOk;
  }

  lemma DisconnectKeepsOrder(s: State)
    requires Order(s) && EnabledUi(s, UiDisconnect)
    ensures Order(ApplyUi(s, UiDisconnect))
  {
    hide ObjectsOk, CapturedOk, JobsOk;
  }

  lemma StartOrStopKeepsOrder(s: State, ev: UiEvent)
    requires Order(s) && EnabledUi(s, ev) && (ev.UiStart? || ev.UiJoined? || ev.UiStop?)
    ensures Order(ApplyUi(s, ev))
  {
    hide Order, Moved;
    StayMoved(s.store);
    if ev.UiJoined? {
      NotStopped(s);
    }
    if ev.UiStop? && !NothingToStop(s) {
      StopNeedsSession(s);
    }
    var c := ApplyUi(s, ev).ctl;
    UiGoes(s, s.store, c, s.objects);
  }

  lemma StopNeedsSession(s: State)
    requires Order(s) && !NothingToStop(s)
    ensures !s.ctl.stopped
  {
    hide ObjectsOk, ThreadsOk, CapturedOk, SignalsOk, JobsOk;
  }

  lemma StartingKeepsOrder(s: State, ev: UiEvent)
    requires Order(s) && EnabledUi(s, ev)
    requires ev.UiResolve? || ev.UiPrepare? || ev.UiEncode? || ev.UiPublish? || ev.UiDropOld? || ev.UiLaunch? || ev.UiRetry?
    ensures Order(ApplyUi(s, ev))
  {
    hide Order, Moved, Create, Drop, CreateEncoders, MoveEncoders, DropCandidate, Publish, Prepare, LaunchOutput;
    NotStopped(s);
    var m := s.store;
    StayMoved(m);
    HelpersMove(m, UiLocal, CanvasSlot);
    EncodersMove(m, UiLocal);
    match ev
    case UiResolve(ok, canvas) =>
      if ok { GotoKeepsOrder(s, if canvas then Create(m, UiLocal, CanvasSlot) else m, Preparing); } else { FailKeepsOrder(s, m); }
    case UiPrepare(ok, at) => PrepareKeepsOrder(s, ok, at);
    case UiEncode(ok) =>
      if ok { GotoKeepsOrder(s, CreateEncoders(m, UiLocal), Publishing); } else { FailKeepsOrder(s, Drop(m, UiLocal, CanvasSlot)); }
    case UiPublish(removed) =>
      PublishMoves(m);
      if removed { FailKeepsOrder(s, DropCandidate(m, UiLocal)); } else { GotoKeepsOrder(s, Publish(m), DroppingOld); }
    case UiDropOld => GotoKeepsOrder(s, Drop(m, UiLocal, CanvasSlot), Launch);
    case UiLaunch(ok, retry) => LaunchKeepsOrder(s, ok, retry);
    case UiRetry(ok) =>
      EncodersMove(CreateEncoders(m, UiLocal), UiLocal);
      MovedTrans(m, CreateEncoders(m, UiLocal), MoveEncoders(CreateEncoders(m, UiLocal), UiLocal));
      if ok { GotoKeepsOrder(s, MoveEncoders(CreateEncoders(m, UiLocal), UiLocal), Launch); } else { FailKeepsOrder(s, m); }
  }

  // ----- reconnect threads -----

  /** Thread `x` moves references and goes on inside its attempt, or finishes. */
  lemma ThreadGoes(s: State, x: Tid, m: Store, pc: Pc, state: OutputState, running: set<Ref>)
    requires Order(s) && Moved(s.store, m) && x in s.threads
    requires pc.Finished? || (UsesOutput(pc) && UsesOutput(s.threads[x].pc))
    requires StoppedOk(s.ctl.stopped, state, Bundle(m, Fields).output, Bundle(m, Fields).canvas, s.ctl.ui)
    ensures Order(Advance(s, x, m, pc).(ctl := s.ctl.(state := state), objects := s.objects.(running := running)))
  {
    hide ObjectsOk, ThreadsOk, CapturedOk, SignalsOk;
    var ts := s.threads[x := Th(s, x).(pc := pc)];
    ObjectsGo(Fld(s).output, s.reaper, s.objects, s.objects.(running := running), s.store.next, m.next);
    FinishedStays(s, x, pc);
    ThreadsGo(s.threads, ts, s.ctl.reconnect, s.ctl.ui, s.ctl.ui, s.ctl.signal, s.reaper, s.nextTid);
    CapturedGo(s.threads, ts, Fld(s).output, s.reaper.joinAt, s.reaper.tornAt);
  }

  lemma FinishedStays(s: State, x: Tid, pc: Pc)
    requires x in s.threads && (pc.Finished? || (UsesOutput(pc) && UsesOutput(s.threads[x].pc)))
    ensures forall y: Tid :: y in s.threads && s.threads[y].pc.Finished? ==> s.threads[x := Th(s, x).(pc := pc)][y].pc.Finished?
  {
  }

  lemma AsideKeepsOrder(s: State, x: Tid, m: Store, pc: Pc)
    requires Order(s) && MovedAside(s.store, m) && x in s.threads
    requires pc.Finished? || (UsesOutput(pc) && UsesOutput(s.threads[x].pc))
    ensures Order(Advance(s, x, m, pc))
  {
    hide ObjectsOk, ThreadsOk, CapturedOk, SignalsOk, JobsOk;
    ThreadGoes(s, x, m, pc, s.ctl.state, s.objects.running);
  }

  lemma GiveUpKeepsOrder(s: State, x: Tid, m: Store)
    requires Order(s) && MovedAside(s.store, m) && x in s.threads
    ensures Order(GiveUp(s, x, m))
  {
    hide ObjectsOk, ThreadsOk, CapturedOk, SignalsOk, JobsOk;
    ThreadGoes(s, x, m, Finished, if Current(s, x) then FailedHard else s.ctl.state, s.objects.running);
  }

  /** A thread whose output is the session's may change the session's references. */
  lemma ValidKeepsOrder(s: State, x: Tid, m: Store, pc: Pc)
    requires Order(s) && Moved(s.store, m) && x in s.threads && Valid(s, x)
    requires UsesOutput(pc) && UsesOutput(s.threads[x].pc)
    ensures Order(Advance(s, x, m, pc))
  {
    hide ObjectsOk, ThreadsOk, CapturedOk, SignalsOk, JobsOk;
    ThreadGoes(s, x, m, pc, s.ctl.state, s.objects.running);
  }

  lemma EnterKeepsOrder(s: State, x: Tid)
    requires Order(s) && x in s.threads && s.threads[x].pc.Spawned?
    ensures Order(ApplyThread(s, x, ThreadEnter))
  {
    hide ObjectsOk, ThreadsOk, SignalsOk, JobsOk;
    var t := ApplyThread(s, x, ThreadEnter);
    ThreadsGo(s.threads, t.threads, s.ctl.reconnect, s.ctl.ui, s.ctl.ui, s.ctl.signal, s.reaper, s.nextTid);
  }

  lemma ThreadLaunchKeepsOrder(s: State, x: Tid, ok: bool)
    requires Order(s) && EnabledThread(s, x, ThreadLaunch(ok))
    ensures Order(ApplyThread(s, x, ThreadLaunch(ok)))
  {
    hide ObjectsOk, ThreadsOk, CapturedOk, SignalsOk, JobsOk;
    StayMoved(s.store);
    ThreadGoes(s, x, s.store, Finished, s.ctl.state, s.objects.running + {Th(s, x).captured});
    AsideKeepsOrder(s, x, s.store, Looping);
    AsideKeepsOrder(s, x, s.store, Finished);
  }

  lemma ThreadKeepsOrder(s: State, t: Tid, ev: ThreadEvent)
    requires Order(s) && EnabledThread(s, t, ev)
    ensures Order(ApplyThread(s, t, ev))
  {
    hide Order, Moved, MovedAside, Create, Drop, CreateEncoders, DropEncoders, DropCandidate;
    var m, me := s.store, ThreadLocal(t);
    StayMoved(m);
    HelpersMove(m, me, CanvasSlot);
    EncodersMove(m, me);
    match ev
    case ThreadEnter => EnterKeepsOrder(s, t);
    case ThreadClear =>
      EncodersMove(m, Fields);
      if Valid(s, t) { ValidKeepsOrder(s, t, DropEncoders(m, Fields), Cleared); } else { AsideKeepsOrder(s, t, m, Finished); }
    case ThreadGiveUp => GiveUpKeepsOrder(s, t, m);
    case ThreadLeave => AsideKeepsOrder(s, t, m, Finished);
    case ThreadSkip => AsideKeepsOrder(s, t, m, Looping);
    case ThreadResolve(ok, canvas) =>
      if !Valid(s, t) { AsideKeepsOrder(s, t, m, Finished); }
      else if !ok { GiveUpKeepsOrder(s, t, m); }
      else { AsideKeepsOrder(s, t, if canvas then Create(m, me, CanvasSlot) else m, Candidate); }
    case ThreadEncode(ok) =>
      if ok { AsideKeepsOrder(s, t, CreateEncoders(m, me), Ready); } else { AsideKeepsOrder(s, t, Drop(m, me, CanvasSlot), Looping); }
    case ThreadCommit(removed) => CommitKeepsOrder(s, t, removed);
    case ThreadDropOld => AsideKeepsOrder(s, t, Drop(m, me, CanvasSlot), Launching);
    case ThreadLaunch(ok) => ThreadLaunchKeepsOrder(s, t, ok);
  }

  lemma CommitKeepsOrder(s: State, t: Tid, removed: bool)
    requires Order(s) && EnabledThread(s, t, ThreadCommit(removed))
    ensures Order(ApplyThread(s, t, ThreadCommit(removed)))
  {
    hide Order, Moved, MovedAside, SwapCanvas, MoveEncoders, DropCandidate;
    var m, me := s.store, ThreadLocal(t);
    var b := MoveEncoders(m, me);
    EncodersMove(m, me);
    HelpersMove(b, me, CanvasSlot);
    MovedTrans(m, b, SwapCanvas(b, me));
    if removed {
      GiveUpKeepsOrder(s, t, DropCandidate(m, me));
    } else if Valid(s, t) {
      ValidKeepsOrder(s, t, SwapCanvas(b, me), Swapped);
    } else {
      AsideKeepsOrder(s, t, DropCandidate(m, me), Finished);
    }
  }

  // ----- signals -----

  /** A signal handler runs only while there is a session. */
  lemma SignalGoes(s: State, state: OutputState, running: set<Ref>, signal: Signal)
    requires Order(s) && !s.ctl.signal.JoiningStale? && s.ctl.connected
    requires signal.Quiet? || signal.Handling?
    ensures Order(s.(ctl := s.ctl.(state := state, signal := signal), objects := s.objects.(running := running)))
  {
    hide ObjectsOk, CapturedOk, JobsOk;
    ObjectsGo(Fld(s).output, s.reaper, s.objects, s.objects.(running := running), s.store.next, s.store.next);
  }

  lemma SignalHasSession(s: State)
    requires Order(s) && !s.ctl.signal.Quiet?
    ensures s.ctl.connected && (s.ctl.signal.JoiningStale? || s.ctl.signal.Spawning? ==> s.ctl.reconnect == 0)
  {
    hide ObjectsOk, ThreadsOk, CapturedOk, JobsOk;
  }

  lemma NewThread(threads: map<Tid, Thread>, signal: Signal, ui: Ui, w: Reaper, t: Tid, th: Thread)
    requires ThreadsOk(threads, 0, ui, signal, w, t) && !signal.JoiningStale?
    ensures ThreadsOk(threads[t := th], t, ui, Quiet, w, t + 1)
  {
  }

  lemma SpawnKeepsOrder(s: State, captured: bool)
    requires Order(s) && s.ctl.signal.Spawning? && s.ctl.reconnect == 0 && !s.ctl.shutdownDone
    ensures Order(ApplySignal(s, SignalSpawn(captured)))
  {
    hide ObjectsOk, ThreadsOk, JobsOk;
    NewThread(s.threads, s.ctl.signal, s.ctl.ui, s.reaper, s.nextTid, if captured then Thread(Looping, Fld(s).output) else Thread(Spawned, 0));
  }

  lemma TakeKeepsOrder(s: State)
    requires Order(s) && s.ctl.signal.Handling?
    ensures Order(ApplySignal(s, SignalTake))
  {
    hide ObjectsOk, CapturedOk, JobsOk;
  }

  lemma JoinedKeepsOrder(s: State)
    requires Order(s) && EnabledSignal(s, SignalJoined)
    ensures Order(ApplySignal(s, SignalJoined))
  {
    hide ObjectsOk, CapturedOk, JobsOk;
  }

  lemma SignalKeepsOrder(s: State, ev: SignalEvent)
    requires Order(s) && EnabledSignal(s, ev)
    ensures Order(ApplySignal(s, ev))
  {
    hide Order;
    var running := s.objects.running - {Fld(s).output};
    match ev
    case SignalStart => SignalGoes(s, Live, s.objects.running, Quiet);
    case SignalStop(code) =>
      SignalGoes(s, Idle, running, Quiet);
      SignalGoes(s, FailedHard, running, Quiet);
      SignalGoes(s, s.ctl.state, running, Handling);
    case SignalTake => TakeKeepsOrder(s);
    case SignalJoined => JoinedKeepsOrder(s);
    case SignalSpawn(captured) =>
      SignalHasSession(s);
      if s.ctl.shutdownDone { SignalGoes(s, Idle, s.objects.running, Quiet); } else { SpawnKeepsOrder(s, captured); }
  }

  // ----- detach -----

  /** Job `n` is new in the line, or takes the place of a shutdown call; every other job stays. */
  ghost predicate AddsJob(w: Reaper, line: seq<Job>, n: nat) {
    && w.head <= n < w.head + |line| && |w.line| <= |line| && line[n - w.head].Teardown?
    && (n == w.head ==> w.stage.Waiting?)
    && (forall k :: 0 <= k < |line| && k != n - w.head ==> k < |w.line| && line[k] == w.line[k])
    && (n - w.head < |w.line| ==> !w.line[n - w.head].Teardown?)
  }

  lemma DetachedThreads(s: State, n: nat, line: seq<Job>)
    requires ThreadsOk(s.threads, s.ctl.reconnect, s.ctl.ui, s.ctl.signal, s.reaper, s.nextTid)
    requires AddsJob(s.reaper, line, n) && line[n - s.reaper.head].t == s.ctl.reconnect
    requires s.ctl.signal.Quiet? && !s.ctl.ui.Joining?
    ensures ThreadsOk(s.threads, 0, s.ctl.ui, s.ctl.signal, DetachTo(s, n, line).reaper, s.nextTid)
  {
  }

  lemma DetachedTorn(w: Reaper, alive: set<Ref>, forced: set<Ref>, line: seq<Job>, n: nat, tornAt: map<Ref, nat>, w': Reaper)
    requires TornOk(w, w.tornAt, alive, forced) && AddsJob(w, line, n)
    requires var out := line[n - w.head].output;
             if out == 0 then tornAt == w.tornAt else tornAt == w.tornAt[out := n] && out in alive && out !in forced
    requires w'.line == line && w'.stage == w.stage && w'.head == w.head
    ensures TornOk(w', tornAt, alive, forced)
  {
  }

  lemma DetachedNamed(w: Reaper, line: seq<Job>, n: nat, tornAt: map<Ref, nat>)
    requires NamedOk(w.line, w.head, w.tornAt) && AddsJob(w, line, n)
    requires var out := line[n - w.head].output;
             if out == 0 then tornAt == w.tornAt else tornAt == w.tornAt[out := n] && out !in w.tornAt
    ensures NamedOk(line, w.head, tornAt)
  {
  }

  lemma DetachedObjects(out: Ref, w: Reaper, ob: Objects, next: Ref, line: seq<Job>, n: nat, joinAt: map<Tid, nat>, tornAt: map<Ref, nat>)
    requires ObjectsOk(out, w, ob, next) && AddsJob(w, line, n) && line[n - w.head].output == out
    requires tornAt == if out == 0 then w.tornAt else w.tornAt[out := n]
    ensures ObjectsOk(0, Reaper(line, w.stage, w.head, joinAt, tornAt), ob, next)
  {
    hide TornOk, NamedOk;
    DetachedTorn(w, ob.alive, ob.forced, line, n, tornAt, Reaper(line, w.stage, w.head, joinAt, tornAt));
    DetachedNamed(w, line, n, tornAt);
  }

  /** Whoever captured the detached output is joined by the same job or an earlier one. */
  lemma DetachedCaptured(s: State, n: nat, line: seq<Job>)
    requires Order(s) && s.ctl.signal.Quiet? && !s.ctl.ui.Joining? && AddsJob(s.reaper, line, n)
    requires n == s.reaper.head + |line| - 1
    ensures var w := DetachTo(s, n, line).reaper; CapturedOk(s.threads, 0, w.joinAt, w.tornAt)
  {
    hide ObjectsOk, JobsOk, SignalsOk;
    var w := DetachTo(s, n, line).reaper;
    forall x: Tid | x in s.threads && UsesOutput(s.threads[x].pc)
      ensures var o := s.threads[x].captured; o != 0 && o in w.tornAt && x in w.joinAt && w.joinAt[x] <= w.tornAt[o]
    {
      assert x in s.reaper.joinAt || x == s.ctl.reconnect;
      if x in s.reaper.joinAt && s.reaper.joinAt[x] >= s.reaper.head {
        assert s.reaper.line[s.reaper.joinAt[x] - s.reaper.head].Teardown?;
      }
    }
  }

  lemma DetachedJobs(s: State, n: nat, line: seq<Job>)
    requires JobsOk(s.store, s.reaper.line, s.reaper.head) && AddsJob(s.reaper, line, n) && line[n - s.reaper.head].output == Fld(s).output
    ensures JobsOk(Detach(s.store, n), line, s.reaper.head)
  {
  }

  lemma DetachKeepsOrder(s: State, n: nat, line: seq<Job>)
    requires Order(s) && s.ctl.signal.Quiet? && !s.ctl.connected && !s.ctl.ui.Joining? && !NeedsOutput(s.ctl.ui)
    requires AddsJob(s.reaper, line, n) && line[n - s.reaper.head] == TeardownJob(s) && n == s.reaper.head + |line| - 1
    requires line != [] && forall k :: 0 <= k < |line| ==> line[k].Teardown?
    ensures Order(DetachTo(s, n, line))
  {
    hide ObjectsOk, ThreadsOk, CapturedOk, JobsOk, AddsJob;
    var t := DetachTo(s, n, line);
    DetachedThreads(s, n, line);
    DetachedObjects(Fld(s).output, s.reaper, s.objects, s.store.next, line, n, t.reaper.joinAt, t.reaper.tornAt);
    DetachedCaptured(s, n, line);
    DetachedJobs(s, n, line);
    assert SignalsOk(0, false, s.ctl.ui, s.ctl.signal, 0, line, s.reaper.stage);
  }

  /** With its handlers disconnected the session has no signal handler in flight and no shutdown call waits behind it. */
  lemma ReadyToDetach(s: State)
    requires Order(s) && (s.ctl.ui.Detaching? || (s.reaper.line != [] && s.reaper.line[0].ShutdownDisconnected?))
    ensures !s.ctl.connected && s.ctl.signal.Quiet?
    ensures s.ctl.ui.Detaching? ==> AddsJob(s.reaper, s.reaper.line + [TeardownJob(s)], s.reaper.head + |s.reaper.line|)
    ensures s.ctl.ui.Detaching? ==> forall k :: 0 <= k < |s.reaper.line| ==> s.reaper.line[k].Teardown?
    ensures !s.ctl.ui.Detaching? ==> s.ctl.ui.Relinquished? && |s.reaper.line| == 1 && AddsJob(s.reaper, [TeardownJob(s)], s.reaper.head)
  {
    hide ObjectsOk, ThreadsOk, CapturedOk, JobsOk;
  }

  lemma StopDetachKeepsOrder(s: State)
    requires Order(s) && s.ctl.ui.Detaching?
    ensures Order(StopDetach(s))
  {
    hide Order, Moved, AddsJob, DetachTo;
    ReadyToDetach(s);
    NotStopped(s);
    if NothingToStop(s) {
      StayMoved(s.store);
      UiGoes(s, s.store, s.ctl.(ui := Free, stopped := true), s.objects);
    } else {
      var t := DetachTo(s, s.reaper.head + |s.reaper.line|, s.reaper.line + [TeardownJob(s)]);
      DetachKeepsOrder(s, s.reaper.head + |s.reaper.line|, s.reaper.line + [TeardownJob(s)]);
      StayMoved(t.store);
      DetachEmpties(s, s.reaper.head + |s.reaper.line|, s.reaper.line + [TeardownJob(s)]);
      UiGoes(t, t.store, t.ctl.(ui := Free, stopped := true), t.objects);
    }
  }

  lemma DetachEmpties(s: State, n: nat, line: seq<Job>)
    ensures var t := DetachTo(s, n, line); Fld(t) == NONE && t.ctl == s.ctl.(reconnect := 0, state := Idle)
  {
  }

  lemma ReaperDetachKeepsOrder(s: State)
    requires Order(s) && EnabledReaper(s, ReaperDetach)
    ensures Order(ApplyReaper(s, ReaperDetach))
  {
    hide Order, AddsJob, DetachTo;
    ReadyToDetach(s);
    assert s.reaper.line[0 := TeardownJob(s)] == [TeardownJob(s)];
    ShutdownIsLast(s);
    DetachKeepsOrder(s, s.reaper.head, [TeardownJob(s)]);
  }

  lemma ShutdownIsLast(s: State)
    requires Order(s) && s.reaper.line != [] && !s.reaper.line[0].Teardown?
    ensures s.ctl.ui.Relinquished? && |s.reaper.line| == 1
  {
    hide ObjectsOk, ThreadsOk, CapturedOk, JobsOk;
  }

  // ----- the line -----

  /** The line changes, but not its teardown jobs. */
  lemma LineKeepsOrder(s: State, line: seq<Job>, c: Control)
    requires Order(s) && |line| >= |s.reaper.line|
    requires forall k :: 0 <= k < |line| && line[k].Teardown? ==> k < |s.reaper.line| && line[k] == s.reaper.line[k]
    requires forall k :: 0 <= k < |s.reaper.line| && s.reaper.line[k].Teardown? ==> line[k] == s.reaper.line[k]
    requires c == s.ctl.(ui := c.ui, connected := c.connected, stopFlag := c.stopFlag, shutdownDone := c.shutdownDone)
    requires SignalsOk(Fld(s).output, c.connected, c.ui, c.signal, c.reconnect, line, s.reaper.stage)
    requires !s.ctl.ui.Joining? && c.ui.Relinquished? && (s.ctl.ui.Free? || s.ctl.ui.Relinquished?)
    ensures Order(s.(ctl := c, reaper := s.reaper.(line := line)))
  {
    hide SignalsOk, CapturedOk, ObjectsOk, ThreadsOk;
    LineObjects(Fld(s).output, s.reaper, s.objects, s.store.next, line);
    LineThreads(s.threads, s.ctl.reconnect, s.ctl.ui, c.ui, s.ctl.signal, s.reaper, s.nextTid, line);
  }

  lemma LineObjects(out: Ref, w: Reaper, ob: Objects, next: Ref, line: seq<Job>)
    requires ObjectsOk(out, w, ob, next) && |line| >= |w.line|
    requires forall k :: 0 <= k < |line| && line[k].Teardown? ==> k < |w.line| && line[k] == w.line[k]
    requires forall k :: 0 <= k < |w.line| && w.line[k].Teardown? ==> line[k] == w.line[k]
    ensures ObjectsOk(out, w.(line := line), ob, next)
  {
    hide TornOk;
    LineTorn(w, line, ob.alive, ob.forced);
  }

  lemma LineTorn(w: Reaper, line: seq<Job>, alive: set<Ref>, forced: set<Ref>)
    requires TornOk(w, w.tornAt, alive, forced) && |line| >= |w.line|
    requires forall k :: 0 <= k < |w.line| && w.line[k].Teardown? ==> line[k] == w.line[k]
    ensures TornOk(w.(line := line), w.tornAt, alive, forced)
  {
  }

  lemma LineThreads(threads: map<Tid, Thread>, reconnect: Tid, ui: Ui, ui': Ui, signal: Signal, w: Reaper, nextTid: Tid, line: seq<Job>)
    requires ThreadsOk(threads, reconnect, ui, signal, w, nextTid) && |line| >= |w.line| && !ui.Joining? && !ui'.Joining?
    requires forall k :: 0 <= k < |w.line| && w.line[k].Teardown? ==> line[k] == w.line[k]
    ensures ThreadsOk(threads, reconnect, ui', signal, w.(line := line), nextTid)
  {
  }

  lemma RelinquishKeepsOrder(s: State)
    requires Order(s) && s.ctl.ui.Free?
    ensures Order(ApplyUi(s, UiRelinquish))
  {
    hide ObjectsOk, ThreadsOk, CapturedOk, JobsOk;
    LineKeepsOrder(s, s.reaper.line + [ShutdownNew], s.ctl.(ui := Relinquished));
  }

  lemma PopKeepsOrder(s: State)
    requires Order(s) && s.reaper.line != [] && (s.reaper.line[0].Teardown? ==> s.reaper.stage.Forced?)
    ensures Order(s.(reaper := Pop(s.reaper)))
  {
    hide ObjectsOk, ThreadsOk, CapturedOk;
    PopObjects(Fld(s).output, s.reaper, s.objects, s.store.next);
    PopThreads(s.threads, s.ctl.reconnect, s.ctl.ui, s.ctl.signal, s.reaper, s.nextTid);
  }

  lemma PopObjects(out: Ref, w: Reaper, ob: Objects, next: Ref)
    requires ObjectsOk(out, w, ob, next) && w.line != [] && (w.line[0].Teardown? ==> w.stage.Forced?)
    ensures ObjectsOk(out, Pop(w), ob, next)
  {
  }

  lemma PopThreads(threads: map<Tid, Thread>, reconnect: Tid, ui: Ui, signal: Signal, w: Reaper, nextTid: Tid)
    requires ThreadsOk(threads, reconnect, ui, signal, w, nextTid) && w.line != [] && (w.line[0].Teardown? ==> w.stage.Forced?)
    ensures ThreadsOk(threads, reconnect, ui, signal, Pop(w), nextTid)
  {
  }

  lemma ClaimKeepsOrder(s: State, ev: ReaperEvent)
    requires Order(s) && EnabledReaper(s, ev) && (ev.ReaperClaim? || ev.ReaperDisconnect?)
    ensures Order(ApplyReaper(s, ev))
  {
    hide ObjectsOk, ThreadsOk, CapturedOk, JobsOk;
    if ev.ReaperDisconnect? {
      LineKeepsOrder(s, s.reaper.line[0 := ShutdownDisconnected], s.ctl.(connected := false));
    } else if s.ctl.shutdownDone {
      PopKeepsOrder(s);
    } else {
      LineKeepsOrder(s, s.reaper.line[0 := ShutdownClaimed], s.ctl.(shutdownDone := true, stopFlag := true));
    }
  }

  // ----- the stages of a teardown job -----

  lemma StageThreads(threads: map<Tid, Thread>, reconnect: Tid, ui: Ui, signal: Signal, w: Reaper, nextTid: Tid, stage: Stage)
    requires ThreadsOk(threads, reconnect, ui, signal, w, nextTid)
    requires w.line != [] && w.line[0].Teardown? && !stage.Waiting?
    requires w.stage.Waiting? && w.line[0].t in threads ==> threads[w.line[0].t].pc.Finished?
    ensures ThreadsOk(threads, reconnect, ui, signal, w.(stage := stage), nextTid)
  {
  }

  lemma StageObjects(out: Ref, w: Reaper, ob: Objects, next: Ref, stage: Stage)
    requires ObjectsOk(out, w, ob, next) && !w.stage.Forced? && w.line != [] && w.line[0].Teardown?
    ensures ObjectsOk(out, w.(stage := stage), if stage.Forced? then ob.(forced := ob.forced + {w.line[0].output}) else ob, next)
  {
  }

  lemma StageKeepsOrder(s: State, ev: ReaperEvent)
    requires Order(s) && EnabledReaper(s, ev) && (ev.ReaperJoin? || ev.ReaperForce?)
    ensures Order(ApplyReaper(s, ev))
  {
    hide ObjectsOk, ThreadsOk, CapturedOk, JobsOk;
    var stage := if ev.ReaperJoin? then Joined else Forced;
    StageObjects(Fld(s).output, s.reaper, s.objects, s.store.next, stage);
    StageThreads(s.threads, s.ctl.reconnect, s.ctl.ui, s.ctl.signal, s.reaper, s.nextTid, stage);
  }

  lemma ReleaseObjects(out: Ref, w: Reaper, ob: Objects, next: Ref, gone: set<Ref>)
    requires ObjectsOk(out, w, ob, next) && w.stage.Forced? && w.line != [] && w.line[0].Teardown? && w.line[0].output != 0
    requires gone <= {w.line[0].output}
    ensures ObjectsOk(out, w, ob.(alive := ob.alive - gone), next)
  {
  }

  lemma ReleaseKeepsOrder(s: State)
    requires Order(s) && EnabledReaper(s, ReaperRelease)
    ensures Order(ReleaseNext(s))
  {
    hide ObjectsOk, ThreadsOk, CapturedOk, SignalsOk;
    var w := s.reaper;
    var r := Bundle(s.store, InJob(w.head));
    if r == NONE {
      PopKeepsOrder(s);
    } else {
      assert r.output == 0 || r.output == w.line[0].output;
      assert s.objects.alive - {} == s.objects.alive;
      var t := ReleaseNext(s);
      if NextSlot(r) == OutputSlot {
        ReleaseObjects(Fld(s).output, w, s.objects, s.store.next, {r.output});
      }
      assert JobsOk(t.store, w.line, w.head);
    }
  }

  lemma ReaperKeepsOrder(s: State, ev: ReaperEvent)
    requires Order(s) && EnabledReaper(s, ev)
    ensures Order(ApplyReaper(s, ev))
  {
    hide Order;
    match ev
    case ReaperClaim => ClaimKeepsOrder(s, ev);
    case ReaperDisconnect => ClaimKeepsOrder(s, ev);
    case ReaperDetach => ReaperDetachKeepsOrder(s);
    case ReaperJoin => StageKeepsOrder(s, ev);
    case ReaperForce => StageKeepsOrder(s, ev);
    case ReaperRelease => ReleaseKeepsOrder(s);
  }

  // ----- every run keeps the order -----

  lemma UiKeepsOrder(s: State, ev: UiEvent)
    requires Order(s) && EnabledUi(s, ev)
    ensures Order(ApplyUi(s, ev))
  {
    hide Order;
    match ev
    case UiTakeStale => TakeStaleKeepsOrder(s);
    case UiDisconnect => DisconnectKeepsOrder(s);
    case UiDetach => StopDetachKeepsOrder(s);
    case UiRelinquish => RelinquishKeepsOrder(s);
    case UiStart => StartOrStopKeepsOrder(s, ev);
    case UiJoined => StartOrStopKeepsOrder(s, ev);
    case UiStop => StartOrStopKeepsOrder(s, ev);
    case _ => StartingKeepsOrder(s, ev);
  }

  lemma KeepsOrder(s: State, ev: Event)
    requires Order(s) && Enabled(s, ev)
    ensures Order(Apply(s, ev))
  {
    hide Order;
    match ev
    case OnUi(u) => UiKeepsOrder(s, u);
    case OnSignal(g) => SignalKeepsOrder(s, g);
    case OnThread(t, r) => ThreadKeepsOrder(s, t, r);
    case OnReaper(w) => ReaperKeepsOrder(s, w);
  }

  lemma {:induction false} RunKeepsOrder(s: State, evs: seq<Event>, t: State)
    requires Order(s) && Runs(s, evs, t)
    ensures Order(t)
    decreases |evs|
  {
    hide Order;
    if evs != [] {
      KeepsOrder(s, evs[0]);
      RunKeepsOrder(Apply(s, evs[0]), evs[1..], t);
    }
  }

  lemma InitOrder(s: State)
    requires Init(s)
    ensures Order(s)
  {
  }

  lemma ReachableOrder(t: State)
    requires Reachable(t)
    ensures Order(t)
  {
    hide Order, Init;
    var s, evs :| Init(s) && Runs(s, evs, t);
    InitOrder(s);
    RunKeepsOrder(s, evs, t);
  }

  // ----- main results -----

  /** obs_output_start is called only on an output that is neither force-stopped nor released. */
  lemma NeverStartsDeadOutput(s: State, ev: Event)
    requires Reachable(s) && Enabled(s, ev)
    ensures ev.OnUi? && ev.u.UiLaunch? ==> Fld(s).output in s.objects.alive && Fld(s).output !in s.objects.forced
    ensures ev.OnThread? && ev.r.ThreadLaunch? ==>
              s.threads[ev.t].captured in s.objects.alive && s.threads[ev.t].captured !in s.objects.forced
  {
    hide Order, Reachable;
    ReachableOrder(s);
    if ev.OnThread? && ev.r.ThreadLaunch? {
      CapturedIsAlive(s, ev.t);
    }
    if ev.OnUi? && ev.u.UiLaunch? {
      LaunchedIsAlive(s);
    }
  }

  lemma LaunchedIsAlive(s: State)
    requires Order(s) && s.ctl.ui.Launch?
    ensures Fld(s).output in s.objects.alive && Fld(s).output !in s.objects.forced
  {
    hide ThreadsOk, CapturedOk, JobsOk, StoppedOk;
  }

  lemma CapturedIsAlive(s: State, t: Tid)
    requires Order(s) && t in s.threads && UsesOutput(s.threads[t].pc)
    ensures s.threads[t].captured in s.objects.alive && s.threads[t].captured !in s.objects.forced
  {
    hide SignalsOk, JobsOk, StoppedOk;
  }

  lemma CurrentMeansSame(s: State, t: Tid)
    requires Order(s) && t in s.threads && UsesOutput(s.threads[t].pc)
    ensures Current(s, t) <==> s.threads[t].captured == Fld(s).output
    ensures 0 < s.threads[t].captured < s.store.next
  {
    hide ThreadsOk, CapturedOk, SignalsOk, JobsOk, StoppedOk;
    CapturedIsAlive(s, t);
  }

  /** A thread's pointer comparison is never fooled by a reused address. */
  lemma ComparisonMeansSameOutput(s: State, t: Tid)
    requires Reachable(s) && t in s.threads && UsesOutput(s.threads[t].pc)
    ensures Current(s, t) <==> s.threads[t].captured == Fld(s).output
  {
    hide Order, Reachable;
    ReachableOrder(s);
    CurrentMeansSame(s, t);
  }

  /** Before a job force-stops or releases its output, every thread that captured it has finished. */
  lemma JoinedBeforeForceStop(s: State, ev: ReaperEvent, t: Tid)
    requires Reachable(s) && EnabledReaper(s, ev) && (ev.ReaperForce? || ev.ReaperRelease?)
    requires t in s.threads && !s.threads[t].pc.Spawned?
    requires s.reaper.line[0].output != 0 && s.threads[t].captured == s.reaper.line[0].output
    ensures s.threads[t].pc.Finished?
  {
    ReachableOrder(s);
    hide JobsOk, SignalsOk;
  }

  /** A new reconnect thread never replaces one that nobody joined. */
  lemma SpawnReplacesNothing(s: State, captured: bool)
    requires Reachable(s) && EnabledSignal(s, SignalSpawn(captured))
    ensures s.ctl.reconnect == 0
  {
    ReachableOrder(s);
  }

  /** From the return of stop() until the next start() the controller is idle and owns no output. */
  lemma StoppedStaysIdle(s: State)
    requires Reachable(s) && s.ctl.stopped
    ensures s.ctl.state.Idle? && Fld(s).output == 0 && Fld(s).canvas == 0
  {
    ReachableOrder(s);
  }
}
