/** The detach-and-reaper protocol of OutputController and ControllerReaper: one controller, the UI thread
    (start/stop), the libobs signal thread (handle_stop), reconnect threads and the reaper.  One event is
    one section under `m_mutex`, one libobs call or one join; where a thread resolves its canvas, one event is
    the guard before, the lookup and the re-check after it.  libobs objects are references (0 = null);
    an output also has an address, which the allocator may hand out again after a release. */
module OutputLifecycle {
  import opened OutputStates

  type Ref = nat
  type Tid = nat   // 0 = no thread

  // ----- references and who owns them -----

  /** The five owned pointers of a session; a job or a thread's locals hold such a bundle too. */
  datatype Refs = Refs(output: Ref, service: Ref, video: Ref, audio: Ref, canvas: Ref)

  const NONE := Refs(0, 0, 0, 0, 0)

  datatype Slot = OutputSlot | ServiceSlot | VideoSlot | AudioSlot | CanvasSlot

  /** `Fields` are the controller's members; jobs are numbered in the order they were enqueued. */
  datatype Owner = Fields | UiLocal | ThreadLocal(t: Tid) | InJob(n: nat) | Released

  /** What every owner's pointers hold, with the history of where each reference went. */
  datatype Store = Store(own: map<Owner, Refs>, holder: map<Ref, (Owner, Slot)>, next: Ref)

  function In(r: Refs, slot: Slot): Ref {
    match slot
    case OutputSlot => r.output
    case ServiceSlot => r.service
    case VideoSlot => r.video
    case AudioSlot => r.audio
    case CanvasSlot => r.canvas
  }

  function With(r: Refs, slot: Slot, x: Ref): Refs {
    match slot
    case OutputSlot => r.(output := x)
    case ServiceSlot => r.(service := x)
    case VideoSlot => r.(video := x)
    case AudioSlot => r.(audio := x)
    case CanvasSlot => r.(canvas := x)
  }

  function Bundle(m: Store, o: Owner): Refs {
    if o in m.own then m.own[o] else NONE
  }

  /** Store `x` into a slot; whatever the slot held is overwritten. */
  function Put(m: Store, o: Owner, slot: Slot, x: Ref): Store {
    m.(own := m.own[o := With(Bundle(m, o), slot, x)])
  }

  /** A create or acquire call: a fresh reference goes into the slot. */
  function Create(m: Store, o: Owner, slot: Slot): Store {
    Put(m, o, slot, m.next).(holder := m.holder[m.next := (o, slot)], next := m.next + 1)
  }

  /** The owner releases what the slot holds and nulls it. */
  function Drop(m: Store, o: Owner, slot: Slot): Store {
    var x := In(Bundle(m, o), slot);
    if x == 0 then m else Put(m, o, slot, 0).(holder := m.holder[x := (Released, slot)])
  }

  /** A pointer is handed to another owner, without releasing what the target held. */
  function Move(m: Store, from: Owner, to: Owner, slot: Slot): Store {
    var x := In(Bundle(m, from), slot);
    var m' := Put(Put(m, from, slot, 0), to, slot, x);
    if x == 0 then m' else m'.(holder := m.holder[x := (to, slot)])
  }

  /** swap_canvas_locked: the candidate becomes the session's canvas, the old one stays with the caller. */
  function SwapCanvas(m: Store, o: Owner): Store {
    var c, prior := Bundle(m, o).canvas, Bundle(m, Fields).canvas;
    var m' := Put(Put(m, Fields, CanvasSlot, c), o, CanvasSlot, prior);
    var h := if c == 0 then m.holder else m.holder[c := (Fields, CanvasSlot)];
    m'.(holder := if prior == 0 then h else h[prior := (o, CanvasSlot)])
  }

  function CreateEncoders(m: Store, o: Owner): Store {
    Create(Create(m, o, VideoSlot), o, AudioSlot)
  }

  function DropEncoders(m: Store, o: Owner): Store {
    Drop(Drop(m, o, VideoSlot), o, AudioSlot)
  }

  function MoveEncoders(m: Store, from: Owner): Store {
    Move(Move(m, from, Fields, VideoSlot), from, Fields, AudioSlot)
  }

  function DropCandidate(m: Store, o: Owner): Store {
    Drop(DropEncoders(m, o), o, CanvasSlot)
  }

  /** The fields are copied into job `n` and nulled. */
  function Detach(m: Store, n: nat): Store {
    var r := Bundle(m, Fields);
    m.(own := m.own[InJob(n) := r][Fields := NONE],
       holder := map x | x in m.holder :: if x != 0 && m.holder[x].0.Fields? && In(r, m.holder[x].1) == x then (InJob(n), m.holder[x].1) else m.holder[x])
  }

  // ----- threads -----

  /** reconnect_thread_func: where the thread stands; Launching is just before or inside obs_output_start. */
  datatype Pc = Spawned | Looping | Cleared | Candidate | Ready | Swapped | Launching | Finished

  /** `captured` is the output taken at the thread's entry. */
  datatype Thread = Thread(pc: Pc, captured: Ref)

  datatype Ui =
    | Free | LazyJoin | Joining(t: Tid) | Resolving | Preparing | Encoding | Publishing | DroppingOld | Launch | Retry
    | Disconnecting | Detaching | Relinquished

  datatype Signal = Quiet | Handling | JoiningStale(t: Tid) | Spawning

  /** `connected`: our signal handlers are on the session's output; `stopped`: stop() has returned since the last start(). */
  datatype Control = Control(state: OutputState, reconnect: Tid, stopFlag: bool, shutdownDone: bool, connected: bool,
                             ui: Ui, signal: Signal, stopped: bool)

  // ----- the reaper -----

  /** A job tears a detached session down, or is a shutdown_blocking call at its three stages. */
  datatype Job = Teardown(t: Tid, output: Ref) | ShutdownNew | ShutdownClaimed | ShutdownDisconnected

  datatype Stage = Waiting | Joined | Forced

  /** The FIFO queue: `line[0]` is job number `head`, at `stage`.  joinAt and tornAt: which job was given a thread or an output. */
  datatype Reaper = Reaper(line: seq<Job>, stage: Stage, head: nat, joinAt: map<Tid, nat>, tornAt: map<Ref, nat>)

  datatype Objects = Objects(alive: set<Ref>, forced: set<Ref>, running: set<Ref>, address: map<Ref, nat>)

  datatype State = State(store: Store, ctl: Control, threads: map<Tid, Thread>, nextTid: Tid, reaper: Reaper, objects: Objects)

  predicate Init(s: State) {
    s == State(Store(map[], map[], 1), Control(Idle, 0, false, false, false, Free, Quiet, false), map[], 1,
               Reaper([], Waiting, 0, map[], map[]), Objects({}, {}, {}, map[]))
  }

  function Fld(s: State): Refs {
    Bundle(s.store, Fields)
  }

  function Th(s: State, t: Tid): Thread {
    if t in s.threads then s.threads[t] else Thread(Finished, 0)
  }

  /** Pointer comparison of two outputs. */
  predicate SamePointer(address: map<Ref, nat>, o: Ref, p: Ref) {
    o != 0 && p != 0 && o in address && p in address && address[o] == address[p]
  }

  /** `m_output == captured_output` in thread `t`. */
  predicate Current(s: State, t: Tid) {
    SamePointer(s.objects.address, Th(s, t).captured, Fld(s).output)
  }

  predicate Valid(s: State, t: Tid) {
    !s.ctl.stopFlag && Current(s, t)
  }

  // ----- events -----

  datatype StopCode = Success | HardFail | Retryable

  datatype UiEvent =
    | UiStart | UiTakeStale | UiJoined
    | UiResolve(ok: bool, canvas: bool) | UiPrepare(ok: bool, at: nat) | UiEncode(ok: bool) | UiPublish(removed: bool)
    | UiDropOld | UiLaunch(ok: bool, retry: bool) | UiRetry(ok: bool)
    | UiStop | UiDisconnect | UiDetach | UiRelinquish

  datatype SignalEvent = SignalStart | SignalStop(code: StopCode) | SignalTake | SignalJoined | SignalSpawn(captured: bool)

  datatype ThreadEvent =
    | ThreadEnter | ThreadClear | ThreadGiveUp | ThreadLeave | ThreadSkip | ThreadResolve(ok: bool, canvas: bool)
    | ThreadEncode(ok: bool) | ThreadCommit(removed: bool) | ThreadDropOld | ThreadLaunch(ok: bool)

  datatype ReaperEvent = ReaperClaim | ReaperDisconnect | ReaperDetach | ReaperJoin | ReaperForce | ReaperRelease

  datatype Event = OnUi(u: UiEvent) | OnSignal(g: SignalEvent) | OnThread(t: Tid, r: ThreadEvent) | OnReaper(w: ReaperEvent)

  predicate EnabledUi(s: State, ev: UiEvent) {
    var ui := s.ctl.ui;
    match ev
    case UiStart => ui.Free? && s.ctl.state != Live && s.ctl.state != Starting
    case UiTakeStale => ui.LazyJoin?
    case UiJoined => ui.Joining? && Th(s, ui.t).pc.Finished?
    case UiResolve(_, _) => ui.Resolving?
    // the allocator never gives out the address of a live output
    case UiPrepare(_, at) =>
      ui.Preparing? && forall o :: o in s.objects.alive && o in s.objects.address ==> s.objects.address[o] != at
    case UiEncode(_) => ui.Encoding?
    case UiPublish(removed) => ui.Publishing? && (removed ==> Bundle(s.store, UiLocal).canvas != 0)
    case UiDropOld => ui.DroppingOld?
    case UiLaunch(_, _) => ui.Launch?
    case UiRetry(_) => ui.Retry?
    case UiStop => ui.Free?
    // signal_handler_disconnect returns only when no handler is in flight
    case UiDisconnect => ui.Disconnecting? && s.ctl.signal.Quiet?
    case UiDetach => ui.Detaching?
    case UiRelinquish => ui.Free?
  }

  predicate EnabledSignal(s: State, ev: SignalEvent) {
    match ev
    // a start or stop signal follows only a successful obs_output_start
    case SignalStart => s.ctl.connected && s.ctl.signal.Quiet? && Fld(s).output in s.objects.running
    case SignalStop(_) => s.ctl.connected && s.ctl.signal.Quiet? && Fld(s).output in s.objects.running
    case SignalTake => s.ctl.signal.Handling?
    case SignalJoined => s.ctl.signal.JoiningStale? && Th(s, s.ctl.signal.t).pc.Finished?
    case SignalSpawn(_) => s.ctl.signal.Spawning?
  }

  predicate EnabledThread(s: State, t: Tid, ev: ThreadEvent) {
    t in s.threads &&
    var pc := s.threads[t].pc;
    match ev
    case ThreadEnter => pc.Spawned?
    case ThreadClear => pc.Looping?
    case ThreadGiveUp => pc.Looping?
    case ThreadLeave => (pc.Looping? || pc.Cleared?) && (s.ctl.stopFlag || !Current(s, t))
    case ThreadSkip => pc.Cleared?
    case ThreadResolve(_, _) => pc.Cleared?
    case ThreadEncode(_) => pc.Candidate?
    case ThreadCommit(removed) => pc.Ready? && (removed ==> Bundle(s.store, ThreadLocal(t)).canvas != 0)
    case ThreadDropOld => pc.Swapped?
    case ThreadLaunch(_) => pc.Launching?
  }

  predicate EnabledReaper(s: State, ev: ReaperEvent) {
    var w := s.reaper;
    w.line != [] &&
    match ev
    case ReaperClaim => w.line[0].ShutdownNew?
    case ReaperDisconnect => w.line[0].ShutdownClaimed? && s.ctl.signal.Quiet?
    case ReaperDetach => w.line[0].ShutdownDisconnected?
    case ReaperJoin => w.line[0].Teardown? && w.stage.Waiting? && Th(s, w.line[0].t).pc.Finished?
    case ReaperForce => w.line[0].Teardown? && w.stage.Joined?
    case ReaperRelease => w.line[0].Teardown? && w.stage.Forced?
  }

  predicate Enabled(s: State, ev: Event) {
    match ev
    case OnUi(u) => EnabledUi(s, u)
    case OnSignal(g) => EnabledSignal(s, g)
    case OnThread(t, r) => EnabledThread(s, t, r)
    case OnReaper(w) => EnabledReaper(s, w)
  }

  // ----- start(), stop() and shutdown_blocking() on the UI thread -----

  function Goto(s: State, store: Store, ui: Ui): State {
    s.(store := store, ctl := s.ctl.(ui := ui))
  }

  function Fail(s: State, store: Store): State {
    s.(store := store, ctl := s.ctl.(state := FailedHard, ui := Free))
  }

  function Prepare(s: State, ok: bool, at: nat): State {
    if Fld(s).output != 0 then Goto(s, s.store, Encoding)
    else if !ok then Fail(s, Drop(s.store, UiLocal, CanvasSlot))
    else
      var o := s.store.next;
      s.(store := Create(Create(s.store, Fields, OutputSlot), Fields, ServiceSlot),
         ctl := s.ctl.(ui := Encoding, connected := true),
         objects := s.objects.(alive := s.objects.alive + {o}, address := s.objects.address[o := at]))
  }

  /** The previous session's encoders go, the new pair and the canvas come in. */
  function Publish(m: Store): Store {
    SwapCanvas(MoveEncoders(DropEncoders(m, Fields), UiLocal), UiLocal)
  }

  function LaunchOutput(s: State, ok: bool, retry: bool): State {
    if ok then Goto(s, s.store, Free).(objects := s.objects.(running := s.objects.running + {Fld(s).output}))
    else if retry then Goto(s, DropEncoders(s.store, Fields), Retry)
    else Fail(s, DropEncoders(s.store, Fields))
  }

  predicate NothingToStop(s: State) {
    s.ctl.state.Idle? && Fld(s).output == 0 && Fld(s).canvas == 0
  }

  /** The locked section that empties the fields; job `n` will tear the session down. */
  function DetachTo(s: State, n: nat, line: seq<Job>): State {
    var c, w, out := s.ctl, s.reaper, Fld(s).output;
    s.(store := Detach(s.store, n),
       ctl := c.(reconnect := 0, state := Idle),
       reaper := w.(line := line, joinAt := if c.reconnect == 0 then w.joinAt else w.joinAt[c.reconnect := n],
                    tornAt := if out == 0 then w.tornAt else w.tornAt[out := n]))
  }

  function TeardownJob(s: State): Job {
    Teardown(s.ctl.reconnect, Fld(s).output)
  }

  function StopDetach(s: State): State {
    var t := if NothingToStop(s) then s
             else DetachTo(s, s.reaper.head + |s.reaper.line|, s.reaper.line + [TeardownJob(s)]);
    t.(ctl := t.ctl.(ui := Free, stopped := true))
  }

  function ApplyUi(s: State, ev: UiEvent): State {
    var m, c := s.store, s.ctl;
    match ev
    case UiStart => s.(ctl := c.(state := Starting, ui := LazyJoin, stopped := false))
    case UiTakeStale => s.(ctl := c.(stopFlag := true, ui := Joining(c.reconnect), reconnect := 0))
    case UiJoined => s.(ctl := c.(stopFlag := false, ui := Resolving))
    case UiResolve(ok, canvas) =>
      if !ok then Fail(s, m) else Goto(s, if canvas then Create(m, UiLocal, CanvasSlot) else m, Preparing)
    case UiPrepare(ok, at) => Prepare(s, ok, at)
    case UiEncode(ok) => if ok then Goto(s, CreateEncoders(m, UiLocal), Publishing) else Fail(s, Drop(m, UiLocal, CanvasSlot))
    case UiPublish(removed) => if removed then Fail(s, DropCandidate(m, UiLocal)) else Goto(s, Publish(m), DroppingOld)
    case UiDropOld => Goto(s, Drop(m, UiLocal, CanvasSlot), Launch)
    case UiLaunch(ok, retry) => LaunchOutput(s, ok, retry)
    case UiRetry(ok) => if ok then Goto(s, MoveEncoders(CreateEncoders(m, UiLocal), UiLocal), Launch) else Fail(s, m)
    case UiStop =>
      if NothingToStop(s) then s.(ctl := c.(stopFlag := true, stopped := true)) else s.(ctl := c.(stopFlag := true, ui := Disconnecting))
    case UiDisconnect => s.(ctl := c.(connected := false, ui := Detaching))
    case UiDetach => StopDetach(s)
    case UiRelinquish => s.(ctl := c.(ui := Relinquished), reaper := s.reaper.(line := s.reaper.line + [ShutdownNew]))
  }

  // ----- the libobs signal thread -----

  function ApplySignal(s: State, ev: SignalEvent): State {
    var c := s.ctl;
    match ev
    case SignalStart => s.(ctl := c.(state := Live))
    case SignalStop(code) =>
      s.(objects := s.objects.(running := s.objects.running - {Fld(s).output}),
         ctl := if code == Success || (code == Retryable && c.shutdownDone) then c.(state := Idle)
                else if code == HardFail then c.(state := FailedHard)
                else c.(signal := Handling))
    case SignalTake => s.(ctl := c.(state := Reconnecting, signal := JoiningStale(c.reconnect), reconnect := 0))
    case SignalJoined => s.(ctl := c.(stopFlag := false, signal := Spawning))
    case SignalSpawn(captured) =>
      if c.shutdownDone then s.(ctl := c.(state := Idle, signal := Quiet))
      else s.(threads := s.threads[s.nextTid := if captured then Thread(Looping, Fld(s).output) else Thread(Spawned, 0)],
              ctl := c.(reconnect := s.nextTid, signal := Quiet), nextTid := s.nextTid + 1)
  }

  // ----- reconnect threads -----

  function Advance(s: State, t: Tid, store: Store, pc: Pc): State {
    s.(store := store, threads := s.threads[t := Th(s, t).(pc := pc)])
  }

  /** The attempt ends; the session fails if it is still this thread's. */
  function GiveUp(s: State, t: Tid, store: Store): State {
    Advance(s, t, store, Finished).(ctl := if Current(s, t) then s.ctl.(state := FailedHard) else s.ctl)
  }

  function ApplyThread(s: State, t: Tid, ev: ThreadEvent): State {
    var m, me := s.store, ThreadLocal(t);
    match ev
    case ThreadEnter => s.(threads := s.threads[t := Thread(if Fld(s).output == 0 then Finished else Looping, Fld(s).output)])
    case ThreadClear => if Valid(s, t) then Advance(s, t, DropEncoders(m, Fields), Cleared) else Advance(s, t, m, Finished)
    case ThreadGiveUp => GiveUp(s, t, m)
    case ThreadLeave => Advance(s, t, m, Finished)
    case ThreadSkip => Advance(s, t, m, Looping)
    case ThreadResolve(ok, canvas) =>
      if !Valid(s, t) then Advance(s, t, m, Finished)
      else if !ok then GiveUp(s, t, m)
      else Advance(s, t, if canvas then Create(m, me, CanvasSlot) else m, Candidate)
    case ThreadEncode(ok) =>
      if ok then Advance(s, t, CreateEncoders(m, me), Ready) else Advance(s, t, Drop(m, me, CanvasSlot), Looping)
    case ThreadCommit(removed) =>
      if removed then GiveUp(s, t, DropCandidate(m, me))
      else if Valid(s, t) then Advance(s, t, SwapCanvas(MoveEncoders(m, me), me), Swapped)
      else Advance(s, t, DropCandidate(m, me), Finished)
    case ThreadDropOld => Advance(s, t, Drop(m, me, CanvasSlot), Launching)
    case ThreadLaunch(ok) =>
      if ok then Advance(s, t, m, Finished).(objects := s.objects.(running := s.objects.running + {Th(s, t).captured}))
      else Advance(s, t, m, if Current(s, t) then Looping else Finished)
  }

  // ----- the reaper's thread -----

  /** The job's references in release order: encoders, output, service, canvas last. */
  function NextSlot(r: Refs): Slot {
    if r.video != 0 then VideoSlot else if r.audio != 0 then AudioSlot
    else if r.output != 0 then OutputSlot else if r.service != 0 then ServiceSlot else CanvasSlot
  }

  function Pop(w: Reaper): Reaper
    requires w.line != []
  {
    w.(line := w.line[1..], head := w.head + 1, stage := Waiting)
  }

  function ReleaseNext(s: State): State
    requires s.reaper.line != []
  {
    var me := InJob(s.reaper.head);
    var r := Bundle(s.store, me);
    if r == NONE then s.(reaper := Pop(s.reaper))
    else s.(store := Drop(s.store, me, NextSlot(r)),
            objects := s.objects.(alive := s.objects.alive - if NextSlot(r) == OutputSlot then {r.output} else {}))
  }

  function ApplyReaper(s: State, ev: ReaperEvent): State
    requires EnabledReaper(s, ev)
  {
    var c, w := s.ctl, s.reaper;
    match ev
    case ReaperClaim =>
      if c.shutdownDone then s.(reaper := Pop(w))
      else s.(ctl := c.(shutdownDone := true, stopFlag := true), reaper := w.(line := w.line[0 := ShutdownClaimed]))
    case ReaperDisconnect => s.(ctl := c.(connected := false), reaper := w.(line := w.line[0 := ShutdownDisconnected]))
    case ReaperDetach => DetachTo(s, w.head, w.line[0 := TeardownJob(s)])
    case ReaperJoin => s.(reaper := w.(stage := Joined))
    case ReaperForce => s.(reaper := w.(stage := Forced), objects := s.objects.(forced := s.objects.forced + {w.line[0].output}))
    case ReaperRelease => ReleaseNext(s)
  }

  // ----- runs -----

  function Apply(s: State, ev: Event): State
    requires Enabled(s, ev)
  {
    match ev
    case OnUi(u) => ApplyUi(s, u)
    case OnSignal(g) => ApplySignal(s, g)
    case OnThread(t, r) => ApplyThread(s, t, r)
    case OnReaper(w) => ApplyReaper(s, w)
  }

  predicate Runs(s: State, evs: seq<Event>, t: State)
    decreases |evs|
  {
    if evs == [] then s == t else Enabled(s, evs[0]) && Runs(Apply(s, evs[0]), evs[1..], t)
  }

  ghost predicate Reachable(t: State) {
    exists s, evs :: Init(s) && Runs(s, evs, t)
  }
}
