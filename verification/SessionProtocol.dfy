/** The Streamlabs session protocol: StreamlabsClient (UI calls, worker thread, shutdown) over the
    StreamlabsSessionBook, with the provider path of OutputController (request, adopt, stop).
    One event is one section under `m_mutex` (or under the controller's mutex), except that a start is one
    event up to the busy test; every interleaving of these events is a run.  Network outcomes, stored-token
    lookups, file-write success and libobs state changes are the parameters of the events. */
module SessionProtocol {
  import OutputStates
  import opened SessionBook

  // ----- state -----

  datatype Job = StartJob(e: Endpoint, tok: nat) | EndJob(id: Id)

  /** Where the worker thread stands inside the job it popped. */
  datatype Worker =
    | Idle
    | Claiming(e: Endpoint, tok: nat)
    | Stale(e: Endpoint, tok: nat, todo: seq<Id>)
    | StaleFlight(e: Endpoint, tok: nat, id: Id, todo: seq<Id>)
    | Starting(e: Endpoint, tok: nat)
    | Started(e: Endpoint, tok: nat, id: Id)
    | EndFlight(id: Id)
    | Exited

  /** A result on its way to the UI thread; NO_ID is a failure. */
  datatype Post = Post(e: Endpoint, tok: nat, id: Id)

  /** The call the UI thread is inside of. */
  datatype Ui = Free | Asking(e: Endpoint, tok: nat) | Releasing(e: Endpoint) | Unadopted(id: Id) | Queueing(id: Id)

  /** Provider fields of one controller.  `tok` names (controller, m_key_fetch_gen): every request has its own. */
  datatype Controller = Controller(state: OutputStates.OutputState, pending: bool, tok: nat, provider: bool)

  datatype Shutdown = Off | Flagged | Quiet | Ending(todo: seq<Id>) | Done

  /** How the last settled end attempt of an id went. */
  datatype Fate = Confirmed | Refused | CutOff | NoToken | FinalCutOff

  datatype State = State(
    book: Book, jobs: seq<Job>, worker: Worker, posts: seq<Post>, ui: Ui,
    controllers: map<Endpoint, Controller>, shutdown: Shutdown, slotCancelled: bool, file: Id, nextTok: nat,
    // history
    issued: set<Id>, delivered: set<Id>, adopted: set<Id>, fate: map<Id, Fate>, confirmed: seq<Id>)

  function Ctl(cs: map<Endpoint, Controller>, e: Endpoint): Controller {
    if e in cs then cs[e] else Controller(OutputStates.Idle, false, 0, false)
  }

  predicate Init(s: State) {
    && s.book == EMPTY_BOOK && s.jobs == [] && s.worker == Idle && s.posts == [] && s.ui == Free
    && s.controllers == map[] && s.shutdown == Off && !s.slotCancelled && s.nextTok == 1
    && s.issued == (if s.file == NO_ID then {} else {s.file})   // a session a crash left open
    && s.delivered == {} && s.adopted == {} && s.fate == map[] && s.confirmed == []
  }

  predicate Alive(s: State) {
    s.shutdown.Off? || s.shutdown.Flagged?
  }

  predicate Current(cs: map<Endpoint, Controller>, e: Endpoint, tok: nat) {
    Ctl(cs, e).pending && Ctl(cs, e).tok == tok
  }

  // ----- events -----

  datatype UiEvent =
    | UiStart(e: Endpoint) | UiAsk(token: bool) | UiStop(e: Endpoint) | UiRelease | UiDeliver(outputStarted: bool)
    | UiUnadopted | UiQueue(token: bool)

  datatype WorkerEvent =
    | WorkerPop | WorkerExit | WorkerClaim | WorkerNextStale | WorkerEndReply(outcome: EndOutcome)
    | WorkerStartReply(id: Id, name: string) | WorkerHandOver(written: bool)

  datatype ShutdownEvent = ShutdownFlag | ShutdownQuiet | ShutdownCancel | ShutdownTake(token: bool) | ShutdownReply(outcome: EndOutcome)

  /** A controller's libobs signals move its output state on their own. */
  datatype Event = OnUi(u: UiEvent) | OnSignal(e: Endpoint, to: OutputStates.OutputState) | OnWorker(w: WorkerEvent) | OnShutdown(d: ShutdownEvent)

  predicate EnabledUi(s: State, ev: UiEvent) {
    match ev
    case UiStart(e) => s.ui.Free? && !Ctl(s.controllers, e).state.Live? && !Ctl(s.controllers, e).state.Starting?
    case UiAsk(_) => s.ui.Asking?
    case UiStop(_) => s.ui.Free?
    case UiRelease => s.ui.Releasing?
    case UiDeliver(_) => s.ui.Free? && s.posts != []
    case UiUnadopted => s.ui.Unadopted?
    case UiQueue(_) => s.ui.Queueing?
  }

  predicate EnabledWorker(s: State, ev: WorkerEvent) {
    match ev
    case WorkerPop => s.worker.Idle? && s.shutdown.Off? && s.jobs != []
    case WorkerExit => s.worker.Idle? && !s.shutdown.Off?
    case WorkerClaim => s.worker.Claiming?
    case WorkerNextStale => s.worker.Stale?
    case WorkerEndReply(o) => (s.worker.StaleFlight? || s.worker.EndFlight?) && (o == Cancelled ==> s.slotCancelled)
    case WorkerStartReply(id, _) => s.worker.Starting? && id !in s.issued   // the server's ids are fresh
    case WorkerHandOver(_) => s.worker.Started?
  }

  predicate EnabledShutdown(s: State, ev: ShutdownEvent) {
    match ev
    case ShutdownFlag => s.shutdown.Off?
    case ShutdownQuiet => s.shutdown.Flagged?
    case ShutdownCancel => s.shutdown.Quiet?
    case ShutdownTake(_) => s.shutdown.Quiet? && s.slotCancelled && s.worker.Exited?
    case ShutdownReply(_) => s.shutdown.Ending? && s.shutdown.todo != []
  }

  predicate Enabled(s: State, ev: Event) {
    match ev
    case OnUi(u) => EnabledUi(s, u)
    case OnSignal(_, to) => to != OutputStates.Starting
    case OnWorker(w) => EnabledWorker(s, w)
    case OnShutdown(d) => EnabledShutdown(s, d)
  }

  function SetCtl(s: State, e: Endpoint, c: Controller): State {
    s.(controllers := s.controllers[e := c])
  }

  function Fail(s: State, e: Endpoint, tok: nat): State {
    s.(posts := s.posts + [Post(e, tok, NO_ID)])
  }

  function DoStart(s: State, e: Endpoint): State {
    var t := SetCtl(s, e, Ctl(s.controllers, e).(state := OutputStates.Starting, pending := true, tok := s.nextTok)).(nextTok := s.nextTok + 1);
    if BusyWith(s.book, e) != "" then Fail(t, e, s.nextTok) else t.(ui := Asking(e, s.nextTok))
  }

  function DoAsk(s: State, token: bool): State
    requires s.ui.Asking?
  {
    var t := s.(ui := Free);
    if !token then Fail(t, s.ui.e, s.ui.tok)
    else if s.shutdown.Off? then t.(jobs := s.jobs + [StartJob(s.ui.e, s.ui.tok)]) else t
  }

  function DoStop(s: State, e: Endpoint): State {
    var c := Ctl(s.controllers, e);
    SetCtl(s, e, c.(state := OutputStates.Idle, pending := false, provider := false)).(ui := if c.provider then Releasing(e) else Free)
  }

  function DoRelease(s: State): State
    requires s.ui.Releasing?
  {
    if !s.shutdown.Off? then s.(ui := Free) else
    var (b, id) := ReleaseOwner(s.book, s.ui.e);
    s.(book := b, ui := if id == NO_ID then Free else Queueing(id))
  }

  function DoDeliver(s: State, outputStarted: bool): State
    requires s.posts != []
  {
    var p, t := s.posts[0], s.(posts := s.posts[1..]);
    var c := Ctl(s.controllers, p.e);
    if !Alive(s) then t
    else if !Adopts(s) then
      if p.id != NO_ID then t.(ui := Unadopted(p.id)) else
      if c.pending && c.tok == p.tok && c.state.Starting? then
        SetCtl(t, p.e, c.(pending := false, state := OutputStates.FailedHard)) else t
    else if outputStarted then
      SetCtl(t, p.e, c.(pending := false, provider := true)).(adopted := s.adopted + {p.id})
    else
      SetCtl(t, p.e, c.(pending := false, provider := false, state := OutputStates.FailedHard))
        .(adopted := s.adopted + {p.id}, ui := Releasing(p.e))
  }

  /** on_provider_target takes the session at the head of the UI queue. */
  predicate Adopts(s: State)
    requires s.posts != []
  {
    var p := s.posts[0];
    Alive(s) && p.id != NO_ID && Current(s.controllers, p.e, p.tok) && Ctl(s.controllers, p.e).state.Starting?
  }

  function DoUnadopted(s: State): State
    requires s.ui.Unadopted?
  {
    if !s.shutdown.Off? then s.(ui := Free) else
    var (b, claimed) := ReleaseUnadopted(s.book, s.ui.id);
    s.(book := b, ui := if claimed then Queueing(s.ui.id) else Free)
  }

  function Settle(fate: map<Id, Fate>, id: Id, f: Fate): map<Id, Fate> {
    if id in fate && fate[id] == Confirmed then fate else fate[id := f]
  }

  function DoQueue(s: State, token: bool): State
    requires s.ui.Queueing?
  {
    var t := s.(ui := Free);
    if !token then t.(book := FinishEnd(s.book, s.ui.id, Failed), fate := Settle(s.fate, s.ui.id, NoToken))
    else if s.shutdown.Off? then t.(jobs := s.jobs + [EndJob(s.ui.id)]) else t
  }

  function DoPop(s: State): State
    requires s.jobs != []
  {
    s.(jobs := s.jobs[1..],
       worker := match s.jobs[0] case StartJob(e, tok) => Claiming(e, tok) case EndJob(id) => EndFlight(id))
  }

  function DoClaim(s: State): State
    requires s.worker.Claiming?
  {
    var e, tok := s.worker.e, s.worker.tok;
    var (b, claim) := ClaimForStart(s.book, e);
    if claim.busyWith != "" then Fail(s.(worker := Idle), e, tok) else
    var stale := if s.file != NO_ID && s.file !in claim.stale then claim.stale + [s.file] else claim.stale;
    s.(book := b, worker := Stale(e, tok, stale))
  }

  function DoNextStale(s: State): State
    requires s.worker.Stale?
  {
    var w := s.worker;
    if w.todo == [] then s.(worker := Starting(w.e, w.tok)) else
    var (b, claimed) := BeginEnd(s.book, w.todo[0]);
    s.(book := b, worker := if claimed then StaleFlight(w.e, w.tok, w.todo[0], w.todo[1..])
                                       else Stale(w.e, w.tok, w.todo[1..]))
  }

  /** end_now: the answer settles the id in the book; a confirmed end also clears its session file. */
  function SettleEnd(s: State, id: Id, outcome: EndOutcome, cut: Fate): State {
    s.(book := FinishEnd(s.book, id, outcome),
       file := if outcome == EndOutcome.Ended && s.file == id then NO_ID else s.file,
       fate := Settle(s.fate, id, match outcome case Ended => Confirmed case Failed => Refused case Cancelled => cut),
       confirmed := if outcome == EndOutcome.Ended then s.confirmed + [id] else s.confirmed)
  }

  function DoEndReply(s: State, outcome: EndOutcome): State
    requires s.worker.StaleFlight? || s.worker.EndFlight?
  {
    SettleEnd(s, s.worker.id, outcome, CutOff)
      .(worker := if s.worker.EndFlight? then Idle else Stale(s.worker.e, s.worker.tok, s.worker.todo))
  }

  function DoStartReply(s: State, id: Id, name: string): State
    requires s.worker.Starting?
  {
    var e, tok := s.worker.e, s.worker.tok;
    if id == NO_ID then Fail(s.(worker := Idle), e, tok)
    else s.(book := OnStarted(s.book, id, e, name), worker := Started(e, tok, id),
            issued := s.issued + {id}, delivered := s.delivered + {id})
  }

  function DoHandOver(s: State, written: bool): State
    requires s.worker.Started?
  {
    s.(file := if written then s.worker.id else s.file, worker := Idle,
       posts := s.posts + [Post(s.worker.e, s.worker.tok, s.worker.id)])
  }

  /** No token at shutdown: every id handed out is settled as failed in one section. */
  function FailAll(s: State, ids: seq<Id>): State
    decreases |ids|
  {
    if ids == [] then s
    else FailAll(s.(book := FinishEnd(s.book, ids[0], Failed), fate := Settle(s.fate, ids[0], NoToken)), ids[1..])
  }

  function DoTake(s: State, token: bool): State {
    var (b, ids) := TakeForShutdown(s.book);
    var t := s.(book := b);
    if ids == [] then t.(shutdown := Done)
    else if !token then FailAll(t, ids).(shutdown := Done)
    else t.(shutdown := Ending(ids))
  }

  function DoShutdownReply(s: State, outcome: EndOutcome): State
    requires s.shutdown.Ending? && s.shutdown.todo != []
  {
    var todo := s.shutdown.todo;
    SettleEnd(s, todo[0], outcome, FinalCutOff).(shutdown := if |todo| == 1 then Done else Ending(todo[1..]))
  }

  function ApplyUi(s: State, ev: UiEvent): State
    requires EnabledUi(s, ev)
  {
    match ev
    case UiStart(e) => DoStart(s, e)
    case UiAsk(token) => DoAsk(s, token)
    case UiStop(e) => DoStop(s, e)
    case UiRelease => DoRelease(s)
    case UiDeliver(started) => DoDeliver(s, started)
    case UiUnadopted => DoUnadopted(s)
    case UiQueue(token) => DoQueue(s, token)
  }

  function ApplyWorker(s: State, ev: WorkerEvent): State
    requires EnabledWorker(s, ev)
  {
    match ev
    case WorkerPop => DoPop(s)
    case WorkerExit => s.(worker := Exited)
    case WorkerClaim => DoClaim(s)
    case WorkerNextStale => DoNextStale(s)
    case WorkerEndReply(o) => DoEndReply(s, o)
    case WorkerStartReply(id, name) => DoStartReply(s, id, name)
    case WorkerHandOver(w) => DoHandOver(s, w)
  }

  function ApplyShutdown(s: State, ev: ShutdownEvent): State
    requires EnabledShutdown(s, ev)
  {
    match ev
    case ShutdownFlag => s.(shutdown := Flagged, jobs := [])
    case ShutdownQuiet => s.(shutdown := Quiet)
    case ShutdownCancel => s.(slotCancelled := true)
    case ShutdownTake(token) => DoTake(s, token)
    case ShutdownReply(o) => DoShutdownReply(s, o)
  }

  function Apply(s: State, ev: Event): State
    requires Enabled(s, ev)
  {
    match ev
    case OnUi(u) => ApplyUi(s, u)
    case OnSignal(e, to) => SetCtl(s, e, Ctl(s.controllers, e).(state := to))
    case OnWorker(w) => ApplyWorker(s, w)
    case OnShutdown(d) => ApplyShutdown(s, d)
  }

  /** `t` is what `s` becomes by running `evs`, one enabled event after the other. */
  predicate Runs(s: State, evs: seq<Event>, t: State)
    decreases |evs|
  {
    if evs == [] then s == t else Enabled(s, evs[0]) && Runs(Apply(s, evs[0]), evs[1..], t)
  }

  ghost predicate Reachable(t: State) {
    exists s, evs :: Init(s) && Runs(s, evs, t)
  }

  // ----- invariant -----

  predicate Taken(sd: Shutdown) {
    sd.Ending? || sd.Done?
  }

  predicate InFlight(w: Worker, id: Id) {
    (w.StaleFlight? || w.EndFlight?) && w.id == id
  }

  function WorkerTodo(w: Worker): seq<Id> {
    if w.Stale? || w.StaleFlight? then w.todo else []
  }

  function ShutdownTodo(sd: Shutdown): seq<Id> {
    if sd.Ending? then sd.todo else []
  }

  /** How many queued jobs, running requests and unfinished UI calls claimed the end of `id` in the book. */
  function Holders(jobs: seq<Job>, w: Worker, ui: Ui, id: Id): nat {
    multiset(jobs)[EndJob(id)] + (if InFlight(w, id) then 1 else 0) + (if ui == Queueing(id) then 1 else 0)
  }

  /** Each end claim has one holder, and the book knows the claim. */
  ghost predicate ClaimsOk(jobs: seq<Job>, w: Worker, ui: Ui, ending: seq<Id>, taken: bool) {
    forall id :: Holders(jobs, w, ui, id) <= 1 && (Holders(jobs, w, ui, id) == 1 ==> taken || id in ending)
  }

  ghost predicate BookOk(b: Book, issued: set<Id>) {
    && NO_ID !in issued
    && (forall x :: x in b.ending ==> x in issued && x !in b.ended && x !in b.retry)
    && (forall x :: x in b.retry ==> x in issued && x !in b.ended)
    && (forall x :: x in b.ended ==> x in issued)
    && (b.openId != NO_ID ==> b.openId in issued && b.openId !in b.ending && b.openId !in b.retry && b.openId !in b.ended)
  }

  ghost predicate WorkOk(w: Worker, file: Id, openId: Id, ui: Ui, issued: set<Id>) {
    && (file != NO_ID ==> file in issued)
    && (w.Stale? || w.StaleFlight? || w.Starting? ==> openId == NO_ID)
    && (forall x :: x in WorkerTodo(w) ==> x in issued)
    && (forall x :: InFlight(w, x) ==> x in issued)
    && (ui.Queueing? ==> ui.id in issued)
  }

  ghost predicate ShutdownOk(sd: Shutdown, jobs: seq<Job>, w: Worker, b: Book, fate: map<Id, Fate>, issued: set<Id>) {
    && (!sd.Off? ==> jobs == [])
    && (w.Exited? ==> !sd.Off?)
    && (!Taken(sd) ==> b.handedOut == [])
    && (Taken(sd) ==>
          && w.Exited? && b.openId == NO_ID
          && (forall x :: x in b.ending ==> x in ShutdownTodo(sd))
          && (forall x :: x in b.retry ==> x in fate && fate[x] != CutOff && x !in ShutdownTodo(sd)))
    && Distinct(ShutdownTodo(sd))
    && (forall x :: x in ShutdownTodo(sd) ==> x in issued && x !in b.ended)
    && (sd.Ending? ==> sd.todo != [])
  }

  ghost predicate FateOk(b: Book, fate: map<Id, Fate>, confirmed: seq<Id>) {
    && Distinct(confirmed)
    && (forall x :: x in confirmed <==> x in b.ended)
    && (forall x :: x in b.ended <==> x in fate && fate[x] == Confirmed)
  }

  /** Nothing a start reply delivered is lost. */
  ghost predicate Tracked(b: Book, w: Worker, sd: Shutdown, fate: map<Id, Fate>, d: Id) {
    || d == b.openId || d in b.ending || d in b.retry || d in WorkerTodo(w) || d in ShutdownTodo(sd)
    || (d in fate && fate[d] != CutOff)
  }

  ghost predicate AllTracked(s: State) {
    && s.delivered <= s.issued
    && forall d :: d in s.delivered ==> Tracked(s.book, s.worker, s.shutdown, s.fate, d)
  }

  ghost predicate Conserves(s: State) {
    && ClaimsOk(s.jobs, s.worker, s.ui, s.book.ending, Taken(s.shutdown))
    && BookOk(s.book, s.issued)
    && WorkOk(s.worker, s.file, s.book.openId, s.ui, s.issued)
    && ShutdownOk(s.shutdown, s.jobs, s.worker, s.book, s.fate, s.issued)
    && FateOk(s.book, s.fate, s.confirmed)
    && AllTracked(s)
  }

  lemma SameClaims(jobs: seq<Job>, w: Worker, w': Worker, ui: Ui, ui': Ui, ending: seq<Id>, taken: bool)
    requires ClaimsOk(jobs, w, ui, ending, taken)
    requires forall x :: InFlight(w', x) ==> InFlight(w, x)
    requires ui'.Queueing? ==> ui' == ui
    ensures ClaimsOk(jobs, w', ui', ending, taken)
  {
    assert forall id :: Holders(jobs, w', ui', id) <= Holders(jobs, w, ui, id);
  }

  lemma NewCall(jobs: seq<Job>, w: Worker, ui: Ui, ending: seq<Id>, id: Id)
    requires ClaimsOk(jobs, w, ui, ending, false) && !ui.Queueing? && id !in ending
    ensures ClaimsOk(jobs, w, Queueing(id), ending + [id], false)
  {
    assert forall x :: Holders(jobs, w, Queueing(id), x) == Holders(jobs, w, ui, x) + (if x == id then 1 else 0);
  }

  lemma NewFlight(jobs: seq<Job>, w: Worker, w': Worker, ui: Ui, ending: seq<Id>, id: Id, taken: bool)
    requires ClaimsOk(jobs, w, ui, ending, taken) && id !in ending && !taken
    requires forall x :: !InFlight(w, x) && (InFlight(w', x) <==> x == id)
    ensures ClaimsOk(jobs, w', ui, ending + [id], taken)
  {
    assert forall x :: Holders(jobs, w', ui, x) == Holders(jobs, w, ui, x) + (if x == id then 1 else 0);
  }

  /** The claim of `id` was given up together with its last holder. */
  lemma Unclaimed(jobs: seq<Job>, w: Worker, w': Worker, ui: Ui, ui': Ui, ending: seq<Id>, id: Id, taken: bool)
    requires ClaimsOk(jobs, w, ui, ending, taken)
    requires forall x :: Holders(jobs, w', ui', x) == Holders(jobs, w, ui, x) - (if x == id then 1 else 0)
    ensures ClaimsOk(jobs, w', ui', Without(ending, id), taken)
  {
  }

  lemma PopClaims(jobs: seq<Job>, ui: Ui, ending: seq<Id>)
    requires jobs != [] && ClaimsOk(jobs, Idle, ui, ending, false)
    ensures jobs[0].EndJob? ==> ClaimsOk(jobs[1..], EndFlight(jobs[0].id), ui, ending, false)
    ensures jobs[0].StartJob? ==> ClaimsOk(jobs[1..], Claiming(jobs[0].e, jobs[0].tok), ui, ending, false)
  {
    assert jobs == [jobs[0]] + jobs[1..];
    assert forall id :: multiset(jobs)[EndJob(id)] == multiset(jobs[1..])[EndJob(id)] + (if jobs[0] == EndJob(id) then 1 else 0);
    forall id ensures jobs[0].EndJob? ==> Holders(jobs[1..], EndFlight(jobs[0].id), ui, id) == Holders(jobs, Idle, ui, id) {}
    forall id ensures jobs[0].StartJob? ==> Holders(jobs[1..], Claiming(jobs[0].e, jobs[0].tok), ui, id) == Holders(jobs, Idle, ui, id) {}
  }

  /** Settling an id that is claimed keeps the book, the history and the tracking. */
  lemma SettleKeeps(b: Book, issued: set<Id>, fate: map<Id, Fate>, confirmed: seq<Id>, id: Id, outcome: EndOutcome, f: Fate)
    requires BookOk(b, issued) && FateOk(b, fate, confirmed) && id in issued && id != b.openId
    requires id in b.ended ==> outcome == Failed
    requires outcome == EndOutcome.Ended <==> f == Confirmed
    ensures BookOk(FinishEnd(b, id, outcome), issued)
    ensures FateOk(FinishEnd(b, id, outcome), Settle(fate, id, f),
                   if outcome == EndOutcome.Ended then confirmed + [id] else confirmed)
  {
  }

  lemma AskConserves(s: State, token: bool)
    requires Conserves(s) && s.ui.Asking?
    ensures Conserves(DoAsk(s, token))
  {
    var t := DoAsk(s, token);
    assert forall id :: Holders(t.jobs, t.worker, t.ui, id) == Holders(s.jobs, s.worker, s.ui, id);
  }

  lemma ReleasedBook(b: Book, issued: set<Id>)
    requires BookOk(b, issued) && b.openId != NO_ID
    ensures var c := CloseOpen(b).(ending := b.ending + [b.openId]);
            BookOk(c, issued) && BeginEnd(CloseOpen(b), b.openId) == (c, true) && c.retry == b.retry
  {
    NotThere(b.retry, b.openId);
  }

  lemma {:induction s} NotThere(s: seq<Id>, id: Id)
    requires id !in s
    ensures Without(s, id) == s
  {
  }

  lemma ReleaseConserves(s: State)
    requires Conserves(s) && s.ui.Releasing?
    ensures Conserves(DoRelease(s))
  {
    if s.shutdown.Off? && s.book.openId != NO_ID && s.book.openOwner == s.ui.e {
      NewCall(s.jobs, s.worker, s.ui, s.book.ending, s.book.openId);
      ReleasedBook(s.book, s.issued);
    } else {
      SameClaims(s.jobs, s.worker, s.worker, s.ui, Free, s.book.ending, Taken(s.shutdown));
    }
  }

  lemma UnadoptedConserves(s: State)
    requires Conserves(s) && s.ui.Unadopted?
    ensures Conserves(DoUnadopted(s))
  {
    var id := s.ui.id;
    if s.shutdown.Off? && id != NO_ID && s.book.openId == id {
      NewCall(s.jobs, s.worker, s.ui, s.book.ending, id);
      ReleasedBook(s.book, s.issued);
    } else {
      SameClaims(s.jobs, s.worker, s.worker, s.ui, Free, s.book.ending, Taken(s.shutdown));
    }
  }

  lemma QueueConserves(s: State)
    requires Conserves(s) && s.ui.Queueing?
    ensures Conserves(DoQueue(s, true))
  {
    var t := DoQueue(s, true);
    if s.shutdown.Off? {
      assert forall x :: Holders(t.jobs, s.worker, Free, x) == Holders(s.jobs, s.worker, s.ui, x);
    } else {
      SameClaims(s.jobs, s.worker, s.worker, s.ui, Free, s.book.ending, Taken(s.shutdown));
    }
  }

  lemma QueueWithoutTokenConserves(s: State)
    requires Conserves(s) && s.ui.Queueing?
    ensures Conserves(DoQueue(s, false))
  {
    var id := s.ui.id;
    assert Holders(s.jobs, s.worker, s.ui, id) == 1;
    Unclaimed(s.jobs, s.worker, s.worker, s.ui, Free, s.book.ending, id, Taken(s.shutdown));
    SettleKeeps(s.book, s.issued, s.fate, s.confirmed, id, Failed, NoToken);
  }

  lemma PopConserves(s: State)
    requires Conserves(s) && EnabledWorker(s, WorkerPop)
    ensures Conserves(DoPop(s))
  {
    PopClaims(s.jobs, s.ui, s.book.ending);
    assert Holders(s.jobs, s.worker, s.ui, (if s.jobs[0].EndJob? then s.jobs[0].id else NO_ID)) <= 1;
    if s.jobs[0].EndJob? {
      assert s.jobs[0] in multiset(s.jobs);
    }
  }

  lemma ClaimConserves(s: State)
    requires Conserves(s) && s.worker.Claiming?
    ensures Conserves(DoClaim(s))
  {
    var t := DoClaim(s);
    SameClaims(s.jobs, s.worker, t.worker, s.ui, s.ui, s.book.ending, Taken(s.shutdown));
    if s.book.openId != NO_ID && t.worker.Stale? {
      assert t.worker.todo[0] == s.book.openId;
    }
  }

  lemma NextStaleConserves(s: State)
    requires Conserves(s) && s.worker.Stale?
    ensures Conserves(DoNextStale(s))
  {
    var t := DoNextStale(s);
    if s.worker.todo != [] {
      var id := s.worker.todo[0];
      assert forall x :: x in s.worker.todo <==> x == id || x in s.worker.todo[1..];
      if t.worker.StaleFlight? {
        NewFlight(s.jobs, s.worker, t.worker, s.ui, s.book.ending, id, Taken(s.shutdown));
      } else {
        SameClaims(s.jobs, s.worker, t.worker, s.ui, s.ui, s.book.ending, Taken(s.shutdown));
      }
    } else {
      SameClaims(s.jobs, s.worker, t.worker, s.ui, s.ui, s.book.ending, Taken(s.shutdown));
    }
  }

  lemma EndReplyConserves(s: State, outcome: EndOutcome)
    requires Conserves(s) && EnabledWorker(s, WorkerEndReply(outcome))
    ensures Conserves(DoEndReply(s, outcome))
  {
    var t, id := DoEndReply(s, outcome), s.worker.id;
    assert Holders(s.jobs, s.worker, s.ui, id) == 1;
    Unclaimed(s.jobs, s.worker, t.worker, s.ui, s.ui, s.book.ending, id, Taken(s.shutdown));
    SettleKeeps(s.book, s.issued, s.fate, s.confirmed, id, outcome,
                match outcome case Ended => Confirmed case Failed => Refused case Cancelled => CutOff);
  }

  lemma StartedBook(b: Book, issued: set<Id>, id: Id, e: Endpoint, name: string)
    requires BookOk(b, issued) && b.openId == NO_ID && id != NO_ID && id !in issued
    ensures BookOk(OnStarted(b, id, e, name), issued + {id})
  {
  }

  lemma StartReplyConserves(s: State, id: Id, name: string)
    requires Conserves(s) && EnabledWorker(s, WorkerStartReply(id, name))
    ensures Conserves(DoStartReply(s, id, name))
  {
    var t := DoStartReply(s, id, name);
    SameClaims(s.jobs, s.worker, t.worker, s.ui, s.ui, s.book.ending, Taken(s.shutdown));
    if id != NO_ID {
      StartedBook(s.book, s.issued, id, s.worker.e, name);
      assert ShutdownOk(t.shutdown, t.jobs, t.worker, t.book, t.fate, t.issued);
      assert AllTracked(t);
    }
  }

  lemma HandOverConserves(s: State, written: bool)
    requires Conserves(s) && s.worker.Started? && s.worker.id in s.issued
    ensures Conserves(DoHandOver(s, written))
  {
    SameClaims(s.jobs, s.worker, Idle, s.ui, s.ui, s.book.ending, Taken(s.shutdown));
  }

  lemma ExitConserves(s: State)
    requires Conserves(s) && EnabledWorker(s, WorkerExit)
    ensures Conserves(s.(worker := Exited))
  {
    SameClaims(s.jobs, s.worker, Exited, s.ui, s.ui, s.book.ending, Taken(s.shutdown));
  }

  lemma FlagConserves(s: State)
    requires Conserves(s) && s.shutdown.Off?
    ensures Conserves(s.(shutdown := Flagged, jobs := []))
  {
    forall x ensures Holders([], s.worker, s.ui, x) <= Holders(s.jobs, s.worker, s.ui, x) {}
  }

  lemma FailAllFrame(s: State, ids: seq<Id>)
    ensures var t := FailAll(s, ids);
            && t == s.(book := t.book, fate := t.fate)
            && t.book == s.book.(ending := t.book.ending)
            && (forall x :: x in t.book.ending <==> x in s.book.ending && x !in ids)
            && (forall x :: x in t.fate <==> x in s.fate || x in ids)
            && (forall x :: x in s.fate && x !in ids ==> t.fate[x] == s.fate[x])
            && (forall x :: x in ids ==> t.fate[x] == (if x in s.fate && s.fate[x] == Confirmed then Confirmed else NoToken))
    decreases |ids|
  {
    if ids != [] {
      FailAllFrame(s.(book := FinishEnd(s.book, ids[0], Failed), fate := Settle(s.fate, ids[0], NoToken)), ids[1..]);
    }
  }

  lemma TakenBook(b: Book, issued: set<Id>)
    requires BookOk(b, issued) && b.handedOut == []
    ensures var (c, ids) := TakeForShutdown(b);
            && BookOk(c, issued) && Distinct(ids) && c.openId == NO_ID && c.retry == [] && c.ended == b.ended
            && (forall x :: x in ids <==> x in c.ending)
            && (forall x :: x in ids ==> x in issued && x !in b.ended)
            && (forall x :: x in b.retry || x in b.ending || (x == b.openId && x != NO_ID) ==> x in ids)
  {
  }

  lemma TakeConserves(s: State)
    requires Conserves(s) && EnabledShutdown(s, ShutdownTake(true))
    ensures Conserves(DoTake(s, true))
  {
    var t, ids := DoTake(s, true), TakeForShutdown(s.book).1;
    TakenBook(s.book, s.issued);
    assert ids == [] ==> forall x :: x !in ids;
    assert ShutdownOk(t.shutdown, t.jobs, t.worker, t.book, t.fate, t.issued);
    assert AllTracked(t);
  }

  lemma TakeWithoutTokenConserves(s: State)
    requires Conserves(s) && EnabledShutdown(s, ShutdownTake(false)) && TakeForShutdown(s.book).1 != []
    ensures Conserves(DoTake(s, false))
  {
    hide TakeForShutdown, FailAll;
    var t := DoTake(s, false);
    var (b, ids) := TakeForShutdown(s.book);
    TakenBook(s.book, s.issued);
    FailAllFrame(s.(book := b), ids);
    assert forall x :: x !in t.book.ending;
    assert FateOk(t.book, t.fate, t.confirmed);
    assert AllTracked(t);
  }

  lemma ShutdownReplyShutdownOk(s: State, outcome: EndOutcome)
    requires EnabledShutdown(s, ShutdownReply(outcome)) && BookOk(s.book, s.issued)
    requires ShutdownOk(s.shutdown, s.jobs, s.worker, s.book, s.fate, s.issued)
    ensures var t := DoShutdownReply(s, outcome);
            ShutdownOk(t.shutdown, t.jobs, t.worker, t.book, t.fate, t.issued)
  {
    var t, todo := DoShutdownReply(s, outcome), s.shutdown.todo;
    assert todo == [todo[0]] + todo[1..];
    assert ShutdownTodo(t.shutdown) == todo[1..];
    assert todo[0] !in todo[1..];
  }

  lemma ShutdownReplyConserves(s: State, outcome: EndOutcome)
    requires Conserves(s) && EnabledShutdown(s, ShutdownReply(outcome))
    ensures Conserves(DoShutdownReply(s, outcome))
  {
    var t, todo := DoShutdownReply(s, outcome), s.shutdown.todo;
    ShutdownReplyShutdownOk(s, outcome);
    SettleKeeps(s.book, s.issued, s.fate, s.confirmed, todo[0], outcome,
                match outcome case Ended => Confirmed case Failed => Refused case Cancelled => FinalCutOff);
    assert forall x :: x in todo <==> x == todo[0] || x in ShutdownTodo(t.shutdown);
    assert AllTracked(t);
  }
}
