/** Who may adopt a start result: the invariants of the request / result / adoption path, and the main
    theorems of the session protocol over all runs. */
module SessionAdoption {
  import OutputStates
  import opened SessionBook
  import opened SessionProtocol

  predicate WorkerStarts(w: Worker) {
    w.Claiming? || w.Stale? || w.StaleFlight? || w.Starting? || w.Started?
  }

  predicate NoStart(jobs: seq<Job>, e: Endpoint) {
    forall i :: 0 <= i < |jobs| && jobs[i].StartJob? ==> jobs[i].e != e
  }

  /** FIFO order of requests: once the newest request of an endpoint is at some stage, none of its
      requests is left behind it. */
  ghost predicate RequestsOk(cs: map<Endpoint, Controller>, next: nat, ui: Ui, jobs: seq<Job>, w: Worker, posts: seq<Post>) {
    && (forall e: Endpoint :: Ctl(cs, e).tok < next)
    && (forall i :: 0 <= i < |jobs| && jobs[i].StartJob? ==> jobs[i].tok < next)
    && (WorkerStarts(w) ==> w.tok < next)
    && (forall k :: 0 <= k < |posts| && posts[k].id != NO_ID ==> posts[k].tok < next)
    && (forall i, j :: 0 <= i < j < |jobs| && jobs[i].StartJob? && jobs[j].StartJob? && jobs[i].e == jobs[j].e ==>
          !Current(cs, jobs[i].e, jobs[i].tok))
    && (WorkerStarts(w) && Current(cs, w.e, w.tok) ==> NoStart(jobs, w.e))
    && (forall k :: 0 <= k < |posts| && posts[k].id != NO_ID && Current(cs, posts[k].e, posts[k].tok) ==>
          NoStart(jobs, posts[k].e) && !(WorkerStarts(w) && w.e == posts[k].e))
    && (ui.Asking? ==>
          && Current(cs, ui.e, ui.tok)
          && (forall i :: 0 <= i < |jobs| && jobs[i].StartJob? && jobs[i].e == ui.e ==> jobs[i].tok != ui.tok)
          && (WorkerStarts(w) && w.e == ui.e ==> w.tok != ui.tok)
          && (forall k :: 0 <= k < |posts| && posts[k].id != NO_ID && posts[k].e == ui.e ==> posts[k].tok != ui.tok))
    && (ui.Releasing? ==> !Ctl(cs, ui.e).pending)
  }

  predicate InPosts(posts: seq<Post>, id: Id) {
    !forall k :: 0 <= k < |posts| ==> posts[k].id != id
  }

  /** A delivered id travels worker, UI queue, then adopted or released: at one place at a time. */
  ghost predicate HandoverOk(adopted: set<Id>, delivered: set<Id>, posts: seq<Post>, w: Worker, ui: Ui) {
    && adopted <= delivered && NO_ID !in delivered
    && (forall k :: 0 <= k < |posts| && posts[k].id != NO_ID ==> posts[k].id in delivered && posts[k].id !in adopted)
    && (forall k, l :: 0 <= k < l < |posts| && posts[k].id != NO_ID ==> posts[k].id != posts[l].id)
    && (w.Started? ==> w.id in delivered && w.id !in adopted && !InPosts(posts, w.id))
    && (ui.Unadopted? ==>
          && ui.id in delivered && ui.id !in adopted && (w.Started? ==> w.id != ui.id)
          && !InPosts(posts, ui.id))
  }

  /** A result whose request still waits names the open session, owned by the requesting endpoint. */
  ghost predicate ResultsOk(cs: map<Endpoint, Controller>, posts: seq<Post>, w: Worker, id: Id, owner: Endpoint) {
    && (forall k :: 0 <= k < |posts| && posts[k].id != NO_ID && Current(cs, posts[k].e, posts[k].tok) ==>
          id == posts[k].id && owner == posts[k].e)
    && (w.Started? && Current(cs, w.e, w.tok) ==> id == w.id && owner == w.e)
  }

  ghost predicate Negotiates(s: State) {
    && RequestsOk(s.controllers, s.nextTok, s.ui, s.jobs, s.worker, s.posts)
    && HandoverOk(s.adopted, s.delivered, s.posts, s.worker, s.ui)
    && (Alive(s) ==> ResultsOk(s.controllers, s.posts, s.worker, s.book.openId, s.book.openOwner))
  }

  ghost predicate Inv(s: State) {
    Conserves(s) && Negotiates(s)
  }

  lemma Updated(cs: map<Endpoint, Controller>, cs': map<Endpoint, Controller>, e: Endpoint, c: Controller, next: nat)
    requires cs' == cs[e := c]
    requires forall x: Endpoint :: Ctl(cs, x).tok < next
    requires c.tok < next
    ensures forall x: Endpoint :: Ctl(cs', x) == (if x == e then c else Ctl(cs, x))
    ensures forall x: Endpoint :: Ctl(cs', x).tok < next
  {
  }

  /** Requests that stop waiting, a request with a new token and results that leave break nothing. */
  lemma ControllersChange(s: State, t: State)
    requires Negotiates(s)
    requires s.nextTok <= t.nextTok && t.jobs == s.jobs && t.worker == s.worker && t.posts == s.posts
    requires forall x: Endpoint :: Ctl(t.controllers, x).tok < t.nextTok
    requires forall x: Endpoint, tok: nat :: Current(t.controllers, x, tok) ==> Current(s.controllers, x, tok) || tok >= s.nextTok
    requires t.ui.Asking? ==> t.ui.tok >= s.nextTok && Current(t.controllers, t.ui.e, t.ui.tok)
    requires t.ui.Releasing? ==> !Ctl(t.controllers, t.ui.e).pending
    ensures RequestsOk(t.controllers, t.nextTok, t.ui, t.jobs, t.worker, t.posts)
    ensures Alive(s) ==> ResultsOk(t.controllers, t.posts, t.worker, s.book.openId, s.book.openOwner)
  {
  }

  lemma FailedPost(s: State, e: Endpoint, tok: nat)
    requires Negotiates(s)
    ensures Negotiates(Fail(s, e, tok))
  {
    var t := Fail(s, e, tok);
    assert forall k :: 0 <= k < |t.posts| ==> t.posts[k] == if k < |s.posts| then s.posts[k] else Post(e, tok, NO_ID);
  }

  lemma Requested(s: State, e: Endpoint, c: Controller)
    requires Negotiates(s) && s.ui.Free? && c.pending && c.tok == s.nextTok
    ensures Negotiates(SetCtl(s, e, c).(nextTok := s.nextTok + 1))
    ensures Negotiates(SetCtl(s, e, c).(nextTok := s.nextTok + 1, ui := Asking(e, s.nextTok)))
  {
    var t := SetCtl(s, e, c).(nextTok := s.nextTok + 1);
    assert forall x: Endpoint :: Ctl(s.controllers, x).tok < s.nextTok;
    Updated(s.controllers, t.controllers, e, c, t.nextTok);
    ControllersChange(s, t);
    ControllersChange(s, t.(ui := Asking(e, s.nextTok)));
  }

  lemma StartNegotiates(s: State, e: Endpoint)
    requires Negotiates(s) && EnabledUi(s, UiStart(e))
    ensures Negotiates(DoStart(s, e))
  {
    hide Negotiates;
    var c := Ctl(s.controllers, e).(state := OutputStates.Starting, pending := true, tok := s.nextTok);
    Requested(s, e, c);
    if BusyWith(s.book, e) != "" {
      FailedPost(SetCtl(s, e, c).(nextTok := s.nextTok + 1), e, s.nextTok);
    }
  }

  lemma EndQueued(cs: map<Endpoint, Controller>, next: nat, ui: Ui, jobs: seq<Job>, w: Worker, posts: seq<Post>, id: Id)
    requires RequestsOk(cs, next, ui, jobs, w, posts) && ui.Queueing?
    ensures RequestsOk(cs, next, Free, jobs + [EndJob(id)], w, posts)
  {
  }

  lemma StartQueued(cs: map<Endpoint, Controller>, next: nat, ui: Ui, jobs: seq<Job>, w: Worker, posts: seq<Post>)
    requires RequestsOk(cs, next, ui, jobs, w, posts) && ui.Asking?
    ensures RequestsOk(cs, next, Free, jobs + [StartJob(ui.e, ui.tok)], w, posts)
  {
    assert forall i :: 0 <= i < |jobs| && jobs[i].StartJob? && jobs[i].e == ui.e ==> !Current(cs, ui.e, jobs[i].tok);
  }

  lemma AskNegotiates(s: State, token: bool)
    requires Negotiates(s) && s.ui.Asking?
    ensures Negotiates(DoAsk(s, token))
  {
    StartQueued(s.controllers, s.nextTok, s.ui, s.jobs, s.worker, s.posts);
    FailedPost(s.(ui := Free), s.ui.e, s.ui.tok);
  }

  lemma StopNegotiates(s: State, e: Endpoint)
    requires Negotiates(s) && s.ui.Free?
    ensures Negotiates(DoStop(s, e))
  {
    var c := Ctl(s.controllers, e).(state := OutputStates.Idle, pending := false, provider := false);
    Updated(s.controllers, s.controllers[e := c], e, c, s.nextTok);
    ControllersChange(s, DoStop(s, e));
  }

  lemma ReleaseNegotiates(s: State)
    requires Negotiates(s) && s.ui.Releasing?
    ensures Negotiates(DoRelease(s))
  {
  }

  lemma PostLeaves(s: State)
    requires Negotiates(s) && s.posts != [] && s.ui.Free?
    ensures Negotiates(s.(posts := s.posts[1..]))
    ensures var id := s.posts[0].id;
            id != NO_ID ==>
              && HandoverOk(s.adopted, s.delivered, s.posts[1..], s.worker, Unadopted(id))
              && HandoverOk(s.adopted + {id}, s.delivered, s.posts[1..], s.worker, Free)
  {
    assert forall k :: 0 <= k < |s.posts[1..]| ==> s.posts[1..][k] == s.posts[k + 1];
  }

  lemma DeliverNegotiates(s: State, started: bool)
    requires Negotiates(s) && EnabledUi(s, UiDeliver(started))
    ensures Negotiates(DoDeliver(s, started))
  {
    var p, t := s.posts[0], DoDeliver(s, started);
    var u := s.(posts := s.posts[1..]);
    PostLeaves(s);
    var c := Ctl(t.controllers, p.e);
    if t.controllers != s.controllers {
      Updated(u.controllers, t.controllers, p.e, c, s.nextTok);
      ControllersChange(u, t);
    }
  }

  lemma UnadoptedNegotiates(s: State)
    requires Negotiates(s) && s.ui.Unadopted?
    ensures Negotiates(DoUnadopted(s))
  {
  }

  lemma QueueNegotiates(s: State, token: bool)
    requires Negotiates(s) && s.ui.Queueing?
    ensures Negotiates(DoQueue(s, token))
  {
    EndQueued(s.controllers, s.nextTok, s.ui, s.jobs, s.worker, s.posts, s.ui.id);
  }

  lemma SignalNegotiates(s: State, e: Endpoint, to: OutputStates.OutputState)
    requires Negotiates(s)
    ensures Negotiates(SetCtl(s, e, Ctl(s.controllers, e).(state := to)))
  {
    var c := Ctl(s.controllers, e).(state := to);
    Updated(s.controllers, s.controllers[e := c], e, c, s.nextTok);
  }

  lemma PopNegotiates(s: State)
    requires Negotiates(s) && EnabledWorker(s, WorkerPop)
    ensures Negotiates(DoPop(s))
  {
  }

  /** The worker moves on inside its job, without a new session. */
  lemma WorkerAdvances(s: State, w: Worker)
    requires Negotiates(s) && !w.Started?
    requires WorkerStarts(w) ==> WorkerStarts(s.worker) && w.e == s.worker.e && w.tok == s.worker.tok
    ensures Negotiates(s.(worker := w))
  {
  }

  lemma ClaimNegotiates(s: State)
    requires Negotiates(s) && s.worker.Claiming?
    ensures Negotiates(DoClaim(s))
  {
    var t := DoClaim(s);
    WorkerAdvances(s, t.worker);
    if BusyWith(s.book, s.worker.e) != "" {
      FailedPost(s.(worker := Idle), s.worker.e, s.worker.tok);
    }
  }

  lemma NextStaleNegotiates(s: State)
    requires Negotiates(s) && s.worker.Stale?
    ensures Negotiates(DoNextStale(s))
  {
    WorkerAdvances(s, DoNextStale(s).worker);
  }

  lemma EndReplyNegotiates(s: State, outcome: EndOutcome)
    requires Negotiates(s) && EnabledWorker(s, WorkerEndReply(outcome))
    ensures Negotiates(DoEndReply(s, outcome))
  {
    WorkerAdvances(s, DoEndReply(s, outcome).worker);
  }

  lemma FreshHandover(adopted: set<Id>, delivered: set<Id>, posts: seq<Post>, w: Worker, ui: Ui, e: Endpoint, tok: nat, id: Id)
    requires HandoverOk(adopted, delivered, posts, w, ui) && id !in delivered && id != NO_ID
    ensures HandoverOk(adopted, delivered + {id}, posts, Started(e, tok, id), ui)
  {
  }

  lemma StartReplyNegotiates(s: State, id: Id, name: string)
    requires Negotiates(s) && EnabledWorker(s, WorkerStartReply(id, name)) && s.delivered <= s.issued
    requires s.book.openId == NO_ID
    ensures Negotiates(DoStartReply(s, id, name))
  {
    if id != NO_ID {
      FreshHandover(s.adopted, s.delivered, s.posts, s.worker, s.ui, s.worker.e, s.worker.tok, id);
    }
  }

  lemma HandOverNegotiates(s: State, written: bool)
    requires Negotiates(s) && s.worker.Started?
    ensures Negotiates(DoHandOver(s, written))
  {
  }

  lemma ShutdownNegotiates(s: State, ev: ShutdownEvent)
    requires Negotiates(s) && EnabledShutdown(s, ev)
    ensures Negotiates(ApplyShutdown(s, ev))
  {
    if ev.ShutdownTake? {
      var (b, ids) := TakeForShutdown(s.book);
      FailAllFrame(s.(book := b), ids);
    }
  }

  // ----- every run -----

  /** Controllers, the UI queue and the adoption record play no part in the conservation of ids. */
  lemma FrameConserves(s: State, t: State)
    requires Conserves(s) && (t.ui == s.ui || (!s.ui.Queueing? && !t.ui.Queueing?))
    requires t == s.(controllers := t.controllers, posts := t.posts, ui := t.ui, nextTok := t.nextTok, adopted := t.adopted)
    ensures Conserves(t)
  {
    SameClaims(s.jobs, s.worker, s.worker, s.ui, t.ui, s.book.ending, Taken(s.shutdown));
  }

  lemma UiPreserves(s: State, ev: UiEvent)
    requires Inv(s) && EnabledUi(s, ev)
    ensures Inv(ApplyUi(s, ev))
  {
    hide Conserves, Negotiates;
    match ev
    case UiStart(e) => StartNegotiates(s, e); FrameConserves(s, DoStart(s, e));
    case UiAsk(token) => AskNegotiates(s, token); AskConserves(s, token);
    case UiStop(e) => StopNegotiates(s, e); FrameConserves(s, DoStop(s, e));
    case UiDeliver(started) => DeliverNegotiates(s, started); FrameConserves(s, DoDeliver(s, started));
    case UiRelease => ReleaseNegotiates(s); ReleaseConserves(s);
    case UiUnadopted => UnadoptedNegotiates(s); UnadoptedConserves(s);
    case UiQueue(token) =>
      QueueNegotiates(s, token);
      if token { QueueConserves(s); } else { QueueWithoutTokenConserves(s); }
  }

  lemma WorkerPreserves(s: State, ev: WorkerEvent)
    requires Inv(s) && EnabledWorker(s, ev)
    ensures Inv(ApplyWorker(s, ev))
  {
    hide RequestsOk, ResultsOk, ClaimsOk, FateOk;
    match ev
    case WorkerPop => PopNegotiates(s); PopConserves(s);
    case WorkerExit => WorkerAdvances(s, Exited); ExitConserves(s);
    case WorkerClaim => ClaimNegotiates(s); ClaimConserves(s);
    case WorkerNextStale => NextStaleNegotiates(s); NextStaleConserves(s);
    case WorkerEndReply(o) => EndReplyNegotiates(s, o); EndReplyConserves(s, o);
    case WorkerStartReply(id, name) => StartReplyNegotiates(s, id, name); StartReplyConserves(s, id, name);
    case WorkerHandOver(w) => HandOverNegotiates(s, w); HandOverConserves(s, w);
  }

  lemma QuietConserves(s: State)
    requires Conserves(s) && s.shutdown.Flagged?
    ensures Conserves(s.(shutdown := Quiet))
  {
    hide BookOk, FateOk;
  }

  lemma CancelConserves(s: State)
    requires Conserves(s) && s.shutdown.Quiet?
    ensures Conserves(s.(slotCancelled := true))
  {
    hide BookOk, FateOk, ClaimsOk;
  }

  lemma ShutdownPreserves(s: State, ev: ShutdownEvent)
    requires Inv(s) && EnabledShutdown(s, ev)
    ensures Inv(ApplyShutdown(s, ev))
  {
    hide Conserves, Negotiates, TakeForShutdown;
    ShutdownNegotiates(s, ev);
    match ev
    case ShutdownFlag => FlagConserves(s);
    case ShutdownQuiet => QuietConserves(s);
    case ShutdownCancel => CancelConserves(s);
    case ShutdownTake(token) =>
      if token || TakeForShutdown(s.book).1 == [] { TakeConserves(s); } else { TakeWithoutTokenConserves(s); }
    case ShutdownReply(o) => ShutdownReplyConserves(s, o);
  }

  lemma Preserved(s: State, ev: Event)
    requires Inv(s) && Enabled(s, ev)
    ensures Inv(Apply(s, ev))
  {
    hide Conserves, Negotiates;
    match ev
    case OnUi(u) => UiPreserves(s, u);
    case OnWorker(w) => WorkerPreserves(s, w);
    case OnShutdown(d) => ShutdownPreserves(s, d);
    case OnSignal(e, to) =>
      SignalNegotiates(s, e, to);
      FrameConserves(s, SetCtl(s, e, Ctl(s.controllers, e).(state := to)));
  }

  lemma {:induction false} RunPreserves(s: State, evs: seq<Event>, t: State)
    requires Inv(s) && Runs(s, evs, t)
    ensures Inv(t)
    decreases |evs|
  {
    if evs != [] {
      Preserved(s, evs[0]);
      RunPreserves(Apply(s, evs[0]), evs[1..], t);
    }
  }

  lemma InitInv(s: State)
    requires Init(s)
    ensures Inv(s)
  {
  }

  lemma ReachableInv(t: State)
    requires Reachable(t)
    ensures Inv(t)
  {
    hide Inv, Init;
    var s, evs :| Init(s) && Runs(s, evs, t);
    InitInv(s);
    RunPreserves(s, evs, t);
  }

  // ----- main theorems -----

  /** Who can still send an end request for `id`: a queued job, the worker's running request, a UI call about to queue one
      (it queues nothing once the shutdown has begun), and the shutdown's own list. */
  function Enders(s: State, id: Id): nat {
    multiset(s.jobs)[EndJob(id)] + (if InFlight(s.worker, id) then 1 else 0)
    + (if s.ui == Queueing(id) && s.shutdown.Off? then 1 else 0) + multiset(ShutdownTodo(s.shutdown))[id]
  }

  lemma {:induction false} AtMostOnceIn(s: seq<Id>, id: Id)
    requires Distinct(s)
    ensures multiset(s)[id] <= 1
    decreases |s|
  {
    if s != [] {
      assert s == [s[0]] + s[1..];
      AtMostOnceIn(s[1..], id);
      if s[0] == id {
        assert id !in s[1..];
      }
    }
  }

  lemma OneEnder(s: State, id: Id)
    requires Inv(s)
    ensures Enders(s, id) <= 1 && (Enders(s, id) == 1 ==> id !in s.confirmed)
  {
    hide Negotiates, AllTracked;
    AtMostOnceIn(ShutdownTodo(s.shutdown), id);
    assert Holders(s.jobs, s.worker, s.ui, id) <= 1;
  }

  /** In every interleaving the server confirms the end of an id at most once, and at most one queued call, queued job,
      running request or entry of the shutdown's list can end it; what can still be ended was not confirmed before. */
  lemma EndedAtMostOnce(t: State)
    requires Reachable(t)
    ensures Distinct(t.confirmed)
    ensures forall id :: Enders(t, id) <= 1
    ensures forall id :: Enders(t, id) == 1 ==> id !in t.confirmed
    ensures forall id :: InFlight(t.worker, id) || id in ShutdownTodo(t.shutdown) ==> id !in t.confirmed
  {
    hide Negotiates, AllTracked;
    ReachableInv(t);
    forall id ensures Enders(t, id) <= 1 && (Enders(t, id) == 1 ==> id !in t.confirmed) {
      OneEnder(t, id);
    }
    forall id | InFlight(t.worker, id) || id in ShutdownTodo(t.shutdown) ensures id !in t.confirmed {
      assert Enders(t, id) == 1;
    }
  }

  /** When shutdown_and_end_blocking has returned, every id a start reply delivered was confirmed ended, or its
      last end attempt was answered with a refusal, had no token, or was the shutdown's own attempt cut off at
      its bound.  None is left open, queued, claimed, or merely cut off by the cancelled worker. */
  lemma ShutdownLosesNothing(t: State, d: Id)
    requires Reachable(t) && t.shutdown.Done? && d in t.delivered
    ensures d in t.fate && t.fate[d] != CutOff
    ensures t.fate[d] == Confirmed <==> d in t.confirmed
    ensures t.book.openId == NO_ID && d !in t.book.ending && t.jobs == [] && t.worker.Exited?
  {
    ReachableInv(t);
  }

  /** A start result is adopted only while it is the book's open session and owned by the adopting endpoint. */
  lemma AdoptedIsOpen(s: State)
    requires Reachable(s) && s.ui.Free? && s.posts != [] && Adopts(s)
    ensures s.book.openId == s.posts[0].id && s.book.openOwner == s.posts[0].e
    ensures s.posts[0].id !in s.adopted && s.posts[0].id !in s.confirmed
  {
    ReachableInv(s);
  }

  lemma LateStep(s: State, ev: Event, e: Endpoint, tok: nat)
    requires Enabled(s, ev) && tok < s.nextTok && !Current(s.controllers, e, tok)
    ensures var t := Apply(s, ev); tok < t.nextTok && !Current(t.controllers, e, tok)
  {
    match ev
    case OnUi(u) => LateUiStep(s, u, e, tok);
    case OnShutdown(d) =>
      if d.ShutdownTake? {
        FailAllFrame(s.(book := TakeForShutdown(s.book).0), TakeForShutdown(s.book).1);
      }
    case _ =>
  }

  lemma LateUiStep(s: State, ev: UiEvent, e: Endpoint, tok: nat)
    requires EnabledUi(s, ev) && tok < s.nextTok && !Current(s.controllers, e, tok)
    ensures var t := ApplyUi(s, ev); tok < t.nextTok && !Current(t.controllers, e, tok)
  {
  }

  /** Once a request was stopped or replaced by a newer start, no later state of any run adopts its result. */
  lemma {:induction false} LateResultNeverAdopted(s: State, evs: seq<Event>, t: State, e: Endpoint, tok: nat)
    requires tok < s.nextTok && !Current(s.controllers, e, tok) && Runs(s, evs, t)
    ensures t.posts != [] && t.posts[0].e == e && t.posts[0].tok == tok ==> !Adopts(t)
    decreases |evs|
  {
    if evs != [] {
      LateStep(s, evs[0], e, tok);
      LateResultNeverAdopted(Apply(s, evs[0]), evs[1..], t, e, tok);
    }
  }

  predicate ClosesOpen(s: State, ev: Event) {
    || (ev == OnUi(UiRelease) && s.ui == Releasing(s.book.openOwner))
    || (ev == OnWorker(WorkerClaim) && s.worker.Claiming? && s.worker.e == s.book.openOwner)
    || (ev.OnShutdown? && ev.d.ShutdownTake?)
  }

  lemma UiCloses(s: State, ev: UiEvent)
    requires EnabledUi(s, ev) && s.book.openId != NO_ID && s.book.openId in s.adopted
    requires s.ui.Unadopted? ==> s.ui.id !in s.adopted
    requires ApplyUi(s, ev).book.openId != s.book.openId
    ensures ClosesOpen(s, OnUi(ev))
  {
  }

  lemma WorkerCloses(s: State, ev: WorkerEvent)
    requires EnabledWorker(s, ev) && s.book.openId != NO_ID
    requires WorkOk(s.worker, s.file, s.book.openId, s.ui, s.issued)
    requires ApplyWorker(s, ev).book.openId != s.book.openId
    ensures ClosesOpen(s, OnWorker(ev))
  {
  }

  /** An adopted session is closed only by a stop of its own endpoint, a new start of its own endpoint, or the
      shutdown: releasing a rejected result never touches it. */
  lemma AdoptedStaysOpen(s: State, ev: Event)
    requires Reachable(s) && Enabled(s, ev)
    requires s.book.openId != NO_ID && s.book.openId in s.adopted
    requires Apply(s, ev).book.openId != s.book.openId
    ensures ClosesOpen(s, ev)
  {
    hide Reachable, ClaimsOk, BookOk, FateOk, AllTracked, RequestsOk, ResultsOk, ApplyUi, ApplyWorker;
    ReachableInv(s);
    match ev
    case OnUi(u) => UiCloses(s, u);
    case OnWorker(w) => WorkerCloses(s, w);
    case _ =>
  }
}
