/** What the calls of the protocol bring about: a stop ends the endpoint's session, a start opens one. */
module SessionCalls {
  import OutputStates
  import opened SessionAdoption
  import opened SessionBook
  import opened SessionProtocol

  // ----- the book -----

  /** A start by `owner`, then a release for `e`: the id comes back exactly if `e` is the owner, and then nothing is open
      and the end of the id is claimed, once; any other release leaves the book alone. */
  lemma ReleaseAfterStart(b: Book, id: Id, owner: Endpoint, name: string, e: Endpoint)
    requires id != NO_ID
    ensures var c := OnStarted(b, id, owner, name);
            var (d, got) := ReleaseOwner(c, e);
            && c.openId == id && BusyWith(c, e) == (if e == owner then "" else if name == "" then "another endpoint" else name)
            && got == (if e == owner then id else NO_ID)
            && (e != owner ==> d == c)
            && (e == owner ==>
                  && d.openId == NO_ID && d.openOwner == 0 && d.openName == "" && BusyWith(d, e) == "" && !BeginEnd(d, id).1 && ReleaseOwner(d, e) == (d, NO_ID)
                  && (forall x :: x in d.ending <==> x in b.ending || x == id) && b.ending <= d.ending
                  && d.retry == b.retry && d.ended == b.ended && d.handedOut == b.handedOut)
  {
  }

  /** Nothing open, nothing to release. */
  lemma NothingToRelease(b: Book, e: Endpoint)
    requires b.openId == NO_ID
    ensures ReleaseOwner(b, e) == (b, NO_ID)
  {
  }

  // ----- who is known to stream from the open session -----

  /** The owner of an adopted session has its provider fields, or is just giving the session back. */
  predicate OwnerKnows(s: State) {
    s.shutdown.Off? && s.book.openId != NO_ID && s.book.openId in s.adopted ==>
      Ctl(s.controllers, s.book.openOwner).provider || s.ui == Releasing(s.book.openOwner)
  }

  lemma UiKnows(s: State, ev: UiEvent)
    requires Inv(s) && OwnerKnows(s) && EnabledUi(s, ev)
    ensures OwnerKnows(ApplyUi(s, ev))
  {
    hide Conserves, RequestsOk, HandoverOk;
  }

  lemma WorkerKnows(s: State, ev: WorkerEvent)
    requires Inv(s) && OwnerKnows(s) && EnabledWorker(s, ev)
    ensures OwnerKnows(ApplyWorker(s, ev))
  {
    hide RequestsOk, ResultsOk, ClaimsOk, BookOk, WorkOk, ShutdownOk, FateOk, Tracked;
  }

  lemma Knows(s: State, ev: Event)
    requires Inv(s) && OwnerKnows(s) && Enabled(s, ev)
    ensures OwnerKnows(Apply(s, ev))
  {
    hide Inv, ApplyUi, ApplyWorker, TakeForShutdown, FailAll;
    match ev
    case OnUi(u) => UiKnows(s, u);
    case OnWorker(w) => WorkerKnows(s, w);
    case OnSignal(e, to) =>
    case OnShutdown(d) =>
  }

  lemma {:induction false} RunKnows(s: State, evs: seq<Event>, t: State)
    requires Inv(s) && OwnerKnows(s) && Runs(s, evs, t)
    ensures OwnerKnows(t)
    decreases |evs|
  {
    hide Inv, OwnerKnows, Apply;
    if evs != [] {
      Preserved(s, evs[0]);
      Knows(s, evs[0]);
      RunKnows(Apply(s, evs[0]), evs[1..], t);
    }
  }

  lemma ReachableKnows(t: State)
    requires Reachable(t)
    ensures OwnerKnows(t)
  {
    hide Inv, Runs;
    var s, evs :| Init(s) && Runs(s, evs, t);
    InitInv(s);
    RunKnows(s, evs, t);
  }

  // ----- a stop -----

  /** A stop of the endpoint that streams: the session is closed, its end is claimed by this call, and with a token it is
      the next job; the server's answer settles it. */
  lemma StopEndsSession(s: State)
    requires Reachable(s) && s.shutdown.Off? && s.ui.Free? && s.book.openId != NO_ID && s.book.openId in s.adopted
    ensures var id, e := s.book.openId, s.book.openOwner;
            var t := ApplyUi(s, UiStop(e));
            && Ctl(t.controllers, e).state == OutputStates.Idle && !Ctl(t.controllers, e).provider && EnabledUi(t, UiRelease)
            && var u := ApplyUi(t, UiRelease);
               && u.book.openId == NO_ID && u.ui == Queueing(id) && id in u.book.ending
               && ApplyUi(u, UiQueue(true)).jobs == s.jobs + [EndJob(id)] && ApplyUi(u, UiQueue(true)).ui == Free
  {
    hide Reachable;
    ReachableKnows(s);
  }

  /** However the worker ran between the two halves of a stop, the endpoint owns no open session after the second, and if one
      was open its end is about to be queued. */
  lemma ReleaseEndsSession(s: State)
    requires Reachable(s) && s.shutdown.Off? && s.ui.Releasing?
    ensures var id, e := s.book.openId, s.ui.e;
            var t := ApplyUi(s, UiRelease);
            && (t.book.openId != NO_ID ==> t.book.openOwner != e && t.book == s.book)
            && (if id != NO_ID && s.book.openOwner == e then t.ui == Queueing(id) && id in t.book.ending && id !in s.book.ending
                else t.ui == Free && t.book == s.book)
  {
    ReachableInv(s);
  }

  /** A queued end at the head of the jobs is sent by the worker, and the server's answer decides: confirmed for good, refused
      and open to a later try, or cut off and left to the shutdown. */
  lemma QueuedEndIsSent(s: State, o: EndOutcome)
    requires Reachable(s) && s.shutdown.Off? && s.worker.Idle? && s.jobs != [] && s.jobs[0].EndJob? && (o == Cancelled ==> s.slotCancelled)
    ensures var id, t := s.jobs[0].id, ApplyWorker(s, WorkerPop);
            && EnabledWorker(s, WorkerPop) && EnabledWorker(t, WorkerEndReply(o))
            && var u := ApplyWorker(t, WorkerEndReply(o));
               && u.worker.Idle? && u.jobs == s.jobs[1..] && id !in u.book.ending && id !in s.confirmed
               && match o
                  case Ended => u.confirmed == s.confirmed + [id] && id in u.book.ended && u.fate[id] == Confirmed && u.file != id
                  case Failed => u.confirmed == s.confirmed && u.fate[id] == Refused && BeginEnd(u.book, id).1 && u.file == s.file
                  case Cancelled => u.confirmed == s.confirmed && u.fate[id] == CutOff && id in u.book.retry && u.file == s.file
  {
    hide Negotiates, AllTracked, ShutdownOk;
    ReachableInv(s);
    var id := s.jobs[0].id;
    assert Holders(s.jobs, s.worker, s.ui, id) == 1;
    IssuedIsNoBlank(s, id);
  }

  lemma IssuedIsNoBlank(s: State, id: Id)
    requires BookOk(s.book, s.issued) && id in s.book.ending
    ensures id != NO_ID && id !in s.book.ended
  {
  }

  // ----- a start -----

  lemma {:induction false} RunsOn(s: State, evs: seq<Event>, t: State, ev: Event)
    requires Runs(s, evs, t) && Enabled(t, ev)
    ensures Runs(s, evs + [ev], Apply(t, ev))
    decreases |evs|
  {
    hide Enabled, Apply;
    if evs == [] {
      assert (evs + [ev])[1..] == [];
    } else {
      RunsOn(Apply(s, evs[0]), evs[1..], t, ev);
      assert (evs + [ev])[1..] == evs[1..] + [ev];
    }
  }

  lemma Then(s: State, evs: seq<Event>, t: State, ev: Event) returns (more: seq<Event>, u: State)
    requires Runs(s, evs, t) && Enabled(t, ev)
    ensures u == Apply(t, ev) && more == evs + [ev] && Runs(s, more, u)
  {
    hide Enabled, Apply, Runs;
    u, more := Apply(t, ev), evs + [ev];
    RunsOn(s, evs, t, ev);
  }

  /** What the worker leaves alone while it ends the stale sessions. */
  predicate Aside(s: State, t: State) {
    t == s.(book := t.book, worker := t.worker, file := t.file, fate := t.fate, confirmed := t.confirmed)
    && t.book == s.book.(ending := t.book.ending, retry := t.book.retry, ended := t.book.ended)
  }

  /** Before it starts, the worker ends every stale session that nobody else is ending or has ended. */
  lemma {:induction false} StaleEnds(s: State, evs: seq<Event>, r: State) returns (more: seq<Event>, t: State)
    requires Runs(s, evs, r) && r.worker.Stale?
    ensures Runs(s, more, t) && Aside(r, t) && t.worker == Starting(r.worker.e, r.worker.tok)
    ensures forall x :: x in r.worker.todo && x != NO_ID && x !in r.book.ending ==> x in t.book.ended
    ensures forall x :: x in t.book.ending ==> x in r.book.ending
    ensures forall x :: x in r.book.ended ==> x in t.book.ended
    decreases |r.worker.todo|
  {
    hide Runs;
    more, t := Then(s, evs, r, OnWorker(WorkerNextStale));
    if r.worker.todo != [] {
      if t.worker.StaleFlight? {
        var e1, t1 := more, t;
        more, t := Then(s, e1, t1, OnWorker(WorkerEndReply(EndOutcome.Ended)));
      }
      var e2, t2 := more, t;
      more, t := StaleEnds(s, e2, t2);
    }
  }

  /** A start of an endpoint nobody is in the way of, nothing failing: the endpoint's old session and the one a crash left in
      the file are ended, and the new session is open, owned, adopted, written to the file, and the endpoint streams from it. */
  lemma StartOpensSession(s: State, e: Endpoint, id: Id, name: string) returns (evs: seq<Event>, t: State)
    requires Reachable(s) && s.shutdown.Off? && EnabledUi(s, UiStart(e)) && s.jobs == [] && s.posts == [] && s.worker.Idle?
    requires BusyWith(s.book, e) == "" && id != NO_ID && id !in s.issued
    ensures Runs(s, evs, t)
    ensures t.book.openId == id && t.book.openOwner == e && t.book.openName == name && t.file == id && id in t.adopted
    ensures t.ui.Free? && t.worker.Idle? && t.jobs == [] && t.posts == [] && Ctl(t.controllers, e).provider && !Ctl(t.controllers, e).pending
    ensures s.book.openId != NO_ID ==> s.book.openId in t.book.ended
    ensures s.file != NO_ID ==> s.file in t.book.ended || s.file in s.book.ending
  {
    hide Runs, Reachable;
    ReachableInv(s);
    NothingOpenIsEnding(s);
    assert Runs(s, [], s) by { RunsNowhere(s); }
    evs, t := Then(s, [], s, OnUi(UiStart(e)));
    evs, t := Then(s, evs, t, OnUi(UiAsk(true)));
    evs, t := Then(s, evs, t, OnWorker(WorkerPop));
    evs, t := Then(s, evs, t, OnWorker(WorkerClaim));
    var e1, t1 := evs, t;
    evs, t := StaleEnds(s, e1, t1);
    evs, t := StartArrives(s, evs, t, e, id, name);
  }

  lemma RunsNowhere(s: State)
    ensures Runs(s, [], s)
  {
  }

  lemma NothingOpenIsEnding(s: State)
    requires Inv(s)
    ensures s.book.openId != NO_ID ==> s.book.openId !in s.book.ending
  {
    hide Negotiates;
  }

  /** From the start request to the adoption. */
  lemma StartArrives(s: State, before: seq<Event>, r: State, e: Endpoint, id: Id, name: string) returns (evs: seq<Event>, t: State)
    requires Runs(s, before, r) && r.worker.Starting? && r.worker.e == e && id != NO_ID && id !in r.issued
    requires r.shutdown.Off? && r.ui.Free? && r.jobs == [] && r.posts == [] && Current(r.controllers, e, r.worker.tok)
    requires Ctl(r.controllers, e).state == OutputStates.Starting
    ensures Runs(s, evs, t)
    ensures t.book == r.book.(openId := id, openOwner := e, openName := name) && t.file == id && t.adopted == r.adopted + {id}
    ensures t.ui.Free? && t.worker.Idle? && t.jobs == [] && t.posts == [] && Ctl(t.controllers, e).provider && !Ctl(t.controllers, e).pending
  {
    hide Runs;
    evs, t := Then(s, before, r, OnWorker(WorkerStartReply(id, name)));
    evs, t := Then(s, evs, t, OnWorker(WorkerHandOver(true)));
    evs, t := Then(s, evs, t, OnUi(UiDeliver(true)));
  }

  /** While another endpoint's session is open a start fails: at once, or when its job is run. */
  lemma BusyStartFails(s: State, e: Endpoint)
    requires s.book.openId != NO_ID && s.book.openOwner != e
    ensures EnabledUi(s, UiStart(e)) ==>
              var t := ApplyUi(s, UiStart(e)); t.book == s.book && t.ui.Free? && t.posts == s.posts + [Post(e, s.nextTok, NO_ID)]
    ensures s.worker.Claiming? && s.worker.e == e ==>
              var t := ApplyWorker(s, WorkerClaim); t.book == s.book && t.worker.Idle? && t.posts == s.posts + [Post(e, s.worker.tok, NO_ID)]
  {
    assert BusyWith(s.book, e) != "";
  }

  /** A failure that arrives for the request the endpoint waits for leaves it failed; one that comes late changes nothing. */
  lemma FailureArrives(s: State)
    requires EnabledUi(s, UiDeliver(true)) && s.posts[0].id == NO_ID && Alive(s)
    ensures var p, t := s.posts[0], ApplyUi(s, UiDeliver(true));
            && t.posts == s.posts[1..] && t.book == s.book && t.ui.Free? && t.adopted == s.adopted
            && (if Current(s.controllers, p.e, p.tok) && Ctl(s.controllers, p.e).state == OutputStates.Starting
                then Ctl(t.controllers, p.e).state == OutputStates.FailedHard && !Ctl(t.controllers, p.e).pending
                else t.controllers == s.controllers)
  {
  }

  /** A session that arrives for nobody is ended, if it is still open; one that is not was ended or claimed by another step. */
  lemma RejectedSessionEnds(s: State, started: bool)
    requires Reachable(s) && s.shutdown.Off? && EnabledUi(s, UiDeliver(started)) && s.posts[0].id != NO_ID && !Adopts(s)
    ensures var id, t := s.posts[0].id, ApplyUi(s, UiDeliver(started));
            && t.ui == Unadopted(id) && t.book == s.book && t.posts == s.posts[1..] && t.adopted == s.adopted && t.controllers == s.controllers
            && var u := ApplyUi(t, UiUnadopted);
               if s.book.openId == id then u.book.openId == NO_ID && u.ui == Queueing(id) && id in u.book.ending
               else u.book == s.book && u.ui.Free?
  {
    hide Negotiates;
    ReachableInv(s);
  }

  /** A session whose output could not start is adopted and given back at once. */
  lemma FailedOutputEndsSession(s: State)
    requires Reachable(s) && s.shutdown.Off? && EnabledUi(s, UiDeliver(false)) && Adopts(s)
    ensures var p, t := s.posts[0], ApplyUi(s, UiDeliver(false));
            && Ctl(t.controllers, p.e).state == OutputStates.FailedHard && !Ctl(t.controllers, p.e).provider && t.ui == Releasing(p.e)
            && t.adopted == s.adopted + {p.id} && t.book == s.book && t.posts == s.posts[1..] && !Ctl(t.controllers, p.e).pending
            && ApplyUi(t, UiRelease).book.openId == NO_ID && ApplyUi(t, UiRelease).ui == Queueing(p.id)
  {
    AdoptedIsOpen(s);
  }

  // ----- the shutdown -----

  /** Once the shutdown has begun the calls end without a trace: nothing is released, closed or queued any more, as the
      shutdown ends what is left itself. */
  lemma CallsAfterShutdown(s: State)
    requires !s.shutdown.Off?
    ensures s.ui.Releasing? ==> ApplyUi(s, UiRelease) == s.(ui := Free)
    ensures s.ui.Unadopted? ==> ApplyUi(s, UiUnadopted) == s.(ui := Free)
    ensures s.ui.Queueing? ==> ApplyUi(s, UiQueue(true)) == s.(ui := Free)
    ensures s.ui.Asking? ==> ApplyUi(s, UiAsk(true)) == s.(ui := Free)
  {
  }

  /** With a token the shutdown sends an end for every id it was handed, one after the other, whatever the answers. */
  lemma {:induction false} ShutdownGoesOn(s: State, evs: seq<Event>, r: State, answers: seq<EndOutcome>) returns (more: seq<Event>, t: State)
    requires Runs(s, evs, r) && r.shutdown.Ending? && |answers| == |r.shutdown.todo| && answers != []
    requires Distinct(r.shutdown.todo) && forall x :: x in r.shutdown.todo ==> x !in r.fate || r.fate[x] != Confirmed
    ensures Runs(s, more, t) && t.shutdown.Done? && |t.confirmed| >= |r.confirmed|
    ensures forall k :: 0 <= k < |answers| ==>
              r.shutdown.todo[k] in t.fate && t.fate[r.shutdown.todo[k]] ==
                match answers[k] case Ended => Confirmed case Failed => Refused case Cancelled => FinalCutOff
    ensures forall x :: x !in r.shutdown.todo && x in r.fate ==> x in t.fate && t.fate[x] == r.fate[x]
    decreases |answers|
  {
    hide Runs;
    more, t := Then(s, evs, r, OnShutdown(ShutdownReply(answers[0])));
    if |answers| > 1 {
      var e1, t1 := more, t;
      assert t1.shutdown.todo == r.shutdown.todo[1..];
      more, t := ShutdownGoesOn(s, e1, t1, answers[1..]);
    }
  }
}
