/** That the end is always in reach: a thread told to stop can end by itself, the reaper can finish every queued job with
    nobody's help but the threads', and the shutdown call then leaves nothing behind and stays final. */
module OutputShutdown {
  import opened OutputCalls
  import opened OutputLifecycle
  import opened OutputOrder
  import opened OutputOwnership
  import opened OutputStates
  import opened OutputStops

  // ----- a thread that is to stop -----

  /** stop() raised the flag, or the thread's output is the session's no more. */
  predicate ToStop(s: State, t: Tid) {
    s.ctl.stopFlag || !Current(s, t)
  }

  /** The next step of its way out. */
  function WayOut(pc: Pc): ThreadEvent {
    match pc
    case Spawned => ThreadEnter
    case Candidate => ThreadEncode(false)
    case Ready => ThreadCommit(false)
    case Swapped => ThreadDropOld
    case Launching => ThreadLaunch(false)
    case _ => ThreadLeave
  }

  /** How many steps of its own it can still make. */
  function StepsOut(pc: Pc): nat {
    match pc
    case Finished => 0
    case Looping | Ready => 1
    case Spawned | Cleared | Candidate | Launching => 2
    case Swapped => 3
  }

  /** Nothing but this thread's place and what it holds itself has changed. */
  predicate Beside(s: State, u: State, t: Tid) {
    && u.ctl == s.ctl && u.reaper == s.reaper && u.objects == s.objects && Fld(u) == Fld(s)
    && u.threads.Keys == s.threads.Keys && forall x: Tid :: x in s.threads && x != t ==> u.threads[x] == s.threads[x]
  }

  lemma StepOut(s: State, t: Tid)
    requires Order(s) && Conserved(s) && t in s.threads && !s.threads[t].pc.Finished? && ToStop(s, t)
    ensures var ev := WayOut(s.threads[t].pc);
            && EnabledThread(s, t, ev)
            && var u := ApplyThread(s, t, ev);
               Beside(s, u, t) && ToStop(u, t) && StepsOut(u.threads[t].pc) < StepsOut(s.threads[t].pc)
  {
    hide Order, StoreOk, Drained, Drop, DropCandidate;
    LocalMoves(s.store, ThreadLocal(t));
    assert !s.threads[t].pc.Spawned?;
  }

  /** Whatever a thread that is to stop does next brings it closer to its end, at most three steps away; it creates no thread
      and takes nothing from the session. */
  lemma EveryStepOut(s: State, t: Tid, ev: ThreadEvent)
    requires Reachable(s) && EnabledThread(s, t, ev) && ToStop(s, t) && !s.threads[t].pc.Spawned?
    ensures var u := ApplyThread(s, t, ev);
            StepsOut(u.threads[t].pc) < StepsOut(s.threads[t].pc) <= 3 && u.threads.Keys == s.threads.Keys && Fld(u) == Fld(s)
  {
    hide Reachable, Drop, DropCandidate, Create, CreateEncoders;
    LocalMoves(s.store, ThreadLocal(t));
  }

  lemma {:induction false} ThreadEnds(s: State, evs: seq<Event>, r: State, t: Tid) returns (more: seq<Event>, u: State)
    requires Leads(s, evs, r) && (t in r.threads ==> ToStop(r, t))
    ensures Leads(s, evs + more, u) && Beside(r, u, t) && Th(u, t).pc.Finished?
    ensures |more| <= StepsOut(Th(r, t).pc) && forall ev :: ev in more ==> ev.OnThread? && ev.t == t
    decreases StepsOut(Th(r, t).pc)
  {
    hide Leads, Order, Conserved, ToStop;
    if Th(r, t).pc.Finished? {
      more, u := [], r;
      assert evs + more == evs;
    } else {
      LeadsKeep(s, evs, r);
      StepOut(r, t);
      var ev := OnThread(t, WayOut(r.threads[t].pc));
      var v := Then(s, evs, r, ev);
      more, u := ThreadEnds(s, evs + [ev], v, t);
      assert evs + [ev] + more == evs + ([ev] + more);
      more := [ev] + more;
    }
  }

  /** A thread that is to stop can end by at most three steps of its own, which start and create nothing and leave the
      session, the reaper and all other threads alone. */
  lemma StoppedThreadEnds(s: State, t: Tid) returns (evs: seq<Event>, u: State)
    requires WellReached(s) && t in s.threads && ToStop(s, t)
    ensures DisciplinedRun(s, evs, u) && |evs| <= 3 && forall ev :: ev in evs ==> ev.OnThread? && ev.t == t
    ensures Beside(s, u, t) && Th(u, t).pc.Finished?
  {
    hide Order, Conserved, WellReached, DisciplinedRun, Leads, ToStop, Beside;
    ReachedConserved(s);
    LeadsNowhere(s);
    evs, u := ThreadEnds(s, [], s, t);
    assert [] + evs == evs;
    LeadsRun(s, evs, u);
  }

  // ----- the reaper's line -----

  /** The thread a queued job is to join was handed to it; a shutdown call past its claim has marked the controller. */
  ghost predicate Handed(s: State) {
    && (forall k :: 0 <= k < |s.reaper.line| && (s.reaper.line[k].ShutdownClaimed? || s.reaper.line[k].ShutdownDisconnected?) ==>
          s.ctl.shutdownDone)
    && forall k :: 0 <= k < |s.reaper.line| && s.reaper.line[k].Teardown? && s.reaper.line[k].t != 0 ==>
      s.reaper.line[k].t in s.reaper.joinAt && s.reaper.joinAt[s.reaper.line[k].t] == s.reaper.head + k
  }

  lemma FieldIsNotHanded(s: State)
    requires Order(s)
    ensures s.ctl.reconnect !in s.reaper.joinAt
  {
    hide ObjectsOk, CapturedOk, SignalsOk, JobsOk;
  }

  lemma HandedStep(s: State, ev: Event)
    requires Order(s) && Handed(s) && Enabled(s, ev)
    ensures Handed(Apply(s, ev))
  {
    hide Order, Handed, ApplyThread, ApplyUi, ApplyReaper, EnabledUi, EnabledThread, EnabledReaper;
    match ev
    case OnUi(u) => UiHanded(s, u);
    case OnThread(t, e) => ThreadHanded(s, t, e);
    case OnReaper(w) => ReaperHanded(s, w);
    case OnSignal(g) => SignalHanded(s, g);
  }

  lemma SignalHanded(s: State, ev: SignalEvent)
    requires Handed(s)
    ensures Handed(ApplySignal(s, ev))
  {
  }

  lemma ThreadHanded(s: State, t: Tid, ev: ThreadEvent)
    requires Handed(s)
    ensures Handed(ApplyThread(s, t, ev))
  {
    hide Create, Drop, DropEncoders, MoveEncoders, CreateEncoders, DropCandidate, SwapCanvas, Current, Valid;
  }

  lemma UiHanded(s: State, ev: UiEvent)
    requires Order(s) && Handed(s)
    ensures Handed(ApplyUi(s, ev))
  {
    hide Order, Detach, Create, Drop, Publish, DropEncoders, MoveEncoders, CreateEncoders, DropCandidate;
    FieldIsNotHanded(s);
  }

  lemma ReaperHanded(s: State, ev: ReaperEvent)
    requires Order(s) && Handed(s) && EnabledReaper(s, ev)
    ensures Handed(ApplyReaper(s, ev))
  {
    hide Order, Detach, Drop;
    FieldIsNotHanded(s);
    if ev.ReaperDetach? {
      ShutdownAlone(s);
    }
  }

  lemma ShutdownAlone(s: State)
    requires Order(s) && s.reaper.line != [] && s.reaper.line[0].ShutdownDisconnected?
    ensures |s.reaper.line| == 1
  {
    hide ObjectsOk, ThreadsOk, CapturedOk, JobsOk;
  }

  lemma {:induction false} RunHanded(s: State, evs: seq<Event>, t: State)
    requires Order(s) && Handed(s) && DisciplinedRun(s, evs, t)
    ensures Handed(t)
    decreases |evs|
  {
    hide Order, Handed, Enabled, Apply, Disciplined;
    if evs != [] {
      HandedStep(s, evs[0]);
      KeepsOrder(s, evs[0]);
      RunHanded(Apply(s, evs[0]), evs[1..], t);
    }
  }

  lemma ReachedHanded(t: State)
    requires WellReached(t)
    ensures Handed(t)
  {
    hide DisciplinedRun, Order;
    var s, evs :| Init(s) && DisciplinedRun(s, evs, t);
    InitOrder(s);
    RunHanded(s, evs, t);
  }

  /** The thread of the head job is over, or is to stop. */
  lemma HeadThreadStops(s: State)
    requires Order(s) && Conserved(s) && Handed(s) && s.reaper.line != [] && s.reaper.line[0].Teardown?
    ensures var t := s.reaper.line[0].t;
            && (t in s.threads && !s.threads[t].pc.Finished? ==> ToStop(s, t))
            && (!s.reaper.stage.Waiting? ==> Th(s, t).pc.Finished?)
  {
    hide StoreOk, Drained, Order;
    var t := s.reaper.line[0].t;
    ThreadsOf(s);
    if t in s.threads && !s.threads[t].pc.Finished? {
      CurrentMeansSame(s, t);
    }
  }

  lemma ThreadsOf(s: State)
    requires Order(s) && Handed(s) && s.reaper.line != [] && s.reaper.line[0].Teardown?
    ensures var t := s.reaper.line[0].t;
            t in s.threads ==> t != s.ctl.reconnect && (!s.reaper.stage.Waiting? ==> s.threads[t].pc.Finished?)
  {
    hide ObjectsOk, CapturedOk, SignalsOk, JobsOk;
  }

  lemma LeadsHanded(s: State, evs: seq<Event>, t: State)
    requires Order(s) && Handed(s) && Leads(s, evs, t)
    ensures Order(t) && Conserved(t) && Handed(t)
  {
    hide Order, Conserved, Handed, DisciplinedRun;
    RunHanded(s, evs, t);
  }

  predicate ThreadsAndReaper(evs: seq<Event>) {
    forall ev :: ev in evs ==> ev.OnThread? || ev.OnReaper?
  }

  /** The job at the head, at whatever stage, comes to its end. */
  lemma TeardownEnds(s: State, evs: seq<Event>, r: State) returns (more: seq<Event>, u: State)
    requires Order(s) && Handed(s) && Leads(s, evs, r) && r.reaper.line != [] && r.reaper.line[0].Teardown?
    ensures Leads(s, evs + more, u) && ThreadsAndReaper(more)
    ensures u.reaper.line == r.reaper.line[1..] && u.ctl == r.ctl && Fld(u) == Fld(r)
  {
    hide Leads, Order, Conserved, Handed, ToStop;
    LeadsHanded(s, evs, r);
    HeadThreadStops(r);
    more, u := [], r;
    assert evs + more == evs;
    if r.reaper.stage.Waiting? {
      if r.reaper.line[0].t in r.threads && !r.threads[r.reaper.line[0].t].pc.Finished? {
        more, u := ThreadEnds(s, evs, r, r.reaper.line[0].t);
      }
      u := Then(s, evs + more, u, OnReaper(ReaperJoin));
      assert evs + more + [OnReaper(ReaperJoin)] == evs + (more + [OnReaper(ReaperJoin)]);
      more := more + [OnReaper(ReaperJoin)];
    }
    if u.reaper.stage.Joined? {
      u := Then(s, evs + more, u, OnReaper(ReaperForce));
      assert evs + more + [OnReaper(ReaperForce)] == evs + (more + [OnReaper(ReaperForce)]);
      more := more + [OnReaper(ReaperForce)];
    }
    var last;
    var before := u;
    last, u := JobEnds(s, evs + more, before);
    assert evs + more + last == evs + (more + last);
    more := more + last;
  }

  lemma ShutdownHead(r: State)
    requires Order(r) && Conserved(r) && Handed(r) && r.reaper.line != [] && !r.reaper.line[0].Teardown?
    ensures |r.reaper.line| == 1 && r.ctl.ui.Relinquished? && (r.reaper.line[0].ShutdownDisconnected? ==> !r.ctl.connected)
    ensures r.ctl.shutdownDone <==> !r.reaper.line[0].ShutdownNew?
  {
    hide ObjectsOk, ThreadsOk, CapturedOk, JobsOk, StoreOk, Exclusive;
  }

  /** With no stop signal in its handler the shutdown call turns into the teardown of the session, if there was one. */
  lemma ShutdownTurns(s: State, evs: seq<Event>, r: State) returns (more: seq<Event>, u: State)
    requires Order(s) && Handed(s) && Leads(s, evs, r) && r.reaper.line != [] && !r.reaper.line[0].Teardown? && r.ctl.signal.Quiet?
    ensures Leads(s, evs + more, u) && ThreadsAndReaper(more)
    ensures u.reaper.line == [Teardown(r.ctl.reconnect, Fld(r).output)] && Closed(u)
  {
    hide Leads, Order, Conserved, Handed, Detach;
    LeadsHanded(s, evs, r);
    ShutdownHead(r);
    more, u := [], r;
    assert evs + more == evs;
    if r.reaper.line[0].ShutdownNew? {
      u := Then(s, evs, u, OnReaper(ReaperClaim));
      more := [OnReaper(ReaperClaim)];
    }
    if u.reaper.line[0].ShutdownClaimed? {
      u := Then(s, evs + more, u, OnReaper(ReaperDisconnect));
      assert evs + more + [OnReaper(ReaperDisconnect)] == evs + (more + [OnReaper(ReaperDisconnect)]);
      more := more + [OnReaper(ReaperDisconnect)];
    }
    DetachEmpties(u, u.reaper.head, u.reaper.line[0 := TeardownJob(u)]);
    u := Then(s, evs + more, u, OnReaper(ReaperDetach));
    assert evs + more + [OnReaper(ReaperDetach)] == evs + (more + [OnReaper(ReaperDetach)]);
    more := more + [OnReaper(ReaperDetach)];
  }

  // ----- after the shutdown -----

  /** The shutdown call has emptied the controller for good. */
  predicate Closed(s: State) {
    && s.ctl.shutdownDone && s.ctl.ui.Relinquished? && s.ctl.signal.Quiet? && !s.ctl.connected && s.ctl.state.Idle?
    && s.ctl.reconnect == 0 && Fld(s) == NONE && forall k :: 0 <= k < |s.reaper.line| ==> s.reaper.line[k].Teardown?
  }

  lemma ClosedStep(s: State, ev: Event)
    requires Closed(s) && Enabled(s, ev)
    ensures Closed(Apply(s, ev)) && Apply(s, ev).threads.Keys == s.threads.Keys
  {
    hide Drop, Create, CreateEncoders, DropCandidate;
    match ev
    case OnThread(t, _) => LocalMoves(s.store, ThreadLocal(t));
    case OnReaper(_) => JobMoves(s);
    case _ =>
  }

  /** Once the shutdown call has detached the session, no step of anything starts, connects or creates again. */
  lemma {:induction false} ClosedStays(s: State, evs: seq<Event>, t: State)
    requires Closed(s) && Runs(s, evs, t)
    ensures Closed(t) && t.threads.Keys == s.threads.Keys
    decreases |evs|
  {
    hide Closed, Enabled, Apply;
    if evs != [] {
      ClosedStep(s, evs[0]);
      ClosedStays(Apply(s, evs[0]), evs[1..], t);
    }
  }

  // ----- main results -----

  lemma {:induction false} LineEnds(s: State, evs: seq<Event>, r: State) returns (more: seq<Event>, u: State)
    requires Order(s) && Handed(s) && Leads(s, evs, r) && r.ctl.signal.Quiet?
    ensures Leads(s, evs + more, u) && ThreadsAndReaper(more) && u.reaper.line == []
    ensures if forall k :: 0 <= k < |r.reaper.line| ==> r.reaper.line[k].Teardown? then u.ctl == r.ctl && Fld(u) == Fld(r) else Closed(u)
    decreases |r.reaper.line|
  {
    hide Leads, Order, Conserved, Handed;
    more, u := [], r;
    assert evs + more == evs;
    if r.reaper.line != [] {
      if r.reaper.line[0].Teardown? {
        more, u := TeardownEnds(s, evs, r);
        var rest;
        var v := u;
        rest, u := LineEnds(s, evs + more, v);
        assert evs + more + rest == evs + (more + rest);
        more := more + rest;
        assert forall k :: 0 <= k < |v.reaper.line| ==> v.reaper.line[k] == r.reaper.line[k + 1];
        assert (forall k :: 0 <= k < |r.reaper.line| ==> r.reaper.line[k].Teardown?)
          <==> forall k :: 0 <= k < |v.reaper.line| ==> v.reaper.line[k].Teardown?;
      } else {
        more, u := ShutdownTurns(s, evs, r);
        var rest;
        var v := u;
        rest, u := TeardownEnds(s, evs + more, v);
        assert evs + more + rest == evs + (more + rest);
        more := more + rest;
      }
    }
  }

  /** The reaper is never stuck: whatever was interleaved before, if no stop signal is in its handler the threads and the
      reaper can finish all queued jobs with nobody else's help, leaving a session that is not in a job alone. */
  lemma JobsCanFinish(s: State) returns (evs: seq<Event>, t: State)
    requires WellReached(s) && s.ctl.signal.Quiet?
    ensures DisciplinedRun(s, evs, t) && ThreadsAndReaper(evs) && t.reaper.line == []
    ensures (forall k :: 0 <= k < |s.reaper.line| ==> s.reaper.line[k].Teardown?) ==> t.ctl == s.ctl && Fld(t) == Fld(s)
  {
    hide Order, Conserved, Handed, WellReached, DisciplinedRun, Leads;
    ReachedConserved(s);
    ReachedHanded(s);
    LeadsNowhere(s);
    evs, t := LineEnds(s, [], s);
    assert [] + evs == evs;
    LeadsRun(s, evs, t);
  }

  /** The shutdown call can always finish: from every state with no call on the UI thread and no stop signal in its handler
      a run of it, the threads and the reaper ends with everything ever created released, the controller closed. */
  lemma ShutdownCanFinish(s: State) returns (evs: seq<Event>, t: State)
    requires WellReached(s) && s.ctl.ui.Free? && s.ctl.signal.Quiet?
    ensures DisciplinedRun(s, [OnUi(UiRelinquish)] + evs, t) && ThreadsAndReaper(evs)
    ensures t.reaper.line == [] && Closed(t)
    ensures forall x: Ref :: 0 < x < t.store.next ==> x in t.store.holder && t.store.holder[x].0.Released?
  {
    hide Order, Conserved, Handed, WellReached, DisciplinedRun, Leads;
    ReachedConserved(s);
    ReachedHanded(s);
    LeadsNowhere(s);
    var r := Then(s, [], s, OnUi(UiRelinquish));
    assert !r.reaper.line[|r.reaper.line| - 1].Teardown?;
    evs, t := LineEnds(s, [] + [OnUi(UiRelinquish)], r);
    assert [] + [OnUi(UiRelinquish)] + evs == [OnUi(UiRelinquish)] + evs;
    LeadsRun(s, [OnUi(UiRelinquish)] + evs, t);
    WellReachedOn(s, [OnUi(UiRelinquish)] + evs, t);
    forall x: Ref | 0 < x < t.store.next ensures x in t.store.holder && t.store.holder[x].0.Released? {
      NothingLeaks(t, x);
    }
  }

  lemma WellReachedOn(s: State, evs: seq<Event>, t: State)
    requires WellReached(s) && DisciplinedRun(s, evs, t)
    ensures WellReached(t)
  {
    hide DisciplinedRun;
    var a, before :| Init(a) && DisciplinedRun(a, before, s);
    RunsJoin(a, before, s, evs, t);
  }

  lemma {:induction false} RunsJoin(a: State, before: seq<Event>, s: State, evs: seq<Event>, t: State)
    requires DisciplinedRun(a, before, s) && DisciplinedRun(s, evs, t)
    ensures DisciplinedRun(a, before + evs, t)
    decreases |before|
  {
    hide Enabled, Apply, Disciplined;
    if before == [] {
      assert before + evs == evs;
    } else {
      RunsJoin(Apply(a, before[0]), before[1..], s, evs, t);
      assert (before + evs)[1..] == before[1..] + evs;
    }
  }

  /** The shutdown's claim tells every thread to stop. */
  lemma ClaimStopsThreads(s: State)
    requires EnabledReaper(s, ReaperClaim) && !s.ctl.shutdownDone
    ensures var t := ApplyReaper(s, ReaperClaim);
            t.ctl.shutdownDone && t.threads == s.threads && forall x: Tid :: ToStop(t, x)
  {
  }
}
