/** The attempt counter under concurrency. A reconnect thread reads `m_reconnect_attempt` for its delay, checks that its
    session is still there, increments the counter by a load and a store without the lock, and then takes the lock; only
    start() resets the counter. Over disciplined runs in which no start() falls between another thread's check and
    store, the reconnect threads of one session start the output at most ten times. */
module OutputAttempts {
  import opened OutputLifecycle
  import opened OutputStates
  import opened OutputOrder
  import opened OutputOwnership

  const MAX_ATTEMPTS := 10

  /** What a thread read when it passed the attempt limit: the session it was in and the counter. */
  datatype Ticket = Ticket(session: nat, attempt: nat)

  /** Where in one turn of its loop a thread stands. */
  datatype Phase = Top | Passed(k: Ticket) | Checked(k: Ticket) | Loaded(k: Ticket, v: nat) | Counted(k: Ticket)

  /** The protocol's state with the counter, the number of start() calls, and the obs_output_start calls of reconnect threads. */
  datatype Race = Race(s: State, attempt: nat, session: nat, phase: map<Tid, Phase>, launched: seq<Ticket>)

  /** The limit test, the session check, the two halves of the increment, and the steps of the protocol. */
  datatype Step = Pass(t: Tid) | Check(t: Tid) | Load(t: Tid) | Save(t: Tid) | Protocol(ev: Event)

  function PhaseOf(phase: map<Tid, Phase>, t: Tid): Phase {
    if t in phase then phase[t] else Top
  }

  predicate IsLooping(s: State, t: Tid) {
    t in s.threads && s.threads[t].pc.Looping?
  }

  predicate Can(x: Race, e: Step) {
    match e
    case Pass(t) => IsLooping(x.s, t) && PhaseOf(x.phase, t).Top? && x.attempt < MAX_ATTEMPTS
    case Check(t) => IsLooping(x.s, t) && PhaseOf(x.phase, t).Passed? && Current(x.s, t)
    case Load(t) => IsLooping(x.s, t) && PhaseOf(x.phase, t).Checked?
    case Save(t) => IsLooping(x.s, t) && PhaseOf(x.phase, t).Loaded?
    case Protocol(ev) =>
      && Enabled(x.s, ev) && Disciplined(x.s, ev)
      && (ev.OnThread? && ev.r.ThreadClear? ==> PhaseOf(x.phase, ev.t).Counted?)
  }

  function PhaseTicket(p: Phase): Ticket {
    if p.Top? then Ticket(0, 0) else p.k
  }

  function Do(x: Race, e: Step): Race
    requires Can(x, e)
  {
    match e
    case Pass(t) => x.(phase := x.phase[t := Passed(Ticket(x.session, x.attempt))])
    case Check(t) => x.(phase := x.phase[t := Checked(x.phase[t].k)])
    case Load(t) => x.(phase := x.phase[t := Loaded(x.phase[t].k, x.attempt)])
    case Save(t) => x.(phase := x.phase[t := Counted(x.phase[t].k)], attempt := x.phase[t].v + 1)
    case Protocol(ev) =>
      var s := Apply(x.s, ev);
      if ev.OnUi? && ev.u.UiStart? then x.(s := s, attempt := 0, session := x.session + 1)
      else if ev.OnThread? then
        x.(s := s, phase := if IsLooping(s, ev.t) then x.phase[ev.t := Top] else x.phase,
           launched := if ev.r.ThreadLaunch? then x.launched + [PhaseTicket(PhaseOf(x.phase, ev.t))] else x.launched)
      else x.(s := s)
  }

  predicate Begins(x: Race) {
    Init(x.s) && x.attempt == 0 && x.session == 0 && x.phase == map[] && x.launched == []
  }

  /** Thread t is past its session check and has not stored its increment. */
  predicate Counting(threads: map<Tid, Thread>, phase: map<Tid, Phase>, t: Tid) {
    t in threads && threads[t].pc.Looping? && (PhaseOf(phase, t).Checked? || PhaseOf(phase, t).Loaded?)
  }

  /** What is asked of start(): nothing, that no thread is between its load and its store, or that no thread is counting.
      A caller brings the last about by waiting for the job of the session before. */
  datatype Rule = AnyStart | NoHalfCount | NoCount

  ghost predicate Apart(rule: Rule, x: Race, e: Step) {
    e == Protocol(OnUi(UiStart)) ==>
      && (rule.NoHalfCount? ==> forall t: Tid :: IsLooping(x.s, t) ==> !PhaseOf(x.phase, t).Loaded?)
      && (rule.NoCount? ==> forall t: Tid :: !Counting(x.s.threads, x.phase, t))
  }

  ghost predicate Races(rule: Rule, x: Race, es: seq<Step>, y: Race)
    decreases |es|
  {
    if es == [] then x == y
    else Can(x, es[0]) && Apart(rule, x, es[0]) && Races(rule, Do(x, es[0]), es[1..], y)
  }

  // ----- the invariant -----

  predicate InFlight(pc: Pc) {
    pc.Cleared? || pc.Candidate? || pc.Ready? || pc.Swapped? || pc.Launching?
  }

  predicate Spent(k: Ticket, session: nat, attempt: nat) {
    k.attempt < MAX_ATTEMPTS && k.session <= session && (k.session == session ==> k.attempt < attempt)
  }

  predicate Flies(threads: map<Tid, Thread>, t: Tid) {
    t in threads && InFlight(threads[t].pc)
  }

  /** The ticket was read after all tickets of its session that are in use or used up. */
  ghost predicate Fresh(k: Ticket, threads: map<Tid, Thread>, phase: map<Tid, Phase>, launched: seq<Ticket>) {
    && (forall i :: 0 <= i < |launched| && launched[i].session == k.session ==> launched[i].attempt < k.attempt)
    && forall t: Tid :: Flies(threads, t) && PhaseTicket(PhaseOf(phase, t)).session == k.session ==>
         PhaseTicket(PhaseOf(phase, t)).attempt < k.attempt
  }

  ghost predicate LaunchedOk(launched: seq<Ticket>, session: nat, attempt: nat) {
    && (forall i :: 0 <= i < |launched| ==> Spent(launched[i], session, attempt))
    && forall i, j :: 0 <= i < j < |launched| ==> launched[i] != launched[j]
  }

  ghost predicate FlightsOk(threads: map<Tid, Thread>, out: Ref, phase: map<Tid, Phase>, launched: seq<Ticket>, session: nat, attempt: nat) {
    && (forall t: Tid :: Flies(threads, t) ==>
          var k := PhaseTicket(PhaseOf(phase, t));
          Spent(k, session, attempt) && k !in launched && (threads[t].captured == out ==> k.session == session))
    && forall t: Tid, u: Tid :: Flies(threads, t) && Flies(threads, u) && t != u ==>
         PhaseTicket(PhaseOf(phase, t)) != PhaseTicket(PhaseOf(phase, u))
  }

  /** A thread of the present session before its locked section. */
  ghost predicate LoopOk(p: Phase, threads: map<Tid, Thread>, phase: map<Tid, Phase>, launched: seq<Ticket>, session: nat, attempt: nat) {
    && (!p.Top? ==> p.k.session == session && p.k.attempt < MAX_ATTEMPTS && Fresh(p.k, threads, phase, launched))
    && (p.Passed? || p.Checked? || p.Loaded? ==> p.k.attempt <= attempt)
    && (p.Counted? ==> p.k.attempt < attempt)
  }

  predicate Loops(threads: map<Tid, Thread>, out: Ref, t: Tid) {
    t in threads && threads[t].pc.Looping? && threads[t].captured == out
  }

  ghost predicate LoopsOk(threads: map<Tid, Thread>, out: Ref, phase: map<Tid, Phase>, launched: seq<Ticket>, session: nat, attempt: nat) {
    forall t: Tid :: Loops(threads, out, t) ==> LoopOk(PhaseOf(phase, t), threads, phase, launched, session, attempt)
  }

  /** One thread counts at a time, in the session of its ticket and not beside start(), so that what it loaded is the
      counter's value. */
  ghost predicate CountingOk(threads: map<Tid, Thread>, out: Ref, ui: Ui, phase: map<Tid, Phase>, session: nat, attempt: nat) {
    && (forall t: Tid :: Counting(threads, phase, t) ==>
          && !InStart(ui) && (threads[t].captured == out || out == 0) && PhaseOf(phase, t).k.session == session
          && (PhaseOf(phase, t).Loaded? ==> PhaseOf(phase, t).v == attempt))
    && forall t: Tid, u: Tid :: Counting(threads, phase, t) && Counting(threads, phase, u) ==> t == u
  }

  /** A thread at work on the session's output has a ticket of this session. */
  ghost predicate LabelsOk(threads: map<Tid, Thread>, out: Ref, phase: map<Tid, Phase>, session: nat) {
    forall t: Tid :: t in threads && threads[t].captured == out && (Flies(threads, t) || (threads[t].pc.Looping? && !PhaseOf(phase, t).Top?)) ==>
      PhaseTicket(PhaseOf(phase, t)).session == session
  }

  ghost predicate Metered(x: Race) {
    && LaunchedOk(x.launched, x.session, x.attempt)
    && FlightsOk(x.s.threads, Fld(x.s).output, x.phase, x.launched, x.session, x.attempt)
    && LoopsOk(x.s.threads, Fld(x.s).output, x.phase, x.launched, x.session, x.attempt)
    && CountingOk(x.s.threads, Fld(x.s).output, x.s.ctl.ui, x.phase, x.session, x.attempt)
  }

  ghost predicate Labelled(x: Race) {
    LabelsOk(x.s.threads, Fld(x.s).output, x.phase, x.session) && x.phase.Keys <= x.s.threads.Keys
  }

  ghost predicate Sound(rule: Rule, x: Race) {
    Order(x.s) && Conserved(x.s) && Labelled(x) && (rule.NoCount? ==> Metered(x))
  }

  // ----- the steps on the counter -----

  lemma OneCurrent(s: State, t: Tid)
    requires Conserved(s) && t in s.threads && !s.threads[t].pc.Finished? && s.threads[t].captured == Fld(s).output
    ensures t == s.ctl.reconnect && s.ctl.state.Reconnecting? && !InStart(s.ctl.ui)
  {
    hide StoreOk, Drained;
  }

  lemma CapturedOld(s: State, t: Tid)
    requires Order(s) && Conserved(s) && t in s.threads && !s.threads[t].pc.Finished?
    ensures 0 < s.threads[t].captured < s.store.next && !s.threads[t].pc.Spawned?
  {
    hide StoreOk, Drained, ThreadsOk, SignalsOk, JobsOk, StoppedOk;
  }

  /** What is fresh does not depend on how far a thread in its loop has got. */
  lemma SameTickets(threads: map<Tid, Thread>, phase: map<Tid, Phase>, phase': map<Tid, Phase>, launched: seq<Ticket>)
    requires forall u: Tid :: Flies(threads, u) ==> PhaseOf(phase', u) == PhaseOf(phase, u)
    ensures forall k: Ticket :: Fresh(k, threads, phase, launched) ==> Fresh(k, threads, phase', launched)
  {
  }

  /** A thread in its loop moves on, and the counter may only grow. */
  lemma MeterMoves(threads: map<Tid, Thread>, out: Ref, phase: map<Tid, Phase>, launched: seq<Ticket>, session: nat, attempt: nat,
                   t: Tid, p: Phase, attempt': nat)
    requires t in threads && threads[t].pc.Looping? && attempt <= attempt'
    requires Loops(threads, out, t) ==> LoopOk(p, threads, phase, launched, session, attempt')
    requires LaunchedOk(launched, session, attempt)
    requires FlightsOk(threads, out, phase, launched, session, attempt) && LoopsOk(threads, out, phase, launched, session, attempt)
    ensures var phase' := phase[t := p];
            && LaunchedOk(launched, session, attempt')
            && FlightsOk(threads, out, phase', launched, session, attempt') && LoopsOk(threads, out, phase', launched, session, attempt')
  {
    hide Fresh;
    var phase' := phase[t := p];
    assert forall u: Tid :: u != t ==> PhaseOf(phase', u) == PhaseOf(phase, u);
    SameTickets(threads, phase, phase', launched);
  }

  lemma LabelsMove(threads: map<Tid, Thread>, out: Ref, phase: map<Tid, Phase>, session: nat, t: Tid, p: Phase)
    requires LabelsOk(threads, out, phase, session) && phase.Keys <= threads.Keys && t in threads && threads[t].pc.Looping?
    requires threads[t].captured == out ==> PhaseTicket(p).session == session
    ensures LabelsOk(threads, out, phase[t := p], session) && phase[t := p].Keys <= threads.Keys
  {
    assert forall u: Tid :: u != t ==> PhaseOf(phase[t := p], u) == PhaseOf(phase, u);
  }

  /** Who counts besides the thread that moves stays as he was. */
  lemma CountingMoves(threads: map<Tid, Thread>, phase: map<Tid, Phase>, t: Tid, p: Phase)
    ensures forall u: Tid :: u != t ==> (Counting(threads, phase[t := p], u) <==> Counting(threads, phase, u))
    ensures forall u: Tid :: u != t ==> PhaseOf(phase[t := p], u) == PhaseOf(phase, u)
    ensures PhaseOf(phase[t := p], t) == p
  {
  }

  /** A thread that is not counting any more, or not yet; if it was, the counter may change. */
  lemma CountingEnds(threads: map<Tid, Thread>, out: Ref, ui: Ui, phase: map<Tid, Phase>, session: nat, attempt: nat, t: Tid, p: Phase, attempt': nat)
    requires CountingOk(threads, out, ui, phase, session, attempt) && !p.Checked? && !p.Loaded?
    requires Counting(threads, phase, t) || attempt' == attempt
    ensures CountingOk(threads, out, ui, phase[t := p], session, attempt')
  {
    CountingMoves(threads, phase, t, p);
    var phase' := phase[t := p];
    forall u: Tid | Counting(threads, phase', u)
      ensures u != t && Counting(threads, phase, u) && PhaseOf(phase', u) == PhaseOf(phase, u) && attempt' == attempt
    {
    }
  }

  lemma CountingBegins(threads: map<Tid, Thread>, out: Ref, ui: Ui, phase: map<Tid, Phase>, session: nat, attempt: nat, t: Tid, p: Phase)
    requires Loops(threads, out, t) && p.Checked? && p.k.session == session && !InStart(ui)
    requires forall u: Tid :: u != t ==> !Counting(threads, phase, u)
    ensures CountingOk(threads, out, ui, phase[t := p], session, attempt)
  {
    CountingMoves(threads, phase, t, p);
    var phase' := phase[t := p];
    forall u: Tid | Counting(threads, phase', u) ensures u == t && PhaseOf(phase', u) == p {
      assert u == t || Counting(threads, phase, u);
    }
  }

  lemma CountingLoads(threads: map<Tid, Thread>, out: Ref, ui: Ui, phase: map<Tid, Phase>, session: nat, attempt: nat, t: Tid, p: Phase)
    requires CountingOk(threads, out, ui, phase, session, attempt) && Counting(threads, phase, t)
    requires p == Loaded(PhaseOf(phase, t).k, attempt)
    ensures CountingOk(threads, out, ui, phase[t := p], session, attempt)
  {
    CountingMoves(threads, phase, t, p);
    var phase' := phase[t := p];
    forall u: Tid | Counting(threads, phase', u) ensures u == t && PhaseOf(phase', u) == p {
      assert u == t || Counting(threads, phase, u);
    }
  }

  lemma CountingIsCurrent(threads: map<Tid, Thread>, out: Ref, ui: Ui, phase: map<Tid, Phase>, session: nat, attempt: nat, u: Tid)
    requires CountingOk(threads, out, ui, phase, session, attempt) && Counting(threads, phase, u) && out != 0
    ensures u in threads && threads[u].captured == out && threads[u].pc.Looping?
  {
  }

  lemma PassKeeps(rule: Rule, x: Race, t: Tid)
    requires Can(x, Pass(t)) && Labelled(x) && (rule.NoCount? ==> Metered(x))
    ensures var y := Do(x, Pass(t)); Labelled(y) && (rule.NoCount? ==> Metered(y))
  {
    hide Fld, FlightsOk, LoopsOk, LabelsOk, CountingOk;
    var threads, out, p := x.s.threads, Fld(x.s).output, Passed(Ticket(x.session, x.attempt));
    LabelsMove(threads, out, x.phase, x.session, t, p);
    CountingMoves(threads, x.phase, t, p);
    if rule.NoCount? {
      NewTicket(threads, out, x.phase, x.launched, x.session, x.attempt);
      MeterMoves(threads, out, x.phase, x.launched, x.session, x.attempt, t, p, x.attempt);
      CountingEnds(threads, out, x.s.ctl.ui, x.phase, x.session, x.attempt, t, p, x.attempt);
    }
  }

  lemma NewTicket(threads: map<Tid, Thread>, out: Ref, phase: map<Tid, Phase>, launched: seq<Ticket>, session: nat, attempt: nat)
    requires LaunchedOk(launched, session, attempt) && FlightsOk(threads, out, phase, launched, session, attempt)
    ensures Fresh(Ticket(session, attempt), threads, phase, launched)
  {
  }

  lemma CheckKeeps(rule: Rule, x: Race, t: Tid)
    requires Can(x, Check(t)) && Sound(rule, x)
    ensures var y := Do(x, Check(t)); Labelled(y) && (rule.NoCount? ==> Metered(y))
  {
    hide Fld, Order, Conserved, Current, FlightsOk, LoopsOk, LaunchedOk, LabelsOk, CountingOk, Counting;
    var threads, out, p := x.s.threads, Fld(x.s).output, Checked(x.phase[t].k);
    CurrentMeansSame(x.s, t);
    CapturedOld(x.s, t);
    OneCurrent(x.s, t);
    TicketOf(threads, out, x.phase, x.session, t);
    LabelsMove(threads, out, x.phase, x.session, t, p);
    CountingMoves(threads, x.phase, t, p);
    if rule.NoCount? {
      InLoop(threads, out, x.phase, x.launched, x.session, x.attempt, t);
      MeterMoves(threads, out, x.phase, x.launched, x.session, x.attempt, t, p, x.attempt);
      forall u: Tid | u != t ensures !Counting(threads, x.phase, u) {
        if Counting(threads, x.phase, u) {
          CountingIsCurrent(threads, out, x.s.ctl.ui, x.phase, x.session, x.attempt, u);
          OneCurrent(x.s, u);
        }
      }
      CountingBegins(threads, out, x.s.ctl.ui, x.phase, x.session, x.attempt, t, p);
    }
  }

  lemma TicketOf(threads: map<Tid, Thread>, out: Ref, phase: map<Tid, Phase>, session: nat, t: Tid)
    requires LabelsOk(threads, out, phase, session) && Loops(threads, out, t) && !PhaseOf(phase, t).Top?
    ensures PhaseOf(phase, t).k.session == session
  {
  }

  lemma InLoop(threads: map<Tid, Thread>, out: Ref, phase: map<Tid, Phase>, launched: seq<Ticket>, session: nat, attempt: nat, t: Tid)
    requires LoopsOk(threads, out, phase, launched, session, attempt)
    ensures Loops(threads, out, t) ==> LoopOk(PhaseOf(phase, t), threads, phase, launched, session, attempt)
  {
  }

  lemma LoadKeeps(rule: Rule, x: Race, t: Tid)
    requires Can(x, Load(t)) && Labelled(x) && (rule.NoCount? ==> Metered(x))
    ensures var y := Do(x, Load(t)); Labelled(y) && (rule.NoCount? ==> Metered(y))
  {
    hide Fld, FlightsOk, LoopsOk, LaunchedOk, LabelsOk, CountingOk;
    var threads, out, p := x.s.threads, Fld(x.s).output, Loaded(x.phase[t].k, x.attempt);
    if threads[t].captured == out {
      TicketOf(threads, out, x.phase, x.session, t);
    }
    LabelsMove(threads, out, x.phase, x.session, t, p);
    CountingMoves(threads, x.phase, t, p);
    if rule.NoCount? {
      InLoop(threads, out, x.phase, x.launched, x.session, x.attempt, t);
      MeterMoves(threads, out, x.phase, x.launched, x.session, x.attempt, t, p, x.attempt);
      CountingLoads(threads, out, x.s.ctl.ui, x.phase, x.session, x.attempt, t, p);
    }
  }

  lemma SaveKeeps(rule: Rule, x: Race, t: Tid)
    requires Can(x, Save(t)) && Labelled(x) && (rule.NoCount? ==> Metered(x))
    ensures var y := Do(x, Save(t)); Labelled(y) && (rule.NoCount? ==> Metered(y))
  {
    hide Fld, FlightsOk, LoopsOk, LaunchedOk, LabelsOk;
    var threads, out, p := x.s.threads, Fld(x.s).output, Counted(x.phase[t].k);
    if threads[t].captured == out {
      TicketOf(threads, out, x.phase, x.session, t);
    }
    LabelsMove(threads, out, x.phase, x.session, t, p);
    CountingMoves(threads, x.phase, t, p);
    if rule.NoCount? {
      assert Counting(threads, x.phase, t);
      InLoop(threads, out, x.phase, x.launched, x.session, x.attempt, t);
      MeterMoves(threads, out, x.phase, x.launched, x.session, x.attempt, t, p, x.attempt + 1);
      CountingEnds(threads, out, x.s.ctl.ui, x.phase, x.session, x.attempt, t, p, x.attempt + 1);
    }
  }

  // ----- what a protocol step does to threads and to the session's output -----

  lemma DetachOutput(s: State)
    ensures StopDetach(s).threads == s.threads && Fld(StopDetach(s)).output in {Fld(s).output, 0} && StopDetach(s).ctl.ui.Free?
  {
  }

  lemma PrepareOutput(s: State, ok: bool, at: nat)
    ensures Prepare(s, ok, at).threads == s.threads && Fld(Prepare(s, ok, at)).output in {Fld(s).output, s.store.next}
  {
  }

  lemma UiStays(s: State, ev: UiEvent)
    requires EnabledUi(s, ev)
    ensures ApplyUi(s, ev).threads == s.threads
    ensures InStart(ApplyUi(s, ev).ctl.ui) ==> InStart(s.ctl.ui) || ev.UiStart?
  {
    hide Drop, Create, CreateEncoders, DropEncoders, MoveEncoders, DropCandidate, Publish, Detach;
  }

  lemma UiOutput(s: State, ev: UiEvent)
    requires EnabledUi(s, ev)
    ensures Fld(ApplyUi(s, ev)).output in {Fld(s).output, 0} || (Fld(ApplyUi(s, ev)).output == s.store.next && InStart(s.ctl.ui))
  {
    hide Drop, CreateEncoders, DropEncoders, MoveEncoders, DropCandidate, Publish, StopDetach, Prepare;
    DetachOutput(s);
    PrepareOutput(s, if ev.UiPrepare? then ev.ok else true, if ev.UiPrepare? then ev.at else 0);
    EncodersMove(s.store, UiLocal);
    EncodersMove(s.store, Fields);
    EncodersMove(CreateEncoders(s.store, UiLocal), UiLocal);
    PublishMoves(s.store);
    HelpersMove(s.store, UiLocal, CanvasSlot);
  }

  lemma ReaperOutput(s: State, ev: ReaperEvent)
    requires EnabledReaper(s, ev)
    ensures ApplyReaper(s, ev).threads == s.threads && ApplyReaper(s, ev).ctl.ui == s.ctl.ui
    ensures Fld(ApplyReaper(s, ev)).output in {Fld(s).output, 0}
  {
    hide NextSlot;
  }

  lemma ThreadOutput(s: State, t: Tid, ev: ThreadEvent)
    requires EnabledThread(s, t, ev)
    ensures Fld(ApplyThread(s, t, ev)).output == Fld(s).output && ApplyThread(s, t, ev).ctl.ui == s.ctl.ui
  {
    hide Drop, Create, CreateEncoders, DropEncoders, MoveEncoders, DropCandidate, SwapCanvas, Valid, Current;
    var me := ThreadLocal(t);
    EncodersMove(s.store, me);
    EncodersMove(s.store, Fields);
    HelpersMove(s.store, me, CanvasSlot);
    HelpersMove(MoveEncoders(s.store, me), me, CanvasSlot);
  }

  /** Threads keep their captured output; they end, go on with an attempt, or are new and at the top of the loop. */
  ghost predicate GoOn(threads: map<Tid, Thread>, after: map<Tid, Thread>) {
    && (forall t: Tid :: t in threads ==> t in after)
    && forall t: Tid :: t in after ==>
         if t in threads then
           || after[t] == threads[t] || after[t].pc.Finished?
           || (after[t].captured == threads[t].captured && InFlight(threads[t].pc) && InFlight(after[t].pc))
         else after[t].pc.Looping?
  }

  /** No old thread finds its captured output in the fields that was not there before. */
  ghost predicate NoNewMatch(threads: map<Tid, Thread>, out: Ref, out': Ref) {
    forall t: Tid :: t in threads && !threads[t].pc.Finished? && threads[t].captured == out' ==> out' == out
  }

  lemma MeterGoes(threads: map<Tid, Thread>, after: map<Tid, Thread>, out: Ref, out': Ref, phase: map<Tid, Phase>, launched: seq<Ticket>,
                  session: nat, attempt: nat)
    requires GoOn(threads, after) && NoNewMatch(threads, out, out') && phase.Keys <= threads.Keys
    requires FlightsOk(threads, out, phase, launched, session, attempt) && LoopsOk(threads, out, phase, launched, session, attempt)
    ensures FlightsOk(after, out', phase, launched, session, attempt) && LoopsOk(after, out', phase, launched, session, attempt)
  {
    assert forall t: Tid :: Flies(after, t) ==> Flies(threads, t) && after[t].captured == threads[t].captured;
    forall t: Tid | Loops(after, out', t) ensures LoopOk(PhaseOf(phase, t), after, phase, launched, session, attempt) {
      if t in threads {
        assert Loops(threads, out, t);
      }
    }
  }

  lemma LabelsGo(threads: map<Tid, Thread>, after: map<Tid, Thread>, out: Ref, out': Ref, phase: map<Tid, Phase>, session: nat)
    requires GoOn(threads, after) && NoNewMatch(threads, out, out') && phase.Keys <= threads.Keys && LabelsOk(threads, out, phase, session)
    ensures LabelsOk(after, out', phase, session) && phase.Keys <= after.Keys
  {
  }

  lemma CountingGoes(threads: map<Tid, Thread>, after: map<Tid, Thread>, out: Ref, out': Ref, ui: Ui, ui': Ui, phase: map<Tid, Phase>,
                     session: nat, attempt: nat)
    requires GoOn(threads, after) && phase.Keys <= threads.Keys && CountingOk(threads, out, ui, phase, session, attempt)
    requires (out' == out || out' == 0 || InStart(ui)) && (InStart(ui') ==> InStart(ui))
    ensures CountingOk(after, out', ui', phase, session, attempt)
  {
    assert forall t: Tid :: Counting(after, phase, t) ==> Counting(threads, phase, t) && after[t] == threads[t];
  }

  /** start(): no thread of the session that begins is under way. */
  lemma MeterRestarts(threads: map<Tid, Thread>, out: Ref, phase: map<Tid, Phase>, launched: seq<Ticket>, session: nat, attempt: nat)
    requires forall t: Tid :: t in threads && !threads[t].pc.Finished? ==> threads[t].captured != out
    requires LaunchedOk(launched, session, attempt)
    requires FlightsOk(threads, out, phase, launched, session, attempt)
    ensures LaunchedOk(launched, session + 1, 0)
    ensures FlightsOk(threads, out, phase, launched, session + 1, 0) && LoopsOk(threads, out, phase, launched, session + 1, 0)
  {
  }

  /** A thread that counted takes the lock and finds its output in place: its ticket is the latest of the session. */
  lemma MeterClears(threads: map<Tid, Thread>, out: Ref, phase: map<Tid, Phase>, launched: seq<Ticket>, session: nat, attempt: nat, t: Tid)
    requires Loops(threads, out, t) && PhaseOf(phase, t).Counted?
    requires forall u: Tid :: u in threads && !threads[u].pc.Finished? && threads[u].captured == out ==> u == t
    requires LaunchedOk(launched, session, attempt)
    requires FlightsOk(threads, out, phase, launched, session, attempt) && LoopsOk(threads, out, phase, launched, session, attempt)
    ensures var after := threads[t := threads[t].(pc := Cleared)];
            FlightsOk(after, out, phase, launched, session, attempt) && LoopsOk(after, out, phase, launched, session, attempt)
  {
    var after := threads[t := threads[t].(pc := Cleared)];
    assert LoopOk(PhaseOf(phase, t), threads, phase, launched, session, attempt);
    assert forall u: Tid :: Flies(after, u) <==> u == t || Flies(threads, u);
    assert forall u: Tid :: !Loops(after, out, u);
  }

  /** A thread under way returns to the top of its loop, or ends; its ticket may have gone into a launch. */
  lemma MeterReturns(threads: map<Tid, Thread>, out: Ref, phase: map<Tid, Phase>, launched: seq<Ticket>, session: nat, attempt: nat,
                     t: Tid, pc: Pc, more: seq<Ticket>)
    requires Flies(threads, t) && (pc.Looping? || pc.Finished?) && phase.Keys <= threads.Keys
    requires more == launched || more == launched + [PhaseTicket(PhaseOf(phase, t))]
    requires LaunchedOk(launched, session, attempt)
    requires FlightsOk(threads, out, phase, launched, session, attempt) && LoopsOk(threads, out, phase, launched, session, attempt)
    ensures var after := threads[t := threads[t].(pc := pc)];
            var phase' := if pc.Looping? then phase[t := Top] else phase;
            && LaunchedOk(more, session, attempt)
            && FlightsOk(after, out, phase', more, session, attempt) && LoopsOk(after, out, phase', more, session, attempt)
  {
    var after := threads[t := threads[t].(pc := pc)];
    var phase' := if pc.Looping? then phase[t := Top] else phase;
    var k := PhaseTicket(PhaseOf(phase, t));
    assert forall u: Tid :: Flies(after, u) <==> u != t && Flies(threads, u);
    assert forall u: Tid :: u != t ==> PhaseOf(phase', u) == PhaseOf(phase, u);
    forall u: Tid | Loops(after, out, u) ensures LoopOk(PhaseOf(phase', u), after, phase', more, session, attempt) {
      if u != t {
        assert LoopOk(PhaseOf(phase, u), threads, phase, launched, session, attempt);
      }
    }
  }

  // ----- every step keeps the invariant -----

  lemma UiMeters(rule: Rule, x: Race, ev: UiEvent)
    requires Sound(rule, x) && Can(x, Protocol(OnUi(ev))) && Apart(rule, x, Protocol(OnUi(ev)))
    ensures var y := Do(x, Protocol(OnUi(ev))); Labelled(y) && (rule.NoCount? ==> Metered(y))
  {
    hide Order, Conserved, FlightsOk, LoopsOk, LaunchedOk, EnabledUi, ApplyUi, Flies, Counting;
    UiOutput(x.s, ev);
    UiStays(x.s, ev);
    var s, u := x.s, ApplyUi(x.s, ev);
    if ev.UiStart? {
      StartsFresh(s);
      FlyingIsAlive(s.threads);
      if rule.NoCount? {
        MeterRestarts(s.threads, Fld(s).output, x.phase, x.launched, x.session, x.attempt);
      }
    } else {
      forall t: Tid | t in s.threads && !s.threads[t].pc.Finished? ensures 0 < s.threads[t].captured < s.store.next {
        CapturedOld(s, t);
      }
      LabelsGo(s.threads, u.threads, Fld(s).output, Fld(u).output, x.phase, x.session);
      if rule.NoCount? {
        MeterGoes(s.threads, u.threads, Fld(s).output, Fld(u).output, x.phase, x.launched, x.session, x.attempt);
        CountingGoes(s.threads, u.threads, Fld(s).output, Fld(u).output, s.ctl.ui, u.ctl.ui, x.phase, x.session, x.attempt);
      }
    }
  }

  lemma FlyingIsAlive(threads: map<Tid, Thread>)
    ensures forall t: Tid :: Flies(threads, t) ==> !threads[t].pc.Finished?
  {
  }

  lemma StartsFresh(s: State)
    requires Conserved(s) && EnabledUi(s, UiStart) && Disciplined(s, OnUi(UiStart))
    ensures forall t: Tid :: t in s.threads && !s.threads[t].pc.Finished? ==> s.threads[t].captured != Fld(s).output
    ensures Fld(ApplyUi(s, UiStart)).output == Fld(s).output
  {
    hide Conserved;
    forall t: Tid | t in s.threads && !s.threads[t].pc.Finished? && s.threads[t].captured == Fld(s).output ensures false {
      OneCurrent(s, t);
    }
  }

  lemma ReaperMeters(rule: Rule, x: Race, ev: ReaperEvent)
    requires Sound(rule, x) && Can(x, Protocol(OnReaper(ev)))
    ensures var y := Do(x, Protocol(OnReaper(ev))); Labelled(y) && (rule.NoCount? ==> Metered(y))
  {
    hide Order, Conserved, FlightsOk, LoopsOk, LabelsOk, CountingOk, LaunchedOk, EnabledReaper, ApplyReaper;
    ReaperOutput(x.s, ev);
    var s, u := x.s, ApplyReaper(x.s, ev);
    forall t: Tid | t in s.threads && !s.threads[t].pc.Finished? ensures 0 < s.threads[t].captured {
      CapturedOld(s, t);
    }
    LabelsGo(s.threads, u.threads, Fld(s).output, Fld(u).output, x.phase, x.session);
    if rule.NoCount? {
      MeterGoes(s.threads, u.threads, Fld(s).output, Fld(u).output, x.phase, x.launched, x.session, x.attempt);
      CountingGoes(s.threads, u.threads, Fld(s).output, Fld(u).output, s.ctl.ui, u.ctl.ui, x.phase, x.session, x.attempt);
    }
  }

  lemma SignalMeters(rule: Rule, x: Race, ev: SignalEvent)
    requires Sound(rule, x) && Can(x, Protocol(OnSignal(ev)))
    ensures var y := Do(x, Protocol(OnSignal(ev))); Labelled(y) && (rule.NoCount? ==> Metered(y))
  {
    hide Conserved, FlightsOk, LoopsOk, LabelsOk, CountingOk, LaunchedOk, ObjectsOk, CapturedOk, SignalsOk, JobsOk, StoppedOk;
    var s, u := x.s, ApplySignal(x.s, ev);
    LabelsGo(s.threads, u.threads, Fld(s).output, Fld(u).output, x.phase, x.session);
    if rule.NoCount? {
      MeterGoes(s.threads, u.threads, Fld(s).output, Fld(u).output, x.phase, x.launched, x.session, x.attempt);
      CountingGoes(s.threads, u.threads, Fld(s).output, Fld(u).output, s.ctl.ui, u.ctl.ui, x.phase, x.session, x.attempt);
    }
  }

  /** What an event of thread t does to that thread. */
  lemma ThreadMoves(s: State, t: Tid, ev: ThreadEvent)
    requires EnabledThread(s, t, ev) && !s.threads[t].pc.Spawned?
    ensures var u := ApplyThread(s, t, ev); var pc := if t in u.threads then u.threads[t].pc else Finished;
            && u.threads == s.threads[t := s.threads[t].(pc := pc)]
            && (ev.ThreadClear? ==> IsLooping(s, t) && (pc.Finished? || (pc.Cleared? && Current(s, t))))
            && (!ev.ThreadClear? && IsLooping(s, t) ==> pc.Finished?)
            && (!IsLooping(s, t) ==> InFlight(s.threads[t].pc) && (pc.Looping? || pc.Finished? || InFlight(pc)))
            && (ev.ThreadLaunch? ==> !IsLooping(s, t) && !InFlight(pc))
  {
    hide Drop, Create, CreateEncoders, DropEncoders, MoveEncoders, DropCandidate, SwapCanvas, Current;
  }

  lemma ThreadMeters(rule: Rule, x: Race, t: Tid, ev: ThreadEvent)
    requires Sound(rule, x) && Can(x, Protocol(OnThread(t, ev)))
    ensures var y := Do(x, Protocol(OnThread(t, ev))); Labelled(y) && (rule.NoCount? ==> Metered(y))
  {
    hide Order, Conserved, FlightsOk, LoopsOk, LabelsOk, CountingOk, LaunchedOk, ApplyThread, Current;
    var s, u, out := x.s, ApplyThread(x.s, t, ev), Fld(x.s).output;
    EnabledHolds(s, t, ev);
    CapturedOld(s, t);
    ThreadOutput(s, t, ev);
    ThreadMoves(s, t, ev);
    var pc := u.threads[t].pc;
    if pc.Cleared? && IsLooping(s, t) {
      CurrentMeansSame(s, t);
      forall v: Tid | v in s.threads && !s.threads[v].pc.Finished? && s.threads[v].captured == out ensures v == t {
        OneCurrent(s, v);
        OneCurrent(s, t);
      }
      OneClears(s.threads, out, s.ctl.ui, x.phase, x.session, x.attempt, t);
      if rule.NoCount? {
        MeterClears(s.threads, out, x.phase, x.launched, x.session, x.attempt, t);
      }
    } else if !IsLooping(s, t) && !InFlight(pc) {
      OneReturns(s.threads, out, s.ctl.ui, x.phase, x.session, x.attempt, t, pc);
      if rule.NoCount? {
        var more := if ev.ThreadLaunch? then x.launched + [PhaseTicket(PhaseOf(x.phase, t))] else x.launched;
        MeterReturns(s.threads, out, x.phase, x.launched, x.session, x.attempt, t, pc, more);
      }
    } else {
      LabelsGo(s.threads, u.threads, out, out, x.phase, x.session);
      if rule.NoCount? {
        MeterGoes(s.threads, u.threads, out, out, x.phase, x.launched, x.session, x.attempt);
        CountingGoes(s.threads, u.threads, out, out, s.ctl.ui, s.ctl.ui, x.phase, x.session, x.attempt);
      }
    }
  }

  lemma OneClears(threads: map<Tid, Thread>, out: Ref, ui: Ui, phase: map<Tid, Phase>, session: nat, attempt: nat, t: Tid)
    requires Loops(threads, out, t) && PhaseOf(phase, t).Counted? && LabelsOk(threads, out, phase, session) && phase.Keys <= threads.Keys
    ensures var after := threads[t := threads[t].(pc := Cleared)];
            && LabelsOk(after, out, phase, session) && phase.Keys <= after.Keys
            && (CountingOk(threads, out, ui, phase, session, attempt) ==> CountingOk(after, out, ui, phase, session, attempt))
  {
    var after := threads[t := threads[t].(pc := Cleared)];
    assert forall u: Tid :: Counting(after, phase, u) ==> Counting(threads, phase, u) && after[u] == threads[u];
  }

  lemma OneReturns(threads: map<Tid, Thread>, out: Ref, ui: Ui, phase: map<Tid, Phase>, session: nat, attempt: nat, t: Tid, pc: Pc)
    requires Flies(threads, t) && (pc.Looping? || pc.Finished?)
    requires LabelsOk(threads, out, phase, session) && phase.Keys <= threads.Keys
    ensures var after := threads[t := threads[t].(pc := pc)];
            var phase' := if pc.Looping? then phase[t := Top] else phase;
            && LabelsOk(after, out, phase', session) && phase'.Keys <= after.Keys
            && (CountingOk(threads, out, ui, phase, session, attempt) ==> CountingOk(after, out, ui, phase', session, attempt))
  {
    var after := threads[t := threads[t].(pc := pc)];
    var phase' := if pc.Looping? then phase[t := Top] else phase;
    assert forall u: Tid :: u != t ==> PhaseOf(phase', u) == PhaseOf(phase, u);
    assert forall u: Tid :: Counting(after, phase', u) ==> u != t && Counting(threads, phase, u) && after[u] == threads[u];
  }

  lemma EnabledHolds(s: State, t: Tid, ev: ThreadEvent)
    requires EnabledThread(s, t, ev)
    ensures t in s.threads && !s.threads[t].pc.Finished?
  {
  }

  lemma KeepsSound(rule: Rule, x: Race, e: Step)
    requires Sound(rule, x) && Can(x, e) && Apart(rule, x, e)
    ensures Sound(rule, Do(x, e))
  {
    hide Order, Conserved, Metered, Labelled, Apart, Enabled, Apply, Disciplined, Current;
    match e
    case Pass(t) => PassKeeps(rule, x, t);
    case Check(t) => CheckKeeps(rule, x, t);
    case Load(t) => LoadKeeps(rule, x, t);
    case Save(t) => SaveKeeps(rule, x, t);
    case Protocol(ev) =>
      KeepsOrder(x.s, ev);
      Conserves(x.s, ev);
      match ev
      case OnUi(u) => UiMeters(rule, x, u);
      case OnSignal(g) => SignalMeters(rule, x, g);
      case OnThread(t, r) => ThreadMeters(rule, x, t, r);
      case OnReaper(w) => ReaperMeters(rule, x, w);
  }

  lemma {:induction false} RacesSound(rule: Rule, x: Race, es: seq<Step>, y: Race)
    requires Sound(rule, x) && Races(rule, x, es, y)
    ensures Sound(rule, y)
    decreases |es|
  {
    hide Sound, Can, Do, Apart;
    if es != [] {
      KeepsSound(rule, x, es[0]);
      RacesSound(rule, Do(x, es[0]), es[1..], y);
    }
  }

  lemma BeginsSound(rule: Rule, x: Race)
    requires Begins(x)
    ensures Sound(rule, x)
  {
    hide Order, Conserved;
    InitOrder(x.s);
    InitConserved(x.s);
    assert x.s.threads == map[];
  }

  // ----- main result -----

  function LaunchesOf(launched: seq<Ticket>, session: nat): set<nat> {
    set i | 0 <= i < |launched| && launched[i].session == session
  }

  lemma {:induction false} DistinctBelow(indices: set<nat>, launched: seq<Ticket>, session: nat, limit: nat)
    requires forall i :: i in indices ==> i < |launched| && launched[i].session == session && launched[i].attempt < limit
    requires forall i, j :: 0 <= i < j < |launched| ==> launched[i] != launched[j]
    ensures |indices| <= limit
    decreases limit
  {
    if limit == 0 {
      assert indices == {};
    } else if i :| i in indices && launched[i].attempt == limit - 1 {
      DistinctBelow(indices - {i}, launched, session, limit - 1);
    } else {
      DistinctBelow(indices, launched, session, limit - 1);
    }
  }

  /** However the threads interleave, the reconnect threads of one session call obs_output_start at most ten times, as long
      as start() is not called while a thread of an earlier session is counting. */
  lemma AtMostTenReconnects(x: Race, es: seq<Step>, y: Race, session: nat)
    requires Begins(x) && Races(NoCount, x, es, y)
    ensures |LaunchesOf(y.launched, session)| <= MAX_ATTEMPTS
  {
    hide Order, Conserved, FlightsOk, LoopsOk, CountingOk, Begins, Races;
    BeginsSound(NoCount, x);
    RacesSound(NoCount, x, es, y);
    DistinctBelow(LaunchesOf(y.launched, session), y.launched, session, MAX_ATTEMPTS);
  }

  /** A call for the session's output is counted in the present session. */
  lemma LaunchIsOfThisSession(rule: Rule, x: Race, es: seq<Step>, y: Race, t: Tid)
    requires Begins(x) && Races(rule, x, es, y)
    requires Can(y, Protocol(OnThread(t, ThreadLaunch(true)))) && y.s.threads[t].captured == Fld(y.s).output
    ensures PhaseTicket(PhaseOf(y.phase, t)).session == y.session
  {
    hide Order, Conserved, Metered, Begins, Races;
    BeginsSound(rule, x);
    RacesSound(rule, x, es, y);
    assert Flies(y.s.threads, t);
  }
}
