/** Reference conservation in the detach-and-reaper protocol, under the two assumptions of `Disciplined`:
    every created reference has exactly one holder until it is released, and is released exactly once. */
module OutputOwnership {
  import opened OutputLifecycle
  import opened OutputStates
  import opened OutputOrder

  // ----- the store -----

  /** A nonzero pointer is held where the history says ... */
  ghost predicate CellsOk(m: Store) {
    forall o: Owner, slot: Slot {:trigger In(Bundle(m, o), slot)} :: In(Bundle(m, o), slot) != 0 ==>
      In(Bundle(m, o), slot) in m.holder && m.holder[In(Bundle(m, o), slot)] == (o, slot)
  }

  /** ... and what the history says is held is there. */
  ghost predicate HoldersOk(m: Store) {
    forall x: Ref :: x in m.holder ==>
      m.holder[x].0.Released? || In(Bundle(m, m.holder[x].0), m.holder[x].1) == x
  }

  ghost predicate Owned(m: Store) {
    && m.next > 0 && Bundle(m, Released) == NONE && CellsOk(m) && HoldersOk(m)
    && (forall x: Ref :: x in m.holder <==> 0 < x < m.next)
  }

  /** References are only added to the history, and a released one stays released. */
  ghost predicate Grows(m: Store, m': Store) {
    && m.next <= m'.next
    && forall x: Ref :: x in m.holder ==> x in m'.holder && (m.holder[x].0.Released? ==> m'.holder[x].0.Released?)
  }

  /** Only the bundles of `o` and of the fields changed. */
  ghost predicate Frame(m: Store, m': Store, o: Owner) {
    forall p: Owner :: p != o && p != Fields ==> Bundle(m', p) == Bundle(m, p)
  }

  ghost predicate Step(m: Store, m': Store, o: Owner) {
    Owned(m') && Grows(m, m') && Frame(m, m', o)
  }

  lemma PutCells(m: Store, o: Owner, slot: Slot, x: Ref)
    ensures var m' := Put(m, o, slot, x);
            && Bundle(m', o) == With(Bundle(m, o), slot, x) && (forall p: Owner :: p != o ==> Bundle(m', p) == Bundle(m, p))
            && forall p: Owner, b: Slot {:trigger In(Bundle(m', p), b)} ::
                 In(Bundle(m', p), b) == if p == o && b == slot then x else In(Bundle(m, p), b)
  {
  }

  lemma DropKeeps(m: Store, o: Owner, slot: Slot)
    requires Owned(m) && !o.Released?
    ensures var m' := Drop(m, o, slot);
            Step(m, m', o) && Bundle(m', o) == With(Bundle(m, o), slot, 0) && (!o.Fields? ==> Bundle(m', Fields) == Bundle(m, Fields))
  {
    hide In, With;
    PutCells(m, o, slot, 0);
    WithSame(Bundle(m, o), slot);
    var m' := Drop(m, o, slot);
    assert forall p: Owner, b: Slot {:trigger In(Bundle(m', p), b)} ::
      In(Bundle(m', p), b) == if p == o && b == slot then 0 else In(Bundle(m, p), b);
  }

  lemma WithSame(r: Refs, slot: Slot)
    ensures With(r, slot, In(r, slot)) == r
  {
  }

  lemma CreateKeeps(m: Store, o: Owner, slot: Slot)
    requires Owned(m) && !o.Released? && In(Bundle(m, o), slot) == 0
    ensures var m' := Create(m, o, slot);
            && Step(m, m', o) && m'.next == m.next + 1 && Bundle(m', o) == With(Bundle(m, o), slot, m.next)
            && (!o.Fields? ==> Bundle(m', Fields) == Bundle(m, Fields))
  {
    hide In, With;
    PutCells(m, o, slot, m.next);
    var m' := Create(m, o, slot);
    assert forall p: Owner, b: Slot {:trigger In(Bundle(m', p), b)} ::
      In(Bundle(m', p), b) == if p == o && b == slot then m.next else In(Bundle(m, p), b);
    CreatedHolders(m, m', o, slot);
  }

  lemma CreatedHolders(m: Store, m': Store, o: Owner, slot: Slot)
    requires Owned(m) && In(Bundle(m, o), slot) == 0 && m'.holder == m.holder[m.next := (o, slot)]
    requires forall p: Owner, b: Slot {:trigger In(Bundle(m', p), b)} ::
      In(Bundle(m', p), b) == if p == o && b == slot then m.next else In(Bundle(m, p), b)
    ensures HoldersOk(m')
  {
    hide In, CellsOk, Bundle;
  }

  /** The contents of one slot and of the same slot of the fields change places. */
  ghost predicate SlotsSwapped(m: Store, m': Store, o: Owner, slot: Slot) {
    && (forall p: Owner, b: Slot {:trigger In(Bundle(m', p), b)} :: In(Bundle(m', p), b) ==
          if p == o && b == slot then In(Bundle(m, Fields), b) else if p == Fields && b == slot then In(Bundle(m, o), b) else In(Bundle(m, p), b))
    && var x, y := In(Bundle(m, o), slot), In(Bundle(m, Fields), slot);
       && (forall z: Ref :: z in m'.holder <==> z in m.holder || (z == x && x != 0) || (z == y && y != 0))
       && (forall z: Ref :: z in m'.holder ==>
             m'.holder[z] == if z == x && x != 0 then (Fields, slot) else if z == y && y != 0 then (o, slot) else m.holder[z])
  }

  lemma SwappedCells(m: Store, m': Store, o: Owner, slot: Slot)
    requires Owned(m) && !o.Fields? && SlotsSwapped(m, m', o, slot)
    ensures CellsOk(m')
  {
    hide In, Bundle, HoldersOk;
    assert In(Bundle(m, o), slot) != 0 ==> m.holder[In(Bundle(m, o), slot)] == (o, slot);
    forall p: Owner, b: Slot | In(Bundle(m', p), b) != 0
      ensures In(Bundle(m', p), b) in m'.holder && m'.holder[In(Bundle(m', p), b)] == (p, b)
    {
      if b == slot && (p == o || p == Fields) {
      } else {
        assert In(Bundle(m, p), b) in m.holder && m.holder[In(Bundle(m, p), b)] == (p, b);
      }
    }
  }

  lemma SwappedHolders(m: Store, m': Store, o: Owner, slot: Slot)
    requires Owned(m) && !o.Fields? && SlotsSwapped(m, m', o, slot)
    ensures HoldersOk(m')
  {
    hide In, Bundle, CellsOk;
  }

  lemma Exchanged(m: Store, m': Store, o: Owner, slot: Slot)
    requires Owned(m) && !o.Released? && !o.Fields? && m'.next == m.next && Bundle(m', Released) == Bundle(m, Released)
    requires SlotsSwapped(m, m', o, slot)
    ensures Owned(m') && Grows(m, m')
  {
    hide In, Bundle, HoldersOk;
    SwappedCells(m, m', o, slot);
    SwappedHolders(m, m', o, slot);
  }

  /** A pointer may only be handed to an empty slot; otherwise the reference that was there would be lost. */
  lemma MoveKeeps(m: Store, o: Owner, slot: Slot)
    requires Owned(m) && !o.Released? && !o.Fields? && In(Bundle(m, Fields), slot) == 0
    ensures var m' := Move(m, o, Fields, slot);
            && Step(m, m', o) && m'.next == m.next && Bundle(m', o) == With(Bundle(m, o), slot, 0)
            && Bundle(m', Fields) == With(Bundle(m, Fields), slot, In(Bundle(m, o), slot))
  {
    hide Owned, Grows, In, With;
    var x, m1, m' := In(Bundle(m, o), slot), Put(m, o, slot, 0), Move(m, o, Fields, slot);
    MoveHolder(m, o, slot);
    PutCells(m, o, slot, 0);
    PutCells(m1, Fields, slot, x);
    Exchanged(m, m', o, slot);
  }

  lemma MoveHolder(m: Store, o: Owner, slot: Slot)
    requires Owned(m)
    ensures var x := In(Bundle(m, o), slot);
            x != 0 ==> x in m.holder && m.holder[x] == (o, slot)
  {
  }

  lemma SwapKeeps(m: Store, o: Owner)
    requires Owned(m) && !o.Released? && !o.Fields?
    ensures var m' := SwapCanvas(m, o);
            && Step(m, m', o) && m'.next == m.next && Bundle(m', o) == Bundle(m, o).(canvas := Bundle(m, Fields).canvas)
            && Bundle(m', Fields) == Bundle(m, Fields).(canvas := Bundle(m, o).canvas)
  {
    hide Owned, Grows;
    var c, prior, m' := Bundle(m, o).canvas, Bundle(m, Fields).canvas, SwapCanvas(m, o);
    assert In(Bundle(m, o), CanvasSlot) == c && In(Bundle(m, Fields), CanvasSlot) == prior;
    MoveHolder(m, o, CanvasSlot);
    MoveHolder(m, Fields, CanvasSlot);
    PutCells(m, Fields, CanvasSlot, c);
    PutCells(Put(m, Fields, CanvasSlot, c), o, CanvasSlot, prior);
    Exchanged(m, m', o, CanvasSlot);
  }

  lemma DetachCells(m: Store, n: nat)
    ensures var m' := Detach(m, n);
            forall p: Owner, b: Slot {:trigger In(Bundle(m', p), b)} :: In(Bundle(m', p), b) ==
              if p == Fields then 0 else if p == InJob(n) then In(Bundle(m, Fields), b) else In(Bundle(m, p), b)
  {
  }

  lemma DetachHistory(m: Store, n: nat)
    requires Owned(m)
    ensures var m' := Detach(m, n);
            && (forall x: Ref :: x in m'.holder <==> x in m.holder)
            && (forall x: Ref :: x in m'.holder ==> m'.holder[x] == if m.holder[x].0.Fields? then (InJob(n), m.holder[x].1) else m.holder[x])
  {
    hide CellsOk, In;
  }

  lemma DetachOwned(m: Store, m': Store, n: nat)
    requires Owned(m) && Bundle(m, InJob(n)) == NONE
    requires forall p: Owner, b: Slot {:trigger In(Bundle(m', p), b)} :: In(Bundle(m', p), b) ==
               if p == Fields then 0 else if p == InJob(n) then In(Bundle(m, Fields), b) else In(Bundle(m, p), b)
    requires forall x: Ref :: x in m'.holder <==> x in m.holder
    requires forall x: Ref :: x in m'.holder ==> m'.holder[x] == if m.holder[x].0.Fields? then (InJob(n), m.holder[x].1) else m.holder[x]
    ensures CellsOk(m') && HoldersOk(m')
  {
    assert forall b: Slot :: In(NONE, b) == 0;
    hide In, Bundle;
    forall p: Owner, b: Slot | In(Bundle(m', p), b) != 0
      ensures In(Bundle(m', p), b) in m'.holder && m'.holder[In(Bundle(m', p), b)] == (p, b)
    {
      var q := if p == InJob(n) then Fields else p;
      assert In(Bundle(m, q), b) in m.holder && m.holder[In(Bundle(m, q), b)] == (q, b);
    }
  }

  lemma DetachKeeps(m: Store, n: nat)
    requires Owned(m) && Bundle(m, InJob(n)) == NONE
    ensures var m' := Detach(m, n);
            Step(m, m', InJob(n)) && m'.next == m.next && Bundle(m', InJob(n)) == Bundle(m, Fields) && Bundle(m', Fields) == NONE
  {
    hide In, CellsOk, HoldersOk;
    DetachCells(m, n);
    DetachHistory(m, n);
    DetachOwned(m, Detach(m, n), n);
  }

  lemma StepTrans(a: Store, b: Store, c: Store, o: Owner)
    requires Step(a, b, o) && Step(b, c, o)
    ensures Step(a, c, o)
  {
  }

  lemma StayKeeps(m: Store, o: Owner)
    requires Owned(m)
    ensures Step(m, m, o)
  {
  }

  lemma DropEncodersKeep(m: Store, o: Owner)
    requires Owned(m) && !o.Released?
    ensures var m' := DropEncoders(m, o);
            Step(m, m', o) && Bundle(m', o) == Bundle(m, o).(video := 0, audio := 0) && (!o.Fields? ==> Bundle(m', Fields) == Bundle(m, Fields))
  {
    hide Drop, Owned, Grows, Frame;
    DropKeeps(m, o, VideoSlot);
    DropKeeps(Drop(m, o, VideoSlot), o, AudioSlot);
    StepTrans(m, Drop(m, o, VideoSlot), DropEncoders(m, o), o);
  }

  lemma CreateEncodersKeep(m: Store, o: Owner)
    requires Owned(m) && !o.Released? && Bundle(m, o).video == 0 && Bundle(m, o).audio == 0
    ensures var m' := CreateEncoders(m, o);
            && Step(m, m', o) && Bundle(m', o) == Bundle(m, o).(video := m.next, audio := m.next + 1)
            && (!o.Fields? ==> Bundle(m', Fields) == Bundle(m, Fields))
  {
    hide Create, Owned, Grows, Frame;
    CreateKeeps(m, o, VideoSlot);
    CreateKeeps(Create(m, o, VideoSlot), o, AudioSlot);
    StepTrans(m, Create(m, o, VideoSlot), CreateEncoders(m, o), o);
  }

  lemma MoveEncodersKeep(m: Store, o: Owner)
    requires Owned(m) && !o.Released? && !o.Fields? && Bundle(m, Fields).video == 0 && Bundle(m, Fields).audio == 0
    ensures var m' := MoveEncoders(m, o);
            && Step(m, m', o) && Bundle(m', o) == Bundle(m, o).(video := 0, audio := 0)
            && Bundle(m', Fields) == Bundle(m, Fields).(video := Bundle(m, o).video, audio := Bundle(m, o).audio)
  {
    hide Move, Owned, Grows, Frame;
    MoveKeeps(m, o, VideoSlot);
    MoveKeeps(Move(m, o, Fields, VideoSlot), o, AudioSlot);
    StepTrans(m, Move(m, o, Fields, VideoSlot), MoveEncoders(m, o), o);
  }

  lemma DropCandidateKeeps(m: Store, o: Owner)
    requires Owned(m) && !o.Released? && !o.Fields?
    ensures var m' := DropCandidate(m, o);
            Step(m, m', o) && Bundle(m', o) == Bundle(m, o).(video := 0, audio := 0, canvas := 0) && Bundle(m', Fields) == Bundle(m, Fields)
  {
    hide Drop, DropEncoders, Owned, Grows, Frame;
    DropEncodersKeep(m, o);
    DropKeeps(DropEncoders(m, o), o, CanvasSlot);
    StepTrans(m, DropEncoders(m, o), DropCandidate(m, o), o);
  }

  /** The candidate's encoders and canvas are taken over; `o` is left with the old canvas only. */
  lemma TakeOverKeeps(m: Store, o: Owner)
    requires Owned(m) && !o.Released? && !o.Fields? && Bundle(m, Fields).video == 0 && Bundle(m, Fields).audio == 0
    ensures var m' := SwapCanvas(MoveEncoders(m, o), o);
            && Step(m, m', o) && Bundle(m', o) == Bundle(m, o).(video := 0, audio := 0, canvas := Bundle(m, Fields).canvas)
            && Bundle(m', Fields) == Bundle(m, Fields).(video := Bundle(m, o).video, audio := Bundle(m, o).audio, canvas := Bundle(m, o).canvas)
  {
    hide MoveEncoders, SwapCanvas, Owned, Grows, Frame;
    MoveEncodersKeep(m, o);
    SwapKeeps(MoveEncoders(m, o), o);
    StepTrans(m, MoveEncoders(m, o), SwapCanvas(MoveEncoders(m, o), o), o);
  }

  lemma PublishKeeps(m: Store)
    requires Owned(m)
    ensures var m' := Publish(m); var r := Bundle(m, UiLocal);
            && Step(m, m', UiLocal) && Bundle(m', UiLocal) == r.(video := 0, audio := 0, canvas := Bundle(m, Fields).canvas)
            && Bundle(m', Fields) == Bundle(m, Fields).(video := r.video, audio := r.audio, canvas := r.canvas)
  {
    hide DropEncoders, MoveEncoders, SwapCanvas, Owned, Grows;
    DropEncodersKeep(m, Fields);
    TakeOverKeeps(DropEncoders(m, Fields), UiLocal);
    StepWiden(m, DropEncoders(m, Fields), UiLocal);
    StepTrans(m, DropEncoders(m, Fields), Publish(m), UiLocal);
  }

  lemma StepWiden(m: Store, m': Store, o: Owner)
    requires Step(m, m', Fields)
    ensures Step(m, m', o)
  {
  }

  // ----- what each thread may hold where -----

  predicate UiOk(ui: Ui, r: Refs) {
    && r.output == 0 && r.service == 0
    && (!ui.Publishing? ==> r.video == 0 && r.audio == 0)
    && (r.canvas != 0 ==> ui.Preparing? || ui.Encoding? || ui.Publishing? || ui.DroppingOld?)
  }

  predicate ThOk(pc: Pc, r: Refs) {
    && r.output == 0 && r.service == 0
    && (!pc.Ready? ==> r.video == 0 && r.audio == 0)
    && (r.canvas != 0 ==> pc.Candidate? || pc.Ready? || pc.Swapped?)
  }

  predicate FieldsOk(ui: Ui, r: Refs) {
    && (r.output == 0 ==> r.service == 0)
    && (ui.Retry? ==> r.video == 0 && r.audio == 0)
  }

  ghost predicate ThreadsHold(m: Store, threads: map<Tid, Thread>) {
    forall t: Tid :: ThOk(if t in threads then threads[t].pc else Finished, Bundle(m, ThreadLocal(t)))
  }

  ghost predicate JobsHold(m: Store, line: seq<Job>, head: nat) {
    forall n: nat :: Bundle(m, InJob(n)) != NONE ==> head <= n < head + |line| && line[n - head].Teardown?
  }

  ghost predicate StoreOk(m: Store, ui: Ui, threads: map<Tid, Thread>, line: seq<Job>, head: nat) {
    Owned(m) && UiOk(ui, Bundle(m, UiLocal)) && FieldsOk(ui, Bundle(m, Fields)) && ThreadsHold(m, threads) && JobsHold(m, line, head)
  }

  predicate InStart(ui: Ui) {
    ui.LazyJoin? || ui.Joining? || ui.Resolving? || ui.Preparing? || NeedsOutput(ui)
  }

  predicate SessionState(state: OutputState) {
    state.Starting? || state.Live? || state.Reconnecting?
  }

  predicate BeforeCommit(pc: Pc) {
    pc.Cleared? || pc.Candidate? || pc.Ready?
  }

  /** At most one thread works on the session's output, and not beside start(), a signal handler or a running output. */
  ghost predicate Exclusive(threads: map<Tid, Thread>, r: Refs, c: Control, running: set<Ref>) {
    && (forall t: Tid :: t in threads ==> !threads[t].pc.Spawned?)
    && (forall t: Tid :: t in threads && !threads[t].pc.Finished? && threads[t].captured == r.output ==>
          && t == c.reconnect && c.state.Reconnecting? && c.signal.Quiet? && r.output !in running
          && (BeforeCommit(threads[t].pc) ==> r.video == 0 && r.audio == 0))
    && (InStart(c.ui) ==> c.state.Starting? && c.signal.Quiet? && r.output !in running)
    && (!c.signal.Quiet? ==> r.output !in running && if c.signal.Handling? then SessionState(c.state) else c.state.Reconnecting?)
    && (r.output in running ==> SessionState(c.state))
  }

  /** After the shutdown call's detach nothing is left in the fields. */
  ghost predicate Drained(r: Refs, c: Control, line: seq<Job>) {
    && (c.ui.Relinquished? && (forall k :: 0 <= k < |line| ==> line[k].Teardown?) ==> r == NONE && c.reconnect == 0)
    && (c.shutdownDone ==> c.ui.Relinquished? && forall k :: 0 <= k < |line| ==> !line[k].ShutdownNew?)
  }

  ghost predicate Conserved(s: State) {
    && StoreOk(s.store, s.ctl.ui, s.threads, s.reaper.line, s.reaper.head)
    && Exclusive(s.threads, Fld(s), s.ctl, s.objects.running)
    && (forall o: Ref :: o in s.objects.running ==> 0 < o < s.store.next)
    && Drained(Fld(s), s.ctl, s.reaper.line)
  }

  ghost predicate Kept(s: State, t: State) {
    Conserved(t) && Grows(s.store, t.store)
  }

  /** start() is not called while Reconnecting, and a reconnect thread captures its output as it is spawned. */
  predicate Disciplined(s: State, ev: Event) {
    && (ev.OnUi? && ev.u.UiStart? ==> !s.ctl.state.Reconnecting?)
    && (ev.OnSignal? && ev.g.SignalSpawn? ==> ev.g.captured)
  }

  // ----- the UI thread -----

  lemma UiStoreGoes(m: Store, m': Store, ui: Ui, ui': Ui, threads: map<Tid, Thread>, line: seq<Job>, head: nat)
    requires StoreOk(m, ui, threads, line, head) && Step(m, m', UiLocal)
    requires UiOk(ui', Bundle(m', UiLocal)) && FieldsOk(ui', Bundle(m', Fields))
    ensures StoreOk(m', ui', threads, line, head)
  {
    hide Owned, Grows;
  }

  /** While start() runs, only the session's encoders and canvas change. */
  lemma UiConserves(s: State, m: Store, c: Control, running: set<Ref>)
    requires Conserved(s) && Step(s.store, m, UiLocal) && InStart(s.ctl.ui)
    requires UiOk(c.ui, Bundle(m, UiLocal)) && FieldsOk(c.ui, Bundle(m, Fields))
    requires Bundle(m, Fields).output == Fld(s).output
    requires c == s.ctl.(ui := c.ui, state := c.state) && c.state == (if InStart(c.ui) then Starting else c.state) && !c.ui.Relinquished?
    requires c.state.Starting? || c.state.FailedHard?
    requires running == s.objects.running || (running == s.objects.running + {Fld(s).output} && c.state.Starting? && !InStart(c.ui) && Fld(s).output != 0
                                              && Fld(s).output < s.store.next)
    ensures Kept(s, s.(store := m, ctl := c, objects := s.objects.(running := running)))
  {
    hide StoreOk, Owned, Frame, UiOk, FieldsOk;
    UiStoreGoes(s.store, m, s.ctl.ui, c.ui, s.threads, s.reaper.line, s.reaper.head);
  }

  lemma GotoConserves(s: State, m: Store, ui: Ui)
    requires Conserved(s) && Step(s.store, m, UiLocal) && InStart(s.ctl.ui) && InStart(ui)
    requires UiOk(ui, Bundle(m, UiLocal)) && FieldsOk(ui, Bundle(m, Fields)) && Bundle(m, Fields).output == Fld(s).output
    ensures Kept(s, Goto(s, m, ui))
  {
    hide StoreOk, Step, UiOk, FieldsOk;
    UiConserves(s, m, s.ctl.(ui := ui), s.objects.running);
  }

  lemma FailConserves(s: State, m: Store)
    requires Conserved(s) && Step(s.store, m, UiLocal) && InStart(s.ctl.ui)
    requires UiOk(Free, Bundle(m, UiLocal)) && FieldsOk(Free, Bundle(m, Fields)) && Bundle(m, Fields).output == Fld(s).output
    ensures Kept(s, Fail(s, m))
  {
    hide Conserved, Step, UiOk, FieldsOk;
    UiConserves(s, m, s.ctl.(ui := Free, state := FailedHard), s.objects.running);
  }

  lemma StoreFacts(s: State)
    requires Conserved(s)
    ensures Owned(s.store) && UiOk(s.ctl.ui, Bundle(s.store, UiLocal)) && FieldsOk(s.ctl.ui, Fld(s))
    ensures forall t: Tid :: ThOk(Th(s, t).pc, Bundle(s.store, ThreadLocal(t)))
    ensures forall n: nat :: n >= s.reaper.head + |s.reaper.line| ==> Bundle(s.store, InJob(n)) == NONE
    ensures s.reaper.line != [] && !s.reaper.line[0].Teardown? ==> Bundle(s.store, InJob(s.reaper.head)) == NONE
  {
    hide Owned, UiOk, FieldsOk, ThOk, Exclusive, Drained;
  }

  lemma StartFacts(s: State)
    requires Conserved(s)
    ensures InStart(s.ctl.ui) ==> s.ctl.state.Starting? && s.ctl.signal.Quiet?
    ensures Fld(s).output in s.objects.running ==> SessionState(s.ctl.state)
  {
    hide StoreOk, Drained;
  }

  lemma EncodeConserves(s: State, ok: bool)
    requires Conserved(s) && s.ctl.ui.Encoding?
    ensures Kept(s, ApplyUi(s, UiEncode(ok)))
  {
    hide Conserved, Step, Owned, CreateEncoders, Drop;
    StoreFacts(s);
    if ok {
      CreateEncodersKeep(s.store, UiLocal);
      GotoConserves(s, CreateEncoders(s.store, UiLocal), Publishing);
    } else {
      DropKeeps(s.store, UiLocal, CanvasSlot);
      FailConserves(s, Drop(s.store, UiLocal, CanvasSlot));
    }
  }

  lemma PublishConserves(s: State, removed: bool)
    requires Conserved(s) && s.ctl.ui.Publishing?
    ensures Kept(s, ApplyUi(s, UiPublish(removed)))
  {
    hide Conserved, Step, Owned, Publish, DropCandidate;
    StoreFacts(s);
    if removed {
      DropCandidateKeeps(s.store, UiLocal);
      FailConserves(s, DropCandidate(s.store, UiLocal));
    } else {
      PublishKeeps(s.store);
      GotoConserves(s, Publish(s.store), DroppingOld);
    }
  }

  lemma ResolveConserves(s: State, ok: bool, canvas: bool)
    requires Conserved(s) && s.ctl.ui.Resolving?
    ensures Kept(s, ApplyUi(s, UiResolve(ok, canvas)))
  {
    hide Conserved, Step, Owned, Create;
    StoreFacts(s);
    StayKeeps(s.store, UiLocal);
    if !ok {
      FailConserves(s, s.store);
    } else if canvas {
      CreateKeeps(s.store, UiLocal, CanvasSlot);
      GotoConserves(s, Create(s.store, UiLocal, CanvasSlot), Preparing);
    } else {
      GotoConserves(s, s.store, Preparing);
    }
  }

  lemma DropOldConserves(s: State)
    requires Conserved(s) && s.ctl.ui.DroppingOld?
    ensures Kept(s, ApplyUi(s, UiDropOld))
  {
    hide Conserved, Step, Owned, Drop;
    StoreFacts(s);
    DropKeeps(s.store, UiLocal, CanvasSlot);
    GotoConserves(s, Drop(s.store, UiLocal, CanvasSlot), Launch);
  }

  lemma RetryConserves(s: State, ok: bool)
    requires Conserved(s) && s.ctl.ui.Retry?
    ensures Kept(s, ApplyUi(s, UiRetry(ok)))
  {
    hide Conserved, Step, Owned, CreateEncoders, MoveEncoders;
    StoreFacts(s);
    StayKeeps(s.store, UiLocal);
    if ok {
      var a := CreateEncoders(s.store, UiLocal);
      CreateEncodersKeep(s.store, UiLocal);
      StepOwned(s.store, a, UiLocal);
      MoveEncodersKeep(a, UiLocal);
      StepTrans(s.store, a, MoveEncoders(a, UiLocal), UiLocal);
      GotoConserves(s, MoveEncoders(a, UiLocal), Launch);
    } else {
      FailConserves(s, s.store);
    }
  }

  lemma StepOwned(m: Store, m': Store, o: Owner)
    requires Step(m, m', o)
    ensures Owned(m')
  {
  }

  lemma LaunchConserves(s: State, ok: bool, retry: bool)
    requires Order(s) && Conserved(s) && s.ctl.ui.Launch?
    ensures Kept(s, LaunchOutput(s, ok, retry))
  {
    hide Order, Conserved, Step, Owned, DropEncoders;
    StoreFacts(s);
    StayKeeps(s.store, UiLocal);
    DropEncodersKeep(s.store, Fields);
    UiLocalStays(s.store, DropEncoders(s.store, Fields));
    StepWiden(s.store, DropEncoders(s.store, Fields), UiLocal);
    StartFacts(s);
    if ok {
      LaunchedIsAlive(s);
      SessionOutput(s);
      UiConserves(s, s.store, s.ctl.(ui := Free), s.objects.running + {Fld(s).output});
    } else if retry {
      GotoConserves(s, DropEncoders(s.store, Fields), Retry);
    } else {
      FailConserves(s, DropEncoders(s.store, Fields));
    }
  }

  lemma SessionOutput(s: State)
    requires Order(s)
    ensures Fld(s).output in s.objects.alive ==> 0 < Fld(s).output < s.store.next
    ensures InStart(s.ctl.ui) ==> !s.ctl.stopped
    ensures NeedsOutput(s.ctl.ui) || s.ctl.connected || !s.ctl.signal.Quiet? ==> Fld(s).output != 0
    ensures s.store.next > 0
  {
    hide ThreadsOk, CapturedOk, JobsOk;
  }

  lemma PrepareConserves(s: State, ok: bool, at: nat)
    requires Order(s) && Conserved(s) && s.ctl.ui.Preparing?
    ensures Kept(s, Prepare(s, ok, at))
  {
    hide Order, Conserved, Step, Owned, Drop;
    StoreFacts(s);
    if Fld(s).output != 0 {
      StayKeeps(s.store, UiLocal);
      GotoConserves(s, s.store, Encoding);
    } else if !ok {
      DropKeeps(s.store, UiLocal, CanvasSlot);
      FailConserves(s, Drop(s.store, UiLocal, CanvasSlot));
    } else {
      NewOutputConserves(s, at);
    }
  }

  /** No thread can have captured an output that does not exist yet. */
  lemma NothingCaptured(s: State, o: Ref)
    requires Order(s) && o >= s.store.next
    requires forall t: Tid :: t in s.threads ==> !s.threads[t].pc.Spawned?
    ensures forall t: Tid :: t in s.threads && !s.threads[t].pc.Finished? ==> s.threads[t].captured != o
  {
    hide Order;
    forall t: Tid | t in s.threads && !s.threads[t].pc.Finished? ensures s.threads[t].captured != o {
      CurrentMeansSame(s, t);
    }
  }

  lemma NewOutputConserves(s: State, at: nat)
    requires Order(s) && Conserved(s) && s.ctl.ui.Preparing? && Fld(s).output == 0
    ensures Kept(s, Prepare(s, true, at))
  {
    hide Order, Owned, Step, Create, StoreOk;
    StoreFacts(s);
    SessionOutput(s);
    var a := Create(s.store, Fields, OutputSlot);
    var b := Create(a, Fields, ServiceSlot);
    CreateKeeps(s.store, Fields, OutputSlot);
    StepOwned(s.store, a, Fields);
    CreateKeeps(a, Fields, ServiceSlot);
    StepTrans(s.store, a, b, Fields);
    StepWiden(s.store, b, UiLocal);
    UiLocalStays(s.store, b);
    UiStoreGoes(s.store, b, Preparing, Encoding, s.threads, s.reaper.line, s.reaper.head);
    NothingCaptured(s, s.store.next);
    StepGrows(s.store, b, UiLocal);
  }

  lemma UiLocalStays(m: Store, m': Store)
    requires Step(m, m', Fields)
    ensures Bundle(m', UiLocal) == Bundle(m, UiLocal)
  {
  }

  lemma StepGrows(m: Store, m': Store, o: Owner)
    requires Step(m, m', o)
    ensures m'.next >= m.next
  {
  }

  lemma StartConserves(s: State, ev: UiEvent)
    requires Order(s) && Conserved(s) && EnabledUi(s, ev) && InStart(s.ctl.ui)
    ensures Kept(s, ApplyUi(s, ev))
  {
    hide Order, Conserved, Prepare, LaunchOutput, Create, Drop, CreateEncoders, MoveEncoders, DropCandidate, Publish;
    match ev
    case UiTakeStale => TakeStaleConserves(s);
    case UiJoined => JoinedConserves(s);
    case UiResolve(ok, canvas) => ResolveConserves(s, ok, canvas);
    case UiPrepare(ok, at) => PrepareConserves(s, ok, at);
    case UiEncode(ok) => EncodeConserves(s, ok);
    case UiPublish(removed) => PublishConserves(s, removed);
    case UiDropOld => DropOldConserves(s);
    case UiLaunch(ok, retry) => LaunchConserves(s, ok, retry);
    case UiRetry(ok) => RetryConserves(s, ok);
    case _ =>
  }

  lemma TakeStaleConserves(s: State)
    requires Conserved(s) && s.ctl.ui.LazyJoin?
    ensures Kept(s, ApplyUi(s, UiTakeStale))
  {
    hide Owned;
  }

  lemma JoinedConserves(s: State)
    requires Conserved(s) && s.ctl.ui.Joining?
    ensures Kept(s, ApplyUi(s, UiJoined))
  {
    hide Owned;
  }

  lemma StartFreshConserves(s: State)
    requires Conserved(s) && EnabledUi(s, UiStart) && !s.ctl.state.Reconnecting?
    ensures Kept(s, ApplyUi(s, UiStart))
  {
    hide Owned;
  }

  lemma StopConserves(s: State)
    requires Conserved(s) && s.ctl.ui.Free?
    ensures Kept(s, ApplyUi(s, UiStop))
  {
    hide CellsOk, HoldersOk, ThreadsHold, JobsHold;
  }

  lemma DisconnectConserves(s: State)
    requires Conserved(s) && s.ctl.ui.Disconnecting?
    ensures Kept(s, ApplyUi(s, UiDisconnect))
  {
    hide Owned;
  }

  lemma RelinquishConserves(s: State)
    requires Conserved(s) && s.ctl.ui.Free?
    ensures Kept(s, ApplyUi(s, UiRelinquish))
  {
    hide Owned;
    assert (s.reaper.line + [ShutdownNew])[|s.reaper.line|] == ShutdownNew;
  }

  // ----- detach -----

  lemma DetachStore(m: Store, ui: Ui, threads: map<Tid, Thread>, line: seq<Job>, head: nat, n: nat, line': seq<Job>)
    requires StoreOk(m, ui, threads, line, head) && Bundle(m, InJob(n)) == NONE
    requires head <= n < head + |line'| && |line'| >= |line| && line'[n - head].Teardown?
    requires forall k :: 0 <= k < |line| && line[k].Teardown? ==> line'[k] == line[k]
    ensures StoreOk(Detach(m, n), ui, threads, line', head)
  {
    hide Owned, Grows, Detach;
    DetachKeeps(m, n);
  }

  lemma DetachConserves(s: State, n: nat, line: seq<Job>)
    requires Order(s) && Conserved(s) && s.ctl.signal.Quiet? && !InStart(s.ctl.ui) && Bundle(s.store, InJob(n)) == NONE
    requires s.reaper.head <= n < s.reaper.head + |line| && |line| >= |s.reaper.line| && line[n - s.reaper.head] == TeardownJob(s)
    requires forall k :: 0 <= k < |line| && k != n - s.reaper.head ==> k < |s.reaper.line| && line[k] == s.reaper.line[k]
    requires forall k :: 0 <= k < |s.reaper.line| && s.reaper.line[k].Teardown? ==> line[k] == s.reaper.line[k]
    ensures Kept(s, DetachTo(s, n, line))
  {
    hide Order, StoreOk, Owned, Grows, Detach, Frame;
    StoreFacts(s);
    DetachKeeps(s.store, n);
    DetachStore(s.store, s.ctl.ui, s.threads, s.reaper.line, s.reaper.head, n, line);
    CapturedPositive(s);
  }

  lemma CapturedPositive(s: State)
    requires Order(s) && forall t: Tid :: t in s.threads ==> !s.threads[t].pc.Spawned?
    ensures forall t: Tid :: t in s.threads && !s.threads[t].pc.Finished? ==> s.threads[t].captured != 0
  {
    hide ObjectsOk, ThreadsOk, SignalsOk, JobsOk;
  }

  lemma StopDetachConserves(s: State)
    requires Order(s) && Conserved(s) && s.ctl.ui.Detaching?
    ensures Kept(s, StopDetach(s))
  {
    hide Order, Conserved, DetachTo;
    ReadyToDetach(s);
    StoreFacts(s);
    var line := s.reaper.line + [TeardownJob(s)];
    var n := s.reaper.head + |s.reaper.line|;
    if !NothingToStop(s) {
      DetachConserves(s, n, line);
      DetachEmpties(s, n, line);
    }
    var t := if NothingToStop(s) then s else DetachTo(s, n, line);
    FreeConserves(t);
  }

  lemma FreeConserves(s: State)
    requires Conserved(s) && s.ctl.ui.Detaching?
    ensures Kept(s, s.(ctl := s.ctl.(ui := Free, stopped := true)))
  {
    hide Owned;
  }

  lemma UiConservesAll(s: State, ev: UiEvent)
    requires Order(s) && Conserved(s) && EnabledUi(s, ev) && Disciplined(s, OnUi(ev))
    ensures Kept(s, ApplyUi(s, ev))
  {
    hide Order, Conserved;
    match ev
    case UiStart => StartFreshConserves(s);
    case UiStop => StopConserves(s);
    case UiDisconnect => DisconnectConserves(s);
    case UiDetach => StopDetachConserves(s);
    case UiRelinquish => RelinquishConserves(s);
    case _ => StartConserves(s, ev);
  }

  // ----- reconnect threads -----

  lemma ThreadStoreGoes(m: Store, m': Store, ui: Ui, threads: map<Tid, Thread>, line: seq<Job>, head: nat, t: Tid, th: Thread)
    requires StoreOk(m, ui, threads, line, head) && Step(m, m', ThreadLocal(t))
    requires ThOk(th.pc, Bundle(m', ThreadLocal(t))) && FieldsOk(ui, Bundle(m', Fields))
    ensures StoreOk(m', ui, threads[t := th], line, head)
  {
    hide Owned, Grows;
  }

  /** What a reconnect thread may do: work on its own locals, and on the session's references while the output is its own. */
  lemma ThreadConserves(s: State, t: Tid, m: Store, pc: Pc, state: OutputState, running: set<Ref>)
    requires Order(s) && Conserved(s) && t in s.threads && UsesOutput(s.threads[t].pc) && !pc.Spawned?
    requires Step(s.store, m, ThreadLocal(t)) && ThOk(pc, Bundle(m, ThreadLocal(t))) && FieldsOk(s.ctl.ui, Bundle(m, Fields))
    requires var mine := s.threads[t].captured == Fld(s).output;
             && Bundle(m, Fields).output == Fld(s).output && (Bundle(m, Fields) != Fld(s) ==> mine)
             && (mine && BeforeCommit(pc) ==> Bundle(m, Fields).video == 0 && Bundle(m, Fields).audio == 0)
             && (state == s.ctl.state || (mine && pc.Finished?))
             && (running == s.objects.running || (running == s.objects.running + {s.threads[t].captured} && pc.Finished? && state == s.ctl.state))
    ensures Kept(s, Advance(s, t, m, pc).(ctl := s.ctl.(state := state), objects := s.objects.(running := running)))
  {
    hide Order, StoreOk, Owned, Frame, ThOk, FieldsOk;
    ThreadStoreGoes(s.store, m, s.ctl.ui, s.threads, s.reaper.line, s.reaper.head, t, Th(s, t).(pc := pc));
    CurrentMeansSame(s, t);
  }

  lemma MineFacts(s: State, t: Tid)
    requires Order(s) && Conserved(s) && t in s.threads && UsesOutput(s.threads[t].pc)
    ensures Current(s, t) <==> s.threads[t].captured == Fld(s).output
    ensures Current(s, t) && BeforeCommit(s.threads[t].pc) ==> Fld(s).video == 0 && Fld(s).audio == 0
    ensures Current(s, t) ==> !InStart(s.ctl.ui)
  {
    hide Order, StoreOk;
    CurrentMeansSame(s, t);
  }

  lemma AdvanceConserves(s: State, t: Tid, m: Store, pc: Pc)
    requires Order(s) && Conserved(s) && t in s.threads && UsesOutput(s.threads[t].pc) && !pc.Spawned?
    requires Step(s.store, m, ThreadLocal(t)) && ThOk(pc, Bundle(m, ThreadLocal(t))) && Bundle(m, Fields) == Fld(s)
    requires BeforeCommit(pc) ==> BeforeCommit(s.threads[t].pc)
    ensures Kept(s, Advance(s, t, m, pc))
  {
    hide Order, Conserved, Step, ThOk, FieldsOk;
    StoreFacts(s);
    MineFacts(s, t);
    ThreadConserves(s, t, m, pc, s.ctl.state, s.objects.running);
  }

  lemma GiveUpConserves(s: State, t: Tid, m: Store)
    requires Order(s) && Conserved(s) && t in s.threads && UsesOutput(s.threads[t].pc)
    requires Step(s.store, m, ThreadLocal(t)) && ThOk(Finished, Bundle(m, ThreadLocal(t))) && Bundle(m, Fields) == Fld(s)
    ensures Kept(s, GiveUp(s, t, m))
  {
    hide Order, Conserved, Step, ThOk, FieldsOk;
    StoreFacts(s);
    MineFacts(s, t);
    ThreadConserves(s, t, m, Finished, if Current(s, t) then FailedHard else s.ctl.state, s.objects.running);
  }

  lemma ClearConserves(s: State, t: Tid)
    requires Order(s) && Conserved(s) && t in s.threads && s.threads[t].pc.Looping?
    ensures Kept(s, ApplyThread(s, t, ThreadClear))
  {
    hide Order, Conserved, Step, DropEncoders;
    StoreFacts(s);
    MineFacts(s, t);
    var m := DropEncoders(s.store, Fields);
    StayKeeps(s.store, ThreadLocal(t));
    DropEncodersKeep(s.store, Fields);
    StepFrame(s.store, m, t);
    if Valid(s, t) {
      ThreadConserves(s, t, m, Cleared, s.ctl.state, s.objects.running);
    } else {
      AdvanceConserves(s, t, s.store, Finished);
    }
  }

  lemma StepFrame(m: Store, m': Store, t: Tid)
    requires Step(m, m', Fields)
    ensures Step(m, m', ThreadLocal(t)) && Bundle(m', ThreadLocal(t)) == Bundle(m, ThreadLocal(t))
  {
  }

  lemma ThreadResolveConserves(s: State, t: Tid, ok: bool, canvas: bool)
    requires Order(s) && Conserved(s) && t in s.threads && s.threads[t].pc.Cleared?
    ensures Kept(s, ApplyThread(s, t, ThreadResolve(ok, canvas)))
  {
    hide Order, Conserved, Step, Create;
    var me := ThreadLocal(t);
    StoreFacts(s);
    assert ThOk(Th(s, t).pc, Bundle(s.store, me));
    StayKeeps(s.store, me);
    if !Valid(s, t) {
      AdvanceConserves(s, t, s.store, Finished);
    } else if !ok {
      GiveUpConserves(s, t, s.store);
    } else if canvas {
      CreateKeeps(s.store, me, CanvasSlot);
      AdvanceConserves(s, t, Create(s.store, me, CanvasSlot), Candidate);
    } else {
      AdvanceConserves(s, t, s.store, Candidate);
    }
  }

  lemma ThreadEncodeConserves(s: State, t: Tid, ok: bool)
    requires Order(s) && Conserved(s) && t in s.threads && s.threads[t].pc.Candidate?
    ensures Kept(s, ApplyThread(s, t, ThreadEncode(ok)))
  {
    hide Order, Conserved, Step, CreateEncoders, Drop;
    var me := ThreadLocal(t);
    StoreFacts(s);
    assert ThOk(Th(s, t).pc, Bundle(s.store, me));
    if ok {
      CreateEncodersKeep(s.store, me);
      AdvanceConserves(s, t, CreateEncoders(s.store, me), Ready);
    } else {
      DropKeeps(s.store, me, CanvasSlot);
      AdvanceConserves(s, t, Drop(s.store, me, CanvasSlot), Looping);
    }
  }

  lemma CommitConserves(s: State, t: Tid, removed: bool)
    requires Order(s) && Conserved(s) && t in s.threads && s.threads[t].pc.Ready?
    ensures Kept(s, ApplyThread(s, t, ThreadCommit(removed)))
  {
    hide Order, Conserved, Step, SwapCanvas, MoveEncoders, DropCandidate;
    var me := ThreadLocal(t);
    StoreFacts(s);
    assert ThOk(Th(s, t).pc, Bundle(s.store, me));
    MineFacts(s, t);
    DropCandidateKeeps(s.store, me);
    if removed {
      GiveUpConserves(s, t, DropCandidate(s.store, me));
    } else if Valid(s, t) {
      var m := SwapCanvas(MoveEncoders(s.store, me), me);
      TakeOverKeeps(s.store, me);
      ThreadConserves(s, t, m, Swapped, s.ctl.state, s.objects.running);
    } else {
      AdvanceConserves(s, t, DropCandidate(s.store, me), Finished);
    }
  }

  lemma ThreadDropOldConserves(s: State, t: Tid)
    requires Order(s) && Conserved(s) && t in s.threads && s.threads[t].pc.Swapped?
    ensures Kept(s, ApplyThread(s, t, ThreadDropOld))
  {
    hide Order, Conserved, Step, Drop;
    StoreFacts(s);
    assert ThOk(Th(s, t).pc, Bundle(s.store, ThreadLocal(t)));
    DropKeeps(s.store, ThreadLocal(t), CanvasSlot);
    AdvanceConserves(s, t, Drop(s.store, ThreadLocal(t), CanvasSlot), Launching);
  }

  lemma ThreadLaunchConserves(s: State, t: Tid, ok: bool)
    requires Order(s) && Conserved(s) && t in s.threads && s.threads[t].pc.Launching?
    ensures Kept(s, ApplyThread(s, t, ThreadLaunch(ok)))
  {
    hide Order, Conserved, Step;
    StoreFacts(s);
    assert ThOk(Th(s, t).pc, Bundle(s.store, ThreadLocal(t)));
    StayKeeps(s.store, ThreadLocal(t));
    if ok {
      ThreadConserves(s, t, s.store, Finished, s.ctl.state, s.objects.running + {s.threads[t].captured});
    } else {
      AdvanceConserves(s, t, s.store, if Current(s, t) then Looping else Finished);
    }
  }

  lemma ThreadConservesAll(s: State, t: Tid, ev: ThreadEvent)
    requires Order(s) && Conserved(s) && EnabledThread(s, t, ev)
    ensures Kept(s, ApplyThread(s, t, ev))
  {
    hide Order, Conserved, Step, Create, Drop, CreateEncoders, DropEncoders, MoveEncoders, SwapCanvas, DropCandidate;
    StoreFacts(s);
    assert ThOk(Th(s, t).pc, Bundle(s.store, ThreadLocal(t)));
    StayKeeps(s.store, ThreadLocal(t));
    match ev
    case ThreadEnter => NoneSpawned(s);
    case ThreadClear => ClearConserves(s, t);
    case ThreadGiveUp => GiveUpConserves(s, t, s.store);
    case ThreadLeave => AdvanceConserves(s, t, s.store, Finished);
    case ThreadSkip => AdvanceConserves(s, t, s.store, Looping);
    case ThreadResolve(ok, canvas) => ThreadResolveConserves(s, t, ok, canvas);
    case ThreadEncode(ok) => ThreadEncodeConserves(s, t, ok);
    case ThreadCommit(removed) => CommitConserves(s, t, removed);
    case ThreadDropOld => ThreadDropOldConserves(s, t);
    case ThreadLaunch(ok) => ThreadLaunchConserves(s, t, ok);
  }

  lemma NoneSpawned(s: State)
    requires Conserved(s)
    ensures forall t: Tid :: t in s.threads ==> !s.threads[t].pc.Spawned?
  {
    hide StoreOk;
  }

  // ----- signals -----

  lemma SpawnConserves(s: State)
    requires Order(s) && Conserved(s) && s.ctl.signal.Spawning?
    ensures Kept(s, ApplySignal(s, SignalSpawn(true)))
  {
    hide Order, Owned;
    SignalHasSession(s);
    SessionOutput(s);
    SpawnIsNew(s);
  }

  lemma SpawnIsNew(s: State)
    requires Order(s)
    ensures s.nextTid !in s.threads
  {
    hide ObjectsOk, CapturedOk, SignalsOk, JobsOk;
  }

  lemma SignalConserves(s: State, ev: SignalEvent)
    requires Order(s) && Conserved(s) && EnabledSignal(s, ev) && Disciplined(s, OnSignal(ev)) && !ev.SignalSpawn?
    ensures Kept(s, ApplySignal(s, ev))
  {
    hide Order, StoreOk;
    SessionOutput(s);
  }

  // ----- the reaper -----

  lemma ReleaseStore(m: Store, ui: Ui, threads: map<Tid, Thread>, line: seq<Job>, head: nat)
    requires StoreOk(m, ui, threads, line, head) && line != [] && line[0].Teardown?
    ensures var r := Bundle(m, InJob(head));
            if r == NONE then StoreOk(m, ui, threads, line[1..], head + 1)
            else StoreOk(Drop(m, InJob(head), NextSlot(r)), ui, threads, line, head)
  {
    hide Owned, Grows, Drop;
    if Bundle(m, InJob(head)) != NONE {
      DropKeeps(m, InJob(head), NextSlot(Bundle(m, InJob(head))));
    }
  }

  lemma ReleaseConserves(s: State)
    requires Conserved(s) && EnabledReaper(s, ReaperRelease)
    ensures Kept(s, ReleaseNext(s))
  {
    hide StoreOk, Drop, Owned, Grows, Frame;
    var w := s.reaper;
    var r := Bundle(s.store, InJob(w.head));
    ReleaseStore(s.store, s.ctl.ui, s.threads, w.line, w.head);
    StoreFacts(s);
    StayKeeps(s.store, InJob(w.head));
    if r != NONE {
      DropKeeps(s.store, InJob(w.head), NextSlot(r));
      StepGrows(s.store, Drop(s.store, InJob(w.head), NextSlot(r)), InJob(w.head));
    } else {
      assert forall k :: 0 <= k < |w.line| - 1 ==> w.line[1..][k] == w.line[k + 1];
      assert forall k :: 1 <= k < |w.line| ==> w.line[k] == w.line[1..][k - 1];
    }
  }

  lemma ReaperConserves(s: State, ev: ReaperEvent)
    requires Order(s) && Conserved(s) && EnabledReaper(s, ev)
    ensures Kept(s, ApplyReaper(s, ev))
  {
    hide Order, Conserved, DetachTo;
    match ev
    case ReaperClaim => ClaimConserves(s);
    case ReaperDisconnect => ReaperDisconnectConserves(s);
    case ReaperDetach =>
      ReadyToDetach(s);
      StoreFacts(s);
      ShutdownIsLast(s);
      DetachConserves(s, s.reaper.head, s.reaper.line[0 := TeardownJob(s)]);
    case ReaperJoin => StageConserves(s, s.reaper.(stage := Joined), s.objects.forced);
    case ReaperForce => StageConserves(s, s.reaper.(stage := Forced), s.objects.forced + {s.reaper.line[0].output});
    case ReaperRelease => ReleaseConserves(s);
  }

  lemma StageConserves(s: State, w: Reaper, forced: set<Ref>)
    requires Conserved(s) && w == s.reaper.(stage := w.stage)
    ensures Kept(s, s.(reaper := w, objects := s.objects.(forced := forced)))
  {
    hide StoreOk, Exclusive;
    assert s.objects.(forced := s.objects.forced) == s.objects;
  }

  lemma ReaperDisconnectConserves(s: State)
    requires Conserved(s) && EnabledReaper(s, ReaperDisconnect)
    ensures Kept(s, ApplyReaper(s, ReaperDisconnect))
  {
    hide Owned;
    assert s.reaper.line[0 := ShutdownDisconnected][0] == ShutdownDisconnected;
  }

  lemma ClaimConserves(s: State)
    requires Order(s) && Conserved(s) && EnabledReaper(s, ReaperClaim)
    ensures Kept(s, ApplyReaper(s, ReaperClaim))
  {
    hide Order, Owned;
    ShutdownIsLast(s);
    assert s.reaper.line[0 := ShutdownClaimed][0] == ShutdownClaimed;
  }

  // ----- every disciplined run -----

  lemma Conserves(s: State, ev: Event)
    requires Order(s) && Conserved(s) && Enabled(s, ev) && Disciplined(s, ev)
    ensures Kept(s, Apply(s, ev))
  {
    hide Order, Conserved;
    match ev
    case OnUi(u) => UiConservesAll(s, u);
    case OnSignal(g) => if g.SignalSpawn? { SpawnConserves(s); } else { SignalConserves(s, g); }
    case OnThread(t, r) => ThreadConservesAll(s, t, r);
    case OnReaper(w) => ReaperConserves(s, w);
  }

  predicate DisciplinedRun(s: State, evs: seq<Event>, t: State)
    decreases |evs|
  {
    if evs == [] then s == t else Enabled(s, evs[0]) && Disciplined(s, evs[0]) && DisciplinedRun(Apply(s, evs[0]), evs[1..], t)
  }

  ghost predicate WellReached(t: State) {
    exists s, evs :: Init(s) && DisciplinedRun(s, evs, t)
  }

  lemma {:induction false} RunConserves(s: State, evs: seq<Event>, t: State)
    requires Order(s) && Conserved(s) && DisciplinedRun(s, evs, t)
    ensures Order(t) && Conserved(t)
    decreases |evs|
  {
    hide Order, Conserved;
    if evs != [] {
      KeepsOrder(s, evs[0]);
      Conserves(s, evs[0]);
      RunConserves(Apply(s, evs[0]), evs[1..], t);
    }
  }

  lemma InitConserved(s: State)
    requires Init(s)
    ensures Conserved(s)
  {
  }

  lemma ReachedConserved(t: State)
    requires WellReached(t)
    ensures Order(t) && Conserved(t)
  {
    hide Order, Conserved, Init;
    var s, evs :| Init(s) && DisciplinedRun(s, evs, t);
    InitOrder(s);
    InitConserved(s);
    RunConserves(s, evs, t);
  }

  // ----- main results -----

  /** Every reference created so far is either released, and then nobody holds it, or sits in exactly one slot of one owner. */
  lemma OneHolder(s: State, x: Ref)
    requires WellReached(s) && 0 < x < s.store.next
    ensures x in s.store.holder
    ensures forall o: Owner, slot: Slot :: In(Bundle(s.store, o), slot) == x <==> (s.store.holder[x] == (o, slot) && !o.Released?)
  {
    hide Order, Exclusive, Drained, UiOk, FieldsOk, ThOk;
    ReachedConserved(s);
  }

  lemma {:induction false} ReleasedAlong(s: State, evs: seq<Event>, t: State, x: Ref)
    requires Order(s) && Conserved(s) && DisciplinedRun(s, evs, t) && x in s.store.holder && s.store.holder[x].0.Released?
    ensures Conserved(t) && x in t.store.holder && t.store.holder[x].0.Released?
    decreases |evs|
  {
    hide Order, Conserved, Enabled, Apply, Disciplined;
    if evs != [] {
      KeepsOrder(s, evs[0]);
      Conserves(s, evs[0]);
      ReleasedAlong(Apply(s, evs[0]), evs[1..], t, x);
    }
  }

  /** A released reference stays released in every continuation: no owner gets it back, so nobody releases it again. */
  lemma ReleasedOnce(s: State, evs: seq<Event>, t: State, x: Ref)
    requires WellReached(s) && DisciplinedRun(s, evs, t) && x in s.store.holder && s.store.holder[x].0.Released?
    ensures x in t.store.holder && t.store.holder[x].0.Released?
    ensures forall o: Owner, slot: Slot :: In(Bundle(t.store, o), slot) != x
  {
    hide Order, Exclusive, Drained, UiOk, FieldsOk, ThOk, DisciplinedRun, WellReached;
    ReachedConserved(s);
    ReleasedAlong(s, evs, t, x);
    assert 0 < x;
  }

  /** Once the shutdown call's job is done everything ever created has been released. */
  lemma NothingLeaks(s: State, x: Ref)
    requires WellReached(s) && s.ctl.ui.Relinquished? && s.reaper.line == [] && 0 < x < s.store.next
    ensures x in s.store.holder && s.store.holder[x].0.Released?
  {
    hide Order, Conserved, WellReached;
    ReachedConserved(s);
    HolderOf(s, x);
    NobodyOwns(s, s.store.holder[x].0);
  }

  lemma NobodyOwns(s: State, o: Owner)
    requires Order(s) && Conserved(s) && s.ctl.ui.Relinquished? && s.reaper.line == []
    ensures Bundle(s.store, o) == NONE
  {
    hide Order, Conserved;
    StoreFacts(s);
    FieldsAndJobsEmpty(s);
    AllFinished(s);
    if o.ThreadLocal? {
      assert ThOk(Th(s, o.t).pc, Bundle(s.store, o));
    }
  }

  lemma HolderOf(s: State, x: Ref)
    requires Conserved(s) && 0 < x < s.store.next
    ensures x in s.store.holder && (s.store.holder[x].0.Released? || In(Bundle(s.store, s.store.holder[x].0), s.store.holder[x].1) == x)
  {
    hide Exclusive;
  }

  lemma FieldsAndJobsEmpty(s: State)
    requires Conserved(s) && s.ctl.ui.Relinquished? && s.reaper.line == []
    ensures Fld(s) == NONE && s.ctl.reconnect == 0 && Bundle(s.store, Released) == NONE
    ensures forall n: nat :: Bundle(s.store, InJob(n)) == NONE
  {
    hide Exclusive;
  }

  /** With no job left and the fields empty, every thread was joined. */
  lemma AllFinished(s: State)
    requires Order(s) && s.ctl.ui.Relinquished? && s.reaper.line == [] && s.ctl.reconnect == 0 && Fld(s) == NONE
    ensures forall t: Tid :: Th(s, t).pc.Finished?
  {
    hide ObjectsOk, CapturedOk, JobsOk;
  }
}
