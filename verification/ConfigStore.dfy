/** ConfigStore's debounced save (src/core/ConfigStore.cpp): the UI thread schedules lists and saves synchronously, the
    save thread writes snapshots. A write is two events, the file replaced and the generation stored, with `m_mutex`
    held between them; the comparison of the generations in save_if_dirty is an event of its own without a lock. The
    outcome of a disk write is a parameter. `lists[g]` is the list of change generation g. */
module ConfigStore {

  const DEBOUNCE_MS: int := 500

  /** Replaced: the file holds the list of `gen`, and the store of `gen` is still to come. */
  datatype Saver<L> = Idle | Writing(list: L, gen: nat) | Replaced(gen: nat) | Flushing | FlushReplaced(gen: nat) | Done

  /** The UI thread: in no call, in a save that has no lock yet, or between the two halves of its write. */
  datatype Ui = Calm | Saving | UiReplaced(gen: nat)

  datatype State<L> = State(
    pending: bool, pendingList: L, pendingGen: nat, lastRequest: int,   // under m_pending_mutex
    changeGen: nat, writtenGen: nat, saver: Saver<L>, ui: Ui, running: bool,
    // history: the file's content and its generation, every generation's list, whether a write failed and none of
    // the newest generation succeeded since
    disk: L, diskGen: nat, lists: seq<L>, failed: bool)

  function Fresh<L>(loaded: L): State<L> {
    State(false, loaded, 0, 0, 0, 0, Idle, Calm, true, loaded, 0, [loaded], false)
  }

  /** load() migrated the file but could not write it back: generation 1 is the migrated list. */
  function FreshUnwritten<L>(old_: L, migrated: L): State<L> {
    State(false, migrated, 0, 0, 1, 0, Idle, Calm, true, old_, 0, [old_, migrated], true)
  }

  /** Nobody is between the two halves of a write. */
  predicate MutexFree<L>(s: State<L>) {
    !s.ui.UiReplaced? && !s.saver.Replaced? && !s.saver.FlushReplaced?
  }

  /** The save thread replaced the file by an older list and has not stored its generation yet. */
  predicate OlderHalfWritten<L>(s: State<L>) {
    (s.saver.Replaced? || s.saver.FlushReplaced?) && s.saver.gen < s.changeGen
  }

  /** The file holds the newest list. */
  predicate UpToDate<L>(s: State<L>) {
    s.diskGen == s.changeGen
  }

  function Schedule<L>(s: State<L>, list: L, now: int): State<L> {
    s.(pending := true, pendingList := list, lastRequest := now, pendingGen := s.changeGen + 1, changeGen := s.changeGen + 1,
       lists := s.lists + [list])
  }

  /** The first half of a write: the file is replaced, or the write failed and there is no second half. */
  function Replace<L>(s: State<L>, list: L, gen: nat, ok: bool): State<L> {
    if ok then s.(disk := list, diskGen := gen) else s.(failed := true)
  }

  /** The second half: the generation is stored. */
  function Store<L>(s: State<L>, gen: nat): State<L> {
    s.(writtenGen := gen, failed := s.failed && gen != s.changeGen)
  }

  function BeginSave<L>(s: State<L>): State<L> {
    s.(ui := Saving)
  }

  function Compare<L>(s: State<L>): State<L> {
    if s.changeGen == s.writtenGen then s else BeginSave(s)
  }

  function SaveReplace<L>(s: State<L>, list: L, ok: bool): State<L> {
    Replace(s, list, s.changeGen, ok).(ui := if ok then UiReplaced(s.changeGen) else Calm)
  }

  function SaveStore<L>(s: State<L>): State<L>
    requires s.ui.UiReplaced?
  {
    Store(s, s.ui.gen).(ui := Calm)
  }

  function Poll<L>(s: State<L>, now: int): State<L> {
    if s.pending && now - s.lastRequest >= DEBOUNCE_MS then s.(pending := false, saver := Writing(s.pendingList, s.pendingGen)) else s
  }

  function SnapshotReplace<L>(s: State<L>, ok: bool): State<L>
    requires s.saver.Writing?
  {
    Replace(s, s.saver.list, s.saver.gen, ok).(saver := if ok then Replaced(s.saver.gen) else Idle)
  }

  function SnapshotStore<L>(s: State<L>): State<L>
    requires s.saver.Replaced?
  {
    Store(s, s.saver.gen).(saver := Idle)
  }

  function FlushReplace<L>(s: State<L>, ok: bool): State<L> {
    if !s.pending then s.(saver := Done)
    else Replace(s, s.pendingList, s.pendingGen, ok).(saver := if ok then FlushReplaced(s.pendingGen) else Done)
  }

  function FlushStore<L>(s: State<L>): State<L>
    requires s.saver.FlushReplaced?
  {
    Store(s, s.saver.gen).(saver := Done)
  }

  datatype Event<L> =
    | DoSchedule(list: L, now: int) | DoSave | DoCompare | DoSaveReplace(ok: bool) | DoSaveStore | DoStop
    | DoPoll(now: int) | DoReplace(ok: bool) | DoStore | DoLeaveLoop | DoFlushReplace(ok: bool) | DoFlushStore

  predicate Enabled<L>(s: State<L>, ev: Event<L>) {
    match ev
    case DoSchedule(_, _) => s.running && s.ui.Calm?    // the destructor is the UI thread's last call
    case DoSave => s.running && s.ui.Calm?
    case DoCompare => s.running && s.ui.Calm?
    case DoSaveReplace(_) => s.ui.Saving? && MutexFree(s) && s.lists != []
    case DoSaveStore => s.ui.UiReplaced?
    case DoStop => s.running && s.ui.Calm?
    case DoPoll(_) => s.saver.Idle?
    case DoReplace(_) => s.saver.Writing? && MutexFree(s)
    case DoStore => s.saver.Replaced?
    case DoLeaveLoop => s.saver.Idle? && !s.running
    case DoFlushReplace(_) => s.saver.Flushing? && MutexFree(s)
    case DoFlushStore => s.saver.FlushReplaced?
  }

  /** A synchronous save is given the last scheduled list. */
  function Apply<L>(s: State<L>, ev: Event<L>): State<L>
    requires Enabled(s, ev)
  {
    match ev
    case DoSchedule(list, now) => Schedule(s, list, now)
    case DoSave => BeginSave(s)
    case DoCompare => Compare(s)
    case DoSaveReplace(ok) => SaveReplace(s, s.lists[|s.lists| - 1], ok)
    case DoSaveStore => SaveStore(s)
    case DoStop => s.(running := false)
    case DoPoll(now) => Poll(s, now)
    case DoReplace(ok) => SnapshotReplace(s, ok)
    case DoStore => SnapshotStore(s)
    case DoLeaveLoop => s.(saver := Flushing)
    case DoFlushReplace(ok) => FlushReplace(s, ok)
    case DoFlushStore => FlushStore(s)
  }

  predicate Runs<L(==)>(s: State<L>, evs: seq<Event<L>>, t: State<L>)
    decreases |evs|
  {
    if evs == [] then s == t else Enabled(s, evs[0]) && Runs(Apply(s, evs[0]), evs[1..], t)
  }

  /** A UI call from inside it to its return at `t`, the save thread running beside it. */
  predicate Returns<L(==)>(s: State<L>, evs: seq<Event<L>>, t: State<L>)
    decreases |evs|
  {
    if s.ui.Calm? then evs == [] && s == t
    else evs != [] && Enabled(s, evs[0]) && Returns(Apply(s, evs[0]), evs[1..], t)
  }

  // ----- what every interleaving keeps -----

  /** Generations name their lists; a change not yet written is still pending, in flight, or a write failed. */
  ghost predicate Inv<L>(s: State<L>) {
    && |s.lists| == s.changeGen + 1
    && s.writtenGen <= s.changeGen && s.diskGen <= s.changeGen && s.disk == s.lists[s.diskGen]
    && (MutexFree(s) ==> s.diskGen == s.writtenGen)
    && (s.ui.UiReplaced? ==> s.diskGen == s.ui.gen == s.changeGen && !s.saver.Replaced? && !s.saver.FlushReplaced?)
    && (s.saver.Replaced? || s.saver.FlushReplaced? ==> s.diskGen == s.saver.gen)
    && (s.pending ==> s.pendingGen == s.changeGen && s.pendingList == s.lists[s.pendingGen])
    && (s.saver.Writing? ==> s.saver.gen <= s.changeGen && s.saver.list == s.lists[s.saver.gen])
    && (s.saver.Writing? || s.saver.Replaced? ==> s.pending || s.saver.gen == s.changeGen)
    && (s.saver.FlushReplaced? ==> s.saver.gen == s.changeGen)
    && (!s.pending && !s.saver.Writing? && !s.saver.Replaced? && !s.saver.FlushReplaced? && !s.failed ==> s.writtenGen == s.changeGen)
    && (s.saver.Flushing? || s.saver.FlushReplaced? || s.saver.Done? ==> !s.running)
    && (s.saver.Done? && !s.failed ==> s.writtenGen == s.changeGen)
    && (!s.running ==> s.ui.Calm?)
  }

  lemma Keeps<L>(s: State<L>, ev: Event<L>)
    requires Inv(s) && Enabled(s, ev)
    ensures Inv(Apply(s, ev))
  {
  }

  lemma {:induction false} RunKeeps<L>(s: State<L>, evs: seq<Event<L>>, t: State<L>)
    requires Inv(s) && Runs(s, evs, t)
    ensures Inv(t)
    decreases |evs|
  {
    hide Inv;
    if evs != [] {
      Keeps(s, evs[0]);
      RunKeeps(Apply(s, evs[0]), evs[1..], t);
    }
  }

  predicate Starts<L(==)>(s: State<L>) {
    s == Fresh(s.pendingList) || s == FreshUnwritten(s.disk, s.pendingList)
  }

  // ----- main results -----

  /** Whenever m_mutex is free, m_written_gen names the generation on disk, also after an older snapshot was
      written over a newer synchronous save. */
  lemma WrittenGenNamesDisk<L>(s: State<L>, evs: seq<Event<L>>, t: State<L>)
    requires Starts(s) && Runs(s, evs, t) && MutexFree(t)
    ensures t.writtenGen == t.diskGen < |t.lists| && t.disk == t.lists[t.writtenGen]
  {
    RunKeeps(s, evs, t);
  }

  /** After the join the disk holds the last scheduled list, if every write succeeded or the newest list was
      written after the last failure. */
  lemma LastListIsOnDisk<L>(s: State<L>, evs: seq<Event<L>>, t: State<L>)
    requires Starts(s) && Runs(s, evs, t) && t.saver.Done? && !t.failed
    ensures t.lists != [] && t.disk == t.lists[|t.lists| - 1] && t.writtenGen == t.changeGen == t.diskGen
  {
    RunKeeps(s, evs, t);
  }

  /** What a save leaves behind: once it has the mutex, nothing but its own list is on disk until it returns. */
  lemma {:induction false} SaveReturns<L>(s: State<L>, evs: seq<Event<L>>, t: State<L>)
    requires Inv(s) && !s.ui.Calm? && Returns(s, evs, t) && DoSaveReplace(false) !in evs
    ensures UpToDate(t)
    decreases |evs|
  {
    hide Inv;
    var u := Apply(s, evs[0]);
    Keeps(s, evs[0]);
    if u.ui.Calm? {
      StoredIsCurrent(s, evs[0]);
    } else {
      SaveReturns(u, evs[1..], t);
    }
  }

  lemma StoredIsCurrent<L>(s: State<L>, ev: Event<L>)
    requires Inv(s) && !s.ui.Calm? && Enabled(s, ev) && ev != DoSaveReplace(false) && Apply(s, ev).ui.Calm?
    ensures UpToDate(Apply(s, ev))
  {
  }

  /** save_if_dirty from its comparison to its return: unless its write fails, the file is up to date exactly when the
      comparison did not find the generations equal while an older snapshot was between the two halves of its write;
      so it is whenever m_mutex was free at the comparison. */
  lemma SaveMakesCurrent<L>(s: State<L>, before: seq<Event<L>>, c: State<L>, call: seq<Event<L>>, t: State<L>)
    requires Starts(s) && Runs(s, before, c) && Enabled(c, DoCompare)
    requires Returns(Apply(c, DoCompare), call, t) && DoSaveReplace(false) !in call
    ensures UpToDate(t) <==> !(c.changeGen == c.writtenGen && OlderHalfWritten(c))
    ensures MutexFree(c) ==> UpToDate(t)
    ensures UpToDate(t) ==> t.lists != [] && t.disk == t.lists[|t.lists| - 1]
  {
    hide Returns, Runs, Starts;
    ReachedInv(s, before, c);
    Keeps(c, DoCompare);
    if c.changeGen == c.writtenGen {
      CalmReturns(c, call, t);
    } else {
      SaveReturns(BeginSave(c), call, t);
      ReturnKeeps(BeginSave(c), call, t);
    }
  }

  lemma ReachedInv<L>(s: State<L>, evs: seq<Event<L>>, t: State<L>)
    requires Starts(s) && Runs(s, evs, t)
    ensures Inv(t)
  {
    RunKeeps(s, evs, t);
  }

  lemma CalmReturns<L>(s: State<L>, evs: seq<Event<L>>, t: State<L>)
    requires s.ui.Calm? && Returns(s, evs, t)
    ensures s == t
  {
  }

  lemma {:induction false} ReturnKeeps<L>(s: State<L>, evs: seq<Event<L>>, t: State<L>)
    requires Inv(s) && Returns(s, evs, t)
    ensures Inv(t)
    decreases |evs|
  {
    hide Inv;
    if !s.ui.Calm? {
      Keeps(s, evs[0]);
      ReturnKeeps(Apply(s, evs[0]), evs[1..], t);
    }
  }

  /** The run that shows it: the save thread took the first list, the second was scheduled and saved, the thread replaced
      the file by the first, and now the comparison finds nothing to do. */
  lemma OlderListUnderComparison<L>(l0: L, l1: L, l2: L) returns (evs: seq<Event<L>>, t: State<L>)
    ensures Runs(Fresh(l0), evs, t) && Enabled(t, DoCompare)
    ensures Apply(t, DoCompare) == t && t.disk == l1 && t.lists == [l0, l1, l2] && !t.failed && !UpToDate(t)
  {
    var s1 := Apply(Fresh(l0), DoSchedule(l1, 0));
    var s2 := Apply(s1, DoPoll(DEBOUNCE_MS));
    var s3 := Apply(s2, DoSchedule(l2, DEBOUNCE_MS));
    var s4 := Apply(s3, DoCompare);
    var s5 := Apply(s4, DoSaveReplace(true));
    var s6 := Apply(s5, DoSaveStore);
    t := Apply(s6, DoReplace(true));
    var e6 := [DoReplace(true)];
    var e5 := [DoSaveStore] + e6;
    var e4 := [DoSaveReplace(true)] + e5;
    var e3 := [DoCompare] + e4;
    var e2 := [DoSchedule(l2, DEBOUNCE_MS)] + e3;
    var e1 := [DoPoll(DEBOUNCE_MS)] + e2;
    evs := [DoSchedule(l1, 0)] + e1;
    assert e6[1..] == [] && e5[1..] == e6 && e4[1..] == e5 && e3[1..] == e4 && e2[1..] == e3 && e1[1..] == e2 && evs[1..] == e1;
    assert Runs(t, [], t);
    assert Runs(s6, e6, t);
    assert Runs(s5, e5, t);
    assert Runs(s4, e4, t);
    assert Runs(s3, e3, t);
    assert Runs(s2, e2, t);
    assert Runs(s1, e1, t);
  }

  /** The file falls behind by the write of an older snapshot, and exactly then, when that write is complete, the newest
      list is still pending, so that the save thread or the final flush writes it again. */
  lemma OlderSnapshotStaysPending<L>(s: State<L>, evs: seq<Event<L>>, t: State<L>)
    requires Starts(s) && Runs(s, evs, t) && t.saver.Replaced?
    ensures var u := Apply(t, DoStore);
            && (u.writtenGen < u.changeGen <==> t.saver.gen < t.changeGen)
            && (u.writtenGen < u.changeGen ==> u.pending && u.lists != [] && u.pendingList == u.lists[|u.lists| - 1])
  {
    RunKeeps(s, evs, t);
  }

  // ----- the object -----

  /** save() with nobody else at work. */
  function Save<L>(s: State<L>, list: L, ok: bool): State<L> {
    var t := SaveReplace(BeginSave(s), list, ok);
    if ok then SaveStore(t) else t
  }

  function SaveIfDirty<L>(s: State<L>, list: L, ok: bool): State<L> {
    if s.changeGen == s.writtenGen then s else Save(s, list, ok)
  }

  /** The save thread's write of what it took, and its last one. */
  function WriteSnapshot<L>(s: State<L>, ok: bool): State<L>
    requires s.saver.Writing?
  {
    if ok then SnapshotStore(SnapshotReplace(s, ok)) else SnapshotReplace(s, ok)
  }

  function Flush<L>(s: State<L>, ok: bool): State<L> {
    var t := FlushReplace(s, ok);
    if t.saver.FlushReplaced? then FlushStore(t) else t
  }

  class ConfigStore<L(==)> {
    var pending: bool
    var pendingList: L
    var pendingGen: nat
    var lastRequest: int
    var changeGen: nat
    var writtenGen: nat
    var saver: Saver<L>
    var running: bool
    var disk: L
    ghost var diskGen: nat
    ghost var lists: seq<L>
    ghost var failed: bool

    ghost function Value(): State<L>
      reads this
    {
      State(pending, pendingList, pendingGen, lastRequest, changeGen, writtenGen, saver, Calm, running, disk, diskGen, lists, failed)
    }

    constructor (loaded: L)
      ensures Value() == Fresh(loaded)
    {
      pending, pendingList, pendingGen, lastRequest := false, loaded, 0, 0;
      changeGen, writtenGen, saver, running := 0, 0, Idle, true;
      disk, diskGen, lists, failed := loaded, 0, [loaded], false;
    }

    method ScheduleSave(list: L, now: int)
      modifies this
      ensures Value() == Schedule(old(Value()), list, now)
    {
      pendingList := list;
      lastRequest := now;
      changeGen := changeGen + 1;
      pendingGen := changeGen;
      pending := true;
      lists := lists + [list];
    }

    /** write_to_disk: whether it replaced the file is the environment's choice. */
    method WriteToDisk(list: L, ghost gen: nat, ok: bool)
      modifies `disk, `diskGen, `failed
      ensures disk == (if ok then list else old(disk)) && diskGen == (if ok then gen else old(diskGen))
      ensures failed == (old(failed) || !ok)
    {
      if ok {
        disk := list;
        diskGen := gen;
      } else {
        failed := true;
      }
    }

    method StoreGen(gen: nat)
      modifies `writtenGen, `failed
      ensures writtenGen == gen && failed == (old(failed) && gen != changeGen)
    {
      writtenGen := gen;
      failed := failed && gen != changeGen;
    }

    method SaveNow(list: L, ok: bool) returns (done: bool)
      modifies this
      ensures Value() == Save(old(Value()), list, ok) && done == ok
    {
      var gen := changeGen;
      WriteToDisk(list, gen, ok);
      if ok {
        StoreGen(gen);
      }
      return ok;
    }

    method SaveWhenDirty(list: L, ok: bool) returns (done: bool)
      modifies this
      ensures Value() == SaveIfDirty(old(Value()), list, ok)
      ensures done <==> old(changeGen == writtenGen) || ok
    {
      if changeGen == writtenGen {
        return true;
      }
      done := SaveNow(list, ok);
    }

    method TakeSnapshot(now: int)
      modifies this
      ensures Value() == Poll(old(Value()), now)
    {
      if !pending {
        return;
      }
      if now - lastRequest >= DEBOUNCE_MS {
        saver := Writing(pendingList, pendingGen);
        pending := false;
      }
    }

    method WriteTaken(ok: bool)
      requires saver.Writing?
      modifies this
      ensures Value() == WriteSnapshot(old(Value()), ok)
    {
      WriteToDisk(saver.list, saver.gen, ok);
      if ok {
        StoreGen(saver.gen);
      }
      saver := Idle;
    }

    method FinalFlush(ok: bool)
      modifies this
      ensures Value() == Flush(old(Value()), ok)
    {
      if pending {
        WriteToDisk(pendingList, pendingGen, ok);
        if ok {
          StoreGen(pendingGen);
        }
      }
      saver := Done;
    }
  }
}
