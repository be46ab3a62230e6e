/** What the save machine does over runs, in terms of the calls made: which list a poll takes and when, which list the file
    ends with, and that the end of the save thread writes what is still pending. */
module ConfigRuns {
  import opened ConfigStore
  import opened Options

  datatype Request<L> = Request(list: L, at: int)

  /** The request the save thread has not taken yet: the last one scheduled, until a poll at least 500 ms after it. */
  function Due<L>(evs: seq<Event<L>>): Option<Request<L>>
    decreases |evs|
  {
    if evs == [] then None
    else
      var ev, before := evs[|evs| - 1], Due(evs[..|evs| - 1]);
      if ev.DoSchedule? then Some(Request(ev.list, ev.now))
      else if ev.DoPoll? && before.Some? && before.value.at + 500 <= ev.now then None
      else before
  }

  /** The list scheduled last, or the one loaded. */
  function Newest<L>(loaded: L, evs: seq<Event<L>>): L
    decreases |evs|
  {
    if evs == [] then loaded
    else if evs[|evs| - 1].DoSchedule? then evs[|evs| - 1].list else Newest(loaded, evs[..|evs| - 1])
  }

  predicate Fails<L(==)>(ev: Event<L>) {
    ev == DoSaveReplace(false) || ev == DoReplace(false) || ev == DoFlushReplace(false)
  }

  lemma {:induction false} LastStep<L>(s: State<L>, evs: seq<Event<L>>, t: State<L>) returns (u: State<L>)
    requires Runs(s, evs, t) && evs != []
    ensures var n := |evs| - 1; Runs(s, evs[..n], u) && Enabled(u, evs[n]) && t == Apply(u, evs[n])
    decreases |evs|
  {
    hide Enabled, Apply;
    if |evs| == 1 {
      u := s;
      assert evs[..0] == [] && evs[1..] == [];
    } else {
      u := LastStep(Apply(s, evs[0]), evs[1..], t);
      var n := |evs| - 1;
      assert evs[1..][..n - 1] == evs[..n][1..] && evs[1..][n - 1] == evs[n];
    }
  }

  /** Pending, its list and its time are those of the request that is due. */
  lemma {:induction false} PendingIsDue<L>(loaded: L, evs: seq<Event<L>>, t: State<L>)
    requires Runs(Fresh(loaded), evs, t)
    ensures t.pending == Due(evs).Some?
    ensures t.pending ==> t.pendingList == Due(evs).value.list && t.lastRequest == Due(evs).value.at
    ensures t.lists != [] && t.lists[|t.lists| - 1] == Newest(loaded, evs)
    decreases |evs|
  {
    if evs != [] {
      var u := LastStep(Fresh(loaded), evs, t);
      PendingIsDue(loaded, evs[..|evs| - 1], u);
      NextDue(loaded, evs, u);
    }
  }

  lemma NextDue<L>(loaded: L, evs: seq<Event<L>>, u: State<L>)
    requires evs != [] && Enabled(u, evs[|evs| - 1]) && u.lists != []
    requires var e := evs[..|evs| - 1];
             && u.pending == Due(e).Some? && (u.pending ==> u.pendingList == Due(e).value.list && u.lastRequest == Due(e).value.at)
             && u.lists[|u.lists| - 1] == Newest(loaded, e)
    ensures var t := Apply(u, evs[|evs| - 1]);
            && t.pending == Due(evs).Some? && (t.pending ==> t.pendingList == Due(evs).value.list && t.lastRequest == Due(evs).value.at)
            && t.lists != [] && t.lists[|t.lists| - 1] == Newest(loaded, evs)
  {
  }

  /** A poll takes a snapshot exactly if a request is due and 500 ms old; it takes the list scheduled last. */
  lemma PollTakesDue<L>(loaded: L, evs: seq<Event<L>>, t: State<L>, now: int)
    requires Runs(Fresh(loaded), evs, t) && Enabled(t, DoPoll(now))
    ensures var u, due := Apply(t, DoPoll(now)), Due(evs);
            if due.Some? && due.value.at + 500 <= now
            then u.saver == Writing(Newest(loaded, evs), t.changeGen) && due.value.list == Newest(loaded, evs) && !u.pending
            else u == t
  {
    hide Due, Newest, Runs;
    PendingIsDue(loaded, evs, t);
    assert Starts(Fresh(loaded));
    ReachedInv(Fresh(loaded), evs, t);
  }

  lemma {:induction false} NoFailureNoBlame<L>(s: State<L>, evs: seq<Event<L>>, t: State<L>)
    requires Runs(s, evs, t) && !s.failed && forall ev :: ev in evs ==> !Fails(ev)
    ensures !t.failed
    decreases |evs|
  {
    if evs != [] {
      assert !Fails(evs[0]);
      NoFailureNoBlame(Apply(s, evs[0]), evs[1..], t);
    }
  }

  /** If no write failed, the file holds the list scheduled last when the save thread has ended, whatever was interleaved. */
  lemma FileEndsNewest<L>(loaded: L, evs: seq<Event<L>>, t: State<L>)
    requires Runs(Fresh(loaded), evs, t) && t.saver.Done? && forall ev :: ev in evs ==> !Fails(ev)
    ensures t.disk == Newest(loaded, evs)
  {
    hide Newest, Runs, Due;
    NoFailureNoBlame(Fresh(loaded), evs, t);
    PendingIsDue(loaded, evs, t);
    assert Starts(Fresh(loaded));
    LastListIsOnDisk(Fresh(loaded), evs, t);
  }

  /** A successful write of the newest list ends the blame for an earlier failure. */
  lemma SaveMakesGood<L>(s: State<L>, evs: seq<Event<L>>, t: State<L>)
    requires Starts(s) && Runs(s, evs, t) && t.ui.UiReplaced?
    ensures !Apply(t, DoSaveStore).failed
  {
    ReachedInv(s, evs, t);
  }

  /** From an idle save thread the destructor's stop leads to its end, and what is pending is written on the way. */
  lemma EndWritesPending<L>(s: State<L>, evs: seq<Event<L>>, t: State<L>) returns (more: seq<Event<L>>, u: State<L>)
    requires Starts(s) && Runs(s, evs, t) && t.running && t.ui.Calm? && t.saver.Idle?
    ensures Runs(t, more, u) && u.saver.Done? && u.lists == t.lists
    ensures t.pending || !t.failed ==> UpToDate(u) && u.lists != [] && u.disk == u.lists[|u.lists| - 1] && !u.failed
  {
    ReachedInv(s, evs, t);
    hide Runs;
    var a := Apply(t, DoStop);
    var b := Apply(a, DoLeaveLoop);
    var c := Apply(b, DoFlushReplace(true));
    if t.pending {
      u := Apply(c, DoFlushStore);
      Nowhere(u);
      First(c, DoFlushStore, [], u);
      more := [DoFlushStore] + [];
      First(b, DoFlushReplace(true), more, u);
      more := [DoFlushReplace(true)] + more;
    } else {
      u := c;
      Nowhere(u);
      First(b, DoFlushReplace(true), [], u);
      more := [DoFlushReplace(true)] + [];
    }
    First(a, DoLeaveLoop, more, u);
    First(t, DoStop, [DoLeaveLoop] + more, u);
    more := [DoStop] + ([DoLeaveLoop] + more);
  }

  lemma Nowhere<L>(s: State<L>)
    ensures Runs(s, [], s)
  {
  }

  lemma First<L>(s: State<L>, ev: Event<L>, evs: seq<Event<L>>, t: State<L>)
    requires Enabled(s, ev) && Runs(Apply(s, ev), evs, t)
    ensures Runs(s, [ev] + evs, t)
  {
    hide Enabled, Apply;
    assert ([ev] + evs)[1..] == evs;
  }

  /** save_if_dirty as one piece is its comparison followed by the two halves of its write. */
  lemma SaveIfDirtyIsTheCall<L>(s: State<L>, ok: bool)
    requires Enabled(s, DoCompare) && MutexFree(s) && s.lists != []
    ensures var c, t := Apply(s, DoCompare), SaveIfDirty(s, s.lists[|s.lists| - 1], ok);
            if c.ui.Calm? then t == s && s.changeGen == s.writtenGen
            else
              var d := Apply(c, DoSaveReplace(ok));
              && s.changeGen != s.writtenGen && Enabled(c, DoSaveReplace(ok))
              && if ok then t == Apply(d, DoSaveStore) && t.disk == s.lists[|s.lists| - 1] && t.writtenGen == s.changeGen
                 else t == d && t.disk == s.disk && t.writtenGen == s.writtenGen
  {
  }
}
