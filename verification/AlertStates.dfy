/** What the two state alerts mean over the whole input history: raised by an update in the state, cleared by Idle or by a
    Live run that lasted. */
module AlertStates {
  import opened AlertHistory
  import opened AlertPolicy
  import opened OutputStates

  /** The last update clears the state alerts. */
  predicate Settles(th: Thresholds, ins: seq<Input>)
    requires ins != []
  {
    Last(ins).state.Idle? || (Last(ins).state.Live? && Last(ins).now - LiveStart(ins) >= th.clearHold)
  }

  /** The update that raises a state alert: one in the state it is named after. */
  predicate Raises(r: ReasonId, ins: seq<Input>)
    requires ins != []
  {
    if r.FailedAlert? then Last(ins).state.FailedHard? else Last(ins).state.Reconnecting?
  }

  /** A failure also ends the reconnecting. */
  predicate Ends(th: Thresholds, r: ReasonId, ins: seq<Input>)
    requires ins != []
  {
    Settles(th, ins) || (r.ReconnectingAlert? && Last(ins).state.FailedHard?)
  }

  /** The k-th update raised the alert and none since has ended it. */
  ghost predicate RaisedAt(th: Thresholds, r: ReasonId, ins: seq<Input>, k: nat) {
    1 <= k <= |ins| && Raises(r, ins[..k]) && forall m :: k < m <= |ins| ==> !Ends(th, r, ins[..m])
  }

  ghost predicate RaisedSince(th: Thresholds, r: ReasonId, ins: seq<Input>) {
    exists k: nat :: RaisedAt(th, r, ins, k)
  }

  lemma StateFields(th: Thresholds, t: Tracker, i: Input)
    ensures var u, live := Step(th, t, i).t, if t.liveSince < 0 then i.now else t.liveSince;
            var settled := i.state.Idle? || (i.state.Live? && i.now - live >= th.clearHold);
            && (u.failed.active <==> i.state.FailedHard? || (!settled && t.failed.active))
            && (u.reconnecting.active <==> i.state.Reconnecting? || (!settled && !i.state.FailedHard? && t.reconnecting.active))
  {
    if i.state.Idle? {
      var n := t.(name := i.name, state := Idle);
      var u := ClearUpTo(n, i.endpoint, 4).t;
      assert !Get(u, REASONS[0]).active && !Get(u, REASONS[1]).active;
    } else {
      var a := StateAlerts(th, Enter(t.(name := i.name, state := i.state), i), i);
      DropFields(th, a, i);
      LowFields(th, DropAlert(th, a, i), i);
    }
  }

  lemma SinceStep(th: Thresholds, r: ReasonId, ins: seq<Input>)
    requires ins != []
    ensures RaisedSince(th, r, ins) <==> Raises(r, ins) || (!Ends(th, r, ins) && RaisedSince(th, r, Prev(ins)))
  {
    hide Ends, Raises;
    assert ins[..|ins|] == ins;
    assert forall m :: 0 <= m < |ins| ==> Prev(ins)[..m] == ins[..m];
    if Raises(r, ins) {
      assert RaisedAt(th, r, ins, |ins|);
    } else if !Ends(th, r, ins) && RaisedSince(th, r, Prev(ins)) {
      var k: nat :| RaisedAt(th, r, Prev(ins), k);
      assert RaisedAt(th, r, ins, k);
    }
    if RaisedSince(th, r, ins) && !Raises(r, ins) {
      var k: nat :| RaisedAt(th, r, ins, k);
      assert !Ends(th, r, ins[..|ins|]);
      assert RaisedAt(th, r, Prev(ins), k);
    }
  }

  /** The failed alert is active exactly since an update in FailedHard, the reconnecting alert since one in Reconnecting,
      with nothing in between that ends it. */
  lemma {:induction false} StateAlertsMean(th: Thresholds, ins: seq<Input>)
    requires Valid(ins)
    ensures Active(th, FailedAlert, ins) <==> RaisedSince(th, FailedAlert, ins)
    ensures Active(th, ReconnectingAlert, ins) <==> RaisedSince(th, ReconnectingAlert, ins)
    decreases |ins|
  {
    hide Tracks, Step, RaisedSince;
    if ins == [] {
      NothingSince(th, FailedAlert);
      NothingSince(th, ReconnectingAlert);
    } else {
      StateAlertsMean(th, Prev(ins));
      LiveTracked(th, Prev(ins));
      StateFields(th, After(th, Prev(ins)), Last(ins));
      SinceStep(th, FailedAlert, ins);
      SinceStep(th, ReconnectingAlert, ins);
    }
  }

  lemma NothingSince(th: Thresholds, r: ReasonId)
    ensures !RaisedSince(th, r, [])
  {
  }

  lemma LiveTracked(th: Thresholds, ins: seq<Input>)
    requires Valid(ins)
    ensures After(th, ins).liveSince == LiveStart(ins)
  {
    TrackerMatchesHistory(th, ins);
  }

  // ----- what an edge carries -----

  /** Every edge names the endpoint and shows it as the tracker does. */
  predicate Carries(s: Result, id: string, name: string, state: OutputState) {
    && s.t.name == name && s.t.state == state
    && forall e :: e in s.edges ==> e.endpoint == id && e.name == name && e.state == state
  }

  lemma RaiseCarries(s: Result, id: string, r: ReasonId, name: string, state: OutputState)
    requires Carries(s, id, name, state)
    ensures Carries(Raise(s, id, r), id, name, state) && Carries(Clear(s, id, r), id, name, state)
  {
  }

  lemma HoldCarries(th: Thresholds, s: Result, id: string, r: ReasonId, condition: bool, now: int, name: string, state: OutputState)
    requires Carries(s, id, name, state)
    ensures Carries(HoldClear(th, s, id, r, condition, now), id, name, state)
  {
    hide Raise, Clear;
    var v := Get(s.t, r);
    var u := s.(t := Set(s.t, r, v.(falseSince := if v.falseSince < 0 then now else v.falseSince)));
    RaiseCarries(u, id, r, name, state);
  }

  lemma {:induction false} ClearUpToCarries(t: Tracker, id: string, k: nat)
    requires k <= 4
    ensures Carries(ClearUpTo(t, id, k), id, t.name, t.state)
  {
    hide Raise, Clear;
    if k > 0 {
      ClearUpToCarries(t, id, k - 1);
      RaiseCarries(ClearUpTo(t, id, k - 1), id, REASONS[k - 1], t.name, t.state);
    }
  }

  /** Whatever an update reports, it reports of its own endpoint, with the name and the state just given. */
  lemma EdgesAreOfUpdate(th: Thresholds, t: Tracker, i: Input)
    ensures Carries(Step(th, t, i), i.endpoint, i.name, i.state)
  {
    hide Raise, Clear, HoldClear, ClearUpTo, Push;
    var n, id := t.(name := i.name, state := i.state), i.endpoint;
    if i.state.Idle? {
      ClearUpToCarries(n, id, 4);
    } else {
      var e := Enter(n, i);
      var s := Result(e, []);
      RaiseCarries(s, id, ReconnectingAlert, i.name, i.state);
      var a := if i.state.Reconnecting? then Raise(s, id, ReconnectingAlert) else s;
      RaiseCarries(a, id, ReconnectingAlert, i.name, i.state);
      RaiseCarries(Clear(a, id, ReconnectingAlert), id, FailedAlert, i.name, i.state);
      var b := if i.state.FailedHard? then Raise(Clear(a, id, ReconnectingAlert), id, FailedAlert) else a;
      RaiseCarries(b, id, ReconnectingAlert, i.name, i.state);
      RaiseCarries(Clear(b, id, ReconnectingAlert), id, FailedAlert, i.name, i.state);
      DropCarries(th, StateAlerts(th, e, i), i);
      LowCarries(th, DropAlert(th, StateAlerts(th, e, i), i), i);
    }
  }

  lemma DropCarries(th: Thresholds, s: Result, i: Input)
    requires Carries(s, i.endpoint, i.name, i.state)
    ensures Carries(DropAlert(th, s, i), i.endpoint, i.name, i.state)
  {
    hide Raise, HoldClear, Push, DropCondition;
    var u := s.(t := s.t.(window := if Checked(th, s.t.liveSince, i) && i.frames > 0 then Push(th, s.t.window, i) else []));
    RaiseCarries(u, i.endpoint, DroppedAlert, i.name, i.state);
    HoldCarries(th, u, i.endpoint, DroppedAlert, DropCondition(th, u.t.window), i.now, i.name, i.state);
  }

  lemma LowCarries(th: Thresholds, s: Result, i: Input)
    requires Carries(s, i.endpoint, i.name, i.state)
    ensures Carries(LowAlert(th, s, i), i.endpoint, i.name, i.state)
  {
    hide Raise, HoldClear, IsLow, Checked;
    var low := IsLow(th, Checked(th, s.t.liveSince, i), i);
    var u := s.(t := s.t.(lowSince := if !low then -1 else if s.t.lowSince < 0 then i.now else s.t.lowSince));
    RaiseCarries(u, i.endpoint, LowBitrateAlert, i.name, i.state);
    HoldCarries(th, u, i.endpoint, LowBitrateAlert, low, i.now, i.name, i.state);
  }
}
