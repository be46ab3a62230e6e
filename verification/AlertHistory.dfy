/** What the trackers of AlertPolicy mean in terms of the whole input history of one endpoint since it was
    (re)created: the trimmed window, the two hold timers and the hysteresis. */
module AlertHistory {
  import opened AlertPolicy
  import opened OutputStates

  /** The clock is non-negative and never runs backwards. */
  predicate Valid(ins: seq<Input>) {
    && (forall k :: 0 <= k < |ins| ==> ins[k].now >= 0)
    && (forall j, k :: 0 <= j <= k < |ins| ==> ins[j].now <= ins[k].now)
  }

  function Last(ins: seq<Input>): Input
    requires ins != []
  {
    ins[|ins| - 1]
  }

  function Prev(ins: seq<Input>): seq<Input>
    requires ins != []
  {
    ins[..|ins| - 1]
  }

  /** The tracker after the whole history. */
  function After(th: Thresholds, ins: seq<Input>): Tracker
    decreases |ins|
  {
    if ins == [] then FRESH else Step(th, After(th, Prev(ins)), Last(ins)).t
  }

  // ----- definitions over the history -----

  /** When the unbroken Live run that reaches the last update began; -1 if it is not Live. */
  function LiveStart(ins: seq<Input>): int
    decreases |ins|
  {
    if ins == [] || !Last(ins).state.Live? then -1
    else if LiveStart(Prev(ins)) < 0 then Last(ins).now else LiveStart(Prev(ins))
  }

  predicate CheckedAt(th: Thresholds, ins: seq<Input>) {
    ins != [] && Last(ins).state.Live? && Last(ins).now - LiveStart(ins) >= th.startupGrace
  }

  /** Every counter sample since the last reset (not live, in the grace time, no frames, or a counter that ran back). */
  function Samples(th: Thresholds, ins: seq<Input>): seq<Sample>
    decreases |ins|
  {
    if !CheckedAt(th, ins) || Last(ins).frames == 0 then []
    else
      var h, i := Samples(th, Prev(ins)), Last(ins);
      var ranBack := h != [] && !(h[|h| - 1].dropped <= i.dropped && h[|h| - 1].frames <= i.frames);
      (if ranBack then [] else h) + [Sample(i.now, i.dropped, i.frames)]
  }

  function LatestUpTo(h: seq<Sample>, k: nat, cutoff: int): (r: nat)
    requires k < |h|
    ensures r <= k && (r > 0 ==> h[r].t <= cutoff)
    ensures forall j :: r < j <= k ==> h[j].t > cutoff
  {
    if k == 0 || h[k].t <= cutoff then k else LatestUpTo(h, k - 1, cutoff)
  }

  /** The latest sample at or before `cutoff`, else the first one. */
  function Reference(h: seq<Sample>, cutoff: int): (r: nat)
    requires h != []
    ensures r < |h| && (r > 0 ==> h[r].t <= cutoff)
    ensures forall j :: r < j < |h| ==> h[j].t > cutoff
  {
    LatestUpTo(h, |h| - 1, cutoff)
  }

  /** The drop condition computed from the whole history. */
  predicate DroppedAt(th: Thresholds, ins: seq<Input>) {
    var h := Samples(th, ins);
    h != [] &&
    (var from := h[Reference(h, Last(ins).now - th.dropWindow)];
     var dropped, frames := Last(ins).dropped - from.dropped, Last(ins).frames - from.frames;
     && frames > 0 && dropped as real >= th.dropRatio * frames as real
     && dropped >= if th.dropMinFrames < 0 then th.dropMinFrames + 0x1_0000_0000_0000_0000 else th.dropMinFrames)
  }

  /** Measured, with a target, and under its fraction. */
  predicate LowAt(th: Thresholds, ins: seq<Input>) {
    && CheckedAt(th, ins) && Last(ins).targetKbps > 0
    && Last(ins).actualKbps < th.lowFraction * Last(ins).targetKbps as real
  }

  predicate Condition(th: Thresholds, r: ReasonId, ins: seq<Input>) {
    if r.DroppedAlert? then DroppedAt(th, ins) else LowAt(th, ins)
  }

  /** At every update of the last `hold` milliseconds the condition had the value `v`. */
  ghost predicate HeldFor(th: Thresholds, r: ReasonId, v: bool, ins: seq<Input>, hold: int) {
    exists m :: HeldFrom(th, r, v, ins, hold, m)
  }

  ghost predicate HeldFrom(th: Thresholds, r: ReasonId, v: bool, ins: seq<Input>, hold: int, m: int) {
    1 <= m <= |ins| && Last(ins).now - ins[m - 1].now >= hold && forall k :: m <= k <= |ins| ==> Condition(th, r, ins[..k]) == v
  }

  predicate Active(th: Thresholds, r: ReasonId, ins: seq<Input>) {
    Get(After(th, ins), r).active
  }

  // ----- the trackers match the definitions -----

  /** How many of the last updates had the condition at `v`. */
  function RunLength(th: Thresholds, r: ReasonId, v: bool, ins: seq<Input>): (n: nat)
    ensures n <= |ins|
    decreases |ins|
  {
    if ins == [] || Condition(th, r, ins) != v then 0 else 1 + RunLength(th, r, v, Prev(ins))
  }

  function RunStart(th: Thresholds, r: ReasonId, v: bool, ins: seq<Input>): int {
    var n := RunLength(th, r, v, ins);
    if n == 0 then -1 else ins[|ins| - n].now
  }

  lemma {:induction false} RunIsUnbroken(th: Thresholds, r: ReasonId, v: bool, ins: seq<Input>)
    ensures var n := RunLength(th, r, v, ins);
            && (forall k :: |ins| - n < k <= |ins| ==> Condition(th, r, ins[..k]) == v)
            && (n < |ins| ==> Condition(th, r, ins[..|ins| - n]) != v)
    decreases |ins|
  {
    hide Condition;
    var n := RunLength(th, r, v, ins);
    assert ins[..|ins|] == ins;
    if n > 0 {
      RunIsUnbroken(th, r, v, Prev(ins));
      forall k | |ins| - n < k < |ins| ensures Condition(th, r, ins[..k]) == v {
        assert Prev(ins)[..k] == ins[..k];
      }
      if n < |ins| {
        assert Prev(ins)[..|ins| - n] == ins[..|ins| - n];
      }
    }
  }

  lemma HeldIffRun(th: Thresholds, r: ReasonId, v: bool, ins: seq<Input>, hold: int)
    requires Valid(ins) && ins != []
    ensures HeldFor(th, r, v, ins, hold) <==>
            RunLength(th, r, v, ins) > 0 && Last(ins).now - RunStart(th, r, v, ins) >= hold
  {
    var n := RunLength(th, r, v, ins);
    RunIsUnbroken(th, r, v, ins);
    if n > 0 && Last(ins).now - RunStart(th, r, v, ins) >= hold {
      assert HeldFrom(th, r, v, ins, hold, |ins| - n + 1);
    }
    if HeldFor(th, r, v, ins, hold) {
      var m :| HeldFrom(th, r, v, ins, hold, m);
      if m <= |ins| - n {
        assert false;
      }
    }
  }

  /** `w` is the tail of `h` (stated by position from the end). */
  predicate Suffix(h: seq<Sample>, w: seq<Sample>) {
    |w| <= |h| && forall k :: 0 <= k < |w| ==> w[k] == h[|h| - |w| + k]
  }

  /** The window `w` is the part of the history `h` from the reference sample on. */
  ghost predicate FromReference(h: seq<Sample>, w: seq<Sample>, cutoff: int) {
    Monotone(h) && Suffix(h, w) && (h != [] ==> |w| == |h| - Reference(h, cutoff))
  }

  lemma {:induction false} TrimToReference(h: seq<Sample>, w: seq<Sample>, cutoff: int)
    requires h != [] && Suffix(h, w) && |h| - |w| <= Reference(h, cutoff) && Monotone(h)
    ensures Suffix(h, Trim(w, cutoff)) && |Trim(w, cutoff)| == |h| - Reference(h, cutoff)
    decreases |w|
  {
    var r := Reference(h, cutoff);
    if |h| - |w| < r {
      assert w[1] == h[|h| - |w| + 1] && h[|h| - |w| + 1].t <= h[r].t;
      TrimToReference(h, w[1..], cutoff);
    } else if |w| >= 2 {
      assert w[1] == h[r + 1];
    }
  }

  lemma MonotoneAppend(h: seq<Sample>, x: Sample)
    requires Monotone(h)
    requires h != [] ==> h[|h| - 1].t <= x.t && h[|h| - 1].dropped <= x.dropped && h[|h| - 1].frames <= x.frames
    ensures Monotone(h + [x])
  {
    forall j, k | 0 <= j <= k < |h| + 1
      ensures (h + [x])[j].t <= (h + [x])[k].t && (h + [x])[j].dropped <= (h + [x])[k].dropped && (h + [x])[j].frames <= (h + [x])[k].frames
    {
      if j < |h| {
        assert h[j].t <= h[|h| - 1].t;
      }
    }
  }

  /** Pushing onto a window that matches a history gives the window that matches the longer history. */
  lemma PushExtends(h0: seq<Sample>, w: seq<Sample>, x: Sample, cutoff0: int, cutoff: int)
    requires h0 != [] && FromReference(h0, w, cutoff0) && cutoff0 <= cutoff
    requires h0[|h0| - 1].t <= x.t && !Backwards(h0, x.dropped, x.frames)
    ensures FromReference(h0 + [x], Trim(w + [x], cutoff), cutoff)
  {
    var h, r := h0 + [x], Reference(h0, cutoff0);
    MonotoneAppend(h0, x);
    assert h[r] == h0[r];
    TrimToReference(h, w + [x], cutoff);
  }

  lemma PushKeepsReference(th: Thresholds, h0: seq<Sample>, w: seq<Sample>, i: Input, cutoff0: int)
    requires FromReference(h0, w, cutoff0)
    requires h0 != [] ==> h0[|h0| - 1].t <= i.now
    requires cutoff0 <= i.now - th.dropWindow
    ensures FromReference(Extend(h0, i), Push(th, w, i), i.now - th.dropWindow)
  {
    var x := Sample(i.now, i.dropped, i.frames);
    assert h0 != [] ==> w[|w| - 1] == h0[|h0| - 1];
    if h0 == [] || Backwards(h0, i.dropped, i.frames) {
      assert Extend(h0, i) == [x] && Extend(w, i) == [x];
    } else {
      PushExtends(h0, w, x, cutoff0, i.now - th.dropWindow);
    }
  }

  ghost predicate WindowOk(th: Thresholds, ins: seq<Input>, w: seq<Sample>) {
    var h := Samples(th, ins);
    if h == [] then w == []
    else h[|h| - 1] == Sample(Last(ins).now, Last(ins).dropped, Last(ins).frames)
         && FromReference(h, w, Last(ins).now - th.dropWindow)
  }

  lemma SamplesExtend(th: Thresholds, ins: seq<Input>)
    requires CheckedAt(th, ins) && Last(ins).frames > 0
    ensures Samples(th, ins) == Extend(Samples(th, Prev(ins)), Last(ins))
  {
  }

  lemma WindowStep(th: Thresholds, ins: seq<Input>, w: seq<Sample>)
    requires CheckedAt(th, ins) && Last(ins).frames > 0 && WindowOk(th, Prev(ins), w)
    requires |ins| > 1 ==> Last(Prev(ins)).now <= Last(ins).now
    ensures WindowOk(th, ins, Push(th, w, Last(ins)))
  {
    hide FromReference, Trim, Extend, LiveStart;
    var i, h0 := Last(ins), Samples(th, Prev(ins));
    SamplesExtend(th, ins);
    PushKeepsReference(th, h0, w, i, if h0 == [] then i.now - th.dropWindow else Last(Prev(ins)).now - th.dropWindow);
  }

  lemma RatioByProduct(d: real, f: real, r: real)
    requires f > 0.0
    ensures d / f >= r <==> d >= r * f
  {
    assert d == (d / f) * f;
  }

  lemma ExceedsMeans(th: Thresholds, dropped: int, frames: int)
    ensures Exceeds(th, dropped, frames) <==>
              && frames > 0 && dropped as real >= th.dropRatio * frames as real
              && dropped >= if th.dropMinFrames < 0 then th.dropMinFrames + 0x1_0000_0000_0000_0000 else th.dropMinFrames
  {
    if frames > 0 {
      RatioByProduct(dropped as real, frames as real, th.dropRatio);
    }
  }

  /** The condition the window yields is the condition of the whole history; its subtractions never wrap. */
  lemma WindowCondition(th: Thresholds, ins: seq<Input>, w: seq<Sample>)
    requires WindowOk(th, ins, w)
    ensures w != [] ==> w[0].dropped <= w[|w| - 1].dropped && w[0].frames <= w[|w| - 1].frames
    ensures DropCondition(th, w) == DroppedAt(th, ins)
  {
    var h := Samples(th, ins);
    if h != [] {
      var r := Reference(h, Last(ins).now - th.dropWindow);
      assert w[0] == h[r] && w[|w| - 1] == h[|h| - 1];
      assert h[r].dropped <= h[|h| - 1].dropped && h[r].frames <= h[|h| - 1].frames;
      ExceedsMeans(th, Last(ins).dropped - h[r].dropped, Last(ins).frames - h[r].frames);
    }
  }

  /** How one reason moves in a checked update: `trigger` raises it, `condition` false for long enough clears it. */
  function NextReason(th: Thresholds, v: Reason, trigger: bool, condition: bool, now: int): Reason {
    if !v.active then (if trigger then Reason(true, -1) else v)
    else if condition then Reason(true, -1)
    else
      var since := if v.falseSince < 0 then now else v.falseSince;
      if now - since >= th.clearHold then OFF else Reason(true, since)
  }

  lemma StateAlertsFrame(th: Thresholds, t: Tracker, i: Input)
    ensures var u := StateAlerts(th, t, i).t;
            u == t.(reconnecting := u.reconnecting, failed := u.failed)
  {
  }

  lemma DropFields(th: Thresholds, s: Result, i: Input)
    ensures var u := DropAlert(th, s, i).t;
            && u == s.t.(window := u.window, dropped := u.dropped)
            && u.window == (if Checked(th, s.t.liveSince, i) && i.frames > 0 then Push(th, s.t.window, i) else [])
            && u.dropped == NextReason(th, s.t.dropped, DropCondition(th, u.window), DropCondition(th, u.window), i.now)
  {
  }

  lemma LowFields(th: Thresholds, s: Result, i: Input)
    ensures var u := LowAlert(th, s, i).t;
            var low := IsLow(th, Checked(th, s.t.liveSince, i), i);
            && u == s.t.(lowSince := u.lowSince, low := u.low)
            && u.lowSince == (if !low then -1 else if s.t.lowSince < 0 then i.now else s.t.lowSince)
            && u.low == NextReason(th, s.t.low, low && i.now - u.lowSince >= th.lowHold, low, i.now)
  {
  }

  lemma StepFields(th: Thresholds, t: Tracker, i: Input)
    requires !i.state.Idle?
    ensures var u, live := Step(th, t, i).t, if !i.state.Live? then -1 else if t.liveSince < 0 then i.now else t.liveSince;
            var low := IsLow(th, Checked(th, live, i), i);
            && u.liveSince == live
            && u.lowSince == (if !low then -1 else if t.lowSince < 0 then i.now else t.lowSince)
            && u.window == (if Checked(th, live, i) && i.frames > 0 then Push(th, t.window, i) else [])
            && u.dropped == NextReason(th, t.dropped, DropCondition(th, u.window), DropCondition(th, u.window), i.now)
            && u.low == NextReason(th, t.low, low && i.now - u.lowSince >= th.lowHold, low, i.now)
  {
    var n := Enter(t.(name := i.name, state := i.state), i);
    var a := StateAlerts(th, n, i);
    StateAlertsFrame(th, n, i);
    DropFields(th, a, i);
    LowFields(th, DropAlert(th, a, i), i);
  }

  ghost predicate Tracks(th: Thresholds, ins: seq<Input>, t: Tracker) {
    && t.liveSince == LiveStart(ins)
    && WindowOk(th, ins, t.window)
    && t.lowSince == RunStart(th, LowBitrateAlert, true, ins)
    && (t.dropped.active ==> t.dropped.falseSince == RunStart(th, DroppedAlert, false, ins))
    && (t.low.active ==> t.low.falseSince == RunStart(th, LowBitrateAlert, false, ins))
  }

  lemma RunStartStep(th: Thresholds, r: ReasonId, v: bool, ins: seq<Input>)
    requires Valid(ins) && ins != []
    ensures RunStart(th, r, v, ins) ==
            if Condition(th, r, ins) != v then -1
            else if RunStart(th, r, v, Prev(ins)) < 0 then Last(ins).now else RunStart(th, r, v, Prev(ins))
  {
  }

  /** NextReason against the history: raised by its trigger, cleared by a false run of the hold time. */
  lemma ReasonStep(th: Thresholds, r: ReasonId, ins: seq<Input>, v: Reason, trigger: bool)
    requires Valid(ins) && ins != []
    requires v.active ==> v.falseSince == RunStart(th, r, false, Prev(ins))
    requires trigger ==> Condition(th, r, ins)
    ensures var u := NextReason(th, v, trigger, Condition(th, r, ins), Last(ins).now);
            && (u.active ==> u.falseSince == RunStart(th, r, false, ins))
            && (!v.active ==> (u.active <==> trigger))
            && (v.active ==> (!u.active <==> HeldFor(th, r, false, ins, th.clearHold)))
  {
    RunStartStep(th, r, false, ins);
    HeldIffRun(th, r, false, ins, th.clearHold);
  }

  lemma TracksIdle(th: Thresholds, ins: seq<Input>, t: Tracker)
    requires Valid(ins) && ins != [] && Tracks(th, Prev(ins), t) && Last(ins).state.Idle?
    ensures var u := Step(th, t, Last(ins)).t;
            Tracks(th, ins, u) && !u.dropped.active && !u.low.active
  {
    var n := t.(name := Last(ins).name, state := Idle);
    var u := ClearUpTo(n, Last(ins).endpoint, 4).t;
    assert !Get(u, REASONS[2]).active && !Get(u, REASONS[3]).active;
  }

  lemma WindowNext(th: Thresholds, ins: seq<Input>, w: seq<Sample>)
    requires Valid(ins) && ins != [] && WindowOk(th, Prev(ins), w)
    ensures WindowOk(th, ins, if CheckedAt(th, ins) && Last(ins).frames > 0 then Push(th, w, Last(ins)) else [])
  {
    hide FromReference, Push, Extend;
    if CheckedAt(th, ins) && Last(ins).frames > 0 {
      assert |ins| > 1 ==> ins[|ins| - 2].now <= ins[|ins| - 1].now;
      WindowStep(th, ins, w);
    }
  }

  lemma LowMeans(th: Thresholds, ins: seq<Input>)
    requires ins != []
    ensures var i := Last(ins); var checked := Checked(th, LiveStart(ins), i);
            (checked <==> CheckedAt(th, ins)) && (IsLow(th, checked, i) <==> LowAt(th, ins))
  {
  }

  lemma TracksStep(th: Thresholds, ins: seq<Input>, t: Tracker)
    requires Valid(ins) && ins != [] && Tracks(th, Prev(ins), t) && !Last(ins).state.Idle?
    ensures var u := Step(th, t, Last(ins)).t;
            && Tracks(th, ins, u)
            && (!t.low.active ==> (u.low.active <==> HeldFor(th, LowBitrateAlert, true, ins, th.lowHold)))
            && (!t.dropped.active ==> (u.dropped.active <==> DroppedAt(th, ins)))
            && (t.low.active ==> (!u.low.active <==> HeldFor(th, LowBitrateAlert, false, ins, th.clearHold)))
            && (t.dropped.active ==> (!u.dropped.active <==> HeldFor(th, DroppedAlert, false, ins, th.clearHold)))
  {
    hide Step, Push, DropCondition, DroppedAt, NextReason, HeldFor, RunStart, RunLength, LowAt, IsLow, Checked, CheckedAt, WindowOk;
    var i, u := Last(ins), Step(th, t, Last(ins)).t;
    StepFields(th, t, i);
    LowMeans(th, ins);
    WindowNext(th, ins, t.window);
    WindowCondition(th, ins, u.window);
    RunStartStep(th, LowBitrateAlert, true, ins);
    HeldIffRun(th, LowBitrateAlert, true, ins, th.lowHold);
    RunIsThere(th, ins);
    ReasonStep(th, DroppedAlert, ins, t.dropped, DroppedAt(th, ins));
    ReasonStep(th, LowBitrateAlert, ins, t.low, LowAt(th, ins) && i.now - u.lowSince >= th.lowHold);
  }

  lemma RunIsThere(th: Thresholds, ins: seq<Input>)
    requires ins != []
    ensures RunLength(th, LowBitrateAlert, true, ins) > 0 <==> LowAt(th, ins)
  {
  }

  lemma {:induction false} TrackerMatchesHistory(th: Thresholds, ins: seq<Input>)
    requires Valid(ins)
    ensures Tracks(th, ins, After(th, ins))
    decreases |ins|
  {
    if ins != [] {
      TrackerMatchesHistory(th, Prev(ins));
      if Last(ins).state.Idle? {
        TracksIdle(th, ins, After(th, Prev(ins)));
      } else {
        TracksStep(th, ins, After(th, Prev(ins)));
      }
    }
  }

  // ----- main theorems -----

  /** The trimmed window holds exactly the samples from the reference on, so its deltas are those against the
      latest sample at or before now minus the window (else the first) of the whole history since the last reset. */
  lemma WindowIsWholeHistory(th: Thresholds, ins: seq<Input>)
    requires Valid(ins) && Samples(th, ins) != []
    ensures var h, w := Samples(th, ins), After(th, ins).window;
            var from := h[Reference(h, Last(ins).now - th.dropWindow)];
            && w != [] && w[0] == from
            && w[|w| - 1].dropped - w[0].dropped == Last(ins).dropped - from.dropped >= 0
            && w[|w| - 1].frames - w[0].frames == Last(ins).frames - from.frames >= 0
  {
    TrackerMatchesHistory(th, ins);
    WindowCondition(th, ins, After(th, ins).window);
  }

  /** A dropped-frames alert is raised exactly at an update whose whole-history condition holds. */
  lemma DropRaised(th: Thresholds, ins: seq<Input>)
    requires Valid(ins) && ins != [] && !Active(th, DroppedAlert, Prev(ins))
    ensures Active(th, DroppedAlert, ins) <==> DroppedAt(th, ins)
  {
    TrackerMatchesHistory(th, Prev(ins));
    if Last(ins).state.Idle? {
      TracksIdle(th, ins, After(th, Prev(ins)));
    } else {
      TracksStep(th, ins, After(th, Prev(ins)));
    }
  }

  /** A low-bitrate alert is raised exactly when the rate was low at every update of at least the hold time. */
  lemma LowRaised(th: Thresholds, ins: seq<Input>)
    requires Valid(ins) && ins != [] && !Active(th, LowBitrateAlert, Prev(ins))
    ensures Active(th, LowBitrateAlert, ins) <==> HeldFor(th, LowBitrateAlert, true, ins, th.lowHold)
  {
    TrackerMatchesHistory(th, Prev(ins));
    if Last(ins).state.Idle? {
      TracksIdle(th, ins, After(th, Prev(ins)));
      HeldIffRun(th, LowBitrateAlert, true, ins, th.lowHold);
    } else {
      TracksStep(th, ins, After(th, Prev(ins)));
    }
  }

  /** A raised drop or low alert clears exactly when the endpoint goes Idle or its condition was false at every
      update over the last clearHold milliseconds. */
  lemma AlertCleared(th: Thresholds, r: ReasonId, ins: seq<Input>)
    requires Valid(ins) && ins != [] && (r.DroppedAlert? || r.LowBitrateAlert?) && Active(th, r, Prev(ins))
    ensures !Active(th, r, ins) <==> Last(ins).state.Idle? || HeldFor(th, r, false, ins, th.clearHold)
  {
    TrackerMatchesHistory(th, Prev(ins));
    if Last(ins).state.Idle? {
      TracksIdle(th, ins, After(th, Prev(ins)));
    } else {
      TracksStep(th, ins, After(th, Prev(ins)));
    }
  }
}
