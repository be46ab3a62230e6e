/** AlertPolicy (src/core/AlertPolicy.cpp): live-health alerts with hysteresis and a trimmed sliding
    window.  `Step` is one update of one endpoint on values; the class is the source's object and is
    proved equal to it; AlertHistory.dfy gives the meaning over whole input histories. */
module AlertPolicy {
  import opened OutputStates

  /** Reason indices, in the source's order. */
  datatype ReasonId = ReconnectingAlert | FailedAlert | DroppedAlert | LowBitrateAlert

  /** A signed C++ integer of at most 64 bits. */
  type Int64 = x: int | -0x8000_0000_0000_0000 <= x < 0x8000_0000_0000_0000

  datatype Thresholds = Thresholds(
    dropWindow: int, dropRatio: real, dropMinFrames: Int64, lowFraction: real,
    lowHold: int, startupGrace: int, clearHold: int)

  datatype Input = Input(
    endpoint: string, name: string, state: OutputState, targetKbps: int, actualKbps: real,
    dropped: nat, frames: nat, now: int)

  datatype Edge = Edge(raised: bool, reason: ReasonId, endpoint: string, name: string, state: OutputState)

  datatype Reason = Reason(active: bool, falseSince: int)

  datatype Sample = Sample(t: int, dropped: nat, frames: nat)

  /** One endpoint's trackers; -1 stands for "not set", as in the source. */
  datatype Tracker = Tracker(
    name: string, state: OutputState, liveSince: int, lowSince: int, window: seq<Sample>,
    reconnecting: Reason, failed: Reason, dropped: Reason, low: Reason)

  const OFF := Reason(false, -1)
  const FRESH := Tracker("", Idle, -1, -1, [], OFF, OFF, OFF, OFF)

  function Get(t: Tracker, r: ReasonId): Reason {
    match r
    case ReconnectingAlert => t.reconnecting
    case FailedAlert => t.failed
    case DroppedAlert => t.dropped
    case LowBitrateAlert => t.low
  }

  function Set(t: Tracker, r: ReasonId, v: Reason): Tracker {
    match r
    case ReconnectingAlert => t.(reconnecting := v)
    case FailedAlert => t.(failed := v)
    case DroppedAlert => t.(dropped := v)
    case LowBitrateAlert => t.(low := v)
  }

  datatype Result = Result(t: Tracker, edges: seq<Edge>)

  function Raise(s: Result, id: string, r: ReasonId): Result {
    if Get(s.t, r).active then s
    else Result(Set(s.t, r, Reason(true, -1)), s.edges + [Edge(true, r, id, s.t.name, s.t.state)])
  }

  function Clear(s: Result, id: string, r: ReasonId): Result {
    if !Get(s.t, r).active then s
    else Result(Set(s.t, r, Reason(false, -1)), s.edges + [Edge(false, r, id, s.t.name, s.t.state)])
  }

  function HoldClear(th: Thresholds, s: Result, id: string, r: ReasonId, condition: bool, now: int): Result {
    var v := Get(s.t, r);
    if !v.active then s
    else if condition then s.(t := Set(s.t, r, v.(falseSince := -1)))
    else
      var since := if v.falseSince < 0 then now else v.falseSince;
      var u := s.(t := Set(s.t, r, v.(falseSince := since)));
      if now - since >= th.clearHold then Clear(u, id, r) else u
  }

  // ----- one update, piece by piece -----

  function ToUint64(x: int): nat {
    x % 0x1_0000_0000_0000_0000
  }

  function Trim(w: seq<Sample>, cutoff: int): seq<Sample>
    decreases |w|
  {
    if |w| >= 2 && w[1].t <= cutoff then Trim(w[1..], cutoff) else w
  }

  predicate Backwards(w: seq<Sample>, dropped: nat, frames: nat) {
    w != [] && (dropped < w[|w| - 1].dropped || frames < w[|w| - 1].frames)
  }

  function Extend(w: seq<Sample>, i: Input): seq<Sample> {
    (if Backwards(w, i.dropped, i.frames) then [] else w) + [Sample(i.now, i.dropped, i.frames)]
  }

  function Push(th: Thresholds, w: seq<Sample>, i: Input): seq<Sample> {
    Trim(Extend(w, i), i.now - th.dropWindow)
  }

  /** Counters never run backwards inside a window. */
  ghost predicate Monotone(w: seq<Sample>) {
    forall j, k :: 0 <= j <= k < |w| ==> w[j].t <= w[k].t && w[j].dropped <= w[k].dropped && w[j].frames <= w[k].frames
  }

  predicate Exceeds(th: Thresholds, dropped: int, frames: int) {
    frames > 0 && dropped >= ToUint64(th.dropMinFrames) && dropped as real / frames as real >= th.dropRatio
  }

  predicate DropCondition(th: Thresholds, w: seq<Sample>) {
    |w| >= 2 && Exceeds(th, w[|w| - 1].dropped - w[0].dropped, w[|w| - 1].frames - w[0].frames)
  }

  predicate Checked(th: Thresholds, liveSince: int, i: Input) {
    i.state.Live? && i.now - liveSince >= th.startupGrace
  }

  predicate IsLow(th: Thresholds, checked: bool, i: Input) {
    checked && i.targetKbps > 0 && i.actualKbps < th.lowFraction * i.targetKbps as real
  }

  const REASONS := [ReconnectingAlert, FailedAlert, DroppedAlert, LowBitrateAlert]

  /** The first `k` reasons cleared, in the source's order. */
  function ClearUpTo(t: Tracker, id: string, k: nat): (s: Result)
    requires k <= 4
    ensures forall j :: 0 <= j < k ==> !Get(s.t, REASONS[j]).active
  {
    if k == 0 then Result(t, []) else Clear(ClearUpTo(t, id, k - 1), id, REASONS[k - 1])
  }

  function GoIdle(t: Tracker, id: string): Result {
    var s := ClearUpTo(t, id, 4);
    s.(t := s.t.(liveSince := -1, lowSince := -1, window := []))
  }

  function Enter(t: Tracker, i: Input): Tracker {
    if i.state.Live? then t.(liveSince := if t.liveSince < 0 then i.now else t.liveSince)
    else t.(liveSince := -1, lowSince := -1, window := [])
  }

  function StateAlerts(th: Thresholds, t: Tracker, i: Input): Result {
    var id, s := i.endpoint, Result(t, []);
    var a := if i.state.Reconnecting? then Raise(s, id, ReconnectingAlert) else s;
    var b := if i.state.FailedHard? then Raise(Clear(a, id, ReconnectingAlert), id, FailedAlert) else a;
    if i.state.Live? && i.now - t.liveSince >= th.clearHold then Clear(Clear(b, id, ReconnectingAlert), id, FailedAlert) else b
  }

  function DropAlert(th: Thresholds, s: Result, i: Input): Result {
    var checked := Checked(th, s.t.liveSince, i) && i.frames > 0;
    var u := s.(t := s.t.(window := if checked then Push(th, s.t.window, i) else []));
    var condition := DropCondition(th, u.t.window);
    if !u.t.dropped.active then (if condition then Raise(u, i.endpoint, DroppedAlert) else u)
    else HoldClear(th, u, i.endpoint, DroppedAlert, condition, i.now)
  }

  function LowAlert(th: Thresholds, s: Result, i: Input): Result {
    var low := IsLow(th, Checked(th, s.t.liveSince, i), i);
    var since := if !low then -1 else if s.t.lowSince < 0 then i.now else s.t.lowSince;
    var u := s.(t := s.t.(lowSince := since));
    if !u.t.low.active then (if low && i.now - since >= th.lowHold then Raise(u, i.endpoint, LowBitrateAlert) else u)
    else HoldClear(th, u, i.endpoint, LowBitrateAlert, low, i.now)
  }

  function Step(th: Thresholds, t0: Tracker, i: Input): Result {
    var t := t0.(name := i.name, state := i.state);
    if i.state.Idle? then GoIdle(t, i.endpoint)
    else LowAlert(th, DropAlert(th, StateAlerts(th, Enter(t, i), i), i), i)
  }

  // ----- replaying edges -----

  type Alert = (string, ReasonId)

  /** A raise names an inactive alert, a clear an active one: edges alternate per endpoint and reason. */
  predicate Alternates(active: set<Alert>, edges: seq<Edge>)
    decreases |edges|
  {
    edges == [] ||
    (var a := (edges[0].endpoint, edges[0].reason);
     (edges[0].raised <==> a !in active) && Alternates(Apply(active, edges[0]), edges[1..]))
  }

  function Apply(active: set<Alert>, e: Edge): set<Alert> {
    if e.raised then active + {(e.endpoint, e.reason)} else active - {(e.endpoint, e.reason)}
  }

  function Replay(active: set<Alert>, edges: seq<Edge>): set<Alert>
    decreases |edges|
  {
    if edges == [] then active else Replay(Apply(active, edges[0]), edges[1..])
  }

  function ActiveOf(t: Tracker, id: string): set<Alert> {
    set r: ReasonId | r in {ReconnectingAlert, FailedAlert, DroppedAlert, LowBitrateAlert} && Get(t, r).active :: (id, r)
  }

  lemma ReplayAppend(active: set<Alert>, edges: seq<Edge>, e: Edge)
    requires Alternates(active, edges)
    requires e.raised <==> (e.endpoint, e.reason) !in Replay(active, edges)
    ensures Alternates(active, edges + [e]) && Replay(active, edges + [e]) == Apply(Replay(active, edges), e)
    decreases |edges|
  {
    if edges != [] {
      assert (edges + [e])[1..] == edges[1..] + [e];
      ReplayAppend(Apply(active, edges[0]), edges[1..], e);
    } else {
      assert (edges + [e])[1..] == [];
    }
  }

  /** The edges produced so far, replayed on the alerts `before`, give the tracker's alerts now. */
  ghost predicate Faithful(before: set<Alert>, others: set<Alert>, s: Result, id: string) {
    Alternates(before, s.edges) && Replay(before, s.edges) == others + ActiveOf(s.t, id)
  }

  lemma RaiseFaithful(before: set<Alert>, others: set<Alert>, s: Result, id: string, r: ReasonId)
    requires Faithful(before, others, s, id) && forall a :: a in others ==> a.0 != id
    ensures Faithful(before, others, Raise(s, id, r), id)
  {
    if !Get(s.t, r).active {
      ReplayAppend(before, s.edges, Edge(true, r, id, s.t.name, s.t.state));
      assert ActiveOf(Raise(s, id, r).t, id) == ActiveOf(s.t, id) + {(id, r)};
    }
  }

  lemma ClearFaithful(before: set<Alert>, others: set<Alert>, s: Result, id: string, r: ReasonId)
    requires Faithful(before, others, s, id) && forall a :: a in others ==> a.0 != id
    ensures Faithful(before, others, Clear(s, id, r), id)
  {
    if Get(s.t, r).active {
      assert (id, r) in ActiveOf(s.t, id);
      ReplayAppend(before, s.edges, Edge(false, r, id, s.t.name, s.t.state));
      assert ActiveOf(Clear(s, id, r).t, id) == ActiveOf(s.t, id) - {(id, r)};
    }
  }

  lemma HoldClearFaithful(before: set<Alert>, others: set<Alert>, th: Thresholds, s: Result, id: string, r: ReasonId, condition: bool, now: int)
    requires Faithful(before, others, s, id) && forall a :: a in others ==> a.0 != id
    ensures Faithful(before, others, HoldClear(th, s, id, r, condition, now), id)
  {
    var v := Get(s.t, r);
    if v.active && condition {
      assert ActiveOf(Set(s.t, r, v.(falseSince := -1)), id) == ActiveOf(s.t, id);
    } else if v.active {
      var u := s.(t := Set(s.t, r, v.(falseSince := if v.falseSince < 0 then now else v.falseSince)));
      assert ActiveOf(u.t, id) == ActiveOf(s.t, id);
      ClearFaithful(before, others, u, id, r);
    }
  }

  /** One update: its edges alternate and turn the alerts before it into the alerts after it. */
  lemma StepFaithful(th: Thresholds, t: Tracker, i: Input, others: set<Alert>)
    requires forall a :: a in others ==> a.0 != i.endpoint
    ensures Faithful(others + ActiveOf(t, i.endpoint), others, Step(th, t, i), i.endpoint)
  {
    var id, before := i.endpoint, others + ActiveOf(t, i.endpoint);
    var n := t.(name := i.name, state := i.state);
    assert ActiveOf(n, id) == ActiveOf(t, id);
    if i.state.Idle? {
      ClearUpToFaithful(before, others, n, id, 4);
      assert ActiveOf(GoIdle(n, id).t, id) == ActiveOf(ClearUpTo(n, id, 4).t, id);
    } else {
      var e := Enter(n, i);
      assert ActiveOf(e, id) == ActiveOf(t, id);
      StateFaithful(before, others, th, e, i);
      DropFaithful(before, others, th, StateAlerts(th, e, i), i);
      LowFaithful(before, others, th, DropAlert(th, StateAlerts(th, e, i), i), i);
    }
  }

  lemma {:induction false} ClearUpToFaithful(before: set<Alert>, others: set<Alert>, t: Tracker, id: string, k: nat)
    requires k <= 4 && before == others + ActiveOf(t, id) && forall a :: a in others ==> a.0 != id
    ensures Faithful(before, others, ClearUpTo(t, id, k), id)
  {
    if k > 0 {
      ClearUpToFaithful(before, others, t, id, k - 1);
      ClearFaithful(before, others, ClearUpTo(t, id, k - 1), id, REASONS[k - 1]);
    }
  }

  lemma AllCleared(t: Tracker, id: string)
    ensures ActiveOf(ClearUpTo(t, id, 4).t, id) == {}
  {
    var u := ClearUpTo(t, id, 4).t;
    assert !Get(u, REASONS[0]).active && !Get(u, REASONS[1]).active && !Get(u, REASONS[2]).active && !Get(u, REASONS[3]).active;
  }

  lemma StateFaithful(before: set<Alert>, others: set<Alert>, th: Thresholds, t: Tracker, i: Input)
    requires before == others + ActiveOf(t, i.endpoint) && forall a :: a in others ==> a.0 != i.endpoint
    ensures Faithful(before, others, StateAlerts(th, t, i), i.endpoint)
  {
    var id, s := i.endpoint, Result(t, []);
    RaiseFaithful(before, others, s, id, ReconnectingAlert);
    var a := if i.state.Reconnecting? then Raise(s, id, ReconnectingAlert) else s;
    ClearFaithful(before, others, a, id, ReconnectingAlert);
    RaiseFaithful(before, others, Clear(a, id, ReconnectingAlert), id, FailedAlert);
    var b := if i.state.FailedHard? then Raise(Clear(a, id, ReconnectingAlert), id, FailedAlert) else a;
    ClearFaithful(before, others, b, id, ReconnectingAlert);
    ClearFaithful(before, others, Clear(b, id, ReconnectingAlert), id, FailedAlert);
  }

  lemma DropFaithful(before: set<Alert>, others: set<Alert>, th: Thresholds, s: Result, i: Input)
    requires Faithful(before, others, s, i.endpoint) && forall a :: a in others ==> a.0 != i.endpoint
    ensures Faithful(before, others, DropAlert(th, s, i), i.endpoint)
  {
    var w := if Checked(th, s.t.liveSince, i) && i.frames > 0 then Push(th, s.t.window, i) else [];
    var u := s.(t := s.t.(window := w));
    assert ActiveOf(u.t, i.endpoint) == ActiveOf(s.t, i.endpoint);
    RaiseFaithful(before, others, u, i.endpoint, DroppedAlert);
    HoldClearFaithful(before, others, th, u, i.endpoint, DroppedAlert, DropCondition(th, w), i.now);
  }

  lemma LowFaithful(before: set<Alert>, others: set<Alert>, th: Thresholds, s: Result, i: Input)
    requires Faithful(before, others, s, i.endpoint) && forall a :: a in others ==> a.0 != i.endpoint
    ensures Faithful(before, others, LowAlert(th, s, i), i.endpoint)
  {
    var low := IsLow(th, Checked(th, s.t.liveSince, i), i);
    var since := if !low then -1 else if s.t.lowSince < 0 then i.now else s.t.lowSince;
    var u := s.(t := s.t.(lowSince := since));
    assert ActiveOf(u.t, i.endpoint) == ActiveOf(s.t, i.endpoint);
    RaiseFaithful(before, others, u, i.endpoint, LowBitrateAlert);
    HoldClearFaithful(before, others, th, u, i.endpoint, LowBitrateAlert, low, i.now);
  }

  // ----- the policy over all its endpoints -----

  type Trackers = map<string, Tracker>

  function Lookup(m: Trackers, id: string): Tracker {
    if id in m then m[id] else FRESH
  }

  ghost function AllActive(m: Trackers): set<Alert> {
    set id, r: ReasonId | id in m && r in {ReconnectingAlert, FailedAlert, DroppedAlert, LowBitrateAlert} && Get(m[id], r).active :: (id, r)
  }

  lemma ActiveSplit(m: Trackers, id: string)
    ensures AllActive(m) == AllActive(m - {id}) + ActiveOf(Lookup(m, id), id)
  {
  }

  /** Replaying the edges of one update on the policy's active alerts gives its active alerts afterwards. */
  lemma UpdateFaithful(th: Thresholds, m: Trackers, i: Input)
    ensures var s := Step(th, Lookup(m, i.endpoint), i);
            Alternates(AllActive(m), s.edges) && Replay(AllActive(m), s.edges) == AllActive(m[i.endpoint := s.t])
  {
    var id, s := i.endpoint, Step(th, Lookup(m, i.endpoint), i);
    StepFaithful(th, Lookup(m, id), i, AllActive(m - {id}));
    ActiveSplit(m, id);
    ActiveSplit(m[id := s.t], id);
    assert m[id := s.t] - {id} == m - {id};
  }

  /** Removing one endpoint emits exactly the clears of its active alerts. */
  lemma RemovalFaithful(m: Trackers, id: string)
    requires id in m
    ensures var edges := ClearUpTo(m[id], id, 4).edges;
            Alternates(AllActive(m), edges) && Replay(AllActive(m), edges) == AllActive(m - {id})
  {
    var others := AllActive(m - {id});
    ActiveSplit(m, id);
    ClearUpToFaithful(others + ActiveOf(m[id], id), others, m[id], id, 4);
    AllCleared(m[id], id);
  }

  lemma {:induction false} OnlyClears(t: Tracker, id: string, k: nat)
    requires k <= 4
    ensures forall e :: e in ClearUpTo(t, id, k).edges ==> !e.raised && e.endpoint == id
  {
    if k > 0 {
      OnlyClears(t, id, k - 1);
    }
  }

  lemma ReplayConcat(active: set<Alert>, a: seq<Edge>, b: seq<Edge>)
    requires Alternates(active, a) && Alternates(Replay(active, a), b)
    ensures Alternates(active, a + b) && Replay(active, a + b) == Replay(Replay(active, a), b)
    decreases |a|
  {
    if a == [] {
      assert a + b == b;
    } else {
      assert (a + b)[1..] == a[1..] + b;
      ReplayConcat(Apply(active, a[0]), a[1..], b);
    }
  }

  datatype Action = Tick(i: Input) | Remove(id: string)

  function Act(th: Thresholds, m: Trackers, a: Action): (Trackers, seq<Edge>) {
    match a
    case Tick(i) => var s := Step(th, Lookup(m, i.endpoint), i); (m[i.endpoint := s.t], s.edges)
    case Remove(id) => if id in m then (m - {id}, ClearUpTo(m[id], id, 4).edges) else (m, [])
  }

  function RunState(th: Thresholds, m: Trackers, run: seq<Action>): Trackers
    decreases |run|
  {
    if run == [] then m else RunState(th, Act(th, m, run[0]).0, run[1..])
  }

  function RunEdges(th: Thresholds, m: Trackers, run: seq<Action>): seq<Edge>
    decreases |run|
  {
    if run == [] then [] else Act(th, m, run[0]).1 + RunEdges(th, Act(th, m, run[0]).0, run[1..])
  }

  /** Over any run of updates and removals, replaying every emitted edge rebuilds exactly the active alerts. */
  lemma {:induction false} RunRebuildsAlerts(th: Thresholds, m: Trackers, run: seq<Action>)
    ensures Alternates(AllActive(m), RunEdges(th, m, run))
    ensures Replay(AllActive(m), RunEdges(th, m, run)) == AllActive(RunState(th, m, run))
    decreases |run|
  {
    if run != [] {
      var (n, edges) := Act(th, m, run[0]);
      match run[0] {
        case Tick(i) => UpdateFaithful(th, m, i);
        case Remove(id) => if id in m { RemovalFaithful(m, id); }
      }
      RunRebuildsAlerts(th, n, run[1..]);
      ReplayConcat(AllActive(m), edges, RunEdges(th, n, run[1..]));
    }
  }

  class Policy {
    const th: Thresholds
    var endpoints: Trackers

    constructor (th: Thresholds)
      ensures this.th == th && endpoints == map[]
    {
      this.th := th;
      endpoints := map[];
    }

    static method ClearAll(t: Tracker, id: string) returns (s: Result)
      ensures s == ClearUpTo(t, id, 4)
    {
      s := Result(t, []);
      for k := 0 to 4
        invariant s == ClearUpTo(t, id, k)
      {
        s := Clear(s, id, REASONS[k]);
      }
    }

    /** Push the new counters into the window and drop what left it. */
    method Slide(window: seq<Sample>, i: Input) returns (w: seq<Sample>)
      ensures w == Push(th, window, i)
    {
      w := window;
      if w != [] && (i.dropped < w[|w| - 1].dropped || i.frames < w[|w| - 1].frames) {
        w := [];
      }
      w := w + [Sample(i.now, i.dropped, i.frames)];
      var cutoff := i.now - th.dropWindow;
      while |w| >= 2 && w[1].t <= cutoff
        invariant Trim(w, cutoff) == Push(th, window, i)
        decreases |w|
      {
        w := w[1..];
      }
    }

    method UpdateTracker(ep: Tracker, i: Input) returns (s: Result)
      ensures s == Step(th, ep, i)
    {
      var id, now := i.endpoint, i.now;
      var t := ep.(name := i.name, state := i.state);
      if i.state.Idle? {
        s := ClearAll(t, id);
        s := s.(t := s.t.(liveSince := -1, lowSince := -1, window := []));
        return;
      }

      var live := i.state.Live?;
      if live {
        if t.liveSince < 0 {
          t := t.(liveSince := now);
        }
      } else {
        t := t.(liveSince := -1, lowSince := -1, window := []);
      }

      // State alerts: immediate raise; cleared once the endpoint was Live long enough.
      s := Result(t, []);
      if i.state.Reconnecting? {
        s := Raise(s, id, ReconnectingAlert);
      }
      if i.state.FailedHard? {
        s := Clear(s, id, ReconnectingAlert);
        s := Raise(s, id, FailedAlert);
      }
      if live && now - t.liveSince >= th.clearHold {
        s := Clear(s, id, ReconnectingAlert);
        s := Clear(s, id, FailedAlert);
      }
      assert s == StateAlerts(th, t, i);

      var checked := live && now - s.t.liveSince >= th.startupGrace;
      s := CheckDrops(s, i, checked);
      s := CheckBitrate(s, i, checked);
    }

    method CheckDrops(s: Result, i: Input, checked: bool) returns (u: Result)
      requires checked == Checked(th, s.t.liveSince, i)
      ensures u == DropAlert(th, s, i)
    {
      var condition := false;
      var w := [];
      if checked && i.frames > 0 {
        w := Slide(s.t.window, i);
        condition := DropCondition(th, w);
      }
      u := s.(t := s.t.(window := w));
      if !u.t.dropped.active {
        if condition {
          u := Raise(u, i.endpoint, DroppedAlert);
        }
      } else {
        u := HoldClear(th, u, i.endpoint, DroppedAlert, condition, i.now);
      }
    }

    method CheckBitrate(s: Result, i: Input, checked: bool) returns (u: Result)
      requires checked == Checked(th, s.t.liveSince, i)
      ensures u == LowAlert(th, s, i)
    {
      var low := IsLow(th, checked, i);
      u := s;
      if low {
        if u.t.lowSince < 0 {
          u := u.(t := u.t.(lowSince := i.now));
        }
      } else {
        u := u.(t := u.t.(lowSince := -1));
      }
      if !u.t.low.active {
        if low && i.now - u.t.lowSince >= th.lowHold {
          u := Raise(u, i.endpoint, LowBitrateAlert);
        }
      } else {
        u := HoldClear(th, u, i.endpoint, LowBitrateAlert, low, i.now);
      }
    }

    /** Only the endpoint of the input changes, by one step; who replays the edges from the alerts before has those after. */
    method Update(i: Input) returns (out: seq<Edge>)
      modifies this
      ensures var s := Step(th, Lookup(old(endpoints), i.endpoint), i);
              endpoints == old(endpoints)[i.endpoint := s.t] && out == s.edges
      ensures Alternates(AllActive(old(endpoints)), out)
      ensures Replay(AllActive(old(endpoints)), out) == AllActive(endpoints)
    {
      UpdateFaithful(th, endpoints, i);
      var ep := Lookup(endpoints, i.endpoint);
      var s := UpdateTracker(ep, i);
      endpoints := endpoints[i.endpoint := s.t];
      out := s.edges;
    }

    static method IsKept(keep: seq<string>, id: string) returns (kept: bool)
      ensures kept <==> id in keep
    {
      for k := 0 to |keep|
        invariant id !in keep[..k]
      {
        if keep[k] == id {
          return true;
        }
      }
      return false;
    }

    /** The map is restricted to `keep`; the edges only clear, each of them an alert that was active for a removed endpoint. */
    method RetainOnly(keep: seq<string>) returns (out: seq<Edge>)
      modifies this
      ensures endpoints == map id | id in old(endpoints) && id in keep :: old(endpoints)[id]
      ensures Alternates(AllActive(old(endpoints)), out)
      ensures Replay(AllActive(old(endpoints)), out) == AllActive(endpoints)
      ensures forall e :: e in out ==> !e.raised && e.endpoint !in keep
    {
      out := [];
      ghost var m0, before := endpoints, AllActive(endpoints);
      var m := endpoints;
      var todo := m.Keys;
      while todo != {}
        invariant todo <= m.Keys <= m0.Keys
        invariant forall id :: id in m ==> m[id] == m0[id]
        invariant forall id :: id in m0 && id !in todo ==> (id in m <==> id in keep)
        invariant Alternates(before, out) && Replay(before, out) == AllActive(m)
        invariant forall e :: e in out ==> !e.raised && e.endpoint !in keep
        decreases |todo|
      {
        var id :| id in todo;
        todo := todo - {id};
        var kept := IsKept(keep, id);
        if !kept {
          var cleared := ClearAll(m[id], id);
          RemovalFaithful(m, id);
          OnlyClears(m[id], id, 4);
          ReplayConcat(before, out, cleared.edges);
          out := out + cleared.edges;
          m := m - {id};
        }
      }
      endpoints := m;
    }
  }
}
