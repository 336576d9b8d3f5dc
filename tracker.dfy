/** The windowing state machine (`struct StatisticTracker`): time is cut into
    zero-aligned buckets of `timeWindow` seconds; an event in a later bucket
    closes and archives the open window before it is recorded. */
module Tracker {
  import opened Metrics

  /** `x` is a whole multiple of `window`, in the source's own terms:
      `floor(x / window) * window == x`. */
  predicate IsAligned(x: real, window: real)
    requires window > 0.0
  {
    (x / window).Floor as real * window == x
  }

  /** `std::floor(time / timeWindow) * timeWindow`: the start of the bucket
      holding `time`, the one aligned point at most one window below it. */
  function Bucket(time: real, window: real): (start: real)
    requires window > 0.0
    ensures start <= time < start + window
    ensures IsAligned(start, window)
    ensures 0.0 <= time ==> 0.0 <= start
  {
    var k := (time / window).Floor;
    var start := k as real * window;
    LowerBound(time, time / window, window, k as real, start);
    UpperBound(time, time / window, window, k as real, start);
    NonNegative(time, time / window, window);
    DivCancel(k as real, window, start);
    start
  }

  // Helpers for Bucket: the step from `k <= time / window < k + 1` to the
  // bounds on `k * window`, one inequality each.

  lemma LowerBound(time: real, q: real, window: real, k: real, start: real)
    requires window > 0.0
    requires q * window == time && start == k * window && k <= q
    ensures start <= time
  {
  }

  lemma UpperBound(time: real, q: real, window: real, k: real, start: real)
    requires window > 0.0
    requires q * window == time && start == k * window && q < k + 1.0
    ensures time < start + window
  {
    var d := k + 1.0 - q;
    assert d * window > 0.0;
    assert d * window == (k + 1.0) * window - q * window;
    assert (k + 1.0) * window == k * window + window;
  }

  lemma NonNegative(time: real, q: real, window: real)
    requires window > 0.0 && q * window == time
    ensures 0.0 <= time ==> 0.0 <= q
  {
  }

  lemma DivCancel(k: real, window: real, start: real)
    requires window > 0.0 && start == k * window
    ensures start / window == k
  {
  }

  /** The tracker's fields as a value: `timeWindow`, `currentTime`,
      `lastWindowEnd` (start of the open window), `currentMetrics` and the
      archive `windowStatistics` of closed windows keyed by their start. */
  datatype TrackerState = TrackerState(
    timeWindow: real,
    currentTime: real,
    lastWindowEnd: real,
    current: WindowMetrics,
    archive: map<real, WindowMetrics>)

  /** The constructor `StatisticTracker(window)`. */
  function Initial(window: real): (s: TrackerState)
    requires window > 0.0
    ensures Inv(s)
    ensures s.timeWindow == window && s.currentTime == 0.0 && s.lastWindowEnd == 0.0
    ensures s.archive == map[] && s.current == EmptyWindow()
  {
    TrackerState(window, 0.0, 0.0, EmptyWindow(), map[])
  }

  /** The invariant every reachable tracker keeps: the open window starts at
      a non-negative aligned point; every archived window starts at an
      aligned point below it; the open accumulator is well formed and its
      means are still zero; every archived one is well formed with settled
      means. */
  ghost predicate Inv(s: TrackerState) {
    && s.timeWindow > 0.0
    && 0.0 <= s.lastWindowEnd && IsAligned(s.lastWindowEnd, s.timeWindow)
    && WellFormed(s.current) && s.current.rxBitsMean == 0.0 && s.current.txBitsMean == 0.0
    && forall start :: start in s.archive ==>
         && 0.0 <= start < s.lastWindowEnd && IsAligned(start, s.timeWindow)
         && WellFormed(s.archive[start])
         && MeanSettled(s.archive[start], Rx) && MeanSettled(s.archive[start], Tx)
  }

  /** An event at `time` opens a new window exactly when its bucket lies
      past the open one. */
  predicate StartsNewWindow(s: TrackerState, time: real)
    requires s.timeWindow > 0.0
  {
    Bucket(time, s.timeWindow) > s.lastWindowEnd
  }

  /** The rollover shared by both updates: store `closing` under the old
      `lastWindowEnd` (guarded by `lastWindowEnd >= 0` as in the source),
      reset the accumulator and move to `windowEnd`. */
  function CloseWindow(s: TrackerState, closing: WindowMetrics, windowEnd: real): TrackerState {
    s.(archive := if s.lastWindowEnd >= 0.0 then s.archive[s.lastWindowEnd := closing] else s.archive,
       current := EmptyWindow(),
       lastWindowEnd := windowEnd)
  }

  /** `StatisticTracker::updatePeaks(time, rxSize, txSize)`: the closing
      window gets its means computed before it is archived. */
  function StepPeaks(s: TrackerState, time: real, rxSize: int, txSize: int): (s': TrackerState)
    requires s.timeWindow > 0.0
    ensures s'.timeWindow == s.timeWindow && s'.currentTime == time
  {
    var ready :=
      if StartsNewWindow(s, time) then CloseWindow(s, FinalizeMeans(s.current), Bucket(time, s.timeWindow))
      else s;
    ready.(currentTime := time, current := RecordPackets(ready.current, rxSize, txSize))
  }

  /** `StatisticTracker::updateChannelMetrics(time, interference,
      utilization, busyRate)`: the closing window is archived as it is, with
      no mean computation. */
  function StepChannel(s: TrackerState, time: real, interference: real, utilization: real, busyRate: real): (s': TrackerState)
    requires s.timeWindow > 0.0
    ensures s'.timeWindow == s.timeWindow && s'.currentTime == time
  {
    var ready :=
      if StartsNewWindow(s, time) then CloseWindow(s, s.current, Bucket(time, s.timeWindow))
      else s;
    ready.(currentTime := time, current := RecordChannel(ready.current, interference, utilization, busyRate))
  }

  /** One ingested trace event. */
  datatype Event =
    | RxPacket(time: real, size: int)
    | TxPacket(time: real, size: int)
    | ChannelSample(time: real, interference: real, utilization: real, busyRate: real)

  /** How each event reaches the tracker: a received packet as
      `updatePeaks(now, size, 0)`, a transmitted one as
      `updatePeaks(now, 0, size)`, a channel sample through
      `updateChannelMetrics`. */
  function Apply(s: TrackerState, e: Event): (s': TrackerState)
    requires s.timeWindow > 0.0
    ensures s'.timeWindow == s.timeWindow && s'.currentTime == e.time
  {
    match e
    case RxPacket(time, size) => StepPeaks(s, time, size, 0)
    case TxPacket(time, size) => StepPeaks(s, time, 0, size)
    case ChannelSample(time, i, u, b) => StepChannel(s, time, i, u, b)
  }

  /** The tracker after a run of events, in arrival order. */
  function Replay(s: TrackerState, events: seq<Event>): (s': TrackerState)
    requires s.timeWindow > 0.0
    ensures s'.timeWindow == s.timeWindow
    ensures |events| > 0 ==> s'.currentTime == events[|events| - 1].time
    decreases |events|
  {
    if events == [] then s
    else Replay(Apply(s, events[0]), events[1..])
  }

  /** `struct StatisticTracker`, updated in place by the trace callbacks. */
  class StatisticTracker {
    var timeWindow: real
    var currentTime: real
    var lastWindowEnd: real
    var currentMetrics: WindowMetrics
    var windowStatistics: map<real, WindowMetrics>

    function State(): TrackerState
      reads this
    {
      TrackerState(timeWindow, currentTime, lastWindowEnd, currentMetrics, windowStatistics)
    }

    ghost predicate Valid()
      reads this
    {
      Inv(State())
    }

    constructor (window: real)
      requires window > 0.0
      ensures Valid()
      ensures State() == Initial(window)
    {
      timeWindow := window;
      currentTime := 0.0;
      lastWindowEnd := 0.0;
      currentMetrics := EmptyWindow();
      windowStatistics := map[];
    }

    method UpdatePeaks(time: real, rxSize: int, txSize: int)
      requires Valid()
      modifies this
      ensures Valid()
      ensures State() == StepPeaks(old(State()), time, rxSize, txSize)
    {
      ghost var before := State();
      currentTime := time;
      var windowEnd := Bucket(time, timeWindow);
      if windowEnd > lastWindowEnd {
        var closing := currentMetrics;
        if closing.rxCount > 0 {
          closing := closing.(rxBitsMean := closing.rxSum as real / closing.rxCount as real);
        }
        if closing.txCount > 0 {
          closing := closing.(txBitsMean := closing.txSum as real / closing.txCount as real);
        }
        assert closing == FinalizeMeans(before.current);
        if lastWindowEnd >= 0.0 {
          windowStatistics := windowStatistics[lastWindowEnd := closing];
        }
        currentMetrics := EmptyWindow();
        lastWindowEnd := windowEnd;
      }
      ghost var ready := State();
      assert ready == (if StartsNewWindow(before, time)
        then CloseWindow(before, FinalizeMeans(before.current), Bucket(time, timeWindow)) else before).(currentTime := time);
      var m := currentMetrics.(
        rxBitsPeak := Max(currentMetrics.rxBitsPeak, rxSize),
        txBitsPeak := Max(currentMetrics.txBitsPeak, txSize));
      if rxSize > 0 {
        m := m.(rxSum := m.rxSum + rxSize, rxCount := m.rxCount + 1);
      }
      if txSize > 0 {
        m := m.(txSum := m.txSum + txSize, txCount := m.txCount + 1);
      }
      assert m == RecordPackets(ready.current, rxSize, txSize);
      currentMetrics := m;
      StepPeaksKeepsInv(before, time, rxSize, txSize);
    }

    method UpdateChannelMetrics(time: real, interference: real, utilization: real, busyRate: real)
      requires Valid()
      modifies this
      ensures Valid()
      ensures State() == StepChannel(old(State()), time, interference, utilization, busyRate)
    {
      ghost var before := State();
      currentTime := time;
      var windowEnd := Bucket(time, timeWindow);
      if windowEnd > lastWindowEnd {
        if lastWindowEnd >= 0.0 {
          windowStatistics := windowStatistics[lastWindowEnd := currentMetrics];
        }
        currentMetrics := EmptyWindow();
        lastWindowEnd := windowEnd;
      }
      ghost var ready := State();
      assert ready == (if StartsNewWindow(before, time)
        then CloseWindow(before, before.current, Bucket(time, timeWindow)) else before).(currentTime := time);
      currentMetrics := currentMetrics.(
        channelInterference := interference,
        radioUtilization := utilization,
        channelBusyRate := busyRate);
      StepChannelKeepsInv(before, time, interference, utilization, busyRate);
    }
  }

  /** Both updates keep the invariant (so, among others, `lastWindowEnd`
      stays a non-negative multiple of the window and every archived key
      stays below it). */
  lemma StepPeaksKeepsInv(s: TrackerState, time: real, rxSize: int, txSize: int)
    requires Inv(s)
    ensures Inv(StepPeaks(s, time, rxSize, txSize))
  {
    var ready :=
      if StartsNewWindow(s, time) then CloseWindow(s, FinalizeMeans(s.current), Bucket(time, s.timeWindow))
      else s;
    if StartsNewWindow(s, time) {
      FinalizeMeansSettles(s.current);
      RecordPacketsKeepsWellFormed(EmptyWindow(), rxSize, txSize);
    } else {
      RecordPacketsKeepsWellFormed(s.current, rxSize, txSize);
    }
  }

  lemma StepChannelKeepsInv(s: TrackerState, time: real, interference: real, utilization: real, busyRate: real)
    requires Inv(s)
    ensures Inv(StepChannel(s, time, interference, utilization, busyRate))
  {
  }
}
