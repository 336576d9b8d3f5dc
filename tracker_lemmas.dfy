/** Properties of the windowing state machine: where buckets fall, what a
    rollover does, and what whole runs of events preserve. */
module TrackerLemmas {
  import opened Metrics
  import opened Tracker

  // ---------------------------------------------------------------------
  // Buckets

  /** Two distinct aligned points are at least one window apart. */
  lemma {:induction false} AlignedGap(a: real, b: real, window: real)
    requires window > 0.0
    requires IsAligned(a, window) && IsAligned(b, window) && a < b
    ensures a + window <= b
  {
    var i := (a / window).Floor;
    var j := (b / window).Floor;
    assert i < j;
    var d := (j - i - 1) as real;
    assert d * window >= 0.0;
    assert d * window == j as real * window - i as real * window - 1.0 * window;
  }

  /** The bucket is the only aligned point within one window below `time`:
      an independent characterisation of `floor(time / w) * w`. */
  lemma {:induction false} BucketUnique(time: real, window: real, start: real)
    requires window > 0.0
    requires IsAligned(start, window) && start <= time < start + window
    ensures Bucket(time, window) == start
  {
    var b := Bucket(time, window);
    if b < start {
      AlignedGap(b, start, window);
    } else if start < b {
      AlignedGap(start, b, window);
    }
  }

  /** Later times never fall in earlier buckets. */
  lemma {:induction false} BucketMonotone(t1: real, t2: real, window: real)
    requires window > 0.0 && t1 <= t2
    ensures Bucket(t1, window) <= Bucket(t2, window)
  {
    var b1, b2 := Bucket(t1, window), Bucket(t2, window);
    if b2 < b1 {
      AlignedGap(b2, b1, window);
    }
  }

  // ---------------------------------------------------------------------
  // One update

  /** `updatePeaks`: a rollover happens exactly when the event's bucket lies
      past `lastWindowEnd`. It then stores the old accumulator, with its
      means computed, under a key that was free and lies above every
      archived key, and starts the new window with just this event. A late
      event leaves the archive and `lastWindowEnd` alone and is merged into
      the open window. */
  lemma StepPeaksRollover(s: TrackerState, time: real, rxSize: int, txSize: int)
    requires Inv(s)
    ensures var s' := StepPeaks(s, time, rxSize, txSize);
      && (s'.lastWindowEnd != s.lastWindowEnd <==> StartsNewWindow(s, time))
      && (StartsNewWindow(s, time) ==>
            && s.lastWindowEnd !in s.archive
            && (forall start :: start in s.archive ==> start < s.lastWindowEnd)
            && s'.archive == s.archive[s.lastWindowEnd := FinalizeMeans(s.current)]
            && |s'.archive| == |s.archive| + 1
            && s'.lastWindowEnd == Bucket(time, s.timeWindow)
            && s'.current == RecordPackets(EmptyWindow(), rxSize, txSize))
      && (!StartsNewWindow(s, time) ==>
            && s'.archive == s.archive
            && s'.lastWindowEnd == s.lastWindowEnd
            && s'.current == RecordPackets(s.current, rxSize, txSize))
  {
  }

  /** `updateChannelMetrics`: the same rollover rule, but the closing window
      is archived as it stands -- its means keep the zero they were created
      with, whatever its counts. */
  lemma StepChannelRollover(s: TrackerState, time: real, interference: real, utilization: real, busyRate: real)
    requires Inv(s)
    ensures var s' := StepChannel(s, time, interference, utilization, busyRate);
      && (s'.lastWindowEnd != s.lastWindowEnd <==> StartsNewWindow(s, time))
      && (StartsNewWindow(s, time) ==>
            && s.lastWindowEnd !in s.archive
            && s'.archive == s.archive[s.lastWindowEnd := s.current]
            && s'.archive[s.lastWindowEnd].rxBitsMean == 0.0
            && s'.archive[s.lastWindowEnd].txBitsMean == 0.0
            && s'.lastWindowEnd == Bucket(time, s.timeWindow)
            && s'.current == RecordChannel(EmptyWindow(), interference, utilization, busyRate))
      && (!StartsNewWindow(s, time) ==>
            && s'.archive == s.archive
            && s'.lastWindowEnd == s.lastWindowEnd
            && s'.current == RecordChannel(s.current, interference, utilization, busyRate))
  {
  }

  /** `s'` only adds to `s`: `lastWindowEnd` does not go back, no archived
      window is changed or removed, and every newly archived key lies at or
      after the old `lastWindowEnd` -- hence above every old key. */
  ghost predicate Extends(s: TrackerState, s': TrackerState) {
    && s.lastWindowEnd <= s'.lastWindowEnd
    && (forall start :: start in s.archive ==> start in s'.archive && s'.archive[start] == s.archive[start])
    && (forall start :: start in s'.archive && start !in s.archive ==> s.lastWindowEnd <= start)
  }

  lemma ApplyKeepsInv(s: TrackerState, e: Event)
    requires Inv(s)
    ensures Inv(Apply(s, e)) && Extends(s, Apply(s, e))
  {
    match e
    case RxPacket(time, size) => StepPeaksKeepsInv(s, time, size, 0);
    case TxPacket(time, size) => StepPeaksKeepsInv(s, time, 0, size);
    case ChannelSample(time, i, u, b) => StepChannelKeepsInv(s, time, i, u, b);
  }

  // ---------------------------------------------------------------------
  // Runs of events

  lemma {:induction false} ExtendsTransitive(s1: TrackerState, s2: TrackerState, s3: TrackerState)
    requires Extends(s1, s2) && Extends(s2, s3)
    ensures Extends(s1, s3)
  {
  }

  /** Whatever the order of the events, late ones included, the invariant
      holds after a run and the archive only grows: closed windows are never
      overwritten and keys are archived in increasing order. */
  lemma {:induction false} ReplayKeepsInv(s: TrackerState, events: seq<Event>)
    requires Inv(s)
    ensures Inv(Replay(s, events)) && Extends(s, Replay(s, events))
    decreases |events|
  {
    if events != [] {
      var next := Apply(s, events[0]);
      ApplyKeepsInv(s, events[0]);
      ReplayKeepsInv(next, events[1..]);
      ExtendsTransitive(s, next, Replay(next, events[1..]));
    }
  }

  /** Some key of a non-empty archive. */
  ghost function AnyKey(archive: map<real, WindowMetrics>): (start: real)
    requires archive != map[]
    ensures start in archive
  {
    assert exists start :: start in archive by {
      if forall start :: start !in archive {
        assert false;
      }
    }
    var start :| start in archive;
    start
  }

  /** What is tallied over windows: the packet count or the byte sum. */
  datatype Tally = Packets | Bytes

  function Amount(m: WindowMetrics, side: Side, tally: Tally): int {
    match tally
    case Packets => Count(m, side)
    case Bytes => Sum(m, side)
  }

  /** One side's tally summed over the archive. */
  ghost function ArchiveTotal(archive: map<real, WindowMetrics>, side: Side, tally: Tally): int
    decreases |archive|
  {
    if archive == map[] then 0
    else
      var start := AnyKey(archive);
      assert |archive - {start}| < |archive| by {
        assert (archive - {start}).Keys == archive.Keys - {start};
      }
      Amount(archive[start], side, tally) + ArchiveTotal(archive - {start}, side, tally)
  }

  /** ArchiveTotal does not depend on which key it takes first. */
  lemma {:induction false} ArchiveTotalRemove(archive: map<real, WindowMetrics>, start: real, side: Side, tally: Tally)
    requires start in archive
    ensures ArchiveTotal(archive, side, tally) == Amount(archive[start], side, tally) + ArchiveTotal(archive - {start}, side, tally)
    decreases |archive|
  {
    var first := AnyKey(archive);
    if first != start {
      var rest := archive - {first};
      assert (archive - {start}).Keys == archive.Keys - {start};
      assert rest.Keys == archive.Keys - {first};
      ArchiveTotalRemove(rest, start, side, tally);
      ArchiveTotalRemove(archive - {start}, first, side, tally);
      assert rest - {start} == (archive - {start}) - {first};
    }
  }

  lemma ArchiveTotalInsert(archive: map<real, WindowMetrics>, start: real, m: WindowMetrics, side: Side, tally: Tally)
    requires start !in archive
    ensures ArchiveTotal(archive[start := m], side, tally) == ArchiveTotal(archive, side, tally) + Amount(m, side, tally)
  {
    ArchiveTotalRemove(archive[start := m], start, side, tally);
    assert archive[start := m] - {start} == archive;
  }

  /** One side's tally over closed windows and the open one. */
  ghost function Total(s: TrackerState, side: Side, tally: Tally): int {
    ArchiveTotal(s.archive, side, tally) + Amount(s.current, side, tally)
  }

  /** Whether an event is counted on `side`: a packet of that direction with
      a positive size. */
  function Counted(e: Event, side: Side): nat {
    match e
    case RxPacket(_, size) => if side == Rx && size > 0 then 1 else 0
    case TxPacket(_, size) => if side == Tx && size > 0 then 1 else 0
    case ChannelSample(_, _, _, _) => 0
  }

  function CountedIn(events: seq<Event>, side: Side): nat {
    if events == [] then 0 else Counted(events[0], side) + CountedIn(events[1..], side)
  }

  lemma ApplyConservesCount(s: TrackerState, e: Event, side: Side)
    requires Inv(s)
    ensures Total(Apply(s, e), side, Packets) == Total(s, side, Packets) + Counted(e, side)
  {
    if StartsNewWindow(s, e.time) {
      var closing := if e.ChannelSample? then s.current else FinalizeMeans(s.current);
      assert Count(closing, side) == Count(s.current, side);
      ArchiveTotalInsert(s.archive, s.lastWindowEnd, closing, side, Packets);
    }
  }

  /** Count conservation: after any run, the counts over the archive plus the
      open window have grown by exactly the number of positive-size packets
      of that direction in the run. */
  lemma {:induction false} ReplayConservesCounts(s: TrackerState, events: seq<Event>, side: Side)
    requires Inv(s)
    ensures Total(Replay(s, events), side, Packets) == Total(s, side, Packets) + CountedIn(events, side)
    decreases |events|
  {
    if events != [] {
      ApplyConservesCount(s, events[0], side);
      ApplyKeepsInv(s, events[0]);
      ReplayConservesCounts(Apply(s, events[0]), events[1..], side);
    }
  }

  /** From a fresh tracker, the counts equal the positive-size packets. */
  lemma FreshTrackerCounts(window: real, events: seq<Event>, side: Side)
    requires window > 0.0
    ensures Total(Replay(Initial(window), events), side, Packets) == CountedIn(events, side)
  {
    ReplayConservesCounts(Initial(window), events, side);
  }

  /** Bytes an event adds on `side`: the size of a packet of that direction
      when it is positive. */
  function Size(e: Event, side: Side): nat {
    match e
    case RxPacket(_, size) => if side == Rx && size > 0 then size else 0
    case TxPacket(_, size) => if side == Tx && size > 0 then size else 0
    case ChannelSample(_, _, _, _) => 0
  }

  function SizesIn(events: seq<Event>, side: Side): nat {
    if events == [] then 0 else Size(events[0], side) + SizesIn(events[1..], side)
  }

  lemma ApplyConservesSum(s: TrackerState, e: Event, side: Side)
    requires Inv(s)
    ensures Total(Apply(s, e), side, Bytes) == Total(s, side, Bytes) + Size(e, side)
  {
    if StartsNewWindow(s, e.time) {
      var closing := if e.ChannelSample? then s.current else FinalizeMeans(s.current);
      assert Sum(closing, side) == Sum(s.current, side);
      ArchiveTotalInsert(s.archive, s.lastWindowEnd, closing, side, Bytes);
    }
  }

  /** Sum conservation: after any run, the byte sums over the archive plus
      the open window have grown by exactly the sizes of the positive-size
      packets of that direction in the run. */
  lemma {:induction false} ReplayConservesSums(s: TrackerState, events: seq<Event>, side: Side)
    requires Inv(s)
    ensures Total(Replay(s, events), side, Bytes) == Total(s, side, Bytes) + SizesIn(events, side)
    decreases |events|
  {
    if events != [] {
      ApplyConservesSum(s, events[0], side);
      ApplyKeepsInv(s, events[0]);
      ReplayConservesSums(Apply(s, events[0]), events[1..], side);
    }
  }

  /** From a fresh tracker, the byte sums equal the positive packet sizes. */
  lemma FreshTrackerSums(window: real, events: seq<Event>, side: Side)
    requires window > 0.0
    ensures Total(Replay(Initial(window), events), side, Bytes) == SizesIn(events, side)
  {
    ReplayConservesSums(Initial(window), events, side);
  }
}
