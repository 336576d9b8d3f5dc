/** Concrete runs of the tracker: a rollover at a bucket boundary, the mean
    computation, peaks, channel overwrite and re-initialisation, and the
    difference between closing a window with a packet and closing it with a
    channel sample. */
module Scenarios {
  import opened Metrics
  import opened Tracker
  import opened TrackerLemmas
  import opened TraceHooks
  import opened Ints

  /** Window 1.0 s; received packets of 10, 20 and 30 bytes at 0.2 s, 0.9 s
      and 1.5 s. The first window is archived under 0.0 with two packets
      and mean 15; the third packet sits in the open window at 1.0, which
      is not archived. */
  lemma RolloverScenario()
    ensures var s := Replay(Initial(1.0), [RxPacket(0.2, 10), RxPacket(0.9, 20), RxPacket(1.5, 30)]);
      && s.archive.Keys == {0.0}
      && s.archive[0.0].rxCount == 2 && s.archive[0.0].rxSum == 30 && s.archive[0.0].rxBitsMean == 15.0
      && s.lastWindowEnd == 1.0
      && s.current.rxCount == 1 && s.current.rxSum == 30
  {
  }

  /** Received sizes 100, 200 and 300 in window 0, then one more event in the
      next window. Closed by a packet the archived mean is 200; closed by a
      channel sample the same window is archived with its mean still 0. */
  lemma MeanScenario()
    ensures var s := Initial(1.0);
      var w := StepPeaks(StepPeaks(StepPeaks(s, 0.1, 100, 0), 0.2, 200, 0), 0.3, 300, 0);
      && w.current.rxCount == 3 && w.current.rxSum == 600
      && StepPeaks(w, 1.2, 0, 40).archive[0.0].rxBitsMean == 200.0
      && StepChannel(w, 1.2, 0.1, 0.5, 0.2).archive[0.0].rxBitsMean == 0.0
      && StepChannel(w, 1.2, 0.1, 0.5, 0.2).archive[0.0].rxCount == 3
  {
  }

  /** Sizes 100, 50 and 200 in one window give peak 200 in either order. */
  lemma PeakScenario()
    ensures RecordPackets(RecordPackets(RecordPackets(EmptyWindow(), 100, 0), 50, 0), 200, 0).rxBitsPeak == 200
    ensures RecordPackets(RecordPackets(RecordPackets(EmptyWindow(), 200, 0), 100, 0), 50, 0).rxBitsPeak == 200
  {
  }

  /** Two channel samples in one window: the second overwrites the first. */
  lemma ChannelScenario()
    ensures var s := StepChannel(StepChannel(Initial(1.0), 0.1, 0.1, 0.5, 0.2), 0.4, 0.3, 0.9, 0.4);
      && s.current.channelInterference == 0.3
      && s.current.radioUtilization == 0.9
      && s.current.channelBusyRate == 0.4
      && s.archive == map[]
  {
  }

  /** The first event past the initial bucket closes the window at 0.0 even
      when nothing was recorded in it: an empty window is archived. */
  lemma FirstWindowScenario()
    ensures Replay(Initial(1.0), [RxPacket(5.3, 10)]).archive == map[0.0 := EmptyWindow()]
    ensures Replay(Initial(1.0), [RxPacket(5.3, 10)]).lastWindowEnd == 5.0
  {
  }

  /** Re-initialising drops the archive of a tracker that has closed a
      window, while the transmit log keeps every entry logged before. */
  method ResetScenario() returns (windows: map<real, WindowMetrics>, log: seq<(int, int)>)
    ensures windows == map[]
    ensures log == [(100, 44)]
  {
    var g := new TraceGlobals();
    g.InitializeStatisticTracker(1.0);
    g.PhyTxTraceWrapper(100, 300);
    g.DevRxTraceCallback(10, 0.5);
    BucketUnique(0.5, 1.0, 0.0);
    BucketUnique(2.5, 1.0, 2.0);
    g.DevTxTraceCallback(20, 2.5);
    var closed := g.GetWindowMetrics();
    assert closed.Keys == {0.0};
    g.InitializeStatisticTracker(1.0);
    windows := g.GetWindowMetrics();
    log := g.GetTxEvents();
  }
}
