/** The process-wide state around the tracker and the C++ functions the
    simulator's trace sources call: the tracker
    `g_statistic_tracker`, the transmit log `g_tx_events`, and their
    readers. The simulator clock (`Simulator::Now()`) and the packet size
    (`Packet::GetSize()`) arrive as parameters. */
module TraceHooks {
  import opened Ints
  import opened Metrics
  import opened Tracker

  class TraceGlobals {
    /** `g_statistic_tracker`; null until the first initialisation. */
    var statisticTracker: StatisticTracker?
    /** `g_tx_events`: (packet size, transmit power) pairs, oldest first. */
    var txEvents: seq<(int, int)>

    ghost predicate Valid()
      reads this, statisticTracker
    {
      statisticTracker != null ==> statisticTracker.Valid()
    }

    /** Static initialisation: a null tracker and an empty log. */
    constructor ()
      ensures Valid()
      ensures statisticTracker == null && txEvents == []
    {
      statisticTracker := null;
      txEvents := [];
    }

    /** `InitializeStatisticTracker(window)`: the old tracker, with its
        archive, is dropped and a fresh one installed; the transmit log is
        not touched. */
    method InitializeStatisticTracker(window: real)
      requires window > 0.0
      modifies this`statisticTracker
      ensures Valid()
      ensures statisticTracker != null && fresh(statisticTracker)
      ensures statisticTracker.State() == Initial(window)
      ensures statisticTracker.windowStatistics == map[]
    {
      statisticTracker := new StatisticTracker(window);
    }

    /** `DevRxTraceCallback`: a received packet of `packetSize` bytes at
        simulated time `now` becomes `updatePeaks(now, size, 0)`. Calling it
        before any initialisation dereferences a null tracker in the source;
        here that is excluded by the precondition. */
    method DevRxTraceCallback(packetSize: Uint32, now: real)
      requires statisticTracker != null && Valid()
      modifies statisticTracker
      ensures Valid()
      ensures statisticTracker.State() == Apply(old(statisticTracker.State()), RxPacket(now, ToInt32(packetSize)))
    {
      var size := ToInt32(packetSize);
      statisticTracker.UpdatePeaks(now, size, 0);
    }

    /** `DevTxTraceCallback`: a transmitted packet becomes
        `updatePeaks(now, 0, size)`. */
    method DevTxTraceCallback(packetSize: Uint32, now: real)
      requires statisticTracker != null && Valid()
      modifies statisticTracker
      ensures Valid()
      ensures statisticTracker.State() == Apply(old(statisticTracker.State()), TxPacket(now, ToInt32(packetSize)))
    {
      var size := ToInt32(packetSize);
      statisticTracker.UpdatePeaks(now, 0, size);
    }

    /** `GetWindowMetrics`: a copy of the archive of closed windows. The
        open window is never among them, and every key is an aligned start
        below it. */
    method GetWindowMetrics() returns (windows: map<real, WindowMetrics>)
      requires statisticTracker != null && Valid()
      ensures windows == statisticTracker.windowStatistics
      ensures statisticTracker.lastWindowEnd !in windows
      ensures forall start :: start in windows ==>
        0.0 <= start < statisticTracker.lastWindowEnd && IsAligned(start, statisticTracker.timeWindow)
    {
      windows := statisticTracker.windowStatistics;
    }

    /** `PhyTxTrace`: appends one (size, power) pair; earlier entries stay. */
    method PhyTxTrace(packetSize: Uint32, txPower: Uint8)
      modifies this`txEvents
      ensures txEvents == old(txEvents) + [(ToInt32(packetSize), txPower as int)]
    {
      txEvents := txEvents + [(ToInt32(packetSize), txPower as int)];
    }

    /** `PhyTxTraceWrapper`: the `int` power is cast to `uint8_t` before it is
        logged, so the logged power is the argument modulo 256. */
    method PhyTxTraceWrapper(packetSize: Uint32, txPowerInt: Int32)
      modifies this`txEvents
      ensures |txEvents| == |old(txEvents)| + 1 && txEvents[..|old(txEvents)|] == old(txEvents)
      ensures txEvents[|txEvents| - 1].0 == ToInt32(packetSize)
      ensures 0 <= txEvents[|txEvents| - 1].1 < 0x100
      ensures (txPowerInt - txEvents[|txEvents| - 1].1) % 0x100 == 0
    {
      var txPower := ToUint8(txPowerInt);
      PhyTxTrace(packetSize, txPower);
    }

    /** `GetTxEvents`: a copy of the transmit log. */
    method GetTxEvents() returns (events: seq<(int, int)>)
      ensures events == txEvents
    {
      events := txEvents;
    }
  }
}
