/** The accumulator of one time window (`struct WindowMetrics`). */
module Metrics {

  /** The fields of `WindowMetrics` that the tracker writes. Sums are exact
      integers and means exact reals (the source keeps both as `double`). */
  datatype WindowMetrics = WindowMetrics(
    rxCount: int,
    txCount: int,
    rxSum: int,
    txSum: int,
    rxBitsPeak: int,
    txBitsPeak: int,
    rxBitsMean: real,
    txBitsMean: real,
    radioUtilization: real,
    channelInterference: real,
    channelBusyRate: real)

  /** Selects the receive or the transmit half of a window. */
  datatype Side = Rx | Tx

  function Max(a: int, b: int): int { if a < b then b else a }

  function Count(m: WindowMetrics, side: Side): int {
    match side
    case Rx => m.rxCount
    case Tx => m.txCount
  }

  function Sum(m: WindowMetrics, side: Side): int {
    match side
    case Rx => m.rxSum
    case Tx => m.txSum
  }

  function Peak(m: WindowMetrics, side: Side): int {
    match side
    case Rx => m.rxBitsPeak
    case Tx => m.txBitsPeak
  }

  function Mean(m: WindowMetrics, side: Side): real {
    match side
    case Rx => m.rxBitsMean
    case Tx => m.txBitsMean
  }

  /** The default constructor `WindowMetrics()`: counts, sums, peaks and means
      start at zero. The source leaves the channel fields uninitialised; they
      are zero here. */
  function EmptyWindow(): (m: WindowMetrics)
    ensures forall side :: Count(m, side) == 0 && Sum(m, side) == 0 && Peak(m, side) == 0 && Mean(m, side) == 0.0
  {
    WindowMetrics(0, 0, 0, 0, 0, 0, 0.0, 0.0, 0.0, 0.0, 0.0)
  }

  /** What one side of an accumulator can look like after any sequence of
      packet events: nothing seen means all zero; otherwise the peak is a
      positive size and the sum lies between one peak and `count` peaks. */
  predicate SideWellFormed(count: int, sum: int, peak: int) {
    && 0 <= count
    && (count == 0 ==> sum == 0 && peak == 0)
    && (count > 0 ==> 0 < peak <= sum <= count * peak)
  }

  predicate WellFormed(m: WindowMetrics) {
    && SideWellFormed(m.rxCount, m.rxSum, m.rxBitsPeak)
    && SideWellFormed(m.txCount, m.txSum, m.txBitsPeak)
  }

  /** The packet half of `StatisticTracker::updatePeaks`: raise each peak to
      the event's size, and count and add the size only when it is positive.
      Means and channel samples are untouched. */
  function RecordPackets(m: WindowMetrics, rxSize: int, txSize: int): (r: WindowMetrics)
    ensures r.rxBitsPeak >= m.rxBitsPeak && r.rxBitsPeak >= rxSize
    ensures r.rxBitsPeak == m.rxBitsPeak || r.rxBitsPeak == rxSize
    ensures r.txBitsPeak >= m.txBitsPeak && r.txBitsPeak >= txSize
    ensures r.txBitsPeak == m.txBitsPeak || r.txBitsPeak == txSize
    ensures rxSize > 0 ==> r.rxCount == m.rxCount + 1 && r.rxSum == m.rxSum + rxSize
    ensures rxSize <= 0 ==> r.rxCount == m.rxCount && r.rxSum == m.rxSum
    ensures txSize > 0 ==> r.txCount == m.txCount + 1 && r.txSum == m.txSum + txSize
    ensures txSize <= 0 ==> r.txCount == m.txCount && r.txSum == m.txSum
    ensures r.rxBitsMean == m.rxBitsMean && r.txBitsMean == m.txBitsMean
    ensures r.radioUtilization == m.radioUtilization
    ensures r.channelInterference == m.channelInterference
    ensures r.channelBusyRate == m.channelBusyRate
  {
    var peaked := m.(rxBitsPeak := Max(m.rxBitsPeak, rxSize), txBitsPeak := Max(m.txBitsPeak, txSize));
    var withRx := if rxSize > 0 then peaked.(rxSum := peaked.rxSum + rxSize, rxCount := peaked.rxCount + 1) else peaked;
    if txSize > 0 then withRx.(txSum := withRx.txSum + txSize, txCount := withRx.txCount + 1) else withRx
  }

  /** The channel half of `StatisticTracker::updateChannelMetrics`: the three
      channel fields take the latest sample (last write wins); nothing else
      changes. */
  function RecordChannel(m: WindowMetrics, interference: real, utilization: real, busyRate: real): (r: WindowMetrics)
    ensures r.channelInterference == interference
    ensures r.radioUtilization == utilization
    ensures r.channelBusyRate == busyRate
    ensures forall side :: Count(r, side) == Count(m, side) && Sum(r, side) == Sum(m, side)
    ensures forall side :: Peak(r, side) == Peak(m, side) && Mean(r, side) == Mean(m, side)
  {
    m.(channelInterference := interference, radioUtilization := utilization, channelBusyRate := busyRate)
  }

  /** The mean computation at window close in `updatePeaks`: each mean becomes
      sum / count when the count is positive and keeps its value otherwise. */
  function FinalizeMeans(m: WindowMetrics): (r: WindowMetrics)
    ensures forall side :: Count(m, side) > 0 ==> Mean(r, side) * Count(r, side) as real == Sum(r, side) as real
    ensures forall side :: Count(m, side) <= 0 ==> Mean(r, side) == Mean(m, side)
    ensures r == m.(rxBitsMean := r.rxBitsMean, txBitsMean := r.txBitsMean)
  {
    var withRx := if m.rxCount > 0 then m.(rxBitsMean := m.rxSum as real / m.rxCount as real) else m;
    if withRx.txCount > 0 then withRx.(txBitsMean := withRx.txSum as real / withRx.txCount as real) else withRx
  }

  /** A window's mean on one side is either still the zero it was created
      with, or the exact mean of its positive sizes. */
  predicate MeanSettled(m: WindowMetrics, side: Side) {
    Mean(m, side) == 0.0 || (Count(m, side) > 0 && Mean(m, side) * Count(m, side) as real == Sum(m, side) as real)
  }

  /** Invariant of a packet event on an accumulator: the bounds of
      `SideWellFormed` survive any sizes, positive or not. */
  lemma RecordPacketsKeepsWellFormed(m: WindowMetrics, rxSize: int, txSize: int)
    requires WellFormed(m)
    ensures WellFormed(RecordPackets(m, rxSize, txSize))
  {
    var r := RecordPackets(m, rxSize, txSize);
    SideStep(m.rxCount, m.rxSum, m.rxBitsPeak, rxSize, r.rxCount, r.rxSum, r.rxBitsPeak);
    SideStep(m.txCount, m.txSum, m.txBitsPeak, txSize, r.txCount, r.txSum, r.txBitsPeak);
  }

  lemma SideStep(count: int, sum: int, peak: int, size: int, count': int, sum': int, peak': int)
    requires SideWellFormed(count, sum, peak)
    requires peak' == Max(peak, size)
    requires size > 0 ==> count' == count + 1 && sum' == sum + size
    requires size <= 0 ==> count' == count && sum' == sum
    ensures SideWellFormed(count', sum', peak')
  {
    if size > 0 {
      assert count * peak <= count * peak' by { MulMonotone(count, peak, peak'); }
      assert sum' <= count' * peak';
    }
  }

  lemma MulMonotone(c: int, a: int, b: int)
    requires 0 <= c && a <= b
    ensures c * a <= c * b
  {
  }

  /** Packet events commute: the accumulator a window ends with does not
      depend on the order its events arrived in. */
  lemma RecordPacketsCommute(m: WindowMetrics, rx1: int, tx1: int, rx2: int, tx2: int)
    ensures RecordPackets(RecordPackets(m, rx1, tx1), rx2, tx2) == RecordPackets(RecordPackets(m, rx2, tx2), rx1, tx1)
  {
  }

  /** Channel samples overwrite: of two samples in a row, only the second is
      visible. */
  lemma RecordChannelLastWins(m: WindowMetrics, i1: real, u1: real, b1: real, i2: real, u2: real, b2: real)
    ensures RecordChannel(RecordChannel(m, i1, u1, b1), i2, u2, b2) == RecordChannel(m, i2, u2, b2)
  {
  }

  /** Closing a well-formed window settles both means. */
  lemma FinalizeMeansSettles(m: WindowMetrics)
    requires WellFormed(m)
    requires m.rxBitsMean == 0.0 && m.txBitsMean == 0.0
    ensures WellFormed(FinalizeMeans(m))
    ensures MeanSettled(FinalizeMeans(m), Rx) && MeanSettled(FinalizeMeans(m), Tx)
  {
  }
}
