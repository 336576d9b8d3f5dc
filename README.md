# Windowed trace statistics — a Dafny model

This project models the statistics tracker that the ns-3 scenario script
`generator.py` compiles into the simulator as C++ (`WindowMetrics`,
`StatisticTracker` and the global trace hooks around them). The simulator
calls the hooks for every received or transmitted packet. The tracker cuts
simulated time into zero-aligned buckets of `timeWindow` seconds. Each open
window accumulates counts, sums and peaks of packet sizes and the last
channel sample. When an event falls in a later bucket, the open window is
closed, stored in an ordered archive under its start time, and a fresh window
is opened. A separate, unwindowed log records `(size, power)` pairs of
PHY-level transmissions. In the script as written only the rx/tx callbacks
are connected to the simulator (generator.py:510-517): the
`PhyTxTraceWrapper` hookup is commented out (generator.py:524-527) and
nothing calls `updateChannelMetrics`, so in a real run the transmit log
stays empty and the channel path never executes. The model covers both
paths as defined.

Files and modules:

- `ints.dfy` (`Ints`): the C++ integer widths and the two conversions the
  hooks perform (`uint32_t` size to `int`, `int` power to `uint8_t`).
- `window_metrics.dfy` (`Metrics`): the `WindowMetrics` value, the packet
  and channel updates, the mean computation at close, and the
  within-window invariant `WellFormed`.
- `tracker.dfy` (`Tracker`): the bucket computation, the tracker state as a
  value (`TrackerState`) with pure step functions `StepPeaks`/`StepChannel`,
  the invariant `Inv`, and the class `StatisticTracker`, whose methods
  update its fields in place and are proved equal to the step functions.
- `tracker_lemmas.dfy` (`TrackerLemmas`): bucket uniqueness and
  monotonicity, what a rollover does, and properties of whole runs of
  events (invariant, archive only grows, count and sum conservation).
- `trace_hooks.dfy` (`TraceHooks`): the globals `g_statistic_tracker` and
  `g_tx_events` as fields of a class `TraceGlobals`, with the
  initialisation, the rx/tx callbacks, the PHY transmit log and the two
  read-outs.
- `scenarios.dfy` (`Scenarios`): concrete runs (rollover at a bucket
  boundary, means, peaks, channel overwrite, re-initialisation).

Modelling choices:

- Time and the window are exact `real`s with `timeWindow > 0`. The bucket is
  `floor(time / timeWindow) * timeWindow`, computed with `.Floor`.
- Sizes, counts, sums and peaks are `int`. Means are `real`.
- `Simulator::Now()` and `Packet::GetSize()` are method parameters.
- The rollover on the channel path archives the window without computing its
  means. The packet path computes them first. The model keeps this
  difference (`StepChannelRollover`, `MeanScenario`): a window closed by a
  channel sample is archived with both means still 0, even when it holds
  packets.
- The `lastWindowEnd >= 0` guard before archiving is modelled as written. It
  is always true under the invariant, since `lastWindowEnd` starts at 0 and
  only grows.
- A late event, whose bucket is at or before `lastWindowEnd`, is merged into
  the open window. The model keeps this behaviour.
- `lastWindowEnd` starts at 0, so the first event whose bucket lies past 0
  archives an empty window under key 0.0 (`FirstWindowScenario`). Windows
  without events can thus appear in the archive; later empty buckets are
  skipped.
- The still-open window is never archived. The last partial window of a run
  is therefore never returned by `GetWindowMetrics`.

## Model

| member | source | states |
|---|---|---|
| `Ints.ToInt32` | generator.py:166 | the unsigned packet size read as a 32-bit `int` is congruent to it modulo 2^32 and equal to it below 2^31 |
| `Ints.ToUint8` | generator.py:216 | the cast to `uint8_t` gives the value in [0, 255] congruent to the argument modulo 256 |
| `Metrics.EmptyWindow` | generator.py:79-87 | a new accumulator has zero counts, sums, peaks and means on both sides |
| `Metrics.RecordPackets` | generator.py:123-134 | each peak becomes the larger of the old peak and the size; count and sum grow by one and by the size only for a positive size; means and channel fields are unchanged |
| `Metrics.RecordChannel` | generator.py:150-152 | the three channel fields take the new sample; counts, sums, peaks and means are unchanged |
| `Metrics.FinalizeMeans` | generator.py:107-112 | with a positive count, mean times count equals the sum; with count 0 the mean keeps its value; nothing else changes |
| `Metrics.RecordPacketsKeepsWellFormed` | generator.py:123-134 | within a window, for any sizes: count 0 implies sum 0 and peak 0, and a positive count implies 0 < peak <= sum <= count * peak |
| `Metrics.RecordPacketsCommute` | generator.py:123-134 | two packet events give the same accumulator in either order |
| `Metrics.RecordChannelLastWins` | generator.py:150-152 | of two channel samples in a row only the second is visible |
| `Metrics.FinalizeMeansSettles` | generator.py:107-112 | closing a well-formed window with zero means leaves each mean either 0 or the exact mean of a positive count |
| `Tracker.Bucket` | generator.py:104 | the bucket start is aligned, lies at most `time` and more than `time - timeWindow`, and is non-negative for non-negative times |
| `Tracker.Initial` | generator.py:97-100 | a new tracker has `currentTime = 0`, `lastWindowEnd = 0`, an empty archive and an empty accumulator, and satisfies the invariant |
| `Tracker.StepPeaks` | generator.py:102-135 | `updatePeaks` keeps the window size and sets `currentTime` to the event time |
| `Tracker.StepChannel` | generator.py:137-153 | `updateChannelMetrics` keeps the window size and sets `currentTime` to the event time |
| `Tracker.Apply` | generator.py:165-175 | an rx event is `updatePeaks(now, size, 0)` and a tx event `updatePeaks(now, 0, size)`; the window size is kept and the time recorded |
| `Tracker.Replay` | generator.py:102-153 | a run of events keeps the window size and leaves `currentTime` at the last event's time |
| `Tracker.StepPeaksKeepsInv` | generator.py:102-135 | `updatePeaks` keeps the invariant: `lastWindowEnd` non-negative and aligned, archive keys aligned and below it, accumulators well formed, open means zero, archived means settled |
| `Tracker.StepChannelKeepsInv` | generator.py:137-153 | `updateChannelMetrics` keeps the same invariant |
| `Tracker.StatisticTracker.constructor` | generator.py:97-100 | the fields start as in `Initial` and the invariant holds |
| `Tracker.StatisticTracker.UpdatePeaks` | generator.py:102-135 | the in-place update leaves the fields equal to `StepPeaks` of the old fields and keeps the invariant |
| `Tracker.StatisticTracker.UpdateChannelMetrics` | generator.py:137-153 | the in-place update leaves the fields equal to `StepChannel` of the old fields and keeps the invariant |
| `TrackerLemmas.BucketUnique` | generator.py:104 | the bucket is the only aligned point `x` with `x <= time < x + timeWindow` |
| `TrackerLemmas.BucketMonotone` | generator.py:104 | a later time never maps to an earlier bucket |
| `TrackerLemmas.StepPeaksRollover` | generator.py:103-134 | a rollover happens iff the bucket is past `lastWindowEnd`; then the finalized window goes under the old `lastWindowEnd`, a free key above every archived key, the archive grows by one, `lastWindowEnd` becomes the bucket and the new window holds only this event; otherwise archive and `lastWindowEnd` are unchanged and the event merges into the open window |
| `TrackerLemmas.StepChannelRollover` | generator.py:138-152 | the same rule for channel samples, except that the window is archived with its means still 0 |
| `TrackerLemmas.ApplyKeepsInv` | generator.py:165-175 | each ingested event keeps the invariant and only extends the archive |
| `TrackerLemmas.ReplayKeepsInv` | generator.py:102-153 | after any run, late events included, the invariant holds, `lastWindowEnd` has not decreased, no archived window was changed or removed, and new keys lie above all old ones |
| `TrackerLemmas.ApplyConservesCount` | generator.py:105-134 | one event raises the rx (tx) count summed over archive and open window by 1 exactly when it is an rx (tx) packet of positive size |
| `TrackerLemmas.ReplayConservesCounts` | generator.py:165-175 | over any run, the rx (tx) count summed over archive and open window grows by the number of positive-size rx (tx) packets |
| `TrackerLemmas.FreshTrackerCounts` | generator.py:158-175 | from a fresh tracker, those sums equal the number of positive-size packets of each direction |
| `TrackerLemmas.ApplyConservesSum` | generator.py:105-134 | one event raises the rx (tx) byte sum over archive and open window by exactly its size when it is an rx (tx) packet of positive size, and leaves it unchanged otherwise |
| `TrackerLemmas.ReplayConservesSums` | generator.py:165-175 | over any run, the rx (tx) byte sum over archive and open window grows by the total size of the positive-size rx (tx) packets; closing a window never loses or duplicates bytes |
| `TrackerLemmas.FreshTrackerSums` | generator.py:158-175 | from a fresh tracker, the byte sums equal the total size of the positive-size packets of each direction |
| `TraceHooks.TraceGlobals.constructor` | generator.py:156 | before any initialisation `g_statistic_tracker` is null (static initialiser at line 156) and the transmit log `g_tx_events` is empty (static initialiser at generator.py:191) |
| `TraceHooks.TraceGlobals.InitializeStatisticTracker` | generator.py:158-163 | a fresh tracker with an empty archive replaces the old one; only `g_statistic_tracker` changes, so the transmit log is untouched |
| `TraceHooks.TraceGlobals.DevRxTraceCallback` | generator.py:165-169 | the tracker moves as `updatePeaks(now, size, 0)` with the size read as an `int`; the tracker must exist |
| `TraceHooks.TraceGlobals.DevTxTraceCallback` | generator.py:171-175 | the tracker moves as `updatePeaks(now, 0, size)`; the tracker must exist |
| `TraceHooks.TraceGlobals.GetWindowMetrics` | generator.py:178-180 | returns the archive; the open window is not in it and every key is aligned, non-negative and below `lastWindowEnd` |
| `TraceHooks.TraceGlobals.PhyTxTrace` | generator.py:193-199 | appends exactly one `(size, power)` pair at the end of the log; only the log changes |
| `TraceHooks.TraceGlobals.PhyTxTraceWrapper` | generator.py:211-218 | appends one pair whose power lies in [0, 255] and is congruent to the `int` argument modulo 256; earlier entries are unchanged |
| `TraceHooks.TraceGlobals.GetTxEvents` | generator.py:201-203 | returns the whole transmit log |
| `Scenarios.RolloverScenario` | generator.py:102-134 | window 1.0 with rx 10, 20, 30 at 0.2, 0.9, 1.5: key 0.0 archived with count 2, sum 30, mean 15; open window at 1.0 with count 1, sum 30 |
| `Scenarios.MeanScenario` | generator.py:105-148 | rx 100, 200, 300 closed by a packet are archived with mean 200; closed by a channel sample, with mean 0 and count 3 |
| `Scenarios.PeakScenario` | generator.py:123-124 | sizes 100, 50, 200 give peak 200 in either order |
| `Scenarios.FirstWindowScenario` | generator.py:97-121 | an rx packet at 5.3 s on a fresh 1.0 s tracker archives an empty window under 0.0 and moves `lastWindowEnd` to 5.0 |
| `Scenarios.ResetScenario` | generator.py:158-218 | after a window has been closed, re-initialising leaves `GetWindowMetrics` empty while the transmit log still holds the earlier pair, with power 300 logged as 44 |
| `Scenarios.ChannelScenario` | generator.py:137-152 | two samples in one window leave the second sample's values and an empty archive |

## Left out

- The ns-3 scenario in `MixedWireless` (topology, Wi-Fi, OLSR, mobility,
  applications, trace hookup, running the simulator) is glue over a
  third-party simulator and is not modelled.
- The post-processing of the archive into named time series is not
  modelled. It reads the wall clock and formats numbers as strings, and
  several of its values are constants.
- `getIpv4AddressFromNode` is a foreign ns-3 lookup and is not modelled.
- `PhyRxOkTrace` computes two locals and has no effect, so it is not
  modelled.
- `interference/interference_models`, `interference/simulation_manager`
  and `interference/wifi_gradual_simulation.cc` are not part of this model.
  They only log and call into the simulator, or are stubs and an
  incomplete program.
- IEEE-754 behaviour is not modelled. Rounding of the bucket computation
  and of the `double` sums is replaced by exact reals and integers.
- Overflow of the `int` counters and peaks past 2^31 - 1 is not modelled.
  Counts and peaks are unbounded integers.
- The reserved `WindowMetrics` fields that nothing writes are omitted.
- The channel fields, which the C++ constructor leaves uninitialised,
  start at 0.
- Tracker.StatisticTracker.constructor: requires a positive window. With a
  zero window the source's bucket is NaN and never rolls over; with a
  negative window buckets lie above the time. The only call in the script
  passes `7.0 / sampleCts` (generator.py:278), where `sampleCts` is an
  unconstrained parameter of `MixedWireless` (generator.py:265) that nothing
  in the source calls. The window is positive when `sampleCts` is a positive
  count; a zero count fails in Python before the call, and a negative count
  gives a negative window, which the model excludes.
- TraceHooks.TraceGlobals.InitializeStatisticTracker: requires a positive
  window for the same reason, since it passes its argument straight to the
  tracker constructor (generator.py:158-163) and is the function called at
  generator.py:278.
- The default argument `window = 1.0` of the C++ constructor
  (generator.py:97) is not modelled; the only caller passes the window
  explicitly.
- TraceHooks.TraceGlobals.DevRxTraceCallback: a call before any
  initialisation is a null dereference in the source. It is excluded by the
  precondition rather than modelled. The same holds for
  `DevTxTraceCallback` and `GetWindowMetrics`.
- Freeing the old tracker in `InitializeStatisticTracker` is not modelled.
  The old object simply becomes unreachable.
- Concurrency does not arise. All callbacks run on the simulator's single
  thread.
