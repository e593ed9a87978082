# ConWeave Virtual Output Queue, in Dafny

This project models `ConWeaveVOQ`, the per-flow Virtual Output Queue of the
ConWeave load balancer in the ns-3 simulator. When the routing layer reroutes
a flow, packets arriving at the destination-side switch may be out of order.
The VOQ holds them under the flow key and releases them in one burst. The
burst comes when its flush timer fires or when the routing layer forces it.

The model is functional. A `Voq` record holds:

- the flow key;
- the destination IP;
- the extra flush margin;
- the FIFO, as a `seq`;
- the pending flush event, as `Option<fire time>`.

A `Globals` record holds the two pieces of process-wide state: the static
`m_flushEstErrorhistory` log and the routing layer's `m_nFlushVOQTotal`
counter. Only the operations that touch `Globals` take it as an argument.
`Enqueue` and `FlushAllImmediately` do not receive it, so they cannot change
the log or the counter.

The three callbacks are `Event`s that each operation returns, in call order:

- `FlushNotice(key, count)`;
- `SendNotice(packet, header)`;
- `DeleteNotice(key)`.

The simulator clock is an integer `now` in nanoseconds, passed to the
operations that read it. `VoqRun` describes a VOQ's life after `Set` as a
sequence of actions: enqueue, reschedule, external flush, and the timer
firing. It proves the FIFO release, the single-timer rule and the
error-log rules over whole runs.

Files:

- `wrappers.dfy`: the `Option` type.
- `cpp_int.dfy`: the C++ narrowing conversions the source applies, written
  out over unbounded integers.
- `voq.dfy`: the VOQ state and its operations.
- `sequencing.dfy`: a generic fold that runs a step function over a sequence
  of inputs and concatenates what each step emits.
- `voq_run.dfy`: runs of actions and the lemmas about them.

Three behaviours of the source are easy to misread:

- The flush notice count and `getQueueSize` are `(uint32_t)` of the FIFO
  size. They equal the size only below 2^32 packets.
- The error sample is narrowed to a 32-bit `int`. It is the exact difference
  only when that difference fits in 32 bits.
- `FlushAllImmediately` does not cancel the pending flush event.
  `EnforceFlushAll` (line 75) and `RescheduleFlush` (line 96) do. Suppose an
  external flush leaves an event armed, and the VOQ still exists when that
  event fires. Then a second flush notice (count 0) and a second delete notice
  follow, as `VoqRun.ExternalFlushLeavesTimerArmed` states. Line 66 says the
  delete notice removes this VOQ from the routing layer's `m_voqMap`. The
  armed event holds a raw `this` (line 98), and the destructor (line 35)
  cancels nothing. So a caller that expects one delete notice per VOQ must
  never let that event fire.

## Model

| member | source | states |
|---|---|---|
| Voq.New | src/point-to-point/model/conweave-voq.cc:34 | A new VOQ has an empty FIFO and no pending flush event. |
| Voq.Set | src/point-to-point/model/conweave-voq.cc:41-46 | Stores the flow key, destination IP and margin, and leaves the FIFO alone. Afterwards exactly one flush event is pending, at `now + timeToFlush`. A probe made through `Set` logs its sample against the NEW margin. Otherwise the globals are unchanged. |
| Voq.Enqueue | src/point-to-point/model/conweave-voq.cc:50 | The FIFO grows by one. The old contents are its prefix and the packet is at the tail. Every other field, including the timer and flow key, is unchanged. |
| Voq.Sends | src/point-to-point/model/conweave-voq.cc:58-65 | Draining front-to-back gives one send per buffered packet: the i-th send carries the i-th packet and its header. None is skipped or duplicated. |
| Voq.FlushAllImmediately | src/point-to-point/model/conweave-voq.cc:54-67 | The trace has length size+2. It opens with one flush notice carrying the flow key and the `uint32_t` FIFO size. Next come the sends of the packets in FIFO order, then one delete notice with the flow key. The FIFO ends empty and nothing else changes, the pending timer included. |
| Voq.EnforceFlushAll | src/point-to-point/model/conweave-voq.cc:71-77 | The forced-flush counter grows by exactly one and the log is unchanged. No timer is left pending, and the FIFO ends empty with every other field unchanged. The trace is one flush notice with the flow key and the `uint32_t` size, then the buffered packets in FIFO order, then one delete notice. |
| Voq.RescheduleFlush | src/point-to-point/model/conweave-voq.cc:84-99 | Exactly one event is left pending, at `now + timeToFlush`, which replaces any earlier one. The FIFO, key, destination and margin are untouched. With a pending event and delay 1, the log gains exactly one sample, computed from the old fire time. In every other case, including delay 1 with nothing pending, the globals are unchanged. |
| Voq.FlushEstError | src/point-to-point/model/conweave-voq.cc:87-93 | The logged sample, `int(prevEst - now) - extra` with its `uint64_t` and `int` casts written out, equals `(prevEst - now) - extra` reduced to 32-bit two's complement. It is exactly `(prevEst - now) - extra` whenever that fits in an `int`. |
| Voq.CheckEmpty | src/point-to-point/model/conweave-voq.cc:102 | Holds exactly when the FIFO has no packet. |
| Voq.QueueSize | src/point-to-point/model/conweave-voq.cc:106 | The size is a `uint32_t` in [0, 2^32). It equals the number of buffered packets whenever there are fewer than 2^32 of them. |
| Voq.CheckEmptyIffQueueSizeZero | src/point-to-point/model/conweave-voq.cc:102-106 | `CheckEmpty()` holds exactly when `getQueueSize() == 0`, for every VOQ with fewer than 2^32 packets. |
| Voq.QueueSizeWrapsAt2To32 | src/point-to-point/model/conweave-voq.cc:102-106 | At exactly 2^32 packets the two introspection calls disagree: the size reads 0 while the FIFO is not empty. |
| CppInt.ToUint32 | src/point-to-point/model/conweave-voq.cc:57 | `(uint32_t) x` is the unique value in [0, 2^32) congruent to x modulo 2^32. |
| CppInt.ToUint64 | src/point-to-point/model/conweave-voq.cc:87-92 | `(uint64_t) x` is the unique value in [0, 2^64) congruent to x modulo 2^64. |
| CppInt.ToInt32 | src/point-to-point/model/conweave-voq.cc:92-93 | `(int) x` is the unique value in [-2^31, 2^31) congruent to x modulo 2^32. |
| VoqRun.ApplyBounds | src/point-to-point/model/conweave-voq.cc:50-98 | One action never changes the flow key, destination or margin. The error log only grows, by at most one sample and only for a probe. The forced-flush counter grows by at most one and only when the timer fires. |
| VoqRun.RunBounds | src/point-to-point/model/conweave-voq.cc:50-98 | Over any run the flow's identity is fixed and the old log is a prefix of the new one. The log grows by at most the number of probes, and the counter by at most the number of firings. |
| VoqRun.QuietRun | src/point-to-point/model/conweave-voq.cc:50-98 | Any mix of enqueues and reschedules emits no callback and leaves the counter alone. It appends exactly the enqueued packets to the FIFO, in call order, and never leaves the VOQ without a pending event once it had one. |
| VoqRun.EnqueuesKeepTimer | src/point-to-point/model/conweave-voq.cc:50 | Enqueues alone leave the pending flush event exactly as it was. |
| VoqRun.LastRescheduleWins | src/point-to-point/model/conweave-voq.cc:84-98 | If the last reschedule of a run is followed only by enqueues, exactly one event is pending. It fires at that reschedule's `now` plus its delay, whatever came before. |
| VoqRun.FifoReleaseOnFlush | src/point-to-point/model/conweave-voq.cc:50-67 | Start from an empty VOQ, run any enqueues and reschedules, then flush externally. The trace is one flush notice with the count, then the enqueued packets in enqueue order, then one delete notice. Afterwards `CheckEmpty()` holds and the size is 0. |
| VoqRun.FifoReleaseOnTimeout | src/point-to-point/model/conweave-voq.cc:50-98 | The same release happens when the pending event fires instead. In that case the counter also grows by exactly one and no event is left pending. |
| VoqRun.FiresOnce | src/point-to-point/model/conweave-voq.cc:71-77 | After the pending event has fired, another firing does nothing: no event is left to run. |
| VoqRun.ExternalFlushLeavesTimerArmed | src/point-to-point/model/conweave-voq.cc:54-77 | Suppose an event is pending, the VOQ is flushed externally, and then the event fires while the VOQ still exists. The trace is then the external drain, then a flush notice with count 0, then a second delete notice. |
| VoqRun.ScenarioTwoPacketsTimeout | src/point-to-point/model/conweave-voq.cc:41-77 | Take `Set(7, dip, 100, 10)` at time 0, enqueue p1 and p2, and reschedule to 50. The event is then pending at 50. Firing it gives `FlushNotice(7, 2)`, the sends of p1 and p2, and `DeleteNotice(7)`, and leaves size 0. |
| VoqRun.ScenarioProbe | src/point-to-point/model/conweave-voq.cc:84-94 | With the event pending at 80, now 30 and margin 10, a delay-1 reschedule logs exactly one sample, 40, and leaves the FIFO alone. |

## Left out

- `analysis/plot_queue.py` is an offline script that globs files, parses floats and draws figures. It has no logic to verify.
- The ns-3 scheduler (`Simulator::Schedule`, `EventId`, `IsRunning`, `GetTs`, `Cancel`) is left out. A pending event is an `Option` fire time. Firing is the explicit `TimerFires` action, which does nothing when no event is pending. The clock is the `now` argument. The model does not enforce that `now` stays at or before a pending fire time.
- Fire times `now + timeToFlush` are unbounded integers. ns-3 stores them as a 64-bit `Time`, and 64-bit overflow of the fire time is not modelled.
- Delays are unconstrained integers. The ns-3 scheduler's own assertion that a delay is non-negative is not part of this model.
- `Time` is taken at nanosecond resolution, so `GetTs()` and `GetNanoSeconds()` measure the same unit.
- `Ptr<Packet>` and the `CustomHeader` / `PeekHeader` parsing are not modelled. Packets are an opaque type, and the parsed header is a function `header` of the packet that the caller supplies.
- `SLB_LOG` logging is left out. It is diagnostic output only.
- The callback targets are not modelled: the routing layer's flush handler, `SlbRouting::DoSwitchSendToDev`, and the deletion from `m_voqMap`. They are foreign code and appear only as trace events.
- The flow key, destination IP and forced-flush counter are unbounded integers. The counter is declared in `conweave-routing`, which is not part of this model, so its width is not modelled.
- `Voq.FlushEstError` does not model overflow of the 64-bit subtraction of the margin. This loses nothing, because the 32-bit narrowing that follows depends only on the low 32 bits.
- `Voq.CheckEmptyIffQueueSizeZero` holds only below 2^32 packets. At 2^32 the `uint32_t` size wraps to 0, as `Voq.QueueSizeWrapsAt2To32` states.
- `Voq.New` gives the flow key and destination the value 0. The C++ constructor leaves those two uninitialised. The margin, an ns-3 `Time`, starts at 0 as in the source. Every use goes through `Set` first.
- The end of a VOQ's life is not modelled. A `Voq` value stays usable after its `DeleteNotice`: later actions still apply to it, and an armed event still fires on it. In the source the delete notice removes the VOQ from `m_voqMap` (line 66), and further calls or a later firing would reach an object that has already been removed.
- A second `Set` on the same VOQ is modelled as a reconfiguration that replaces the pending event, as `RescheduleFlush` does. The source does not guard against it.
