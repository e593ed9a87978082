/**
 * The per-flow Virtual Output Queue of ConWeave (`ConWeaveVOQ`).
 *
 * A VOQ buffers the packets of one flow in FIFO order and keeps at most one
 * pending flush timer. When the timer fires, or when the routing layer forces
 * it, the queue drains: one flush notice, one send per buffered packet in
 * arrival order, then one delete notice.
 *
 * The simulator clock is the integer `now` (nanoseconds), handed to the
 * operations that read it; the timer is the absolute fire time of the one
 * pending `EnforceFlushAll` event, if any; the three callbacks are events the
 * operations return, in the order the source calls them; the two static
 * statistics are a `Globals` record threaded through the operations that
 * touch them. Packets are opaque, and header parsing is a function `header`
 * of the packet supplied by the caller.
 */
module Voq {
  import opened Wrappers
  import opened CppInt

  /** A callback invocation, in the order the VOQ makes them. */
  datatype Event<P, H> =
    | FlushNotice(flowKey: int, count: int)  // the routing layer's on-flush callback
    | SendNotice(pkt: P, header: H)          // the switch's send-to-device callback
    | DeleteNotice(flowKey: int)             // removal from the routing layer's VOQ map

  /** One VOQ instance. `flushTimer` is the fire time of the pending flush event. */
  datatype Voq<P> = Voq(
    flowKey: int,
    dip: int,
    extraFlushTime: int,
    fifo: seq<P>,
    flushTimer: Option<int>)

  /**
   * Process-wide state shared by every VOQ: the log of flush-time estimation
   * errors, and the routing layer's count of flushes forced by timeout.
   */
  datatype Globals = Globals(flushEstErrorHistory: seq<int>, nFlushVOQTotal: int)

  /** A reschedule delay of exactly this many nanoseconds also records an estimation error. */
  const PROBE_DELAY: int := 1

  /** A freshly constructed VOQ: empty, and no flush event scheduled. */
  function New<P>(): (v: Voq<P>)
    ensures |v.fifo| == 0
    ensures v.flushTimer.None?
  {
    Voq(0, 0, 0, [], None)
  }

  /**
   * The error sample logged when a pending timer is probed: the time the
   * pending event still had to run, less the extra flush margin. The source
   * subtracts in `uint64_t`, narrows to `int`, subtracts the 64-bit margin and
   * stores the result in a `vector<int>`; all of this loses nothing but the
   * bits above 32, so the sample is the exact difference whenever that fits
   * in a 32-bit `int`.
   */
  function FlushEstError(prevEst: int, now: int, extra: int): (e: int)
    ensures e == ToInt32(prevEst - now - extra)
    ensures -TWO_31 <= prevEst - now - extra < TWO_31 ==> e == prevEst - now - extra
  {
    var diff := ToInt32(ToUint64(prevEst - now));
    Uint64KeepsLow32(prevEst - now);
    ToInt32Congruent(ToUint64(prevEst - now), prevEst - now);
    ToInt32Congruent(diff - extra, prevEst - now - extra);
    ToInt32(diff - extra)
  }

  /**
   * Cancel the pending flush event, if any, and schedule a new one
   * `timeToFlush` after `now`. A delay of exactly `PROBE_DELAY` while an event
   * is pending first logs how far off that event's fire time was.
   */
  function RescheduleFlush<P>(v: Voq<P>, g: Globals, now: int, timeToFlush: int): (r: (Voq<P>, Globals))
    ensures r.0.flushTimer == Some(now + timeToFlush)
    ensures r.0 == v.(flushTimer := r.0.flushTimer)
    ensures r.1.nFlushVOQTotal == g.nFlushVOQTotal
    ensures v.flushTimer.Some? && timeToFlush == PROBE_DELAY ==>
      r.1.flushEstErrorHistory
        == g.flushEstErrorHistory + [FlushEstError(v.flushTimer.value, now, v.extraFlushTime)]
    ensures v.flushTimer.None? || timeToFlush != PROBE_DELAY ==> r.1 == g
  {
    var g' :=
      match v.flushTimer
      case Some(prevEst) =>
        if timeToFlush == PROBE_DELAY then
          g.(flushEstErrorHistory :=
               g.flushEstErrorHistory + [FlushEstError(prevEst, now, v.extraFlushTime)])
        else g
      case None => g;
    (v.(flushTimer := Some(now + timeToFlush)), g')
  }

  /**
   * Configure the VOQ for a flow and schedule its flush. The margin is stored
   * before rescheduling, so a probe made through `Set` is measured against
   * the new margin.
   */
  function Set<P>(v: Voq<P>, g: Globals, now: int, flowKey: int, dip: int, timeToFlush: int, extra: int)
    : (r: (Voq<P>, Globals))
    ensures r.0.flowKey == flowKey && r.0.dip == dip && r.0.extraFlushTime == extra
    ensures r.0.fifo == v.fifo
    ensures r.0.flushTimer == Some(now + timeToFlush)
    ensures r.1.nFlushVOQTotal == g.nFlushVOQTotal
    ensures v.flushTimer.Some? && timeToFlush == PROBE_DELAY ==>
      r.1.flushEstErrorHistory
        == g.flushEstErrorHistory + [FlushEstError(v.flushTimer.value, now, extra)]
    ensures v.flushTimer.None? || timeToFlush != PROBE_DELAY ==> r.1 == g
  {
    RescheduleFlush(v.(flowKey := flowKey, dip := dip, extraFlushTime := extra), g, now, timeToFlush)
  }

  /** Append a packet at the tail of the FIFO. */
  function Enqueue<P>(v: Voq<P>, pkt: P): (v': Voq<P>)
    ensures |v'.fifo| == |v.fifo| + 1
    ensures v'.fifo[..|v.fifo|] == v.fifo && v'.fifo[|v.fifo|] == pkt
    ensures v' == v.(fifo := v'.fifo)
  {
    v.(fifo := v.fifo + [pkt])
  }

  /**
   * The send events of draining `q` front to back: the front packet is sent
   * with its parsed header, popped, and the rest drained the same way.
   */
  function Sends<P, H>(q: seq<P>, header: P -> H): (r: seq<Event<P, H>>)
    ensures |r| == |q|
    ensures forall i :: 0 <= i < |q| ==> r[i] == SendNotice(q[i], header(q[i]))
  {
    if |q| == 0 then []
    else [SendNotice(q[0], header(q[0]))] + Sends(q[1..], header)
  }

  /**
   * Drain the VOQ now: notify the flush with the (32-bit) packet count, send
   * every buffered packet in arrival order, then ask for this VOQ's deletion.
   * The pending flush event, if any, is left as it is.
   */
  function FlushAllImmediately<P, H>(v: Voq<P>, header: P -> H): (r: (Voq<P>, seq<Event<P, H>>))
    ensures r.0 == v.(fifo := [])
    ensures |r.1| == |v.fifo| + 2
    ensures r.1[0] == FlushNotice(v.flowKey, ToUint32(|v.fifo|))
    ensures forall i :: 0 <= i < |v.fifo| ==> r.1[i + 1] == SendNotice(v.fifo[i], header(v.fifo[i]))
    ensures r.1[|v.fifo| + 1] == DeleteNotice(v.flowKey)
  {
    var notice := FlushNotice(v.flowKey, ToUint32(|v.fifo|));
    var sends := Sends(v.fifo, header);
    (v.(fifo := []), [notice] + sends + [DeleteNotice(v.flowKey)])
  }

  /**
   * What the pending flush event runs when it fires: count one forced flush,
   * cancel the event, and drain.
   */
  function EnforceFlushAll<P, H>(v: Voq<P>, g: Globals, header: P -> H): (r: (Voq<P>, Globals, seq<Event<P, H>>))
    ensures r.1 == g.(nFlushVOQTotal := g.nFlushVOQTotal + 1)
    ensures r.0 == v.(fifo := [], flushTimer := None)
    ensures |r.2| == |v.fifo| + 2
    ensures r.2[0] == FlushNotice(v.flowKey, ToUint32(|v.fifo|))
    ensures forall i :: 0 <= i < |v.fifo| ==> r.2[i + 1] == SendNotice(v.fifo[i], header(v.fifo[i]))
    ensures r.2[|v.fifo| + 1] == DeleteNotice(v.flowKey)
  {
    var g' := g.(nFlushVOQTotal := g.nFlushVOQTotal + 1);
    var drained := FlushAllImmediately(v.(flushTimer := None), header);
    (drained.0, g', drained.1)
  }

  /** Whether the FIFO holds no packet. */
  function CheckEmpty<P>(v: Voq<P>): (b: bool)
    ensures b <==> v.fifo == []
  {
    |v.fifo| == 0
  }

  /** The number of buffered packets, as a `uint32_t`. */
  function QueueSize<P>(v: Voq<P>): (n: int)
    ensures 0 <= n < TWO_32
    ensures |v.fifo| < TWO_32 ==> n == |v.fifo|
  {
    ToUint32(|v.fifo|)
  }

  /** The two introspection calls agree on every VOQ with fewer than 2^32 packets. */
  lemma CheckEmptyIffQueueSizeZero<P>(v: Voq<P>)
    requires |v.fifo| < TWO_32
    ensures CheckEmpty(v) <==> QueueSize(v) == 0
  {
  }

  /** At exactly 2^32 packets the `uint32_t` size wraps to 0 while the FIFO is not empty. */
  lemma QueueSizeWrapsAt2To32<P>(v: Voq<P>)
    requires |v.fifo| == TWO_32
    ensures QueueSize(v) == 0 && !CheckEmpty(v)
  {
  }
}
