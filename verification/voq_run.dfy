/**
 * A VOQ's life after `Set` as a sequence of actions: calls from the routing
 * layer, and the simulator firing the pending flush event. Because the
 * simulator is single-threaded, each action runs to completion before the
 * next, so a run is the left-to-right composition of the actions, and its
 * callback trace is the concatenation of theirs.
 */
module VoqRun {
  import opened Wrappers
  import opened CppInt
  import opened Voq
  import opened Sequencing

  /** One thing that can happen to a configured VOQ. */
  datatype Action<P> =
    | EnqueueCall(pkt: P)
    | RescheduleCall(now: int, timeToFlush: int)
    | FlushCall
    | TimerFires

  /** The packets a sequence of actions enqueues, in order. */
  function Buffered<P>(actions: seq<Action<P>>): seq<P>
  {
    if |actions| == 0 then []
    else (if actions[0].EnqueueCall? then [actions[0].pkt] else []) + Buffered(actions[1..])
  }

  /** How many actions are reschedules with the probe delay. */
  function Probes<P>(actions: seq<Action<P>>): nat
  {
    if |actions| == 0 then 0
    else
      var probe := if actions[0].RescheduleCall? && actions[0].timeToFlush == PROBE_DELAY then 1 else 0;
      probe + Probes(actions[1..])
  }

  /** How many actions are the timer firing. */
  function Fires<P>(actions: seq<Action<P>>): nat
  {
    if |actions| == 0 then 0
    else (if actions[0].TimerFires? then 1 else 0) + Fires(actions[1..])
  }

  /** No action drains the queue: only enqueues and reschedules. */
  predicate Quiet<P>(actions: seq<Action<P>>)
  {
    forall i :: 0 <= i < |actions| ==> actions[i].EnqueueCall? || actions[i].RescheduleCall?
  }

  /**
   * One action. The timer fires only while an event is pending: a cancelled
   * or already fired event never runs.
   */
  function Apply<P, H>(v: Voq<P>, g: Globals, a: Action<P>, header: P -> H): (Voq<P>, Globals, seq<Event<P, H>>)
  {
    match a
    case EnqueueCall(p) => (Enqueue(v, p), g, [])
    case RescheduleCall(now, d) =>
      var r := RescheduleFlush(v, g, now, d);
      (r.0, r.1, [])
    case FlushCall =>
      var r := FlushAllImmediately(v, header);
      (r.0, g, r.1)
    case TimerFires =>
      if v.flushTimer.Some? then EnforceFlushAll(v, g, header) else (v, g, [])
  }

  /** `Apply` as a step on the pair of VOQ and process-wide state. */
  function Step<P, H>(header: P -> H): ((Voq<P>, Globals), Action<P>) -> ((Voq<P>, Globals), seq<Event<P, H>>)
  {
    (s: (Voq<P>, Globals), a: Action<P>) =>
      var r := Apply(s.0, s.1, a, header);
      ((r.0, r.1), r.2)
  }

  /** A sequence of actions, first to last; the trace is the concatenation of theirs. */
  function Run<P, H>(v: Voq<P>, g: Globals, actions: seq<Action<P>>, header: P -> H)
    : (Voq<P>, Globals, seq<Event<P, H>>)
  {
    var r := Fold((v, g), actions, Step(header));
    (r.0.0, r.0.1, r.1)
  }

  /**
   * One action never changes the flow's identity; the error log only grows,
   * by at most one sample and only for a probe; the forced-flush counter
   * grows by at most one and only when the timer fires.
   */
  lemma ApplyBounds<P, H>(v: Voq<P>, g: Globals, a: Action<P>, header: P -> H)
    ensures
      var r := Apply(v, g, a, header);
      && r.0.flowKey == v.flowKey && r.0.dip == v.dip && r.0.extraFlushTime == v.extraFlushTime
      && g.flushEstErrorHistory <= r.1.flushEstErrorHistory
      && |r.1.flushEstErrorHistory|
         <= |g.flushEstErrorHistory| + (if a.RescheduleCall? && a.timeToFlush == PROBE_DELAY then 1 else 0)
      && g.nFlushVOQTotal <= r.1.nFlushVOQTotal <= g.nFlushVOQTotal + (if a.TimerFires? then 1 else 0)
  {
  }

  /**
   * Over any run the flow's identity never changes, the error log only grows,
   * by at most one sample per probe, and the forced-flush counter grows by at
   * most one per firing.
   */
  lemma {:induction false} RunBounds<P, H>(v: Voq<P>, g: Globals, actions: seq<Action<P>>, header: P -> H)
    ensures
      var r := Run(v, g, actions, header);
      && r.0.flowKey == v.flowKey && r.0.dip == v.dip && r.0.extraFlushTime == v.extraFlushTime
      && g.flushEstErrorHistory <= r.1.flushEstErrorHistory
      && |r.1.flushEstErrorHistory| <= |g.flushEstErrorHistory| + Probes(actions)
      && g.nFlushVOQTotal <= r.1.nFlushVOQTotal <= g.nFlushVOQTotal + Fires(actions)
    decreases |actions|
  {
    if |actions| > 0 {
      var r0 := Apply(v, g, actions[0], header);
      ApplyBounds(v, g, actions[0], header);
      RunBounds(r0.0, r0.1, actions[1..], header);
      RunCons(v, g, actions, header);
    } else {
      RunNil(v, g, actions, header);
    }
  }

  /** Running `a + b` is running `a`, then `b` from where `a` left off. */
  lemma RunAppend<P, H>(v: Voq<P>, g: Globals, a: seq<Action<P>>, b: seq<Action<P>>, header: P -> H)
    ensures
      var ra := Run(v, g, a, header);
      var rb := Run(ra.0, ra.1, b, header);
      Run(v, g, a + b, header) == (rb.0, rb.1, ra.2 + rb.2)
  {
    FoldAppend((v, g), a, b, Step(header));
    var fa := Fold((v, g), a, Step(header));
    assert fa.0 == (fa.0.0, fa.0.1);
  }

  /** An empty run changes nothing and emits nothing. */
  lemma RunNil<P, H>(v: Voq<P>, g: Globals, actions: seq<Action<P>>, header: P -> H)
    requires |actions| == 0
    ensures Run(v, g, actions, header) == (v, g, [])
  {
  }

  /** A non-empty run is its first action followed by the run of the rest. */
  lemma RunCons<P, H>(v: Voq<P>, g: Globals, actions: seq<Action<P>>, header: P -> H)
    requires |actions| > 0
    ensures
      var first := Apply(v, g, actions[0], header);
      var rest := Run(first.0, first.1, actions[1..], header);
      Run(v, g, actions, header) == (rest.0, rest.1, first.2 + rest.2)
  {
    var first := Apply(v, g, actions[0], header);
    assert Step(header)((v, g), actions[0]) == ((first.0, first.1), first.2);
  }

  /**
   * Enqueues and reschedules emit no callback, never touch the forced-flush
   * counter, append exactly the enqueued packets to the FIFO in call order,
   * and never leave the VOQ without a pending flush event once it has one.
   */
  lemma {:induction false} QuietRun<P, H>(v: Voq<P>, g: Globals, actions: seq<Action<P>>, header: P -> H)
    requires Quiet(actions)
    ensures Run(v, g, actions, header).0.fifo == v.fifo + Buffered(actions)
    ensures Run(v, g, actions, header).2 == []
    ensures Run(v, g, actions, header).1.nFlushVOQTotal == g.nFlushVOQTotal
    ensures v.flushTimer.Some? ==> Run(v, g, actions, header).0.flushTimer.Some?
    decreases |actions|
  {
    if |actions| > 0 {
      var a, rest := actions[0], actions[1..];
      QuietTail(actions);
      var r0 := Apply(v, g, a, header);
      QuietStep(v, g, a, header);
      QuietRun(r0.0, r0.1, rest, header);
      var r1 := Run(r0.0, r0.1, rest, header);
      RunCons(v, g, actions, header);
      var added: seq<P> := if a.EnqueueCall? then [a.pkt] else [];
      assert Buffered(actions) == added + Buffered(rest);
      assert r0.0.fifo == v.fifo + added;
      assert r1.0.fifo == r0.0.fifo + Buffered(rest);
      assert (v.fifo + added) + Buffered(rest) == v.fifo + (added + Buffered(rest));
    } else {
      RunNil(v, g, actions, header);
      assert Buffered(actions) == [];
      assert v.fifo + [] == v.fifo;
    }
  }

  /** The tail of a quiet sequence is quiet, and its head is an enqueue or a reschedule. */
  lemma QuietTail<P>(actions: seq<Action<P>>)
    requires |actions| > 0 && Quiet(actions)
    ensures actions[0].EnqueueCall? || actions[0].RescheduleCall?
    ensures Quiet(actions[1..])
  {
    assert actions[0].EnqueueCall? || actions[0].RescheduleCall?;
    forall i | 0 <= i < |actions[1..]|
      ensures actions[1..][i].EnqueueCall? || actions[1..][i].RescheduleCall?
    {
      assert actions[1..][i] == actions[i + 1];
    }
  }

  /** One enqueue or reschedule: no callback, counter untouched, the enqueued packet (if any) at the tail. */
  lemma QuietStep<P, H>(v: Voq<P>, g: Globals, a: Action<P>, header: P -> H)
    requires a.EnqueueCall? || a.RescheduleCall?
    ensures Apply(v, g, a, header).0.fifo == v.fifo + (if a.EnqueueCall? then [a.pkt] else [])
    ensures Apply(v, g, a, header).2 == []
    ensures Apply(v, g, a, header).1.nFlushVOQTotal == g.nFlushVOQTotal
    ensures v.flushTimer.Some? ==> Apply(v, g, a, header).0.flushTimer.Some?
  {
  }

  /** Enqueues alone leave the pending flush event as it was. */
  lemma {:induction false} EnqueuesKeepTimer<P, H>(v: Voq<P>, g: Globals, actions: seq<Action<P>>, header: P -> H)
    requires forall i :: 0 <= i < |actions| ==> actions[i].EnqueueCall?
    ensures Run(v, g, actions, header).0.flushTimer == v.flushTimer
    decreases |actions|
  {
    if |actions| > 0 {
      assert actions[0].EnqueueCall?;
      EnqueuesKeepTimer(Enqueue(v, actions[0].pkt), g, actions[1..], header);
      RunCons(v, g, actions, header);
    } else {
      RunNil(v, g, actions, header);
    }
  }

  /**
   * Only one flush event is ever pending, and it is the one the last
   * reschedule armed: after any enqueues and reschedules whose last
   * reschedule is action k, the event fires at that call's `now` plus its
   * delay, whatever was scheduled before.
   */
  lemma LastRescheduleWins<P, H>(v: Voq<P>, g: Globals, actions: seq<Action<P>>, k: nat, header: P -> H)
    requires k < |actions| && actions[k].RescheduleCall?
    requires forall j :: k < j < |actions| ==> actions[j].EnqueueCall?
    ensures Run(v, g, actions, header).0.flushTimer == Some(actions[k].now + actions[k].timeToFlush)
  {
    var before, resched, after := actions[..k], [actions[k]], actions[k + 1..];
    assert actions == before + (resched + after);
    RunAppend(v, g, before, resched + after, header);
    var (v1, g1, e1) := Run(v, g, before, header);
    RunAppend(v1, g1, resched, after, header);
    var (v2, g2, e2) := Run(v1, g1, resched, header);
    RunSingle(v1, g1, actions[k], header);
    assert v2.flushTimer == Some(actions[k].now + actions[k].timeToFlush);
    assert forall i :: 0 <= i < |after| ==> after[i] == actions[k + 1 + i];
    EnqueuesKeepTimer(v2, g2, after, header);
  }

  /**
   * The FIFO property, external path: packets enqueued into an empty VOQ,
   * with reschedules in between, are released by `FlushAllImmediately` as one
   * flush notice carrying their count, then one send each, in enqueue order,
   * then one delete notice; the VOQ is left empty.
   */
  lemma FifoReleaseOnFlush<P, H>(v: Voq<P>, g: Globals, actions: seq<Action<P>>, header: P -> H)
    requires |v.fifo| == 0 && Quiet(actions)
    ensures
      var r := Run(v, g, actions + [FlushCall], header);
      var pkts := Buffered(actions);
      && r.2 == [FlushNotice(v.flowKey, ToUint32(|pkts|))] + Sends(pkts, header) + [DeleteNotice(v.flowKey)]
      && CheckEmpty(r.0) && QueueSize(r.0) == 0
  {
    RunAppend(v, g, actions, [FlushCall], header);
    QuietRun(v, g, actions, header);
    RunBounds(v, g, actions, header);
    var r1 := Run(v, g, actions, header);
    assert r1.0.fifo == Buffered(actions) by {
      assert v.fifo + Buffered(actions) == Buffered(actions);
    }
    var drained := FlushAllImmediately(r1.0, header);
    RunSingle(r1.0, r1.1, FlushCall, header);
    assert Run(r1.0, r1.1, [FlushCall], header) == (drained.0, r1.1, drained.1);
  }

  /**
   * The FIFO property, timeout path: the same release when the pending flush
   * event fires instead, which also counts one forced flush and leaves no
   * event pending.
   */
  lemma FifoReleaseOnTimeout<P, H>(v: Voq<P>, g: Globals, actions: seq<Action<P>>, header: P -> H)
    requires |v.fifo| == 0 && v.flushTimer.Some? && Quiet(actions)
    ensures
      var r := Run(v, g, actions + [TimerFires], header);
      var pkts := Buffered(actions);
      && r.2 == [FlushNotice(v.flowKey, ToUint32(|pkts|))] + Sends(pkts, header) + [DeleteNotice(v.flowKey)]
      && CheckEmpty(r.0) && QueueSize(r.0) == 0
      && r.0.flushTimer.None?
      && r.1.nFlushVOQTotal == g.nFlushVOQTotal + 1
  {
    RunAppend(v, g, actions, [TimerFires], header);
    QuietRun(v, g, actions, header);
    RunBounds(v, g, actions, header);
    var r1 := Run(v, g, actions, header);
    assert r1.0.fifo == Buffered(actions) by {
      assert v.fifo + Buffered(actions) == Buffered(actions);
    }
    assert r1.0.flushTimer.Some?;
    var fired := EnforceFlushAll(r1.0, r1.1, header);
    RunSingle(r1.0, r1.1, TimerFires, header);
    assert Run(r1.0, r1.1, [TimerFires], header) == fired;
  }

  /** A run of one action is that action. */
  lemma RunSingle<P, H>(v: Voq<P>, g: Globals, a: Action<P>, header: P -> H)
    ensures Run(v, g, [a], header) == Apply(v, g, a, header)
  {
    var r := Apply(v, g, a, header);
    RunCons(v, g, [a], header);
    assert [a][1..] == [];
    RunNil(r.0, r.1, [a][1..], header);
    assert r.2 + [] == r.2;
  }

  /** Once the pending event has fired, firing again does nothing: there is no event left. */
  lemma FiresOnce<P, H>(v: Voq<P>, g: Globals, header: P -> H)
    ensures
      var r := Apply(v, g, TimerFires, header);
      Apply(r.0, r.1, TimerFires, header) == (r.0, r.1, [])
  {
  }

  /**
   * `FlushAllImmediately` does not cancel the pending event; only
   * `EnforceFlushAll` and `RescheduleFlush` do. If the VOQ still exists when
   * that event fires, it drains the now empty VOQ again: a second flush notice
   * with count 0 and a second delete notice.
   */
  lemma ExternalFlushLeavesTimerArmed<P, H>(v: Voq<P>, g: Globals, header: P -> H)
    requires v.flushTimer.Some?
    ensures
      var r := Run(v, g, [FlushCall, TimerFires], header);
      r.2 == FlushAllImmediately(v, header).1 + [FlushNotice(v.flowKey, 0), DeleteNotice(v.flowKey)]
  {
    var drained := FlushAllImmediately(v, header);
    var acts: seq<Action<P>> := [FlushCall, TimerFires];
    assert acts[1..] == [TimerFires];
    RunCons(v, g, acts, header);
    assert drained.0.flushTimer.Some?;
    RunSingle(drained.0, g, TimerFires, header);
  }

  /**
   * Example: `Set(7, dip, 100, 10)` at time 0, enqueue p1 and p2, reschedule
   * to 50 at time 0, then the timer fires at 50.
   */
  lemma ScenarioTwoPacketsTimeout<P, H>(g: Globals, dip: int, p1: P, p2: P, header: P -> H)
    ensures
      var configured := Set(New<P>(), g, 0, 7, dip, 100, 10);
      var acts := [EnqueueCall(p1), EnqueueCall(p2), RescheduleCall(0, 50)];
      var before := Run(configured.0, configured.1, acts, header);
      var after := Run(configured.0, configured.1, acts + [TimerFires], header);
      && before.0.flushTimer == Some(50)
      && after.2 == [FlushNotice(7, 2), SendNotice(p1, header(p1)), SendNotice(p2, header(p2)), DeleteNotice(7)]
      && QueueSize(after.0) == 0
  {
    var configured := Set(New<P>(), g, 0, 7, dip, 100, 10);
    var v0, g0 := configured.0, configured.1;
    assert v0.flowKey == 7 && |v0.fifo| == 0 && v0.flushTimer.Some?;
    var acts := [EnqueueCall(p1), EnqueueCall(p2), RescheduleCall(0, 50)];
    assert Quiet(acts);
    assert Buffered(acts) == [p1, p2] by {
      assert Buffered(acts[2..]) == [];
      assert Buffered(acts[1..]) == [p2];
    }
    LastRescheduleWins(v0, g0, acts, 2, header);
    FifoReleaseOnTimeout(v0, g0, acts, header);
    assert Sends([p1, p2], header) == [SendNotice(p1, header(p1)), SendNotice(p2, header(p2))];
  }

  /** Example: a probe with the event pending at 80, now 30 and margin 10 logs the sample 40. */
  lemma ScenarioProbe<P>(v: Voq<P>, g: Globals)
    requires v.flushTimer == Some(80) && v.extraFlushTime == 10
    ensures RescheduleFlush(v, g, 30, PROBE_DELAY).1.flushEstErrorHistory == g.flushEstErrorHistory + [40]
    ensures RescheduleFlush(v, g, 30, PROBE_DELAY).0.fifo == v.fifo
  {
  }
}
