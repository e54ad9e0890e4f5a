/** The throttled status notifier behind `emit_status`, as pure functions over
    its one piece of state (`last_emit_time`) and the trace of events the
    emitter has received. Both pipe classes keep this state in fields and
    prove their `EmitStatus` against `Notify`. */
module Status {

  /** One call of `emit_status(emitter, level, message, done)`. */
  datatype Call = Call(level: string, message: string, done: bool)

  /** The `data` of the event `{"type": "status", "data": {...}}`. */
  datatype Event = Event(status: string, level: string, description: string, done: bool)

  /** An event the emitter received, with the clock reading it was sent at. */
  datatype Emission = Emission(at: real, event: Event)

  /** What decides, besides the times, whether a call sends: whether an
      emitter was passed, `enable_status_indicator` and `emit_interval`. */
  datatype Channel = Channel(hasEmitter: bool, enabled: bool, interval: real)

  /** `last_emit_time` and the events sent so far. */
  datatype Notifier = Notifier(lastEmitTime: real, trace: seq<Emission>)

  /** A fresh pipe: `last_emit_time = 0`, nothing sent. */
  const Initial := Notifier(0.0, [])

  function EventOf(c: Call): Event
  {
    Event(if c.done then "complete" else "in_progress", c.level, c.message, c.done)
  }

  /** The guard of `emit_status`. */
  predicate ShouldEmit(ch: Channel, last: real, now: real, done: bool)
  {
    ch.hasEmitter && ch.enabled && (now - last >= ch.interval || done)
  }

  /** One `emit_status` call at clock reading `now`. */
  function Notify(n: Notifier, ch: Channel, c: Call, now: real): Notifier
  {
    if ShouldEmit(ch, n.lastEmitTime, now, c.done)
    then Notifier(now, n.trace + [Emission(now, EventOf(c))])
    else n
  }

  /** The calls of one invocation in order, the i-th at clock reading clock(i). */
  function Replay(n: Notifier, ch: Channel, calls: seq<Call>, clock: nat -> real): Notifier
    decreases |calls|
  {
    if calls == [] then n
    else Notify(Replay(n, ch, calls[..|calls| - 1], clock), ch, calls[|calls| - 1], clock(|calls| - 1))
  }

  /** The time the i-th emission was measured against: the one before it, or
      the initial `last_emit_time` of 0. */
  function PrevAt(trace: seq<Emission>, i: nat): real
    requires i <= |trace|
  {
    if i == 0 then 0.0 else trace[i - 1].at
  }

  /** Throttling: every event that is not terminal was sent at least
      `interval` after the one before it. */
  ghost predicate Spaced(trace: seq<Emission>, interval: real)
  {
    forall i :: 0 <= i < |trace| ==> trace[i].event.done || trace[i].at - PrevAt(trace, i) >= interval
  }

  /** The notifier's invariant: `last_emit_time` is the time of the last
      event sent (0 before any), and the trace is throttled. */
  ghost predicate Consistent(n: Notifier, interval: real)
  {
    n.lastEmitTime == PrevAt(n.trace, |n.trace|) && Spaced(n.trace, interval)
  }

  lemma InitialConsistent(interval: real)
    ensures Consistent(Initial, interval)
  {
  }

  /** Every call keeps the invariant. */
  lemma NotifyKeepsConsistent(n: Notifier, ch: Channel, c: Call, now: real)
    requires Consistent(n, ch.interval)
    ensures Consistent(Notify(n, ch, c, now), ch.interval)
  {
    var n' := Notify(n, ch, c, now);
    if n' != n {
      forall i | 0 <= i < |n'.trace|
        ensures n'.trace[i].event.done || n'.trace[i].at - PrevAt(n'.trace, i) >= ch.interval
      {
        if i < |n.trace| {
          assert n'.trace[i] == n.trace[i];
          assert PrevAt(n'.trace, i) == PrevAt(n.trace, i);
        } else {
          assert PrevAt(n'.trace, i) == n.lastEmitTime;
        }
      }
    }
  }

  /** A whole invocation keeps the invariant. */
  lemma {:induction false} ReplayKeepsConsistent(n: Notifier, ch: Channel, calls: seq<Call>, clock: nat -> real)
    requires Consistent(n, ch.interval)
    ensures Consistent(Replay(n, ch, calls, clock), ch.interval)
    decreases |calls|
  {
    if calls != [] {
      var prefix := calls[..|calls| - 1];
      ReplayKeepsConsistent(n, ch, prefix, clock);
      NotifyKeepsConsistent(Replay(n, ch, prefix, clock), ch, calls[|calls| - 1], clock(|calls| - 1));
    }
  }

  /** With no emitter or the indicator off, a call sends nothing and leaves
      `last_emit_time` alone. */
  lemma SilencedCallIsIdle(n: Notifier, ch: Channel, c: Call, now: real)
    requires !ch.hasEmitter || !ch.enabled
    ensures Notify(n, ch, c, now) == n
  {
  }

  /** ... and so does every invocation. */
  lemma {:induction false} SilencedReplayIsIdle(n: Notifier, ch: Channel, calls: seq<Call>, clock: nat -> real)
    requires !ch.hasEmitter || !ch.enabled
    ensures Replay(n, ch, calls, clock) == n
    decreases |calls|
  {
    if calls != [] {
      SilencedReplayIsIdle(n, ch, calls[..|calls| - 1], clock);
    }
  }

  /** With an emitter and the indicator on, a terminal call always sends,
      whatever the elapsed time; its event is "complete" and carries the
      call's level, message and flag. */
  lemma TerminalCallSends(n: Notifier, ch: Channel, c: Call, now: real)
    requires ch.hasEmitter && ch.enabled && c.done
    ensures Notify(n, ch, c, now) == Notifier(now, n.trace + [Emission(now, Event("complete", c.level, c.message, true))])
  {
  }

  /** With an emitter and the indicator on, a non-terminal call sends iff at
      least `interval` has passed since `last_emit_time`; its event is
      "in_progress". */
  lemma ProgressCallThrottled(n: Notifier, ch: Channel, c: Call, now: real)
    requires ch.hasEmitter && ch.enabled && !c.done
    ensures now - n.lastEmitTime >= ch.interval ==>
      Notify(n, ch, c, now) == Notifier(now, n.trace + [Emission(now, Event("in_progress", c.level, c.message, false))])
    ensures now - n.lastEmitTime < ch.interval ==> Notify(n, ch, c, now) == n
  {
  }

  /** Of two non-terminal calls less than `interval` apart, the second is
      dropped once the first was sent; a terminal call right after is not. */
  lemma CloseProgressCallsSendOnce(n: Notifier, ch: Channel, c1: Call, c2: Call, t1: real, t2: real)
    requires ch.hasEmitter && ch.enabled && !c2.done
    requires |Notify(n, ch, c1, t1).trace| == |n.trace| + 1
    requires t2 - t1 < ch.interval
    ensures Notify(Notify(n, ch, c1, t1), ch, c2, t2) == Notify(n, ch, c1, t1)
    ensures |Notify(Notify(n, ch, c1, t1), ch, c2.(done := true), t2).trace| == |n.trace| + 2
  {
  }

  /** An invocation only appends to the trace, at most one event per call,
      and `last_emit_time` moves exactly when something is appended. */
  lemma {:induction false} ReplayOnlyAppends(n: Notifier, ch: Channel, calls: seq<Call>, clock: nat -> real)
    ensures var n' := Replay(n, ch, calls, clock);
      && |n.trace| <= |n'.trace| <= |n.trace| + |calls|
      && n'.trace[..|n.trace|] == n.trace
      && (|n'.trace| == |n.trace| ==> n'.lastEmitTime == n.lastEmitTime)
    decreases |calls|
  {
    if calls != [] {
      var prefix := calls[..|calls| - 1];
      ReplayOnlyAppends(n, ch, prefix, clock);
      var m := Replay(n, ch, prefix, clock);
      assert (m.trace + [Emission(clock(|calls| - 1), EventOf(calls[|calls| - 1]))])[..|n.trace|]
          == m.trace[..|n.trace|];
    }
  }

  /** When an invocation ends with a terminal call and the channel is open,
      the last event received is that call's "complete" event, sent at that
      call's clock reading, and `last_emit_time` is that reading. */
  lemma TerminalCallIsLastEvent(n: Notifier, ch: Channel, calls: seq<Call>, clock: nat -> real)
    requires ch.hasEmitter && ch.enabled
    requires |calls| > 0 && calls[|calls| - 1].done
    ensures var n' := Replay(n, ch, calls, clock);
      var last := calls[|calls| - 1];
      && |n'.trace| > 0
      && n'.trace[|n'.trace| - 1] == Emission(clock(|calls| - 1), Event("complete", last.level, last.message, true))
      && n'.lastEmitTime == clock(|calls| - 1)
  {
  }
}
