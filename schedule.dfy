/**
 * Runs of the engine: sequences of events (timer deliveries and user
 * intents), and the timed schedule of phase entries that the configured
 * durations produce.
 */
module Schedule {
  import opened Options
  import opened Phases
  import opened Engine

  datatype Event = TimerFires(handle: nat) | IntervalFires(handle: nat) | TogglePressed | ResetPressed

  /** Timer deliveries only: no user intent. */
  predicate IsTimerEvent(e: Event)
  {
    e.TimerFires? || e.IntervalFires?
  }

  function Apply(s: EngineState, e: Event): EngineState
  {
    match e
    case TimerFires(h) => Fired(s, h)
    case IntervalFires(h) => Ticked(s, h)
    case TogglePressed => Toggled(s)
    case ResetPressed => ResetState(s)
  }

  function Run(s: EngineState, es: seq<Event>): EngineState
    decreases |es|
  {
    if es == [] then s else Run(Apply(s, es[0]), es[1..])
  }

  /** Every event keeps the engine in a reachable state. */
  lemma ApplyPreservesInvariant(s: EngineState, e: Event)
    requires Invariant(s)
    ensures Invariant(Apply(s, e))
  {
  }

  lemma {:induction false} RunPreservesInvariant(s: EngineState, es: seq<Event>)
    requires Invariant(s)
    ensures Invariant(Run(s, es))
    decreases |es|
  {
    if es != [] {
      ApplyPreservesInvariant(s, es[0]);
      RunPreservesInvariant(Apply(s, es[0]), es[1..]);
    }
  }

  lemma {:induction false} RunAppend(s: EngineState, a: seq<Event>, b: seq<Event>)
    ensures Run(s, a + b) == Run(Run(s, a), b)
    decreases |a|
  {
    if a == [] {
      assert a + b == b;
    } else {
      assert (a + b)[0] == a[0];
      assert (a + b)[1..] == a[1..] + b;
      RunAppend(Apply(s, a[0]), a[1..], b);
    }
  }

  lemma RunOne(s: EngineState, e: Event)
    ensures Run(s, [e]) == Apply(s, e)
  {
  }

  /**
   * Without a toggle or a reset: the engine stays active or inactive,
   * and neither `cycleCount` nor `elapsedTime` ever decreases.
   */
  lemma {:induction false} CountersNeverDecrease(s: EngineState, es: seq<Event>)
    requires Invariant(s)
    requires forall i :: 0 <= i < |es| ==> IsTimerEvent(es[i])
    ensures var r := Run(s, es);
      r.isActive == s.isActive && r.cycleCount >= s.cycleCount && r.elapsedTime >= s.elapsedTime
    decreases |es|
  {
    if es != [] {
      var t := Apply(s, es[0]);
      ApplyPreservesInvariant(s, es[0]);
      assert t.isActive == s.isActive && t.cycleCount >= s.cycleCount && t.elapsedTime >= s.elapsedTime by {
        if es[0].TimerFires? && s.isActive && s.timer.value.handle == es[0].handle {
          FireAdvances(s);
        }
      }
      CountersNeverDecrease(t, es[1..]);
    }
  }

  /**
   * After a pause (or a reset) nothing the timers deliver changes the
   * engine: no phase change, no count, no further second on the clock.
   */
  lemma {:induction false} InactiveRunIsFrozen(s: EngineState, es: seq<Event>)
    requires Invariant(s) && !s.isActive
    requires forall i :: 0 <= i < |es| ==> IsTimerEvent(es[i])
    ensures Run(s, es) == s
    decreases |es|
  {
    if es != [] {
      LateEventsAreNoOps(s, es[0].handle);
      InactiveRunIsFrozen(s, es[1..]);
    }
  }

  /** A run of `n` ticks of interval `h`. */
  function Ticks(h: nat, n: nat): (r: seq<Event>)
    ensures |r| == n && forall i :: 0 <= i < n ==> r[i] == IntervalFires(h)
  {
    seq(n, _ => IntervalFires(h))
  }

  /** `n` ticks of the live interval add exactly `n` seconds and change nothing else. */
  lemma {:induction false} RunTicks(s: EngineState, h: nat, n: nat)
    requires s.interval == Some(h)
    ensures Run(s, Ticks(h, n)) == s.(elapsedTime := s.elapsedTime + n)
    decreases n
  {
    if n > 0 {
      assert Ticks(h, n)[1..] == Ticks(h, n - 1);
      RunTicks(Ticked(s, h), h, n - 1);
    }
  }

  // ---------------------------------------------------------------------
  // The timed schedule of phase entries

  function PendingDelay(s: EngineState): nat
  {
    if s.timer.Some? then s.timer.value.delayMs else 0
  }

  /** Let the pending phase timer run out and fire. */
  function FireNext(s: EngineState): EngineState
  {
    if s.timer.Some? then Fired(s, s.timer.value.handle) else s
  }

  /**
   * The state after the next `n` phase timers have fired, and the number
   * of milliseconds from now at which the last of them fires.
   */
  function Elapse(s: EngineState, n: nat): (EngineState, nat)
    decreases n
  {
    if n == 0 then (s, 0)
    else
      var rest := Elapse(FireNext(s), n - 1);
      (rest.0, PendingDelay(s) + rest.1)
  }

  lemma {:induction false} ElapseSplit(s: EngineState, a: nat, b: nat)
    ensures var first := Elapse(s, a);
      Elapse(s, a + b) == (Elapse(first.0, b).0, first.1 + Elapse(first.0, b).1)
    decreases a
  {
    if a > 0 {
      ElapseSplit(FireNext(s), a - 1, b);
    }
  }

  /** One full cycle from the start of an inhale: 19000 ms later the next inhale begins, one more cycle counted. */
  lemma OneCycle(s: EngineState)
    requires Invariant(s) && s.isActive && s.phase == Inhale
    ensures var r := Elapse(s, 3);
      Invariant(r.0) && r.0.isActive && r.0.phase == Inhale &&
      r.0.cycleCount == s.cycleCount + 1 && r.0.elapsedTime == s.elapsedTime &&
      r.1 == TotalCycleDuration
  {
  }

  /**
   * `k` full cycles from the start of an inhale: after `3k` phase timers,
   * `k * 19000` ms later, the engine is inhaling again with `k` more cycles.
   */
  lemma {:induction false} FullCycles(s: EngineState, k: nat)
    requires Invariant(s) && s.isActive && s.phase == Inhale
    ensures var r := Elapse(s, 3 * k);
      Invariant(r.0) && r.0.isActive && r.0.phase == Inhale &&
      r.0.cycleCount == s.cycleCount + k && r.0.elapsedTime == s.elapsedTime &&
      r.1 == k * TotalCycleDuration
    decreases k
  {
    if k > 0 {
      OneCycle(s);
      var first := Elapse(s, 3);
      FullCycles(first.0, k - 1);
      ElapseSplit(s, 3, 3 * (k - 1));
      assert 3 * k == 3 + 3 * (k - 1);
    }
  }

  /**
   * The schedule after a start: inhale at 0, hold at 4000 ms, exhale at
   * 11000 ms, inhale again at 19000 ms with the first cycle counted.
   */
  lemma EndToEndSchedule()
    ensures var s0 := Toggled(Initial);
      s0.isActive && s0.phase == Inhale && s0.cycleCount == 0 &&
      Elapse(s0, 1).0.phase == Hold && Elapse(s0, 1).1 == 4000 &&
      Elapse(s0, 2).0.phase == Exhale && Elapse(s0, 2).1 == 11000 &&
      Elapse(s0, 3).0.phase == Inhale && Elapse(s0, 3).1 == 19000 &&
      Elapse(s0, 2).0.cycleCount == 0 && Elapse(s0, 3).0.cycleCount == 1
  {
  }

  /** `n` ticks of interval `h`, then phase timer `t` fires. */
  function Segment(h: nat, n: nat, t: nat): seq<Event>
  {
    Ticks(h, n) + [TimerFires(t)]
  }

  lemma RunSegment(s: EngineState, h: nat, n: nat, t: nat)
    requires s.interval == Some(h)
    ensures Run(s, Segment(h, n, t)) == Fired(s.(elapsedTime := s.elapsedTime + n), t)
  {
    RunAppend(s, Ticks(h, n), [TimerFires(t)]);
    RunTicks(s, h, n);
    RunOne(s.(elapsedTime := s.elapsedTime + n), TimerFires(t));
  }

  /**
   * The first 19 seconds of a session with the clock running, events in
   * time order: the start, 4 ticks, the hold timer, 7 ticks, the exhale
   * timer, 8 ticks and the inhale timer. With `h` the next free handle
   * before the start, the phase timers get handles `h`, `h + 2` and `h + 3`
   * and the interval gets `h + 1`.
   */
  lemma FirstCycleWithClock(s: EngineState)
    requires Invariant(s) && !s.isActive
    ensures var h := s.nextHandle;
      var r := Run(s, [TogglePressed] + Segment(h + 1, 4, h) + Segment(h + 1, 7, h + 2) + Segment(h + 1, 8, h + 3));
      r.isActive && r.phase == Inhale && r.cycleCount == 1 && r.elapsedTime == 19 && Invariant(r)
  {
    var h := s.nextHandle;
    var p1 := [TogglePressed];
    var p2 := p1 + Segment(h + 1, 4, h);
    var p3 := p2 + Segment(h + 1, 7, h + 2);
    var s0 := Toggled(s);
    StartFromIdle(s);
    RunOne(s, TogglePressed);
    var a0 := s0.(elapsedTime := 4);
    FireAdvances(a0);
    var a := Fired(a0, h);
    RunAppend(s, p1, Segment(h + 1, 4, h));
    RunSegment(s0, h + 1, 4, h);
    var b0 := a.(elapsedTime := 11);
    FireAdvances(b0);
    var b := Fired(b0, h + 2);
    RunAppend(s, p2, Segment(h + 1, 7, h + 2));
    RunSegment(a, h + 1, 7, h + 2);
    var c0 := b.(elapsedTime := 19);
    FireAdvances(c0);
    RunAppend(s, p3, Segment(h + 1, 8, h + 3));
    RunSegment(b, h + 1, 8, h + 3);
  }

  /** From the mount state: 19 seconds after pressing start, inhaling again, one cycle, 00:19 on the clock. */
  lemma EndToEndWithClock()
    ensures var r := Run(Initial, [TogglePressed] + Segment(2, 4, 1) + Segment(2, 7, 3) + Segment(2, 8, 4));
      r.isActive && r.phase == Inhale && r.cycleCount == 1 && r.elapsedTime == 19
  {
    FirstCycleWithClock(Initial);
  }

  /** Pausing mid-session and delivering any timer events afterwards leaves the counters frozen. */
  lemma PauseThenLateTimers(s: EngineState, es: seq<Event>)
    requires Invariant(s) && s.isActive
    requires forall i :: 0 <= i < |es| ==> IsTimerEvent(es[i])
    ensures var r := Run(Toggled(s), es);
      !r.isActive && r.phase == Idle && r.cycleCount == s.cycleCount && r.elapsedTime == s.elapsedTime
  {
    PauseFreezes(s);
    InactiveRunIsFrozen(Toggled(s), es);
  }

}
