/**
 * The 4-7-8 breathing cycle engine: the state of the `App` component
 * (`phase`, `isActive`, `cycleCount`, `elapsedTime`), its two timer slots
 * (`timerRef`, `intervalRef`) and its transitions.
 *
 * Real time is replaced by events. Setting a timer allocates a handle, as
 * `window.setTimeout` and `window.setInterval` return positive ids; the
 * pending phase timer records the phase whose callback it will run and its
 * delay. A timer fires by handle: a handle that is no longer in its slot
 * (cleared, or already fired) fires to no effect. The tone generator is
 * reduced to `tone`, the phase whose tone was last requested (None once
 * `stopSound` has run).
 *
 * The transitions are first written as functions on `EngineState`; the
 * class `CycleEngine` below performs them in place and is proved against
 * these functions.
 */
module Engine {
  import opened Options
  import opened Phases

  datatype PendingTimer = PendingTimer(handle: nat, next: BreathPhase, delayMs: nat)

  datatype EngineState = EngineState(
    phase: Phase,
    isActive: bool,
    cycleCount: nat,
    elapsedTime: nat,
    timer: Option<PendingTimer>,
    interval: Option<nat>,
    tone: Option<Phase>,
    nextHandle: nat)

  /** The state on mount: idle, inactive, both counters zero, nothing scheduled. */
  const Initial := EngineState(Idle, false, 0, 0, None, None, None, 1)

  /**
   * The states the engine can be in between two events. Inactive: idle,
   * silent, nothing scheduled. Active: in a breathing phase whose tone was
   * requested, with the timer for the successor pending for exactly the
   * current phase's duration, and the clock interval live.
   */
  ghost predicate Invariant(s: EngineState)
  {
    s.nextHandle > 0 &&
    (s.timer.Some? ==> 0 < s.timer.value.handle < s.nextHandle) &&
    (s.interval.Some? ==> 0 < s.interval.value < s.nextHandle) &&
    (!s.isActive ==>
      s.phase == Idle && s.timer == None && s.interval == None && s.tone == None) &&
    (s.isActive ==>
      s.phase != Idle && s.tone == Some(s.phase) &&
      s.timer.Some? && s.interval.Some? && s.timer.value.handle != s.interval.value &&
      s.timer.value.next == Successor(s.phase) && s.timer.value.delayMs == Duration(s.phase))
  }

  /**
   * The steps `inhale`, `hold` and `exhale`: while active, enter phase `p`,
   * request its tone and set the timer that runs the successor's step after
   * `p`'s configured duration; while inactive, do nothing.
   */
  function Entered(s: EngineState, p: BreathPhase): (r: EngineState)
    ensures Invariant(s) ==> Invariant(r)
    ensures r.isActive == s.isActive && r.cycleCount == s.cycleCount &&
      r.elapsedTime == s.elapsedTime && r.interval == s.interval
    ensures s.isActive ==>
      r.phase == p && r.tone == Some(r.phase) &&
      r.timer.Some? && s.nextHandle <= r.timer.value.handle < r.nextHandle
  {
    if !s.isActive then s
    else s.(phase := p, tone := Some(p),
            timer := Some(PendingTimer(s.nextHandle, Successor(p), Duration(p))),
            nextHandle := s.nextHandle + 1)
  }

  /**
   * The phase timer with handle `h` fires. Exhale's timer adds one to
   * `cycleCount` before it runs the (guarded) inhale step.
   */
  function Fired(s: EngineState, h: nat): (r: EngineState)
    ensures Invariant(s) ==> Invariant(r)
    ensures r.isActive == s.isActive && r.elapsedTime == s.elapsedTime && r.interval == s.interval
    ensures s.cycleCount <= r.cycleCount <= s.cycleCount + 1
  {
    if s.timer.Some? && s.timer.value.handle == h then
      var next := s.timer.value.next;
      var spent := s.(timer := None);
      var counted := if next == Inhale then spent.(cycleCount := spent.cycleCount + 1) else spent;
      Entered(counted, next)
    else s
  }

  /** The clock interval with handle `h` fires: one more second, while that interval is live. */
  function Ticked(s: EngineState, h: nat): (r: EngineState)
    ensures Invariant(s) ==> Invariant(r)
    ensures s.elapsedTime <= r.elapsedTime <= s.elapsedTime + 1
    ensures r.(elapsedTime := s.elapsedTime) == s
  {
    if s.interval == Some(h) then s.(elapsedTime := s.elapsedTime + 1) else s
  }

  /** Starting fresh: zero both counters, run the inhale step, then set the 1-second interval. */
  function Started(s: EngineState): (r: EngineState)
    ensures s.isActive && s.nextHandle > 0 ==> Invariant(r) && r.phase == Inhale
    ensures r.cycleCount == 0 && r.elapsedTime == 0 && r.isActive == s.isActive && r.interval.Some?
  {
    var inhaling := Entered(s.(cycleCount := 0, elapsedTime := 0), Inhale);
    inhaling.(interval := Some(inhaling.nextHandle), nextHandle := inhaling.nextHandle + 1)
  }

  /** Stopped or paused: clear both timers and stop the tone. */
  function Stopped(s: EngineState): (r: EngineState)
    ensures !s.isActive && s.phase == Idle && s.nextHandle > 0 ==> Invariant(r)
    ensures r.phase == s.phase && r.isActive == s.isActive &&
      r.cycleCount == s.cycleCount && r.elapsedTime == s.elapsedTime
  {
    s.(timer := None, interval := None, tone := None)
  }

  /** The start/pause effect: start when active and idle, stop when inactive, otherwise nothing. */
  function EffectRun(s: EngineState): (r: EngineState)
    ensures Invariant(s) ==> r == s
    ensures s.phase == Idle && s.nextHandle > 0 ==> Invariant(r)
    ensures r.isActive == s.isActive
  {
    if s.isActive && s.phase == Idle then Started(s)
    else if !s.isActive then Stopped(s)
    else s
  }

  /** The state changes `handleToggle` itself makes, before any effect runs. */
  function ToggleSetters(s: EngineState): (r: EngineState)
    ensures r.isActive == !s.isActive && r.cycleCount == s.cycleCount && r.elapsedTime == s.elapsedTime
    ensures Invariant(s) ==> r.phase == Idle
  {
    if s.isActive then s.(isActive := false, phase := Idle) else s.(isActive := true)
  }

  /** `handleToggle` followed by the effect its state change triggers. */
  function Toggled(s: EngineState): (r: EngineState)
    ensures Invariant(s) ==> Invariant(r) && r.isActive == !s.isActive
  {
    EffectRun(ToggleSetters(s))
  }

  /** `handleReset`: deactivate, back to idle, zero both counters, stop the tone, clear both timers. */
  function ResetState(s: EngineState): (r: EngineState)
    ensures s.nextHandle > 0 ==> Invariant(r)
    ensures !r.isActive && r.phase == Idle && r.cycleCount == 0 && r.elapsedTime == 0
  {
    s.(isActive := false, phase := Idle, cycleCount := 0, elapsedTime := 0,
       tone := None, timer := None, interval := None)
  }

  /** The text under the orb: the introduction while inactive, the current phase's instruction while active. */
  const IntroText: string := "4-7-8 呼吸法能幫助您放鬆神經系統"

  function InstructionText(isActive: bool, phase: Phase): (r: string)
    ensures r != []
    ensures !isActive || phase != Idle ==> r != Config(Idle).instruction
  {
    if !isActive then IntroText else Config(phase).instruction
  }

  // ---------------------------------------------------------------------
  // Properties of the individual transitions

  lemma InitialIsValid()
    ensures Invariant(Initial)
  {
  }

  /** Reset from any state: idle, inactive, both counters zero, silent, nothing scheduled. */
  lemma ResetFromAnyState(s: EngineState)
    requires Invariant(s)
    ensures var r := ResetState(s);
      r.phase == Idle && !r.isActive && r.cycleCount == 0 && r.elapsedTime == 0 &&
      r.timer == None && r.interval == None && r.tone == None && Invariant(r)
  {
  }

  /** Reset is idempotent. */
  lemma ResetIdempotent(s: EngineState)
    ensures ResetState(ResetState(s)) == ResetState(s)
  {
  }

  /**
   * Toggle from an inactive state: active, both counters zero, inhaling,
   * with the hold step pending after 4000 ms and the clock interval live.
   */
  lemma StartFromIdle(s: EngineState)
    requires Invariant(s) && !s.isActive
    ensures var r := Toggled(s);
      r.isActive && r.phase == Inhale && r.cycleCount == 0 && r.elapsedTime == 0 &&
      r.tone == Some(Inhale) &&
      r.timer == Some(PendingTimer(s.nextHandle, Hold, 4000)) &&
      r.interval == Some(s.nextHandle + 1) && Invariant(r)
  {
  }

  /**
   * Toggle from an active state (pause): inactive, idle, silent, both
   * timers cleared, counters unchanged.
   */
  lemma PauseFreezes(s: EngineState)
    requires Invariant(s) && s.isActive
    ensures var r := Toggled(s);
      !r.isActive && r.phase == Idle && r.timer == None && r.interval == None && r.tone == None &&
      r.cycleCount == s.cycleCount && r.elapsedTime == s.elapsedTime && Invariant(r)
  {
  }

  /** A phase step run while inactive changes nothing. */
  lemma InactiveStepIsNoOp(s: EngineState, p: BreathPhase)
    requires !s.isActive
    ensures Entered(s, p) == s
  {
  }

  /** Once inactive, no timer and no tick can change anything: a late timer cannot resurrect the cycle. */
  lemma LateEventsAreNoOps(s: EngineState, h: nat)
    requires Invariant(s) && !s.isActive
    ensures Fired(s, h) == s && Ticked(s, h) == s
  {
  }

  /** A handle that is not the pending phase timer's fires to no effect. */
  lemma StaleTimerIsNoOp(s: EngineState, h: nat)
    requires s.timer.None? || s.timer.value.handle != h
    ensures Fired(s, h) == s
  {
  }

  /**
   * The pending phase timer fires while active: the successor phase is
   * entered, the next timer waits out that phase's configured duration,
   * `cycleCount` grows by one exactly on exhale to inhale, and the clock is
   * untouched.
   */
  lemma FireAdvances(s: EngineState)
    requires Invariant(s) && s.isActive
    ensures var r := Fired(s, s.timer.value.handle);
      r.isActive && r.phase == Successor(s.phase) &&
      r.timer.Some? && r.timer.value.delayMs == Duration(r.phase) &&
      r.timer.value.next == Successor(r.phase) &&
      r.timer.value.handle == s.nextHandle && r.nextHandle == s.nextHandle + 1 &&
      r.cycleCount == (if s.phase == Exhale then s.cycleCount + 1 else s.cycleCount) &&
      r.elapsedTime == s.elapsedTime && r.interval == s.interval && Invariant(r)
  {
  }

  /** A tick of the live interval adds exactly one second and changes nothing else; any other handle is ignored. */
  lemma TickAddsOneSecond(s: EngineState, h: nat)
    ensures s.interval == Some(h) ==> Ticked(s, h) == s.(elapsedTime := s.elapsedTime + 1)
    ensures s.interval != Some(h) ==> Ticked(s, h) == s
  {
  }

  /** The clock and the phase timer do not interfere: their events commute. */
  lemma TickAndFireCommute(s: EngineState, ht: nat, hi: nat)
    ensures Ticked(Fired(s, ht), hi) == Fired(Ticked(s, hi), ht)
  {
  }

  /** The text shown: the introduction when inactive, and never the idle row's instruction. */
  lemma IdleInstructionNeverShown(s: EngineState)
    requires Invariant(s)
    ensures InstructionText(s.isActive, s.phase) != Config(Idle).instruction
    ensures s.isActive ==> InstructionText(s.isActive, s.phase) == Config(s.phase).instruction
  {
  }

  // ---------------------------------------------------------------------
  // The engine as an object updated in place

  class CycleEngine {
    var phase: Phase
    var isActive: bool
    var cycleCount: nat
    var elapsedTime: nat
    var timer: Option<PendingTimer>
    var interval: Option<nat>
    var tone: Option<Phase>
    var nextHandle: nat

    function State(): EngineState
      reads this
    {
      EngineState(phase, isActive, cycleCount, elapsedTime, timer, interval, tone, nextHandle)
    }

    ghost predicate Valid()
      reads this
    {
      Invariant(State())
    }

    constructor ()
      ensures State() == Initial && Valid()
    {
      phase, isActive, cycleCount, elapsedTime := Idle, false, 0, 0;
      timer, interval, tone, nextHandle := None, None, None, 1;
    }

    /** Allocates a fresh timer handle. */
    method NewHandle() returns (h: nat)
      modifies this
      ensures h == old(nextHandle) && nextHandle == old(nextHandle) + 1
      ensures State() == old(State()).(nextHandle := old(nextHandle) + 1)
    {
      h := nextHandle;
      nextHandle := nextHandle + 1;
    }

    /** The steps `inhale`, `hold` and `exhale`, guarded by `isActive`. */
    method EnterPhase(p: BreathPhase)
      modifies this
      ensures State() == Entered(old(State()), p)
      ensures !old(isActive) ==> State() == old(State())
    {
      if !isActive {
        return;
      }
      phase := p;
      tone := Some(p);
      var h := NewHandle();
      timer := Some(PendingTimer(h, Successor(p), Duration(p)));
    }

    /** The phase timer with handle `h` fires. */
    method FirePhaseTimer(h: nat)
      requires Valid()
      modifies this
      ensures Valid() && State() == Fired(old(State()), h)
      ensures elapsedTime == old(elapsedTime) && interval == old(interval)
      ensures cycleCount == (if old(isActive) && old(timer) == Some(PendingTimer(h, Inhale, Duration(Exhale)))
                             then old(cycleCount) + 1 else old(cycleCount))
    {
      if timer.None? || timer.value.handle != h {
        return;
      }
      var next := timer.value.next;
      timer := None;
      if next == Inhale {
        cycleCount := cycleCount + 1;
      }
      EnterPhase(next);
    }

    /** The 1-second interval with handle `h` fires. */
    method Tick(h: nat)
      requires Valid()
      modifies this
      ensures Valid() && State() == Ticked(old(State()), h)
      ensures elapsedTime == if old(interval) == Some(h) then old(elapsedTime) + 1 else old(elapsedTime)
    {
      if interval == Some(h) {
        elapsedTime := elapsedTime + 1;
      }
    }

    /** The start branch of the effect. */
    method StartSession()
      modifies this
      ensures State() == Started(old(State()))
    {
      cycleCount := 0;
      elapsedTime := 0;
      EnterPhase(Inhale);
      var h := NewHandle();
      interval := Some(h);
    }

    /** The stop branch of the effect. */
    method StopSession()
      modifies this
      ensures State() == Stopped(old(State()))
      ensures timer == None && interval == None && tone == None
    {
      if timer.Some? {
        timer := None;
      }
      if interval.Some? {
        interval := None;
      }
      tone := None;
    }

    /** The start/pause effect, run after `isActive` or `phase` changed. */
    method RunEffect()
      modifies this
      ensures State() == EffectRun(old(State()))
    {
      if isActive && phase == Idle {
        StartSession();
      } else if !isActive {
        StopSession();
      }
    }

    /** `handleToggle`: pause when active, start when inactive. */
    method Toggle()
      requires Valid()
      modifies this
      ensures Valid() && State() == Toggled(old(State()))
      ensures isActive == !old(isActive)
      ensures old(isActive) ==> phase == Idle && timer == None && interval == None &&
                                cycleCount == old(cycleCount) && elapsedTime == old(elapsedTime)
      ensures !old(isActive) ==> phase == Inhale && cycleCount == 0 && elapsedTime == 0 &&
                                 timer == Some(PendingTimer(old(nextHandle), Hold, Duration(Inhale))) &&
                                 interval == Some(old(nextHandle) + 1)
    {
      if isActive {
        isActive := false;
        phase := Idle;
      } else {
        isActive := true;
      }
      RunEffect();
    }

    /** `handleReset`. */
    method Reset()
      requires Valid()
      modifies this
      ensures Valid() && State() == ResetState(old(State()))
      ensures phase == Idle && !isActive && cycleCount == 0 && elapsedTime == 0
      ensures timer == None && interval == None && tone == None
    {
      isActive := false;
      phase := Idle;
      cycleCount := 0;
      elapsedTime := 0;
      tone := None;
      if timer.Some? {
        timer := None;
      }
      if interval.Some? {
        interval := None;
      }
    }

    /** `getInstructionText`. */
    function Instruction(): (r: string)
      reads this
      ensures r == InstructionText(isActive, phase)
      ensures Valid() ==> r != Config(Idle).instruction
    {
      InstructionText(isActive, phase)
    }
  }

}
