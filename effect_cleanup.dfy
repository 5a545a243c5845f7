/**
 * The start/pause effect as React runs it. After every commit in which
 * `isActive` or `phase` changed, React first runs the cleanup returned by
 * the effect's previous run (App.tsx lines 92-95 clear the phase timeout
 * and the clock interval) and then the effect again.
 *
 * As written, this cleanup also runs on the commit that follows a start,
 * because the start moved `phase` from IDLE to INHALE: it cancels the
 * timer that would enter HOLD and the clock interval, and the re-run
 * effect does neither branch. `StartStallsAsWritten` shows the result:
 * the engine sits in INHALE with nothing scheduled. The evidently
 * intended behaviour keeps the timers across phase changes (the cleanup
 * is for unmounting); `ToggleIntendedIsEngine` shows that it is exactly
 * `Engine.Toggled`, which the rest of the model uses.
 */
module EffectCleanup {
  import opened Options
  import opened Phases
  import opened Engine
  import opened Schedule

  /** The effect's dependencies that change at run time (`startCycle` and `stopSound` are stable). */
  datatype EffectDeps = EffectDeps(isActive: bool, phase: Phase)

  function Deps(s: EngineState): EffectDeps
  {
    EffectDeps(s.isActive, s.phase)
  }

  /** The cleanup of lines 92-95: both timers cancelled; a cancelled timer never fires. */
  function Cleanup(s: EngineState): EngineState
  {
    s.(timer := None, interval := None)
  }

  /** One commit as written: `last` holds the dependencies of the effect's previous run. */
  function CommitAsWritten(last: EffectDeps, s: EngineState): EngineState
  {
    if Deps(s) == last then s else EffectRun(Cleanup(s))
  }

  /** One commit as intended: the effect re-runs, the pending timers stay. */
  function CommitIntended(last: EffectDeps, s: EngineState): EngineState
  {
    if Deps(s) == last then s else EffectRun(s)
  }

  /** `handleToggle` and the two commits that follow it, as written. */
  function ToggleAsWritten(s: EngineState): EngineState
  {
    var s1 := ToggleSetters(s);
    CommitAsWritten(Deps(s1), CommitAsWritten(Deps(s), s1))
  }

  /** `handleToggle` and the two commits that follow it, as intended. */
  function ToggleIntended(s: EngineState): EngineState
  {
    var s1 := ToggleSetters(s);
    CommitIntended(Deps(s1), CommitIntended(Deps(s), s1))
  }

  /**
   * As written, a start leaves the engine active and inhaling with no
   * phase timer and no clock interval, and no timer delivery ever moves it
   * on: the cycle never reaches HOLD and the clock stays at 00:00. The
   * second commit is the last one, since it leaves `phase` and `isActive`
   * as they were.
   */
  lemma StartStallsAsWritten(s: EngineState, es: seq<Event>)
    requires Invariant(s) && !s.isActive
    requires forall i :: 0 <= i < |es| ==> IsTimerEvent(es[i])
    ensures var r := ToggleAsWritten(s);
      r.isActive && r.phase == Inhale && r.cycleCount == 0 && r.elapsedTime == 0 &&
      r.timer == None && r.interval == None &&
      Deps(r) == Deps(CommitAsWritten(Deps(s), ToggleSetters(s))) &&
      Run(r, es) == r
  {
  }

  lemma {:induction false} StalledRunIsFrozen(s: EngineState, es: seq<Event>)
    requires s.timer == None && s.interval == None
    requires forall i :: 0 <= i < |es| ==> IsTimerEvent(es[i])
    ensures Run(s, es) == s
    decreases |es|
  {
    if es != [] {
      StalledRunIsFrozen(s, es[1..]);
    }
  }

  /**
   * As intended, toggling is exactly the engine's `Toggled`: a start keeps
   * its timers through the phase change it causes, and a pause settles after
   * one commit.
   */
  lemma ToggleIntendedIsEngine(s: EngineState)
    requires Invariant(s)
    ensures ToggleIntended(s) == Toggled(s)
    ensures Invariant(ToggleIntended(s))
  {
  }

  /** From the mounted state: as written no timer is left after the start; as intended the hold step is pending. */
  lemma StartFromMount()
    ensures ToggleAsWritten(Initial).timer == None
    ensures ToggleIntended(Initial).timer == Some(PendingTimer(1, Hold, 4000))
  {
  }

}
