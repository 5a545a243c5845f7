/**
 * The control panel's reset button. It is rendered only while the engine
 * is inactive and the phase is not IDLE. Pausing sets the phase back to
 * IDLE, so no reachable state meets that guard and `handleReset` cannot be
 * reached from the panel. The evidently intended condition offers the
 * button once a session has been paused with something to clear.
 */
module Controls {
  import opened Phases
  import opened Engine
  import opened Schedule

  /** The guard of the reset button, as written. */
  predicate ResetButtonShown(s: EngineState)
  {
    !s.isActive && s.phase != Idle
  }

  /** As written: from the mount state, no run of events ever shows the reset button. */
  lemma ResetButtonNeverShown(es: seq<Event>)
    ensures !ResetButtonShown(Run(Initial, es))
  {
    InitialIsValid();
    RunPreservesInvariant(Initial, es);
  }

  /** The evidently intended guard: inactive, with a count or a clock to clear. */
  predicate ResetOffered(s: EngineState)
  {
    !s.isActive && (s.cycleCount > 0 || s.elapsedTime > 0)
  }

  /**
   * With the intended guard, pausing a session that has run for at least
   * a second offers reset, and pressing it clears the counters and
   * withdraws the offer.
   */
  lemma PauseOffersReset(s: EngineState)
    requires Invariant(s) && s.isActive && s.elapsedTime > 0
    ensures var paused := Toggled(s);
      ResetOffered(paused) &&
      ResetState(paused).cycleCount == 0 && ResetState(paused).elapsedTime == 0 &&
      !ResetOffered(ResetState(paused)) && Invariant(ResetState(paused))
  {
    PauseFreezes(s);
  }

}
