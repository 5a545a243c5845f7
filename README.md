# 4-7-8 breathing guide: the cycle engine in Dafny

This project models the core of the 4-7-8 breathing guide, a single-page React app. The engine is meant to cycle through INHALE (4 s), HOLD (7 s) and EXHALE (8 s), count each completed cycle, and run a 1-second session clock; as written, the start/pause effect's cleanup stops it in INHALE right after a start (see "## Findings"). The user starts and pauses it with a toggle, and a reset puts everything back to idle. The project also models the phase configuration table, the `MM:SS` clock formatter and the instruction text shown under the orb.

Files:

- `phases.dfy` (module `Phases`): `BreathingPhase` and `PhaseConfig`, the constant table `PHASE_CONFIGS` (`PhaseConfigs`), `TOTAL_CYCLE_DURATION`, and the successor relation that the three step callbacks form. The table is a Dafny `const`, so nothing can change it after start-up, just as nothing mutates the exported constant.
- `time_format.dfy` (module `TimeFormat`): `formatTime`, built from the JavaScript operations it uses (`Math.floor`, the truncating `%`, integer `toString` and `padStart`). `ParseTime` is its inverse on non-negative totals.
- `engine.dfy` (module `Engine`): the engine state `{phase, isActive, cycleCount, elapsedTime}` and its two timer slots (`timerRef`, `intervalRef`).
  - Each transition is first a function on `EngineState`: the guarded step callbacks `inhale`/`hold`/`exhale`, a timer firing, a clock tick, the start and stop branches of the effect, `handleToggle` and `handleReset`.
  - The class `CycleEngine` performs the same transitions in place. `FirePhaseTimer`, `Tick`, `Toggle` and `Reset`, the entry points, keep the reachable-state invariant `Valid()` and are proved equal to `Fired`, `Ticked`, `Toggled` and `ResetState`. `EnterPhase`, `StartSession`, `StopSession` and `RunEffect` are internal steps, run from states that are not yet reachable ones, and are proved equal to `Entered`, `Started`, `Stopped` and `EffectRun`. `NewHandle` allocates the next timer handle.
- `schedule.dfy` (module `Schedule`): runs of events, with these properties:
  - the invariant holds over any run;
  - the counters never decrease;
  - an inactive engine ignores every timer delivery;
  - the intended timed schedule holds: HOLD at 4000 ms, EXHALE at 11000 ms, INHALE again at 19000 ms with one cycle counted, and `k` cycles after `k * 19000` ms.
- `effect_cleanup.dfy` (module `EffectCleanup`): how React re-runs the start/pause effect and its cleanup. See "## Findings".
- `controls.dfy` (module `Controls`): the guard of the control panel's reset button. See "## Findings".
- `options.dfy` (module `Options`): an `Option` datatype.

Timers are explicit events:

- Setting a timer allocates a positive handle, as `window.setTimeout` and `window.setInterval` return positive ids. The `if (timerRef.current)` truthiness checks rely on those ids being positive.
- The pending phase timer records the step it will run and its delay, taken from the table.
- A timer fires by its handle. A handle that is no longer in its slot, because it was cleared or has already fired, fires to no effect. This is how the model shows that a late timer cannot restart a stopped cycle. The `if (!isActive) return;` guard of each step is modelled as well.

`Engine` and `Schedule` model the timers as living until they fire or are cleared by a pause or a reset, which is the evidently intended lifetime. The code as written also clears them on every phase change; `EffectCleanup` models that and shows the resulting stall. Apart from that, the model follows the code:

- While inactive the phase is always IDLE, because pause sets it. So every toggle from inactive restarts the session: it zeroes `cycleCount` and `elapsedTime` and begins with INHALE. A "pause" freezes the counters only until the next start; there is no resume.
- Exhale's timer callback increments `cycleCount` before it calls the guarded `inhale` step. `Engine.Fired` keeps that order. In a reachable state no phase timer is pending while inactive, so the order cannot be observed.
- Stale timers are excluded by clearing them (`clearTimeout`/`clearInterval`) and by the `isActive` guard, not by a generation counter. The handle check in the model is what clearing means: a cleared timer never fires.

## Model

| member | source | states |
|---|---|---|
| `Phases.TableIsTotal` | constants.ts:3-28 | every one of the four phases has a row in the table |
| `Phases.Config` | constants.ts:3-28 | the lookup `PHASE_CONFIGS[p]` is defined for every phase, and only IDLE has duration 0, so every phase timer waits a positive delay |
| `Phases.RowsAreComplete` | constants.ts:3-28 | each row has a non-empty label, instruction and colour, and a duration of at most 8000 ms |
| `Phases.DurationsAreFixed` | constants.ts:4-27 | IDLE lasts 0 ms, INHALE 4000, HOLD 7000, EXHALE 8000 |
| `Phases.TotalCycleIs19Seconds` | constants.ts:30-33 | TOTAL_CYCLE_DURATION is the sum of the INHALE, HOLD and EXHALE durations, 19000 ms |
| `Phases.Successor` | 4-7-8-breathing-guide/App.tsx:35-57 | the step each phase's timer runs is never the phase itself, and it is INHALE exactly for EXHALE's timer |
| `Phases.SuccessorIsThreeCycle` | 4-7-8-breathing-guide/App.tsx:30-59 | the steps chain INHALE to HOLD to EXHALE to INHALE: applied three times the successor returns to the start, and never after two |
| `Phases.CycleDelaysSum` | constants.ts:30-33 | the three timers of any one cycle add up to TOTAL_CYCLE_DURATION |
| `TimeFormat.NatToDecimal` | 4-7-8-breathing-guide/App.tsx:126 | `toString` of a non-negative integer is a non-empty string of decimal digits, with no leading zero except for 0 itself |
| `TimeFormat.IntToString` | 4-7-8-breathing-guide/App.tsx:126 | `toString` of an integer is non-empty and starts with '-' exactly when the integer is negative (the digits after it are `NatToDecimal`'s) |
| `TimeFormat.JsRemainder` | 4-7-8-breathing-guide/App.tsx:125 | JavaScript's `%` by a positive divisor: the result takes the dividend's sign, is smaller than the divisor in magnitude, and pairs with division rounded toward zero |
| `TimeFormat.PadStart` | 4-7-8-breathing-guide/App.tsx:126 | `padStart` yields max(width, length) characters: fill characters, then the original string |
| `TimeFormat.SplitMinutes` | 4-7-8-breathing-guide/App.tsx:124-125 | for a total s >= 0: mins >= 0, 0 <= secs < 60 and mins * 60 + secs == s |
| `TimeFormat.DecimalRoundTrip` | 4-7-8-breathing-guide/App.tsx:126 | the digits written by `toString` read back as the number |
| `TimeFormat.PaddedRoundTrip` | 4-7-8-breathing-guide/App.tsx:126 | a zero-padded field is at least two digits and reads back as the number |
| `TimeFormat.FieldsReadBack` | 4-7-8-breathing-guide/App.tsx:124-126 | for s >= 0, both padded fields are digit strings of at least two characters; the seconds field has exactly two and reads below 60; minutes * 60 + seconds reads back as s |
| `TimeFormat.FormatTimeShape` | 4-7-8-breathing-guide/App.tsx:123-127 | for s >= 0: at least two minute digits, ':' and exactly two second digits; exactly 5 characters when s < 6000 |
| `TimeFormat.FormatParseRoundTrip` | 4-7-8-breathing-guide/App.tsx:123-127 | for s >= 0, reading the formatted string back gives s: formatting loses nothing |
| `TimeFormat.NegativeTotalExample` | 4-7-8-breathing-guide/App.tsx:124-126 | a negative total keeps JavaScript's signs: -1 formats as "-1:-1" |
| `Engine.Entered` | 4-7-8-breathing-guide/App.tsx:30-59 | a step keeps a reachable state reachable; it never touches isActive, the counters or the interval; while active it enters the phase, requests its tone and sets a timer with a fresh handle |
| `Engine.Fired` | 4-7-8-breathing-guide/App.tsx:35-58 | a timer delivery keeps a reachable state reachable, leaves isActive, elapsedTime and the interval alone, and adds at most one cycle |
| `Engine.Ticked` | 4-7-8-breathing-guide/App.tsx:76-78 | a tick keeps a reachable state reachable and changes nothing but elapsedTime, which grows by at most 1 |
| `Engine.Started` | 4-7-8-breathing-guide/App.tsx:69-78 | the start branch zeroes both counters and sets the interval; run while active it reaches a reachable state in INHALE |
| `Engine.Stopped` | 4-7-8-breathing-guide/App.tsx:79-90 | the stop branch keeps the phase, isActive and both counters; run while inactive and idle it reaches a reachable state |
| `Engine.EffectRun` | 4-7-8-breathing-guide/App.tsx:68-90 | the effect never changes isActive; on a reachable state it changes nothing; run with the phase IDLE it reaches a reachable state |
| `Engine.ToggleSetters` | 4-7-8-breathing-guide/App.tsx:98-105 | `handleToggle`'s setters flip isActive, keep both counters and, from a reachable state, leave the phase IDLE |
| `Engine.Toggled` | 4-7-8-breathing-guide/App.tsx:98-105 | a toggle from a reachable state flips isActive and reaches a reachable state |
| `Engine.ResetState` | 4-7-8-breathing-guide/App.tsx:107-115 | reset always gives IDLE, inactive and both counters 0, in a reachable state |
| `Engine.InstructionText` | 4-7-8-breathing-guide/App.tsx:118-121 | the text is never empty, and it is the IDLE row's instruction only when active in IDLE |
| `Engine.InitialIsValid` | 4-7-8-breathing-guide/App.tsx:10-19 | the mount state (IDLE, inactive, 0, 0, no timers) is a reachable state |
| `Engine.ResetFromAnyState` | 4-7-8-breathing-guide/App.tsx:107-115 | reset yields IDLE, inactive, cycleCount 0, elapsedTime 0, no tone and no pending timers |
| `Engine.ResetIdempotent` | 4-7-8-breathing-guide/App.tsx:107-115 | resetting twice is the same as resetting once |
| `Engine.StartFromIdle` | 4-7-8-breathing-guide/App.tsx:68-78 | a toggle from inactive sets isActive, zeroes both counters, enters INHALE with its tone, and leaves the HOLD step pending after 4000 ms and the clock interval live |
| `Engine.PauseFreezes` | 4-7-8-breathing-guide/App.tsx:79-101 | a toggle while active clears isActive, sets IDLE, cancels both timers, stops the tone, and leaves cycleCount and elapsedTime unchanged |
| `Engine.InactiveStepIsNoOp` | 4-7-8-breathing-guide/App.tsx:31 | the `if (!isActive) return;` branch of `Entered`, stated on its own; `LateEventsAreNoOps` and `InactiveRunIsFrozen` build on it |
| `Engine.LateEventsAreNoOps` | 4-7-8-breathing-guide/App.tsx:79-90 | once inactive, any timer or tick delivery leaves the state unchanged |
| `Engine.StaleTimerIsNoOp` | 4-7-8-breathing-guide/App.tsx:81-84 | the no-match branch of `Fired`, stated on its own: a handle that is not the pending phase timer's has no effect |
| `Engine.FireAdvances` | 4-7-8-breathing-guide/App.tsx:30-59 | firing the pending timer enters the successor phase; the next timer waits that phase's configured duration; cycleCount grows by 1 exactly on EXHALE to INHALE; the clock is untouched |
| `Engine.TickAddsOneSecond` | 4-7-8-breathing-guide/App.tsx:76-78 | the two branches of `Ticked`, stated on their own; `RunTicks` lifts them to n ticks |
| `Engine.TickAndFireCommute` | 4-7-8-breathing-guide/App.tsx:35-78 | clock ticks and phase timers are independent: delivering them in either order gives the same state |
| `Engine.IdleInstructionNeverShown` | 4-7-8-breathing-guide/App.tsx:118-121 | in a reachable state the text is the current phase's instruction while active and never the IDLE row's instruction |
| `Engine.CycleEngine.Instruction` | 4-7-8-breathing-guide/App.tsx:118-121 | the object's text is `InstructionText` of its fields and, in a valid object, never the IDLE row's instruction |
| `Engine.CycleEngine.constructor` | 4-7-8-breathing-guide/App.tsx:10-19 | the object starts in the mount state, which satisfies the invariant |
| `Engine.CycleEngine.EnterPhase` | 4-7-8-breathing-guide/App.tsx:30-59 | the guarded step, in place; does nothing while inactive |
| `Engine.CycleEngine.FirePhaseTimer` | 4-7-8-breathing-guide/App.tsx:35-58 | the timer firing, in place; keeps the invariant; leaves the clock alone; adds one cycle exactly when the exhale timer fires while active |
| `Engine.CycleEngine.Tick` | 4-7-8-breathing-guide/App.tsx:76-78 | the interval callback, in place; adds one second exactly when the handle is the live interval |
| `Engine.CycleEngine.StartSession` | 4-7-8-breathing-guide/App.tsx:69-78 | the start branch of the effect, in place |
| `Engine.CycleEngine.StopSession` | 4-7-8-breathing-guide/App.tsx:79-90 | the stop branch of the effect: both timer slots cleared, tone stopped |
| `Engine.CycleEngine.RunEffect` | 4-7-8-breathing-guide/App.tsx:68-90 | the effect's three-way branch on isActive and phase, in place |
| `Engine.CycleEngine.Toggle` | 4-7-8-breathing-guide/App.tsx:98-105 | flips isActive and keeps the invariant. Pausing leaves IDLE with no timers and the counters unchanged. Starting gives INHALE with the counters zeroed, the HOLD step pending after the INHALE duration, and the interval on the next handle |
| `Engine.CycleEngine.Reset` | 4-7-8-breathing-guide/App.tsx:107-115 | gives IDLE, inactive, both counters 0, no tone and no timers, and keeps the invariant |
| `Schedule.ApplyPreservesInvariant` | 4-7-8-breathing-guide/App.tsx:29-115 | every event (timer, tick, toggle, reset) keeps the state reachable |
| `Schedule.RunPreservesInvariant` | 4-7-8-breathing-guide/App.tsx:29-115 | any sequence of events keeps the state reachable |
| `Schedule.CountersNeverDecrease` | 4-7-8-breathing-guide/App.tsx:55-57 | without toggle or reset, isActive is unchanged and neither cycleCount nor elapsedTime decreases |
| `Schedule.InactiveRunIsFrozen` | 4-7-8-breathing-guide/App.tsx:79-90 | after deactivation no sequence of timer deliveries changes anything |
| `Schedule.RunTicks` | 4-7-8-breathing-guide/App.tsx:76-78 | n ticks of the live interval add exactly n seconds |
| `Schedule.OneCycle` | 4-7-8-breathing-guide/App.tsx:30-59 | from the start of an INHALE, three timers later (19000 ms) the engine is inhaling again with one more cycle |
| `Schedule.FullCycles` | 4-7-8-breathing-guide/App.tsx:30-59 | from the start of an INHALE, after 3k timers (k * 19000 ms) the engine is inhaling with k more cycles |
| `Schedule.EndToEndSchedule` | 4-7-8-breathing-guide/App.tsx:30-78 | after a start: HOLD at 4000 ms, EXHALE at 11000 ms, INHALE at 19000 ms, cycleCount 0 before and 1 at that boundary |
| `Schedule.FirstCycleWithClock` | 4-7-8-breathing-guide/App.tsx:68-78 | from any inactive state: start, then ticks and phase timers in time order; at 19 s the engine is inhaling with cycleCount 1 and elapsedTime 19 |
| `Schedule.EndToEndWithClock` | 4-7-8-breathing-guide/App.tsx:68-78 | with the clock ticking in time order: at 19 s the engine is inhaling, cycleCount 1, elapsedTime 19 |
| `Schedule.PauseThenLateTimers` | 4-7-8-breathing-guide/App.tsx:98-101 | pause, then any timer deliveries: IDLE, inactive, counters as they were at the pause |
| `EffectCleanup.StartStallsAsWritten` | 4-7-8-breathing-guide/App.tsx:92-95 | as written, a start leaves INHALE with no phase timer and no interval, and no timer delivery moves it on |
| `EffectCleanup.ToggleIntendedIsEngine` | 4-7-8-breathing-guide/App.tsx:68-96 | with the cleanup kept for unmounting, toggle plus the commits it causes is exactly `Engine.Toggled` |
| `EffectCleanup.StartFromMount` | 4-7-8-breathing-guide/App.tsx:92-96 | from the mount state: as written no timer is pending after a start; as intended the HOLD step is pending after 4000 ms |
| `Controls.ResetButtonNeverShown` | components/ControlPanel.tsx:37 | as written, no run of events from the mount state ever shows the reset button: inactive always means IDLE |
| `Controls.PauseOffersReset` | components/ControlPanel.tsx:37 | with the intended guard, pausing a session that has run for a second offers reset, and reset clears the counters and withdraws the offer |

## Left out

- The tone generator (`useBreathingSound.ts`) is not part of this model. It calls Web Audio objects with floating-point frequency and gain ramps. The engine keeps only `tone`, the phase whose tone was last requested, or none after `stopSound`. An unavailable audio device changes nothing in the model, as in the source.
- `BreathingOrb.tsx`, the JSX render tree and `ControlPanel.tsx` apart from the reset button's guard are not part of this model. They display the state and do not change it.
- Wall-clock time is not modelled. Timers are events that the caller delivers, so the model cannot show drift or how long a tick actually takes. `Schedule.Elapse` sums the configured delays to give the time at which each phase is entered.
- React's scheduling is not modelled in general: render batching, the stale-closure capture through `cycleRef`, and unmount. `Engine.Toggled` runs the effect once after `handleToggle`. `EffectCleanup` models the effect's re-runs and cleanup only for the toggle.
- `Engine` and `Schedule` leave out the run of the effect's cleanup on phase changes (App.tsx:92-95) and model the intended timer lifetime; `EffectCleanup` models the code as written, where a start stalls in INHALE.
- The `ResetPressed` event of `Schedule` may be delivered in any state, but the reset button is never rendered in a reachable state (see "## Findings"), so the model allows more resets than the panel does.
- JavaScript numbers are doubles, and the model uses unbounded integers. `t + 1` on `elapsedTime` stops changing at 2^53 and `toString` switches to exponent form at 1e21; neither is reachable in a session (2^53 seconds is about 285 million years).
- After `handleReset` the model does not re-run the effect, because that run would find nothing left to clear. The source also clears the timers without setting the refs to `null`, and the model represents a cleared timer as an empty slot.
- `formatTime` is modelled on integers only. `elapsedTime` is always a non-negative integer, so fractional, infinite and NaN inputs are not modelled.
- Strings are the source's literals, compared only for equality. There is no localisation or rendering.

## Findings

| source | as written | input that shows it | evidently intended | confidence | as-written member | corrected member |
|---|---|---|---|---|---|---|
| 4-7-8-breathing-guide/App.tsx:92-96 | The start/pause effect returns a cleanup that clears `timerRef` and `intervalRef`. The effect depends on `phase`, so React runs this cleanup on every phase change, including IDLE to INHALE right after a start. It cancels the pending HOLD timer and the clock interval, and the re-run effect (active, INHALE) does neither branch. | Mount, press start: the engine is active in INHALE with no timer pending, so HOLD is never reached and the clock stays at 00:00 | The timers survive phase changes while the component is mounted, and the cycle proceeds INHALE, HOLD, EXHALE | medium, not executed (relies on React re-running an effect's cleanup whenever a dependency changes) | `EffectCleanup.StartStallsAsWritten` | `EffectCleanup.ToggleIntendedIsEngine` |
| components/ControlPanel.tsx:37 | The reset button is rendered only when `!isActive && phase !== IDLE`. Pausing sets the phase to IDLE, so the guard is false in every reachable state and `handleReset` cannot be reached from the panel. | Mount, start, pause at any point: the state is inactive and IDLE, so the button never appears, although with the intended timers the counters are not zero then | The button appears once a session has been paused with something to clear | medium, not executed | `Controls.ResetButtonNeverShown` | `Controls.PauseOffersReset` |
