/**
 * The breathing phases and the fixed phase configuration table
 * (the `BreathingPhase` enum and `PhaseConfig` record, and the
 * `PHASE_CONFIGS` / `TOTAL_CYCLE_DURATION` constants).
 */
module Phases {

  datatype Phase = Idle | Inhale | Hold | Exhale

  /** The three phases that have a step callback and a timer of their own. */
  type BreathPhase = p: Phase | p != Idle witness Inhale

  /** One row of the table (`label` is a Dafny keyword, hence `displayLabel`); `durationMs` is in milliseconds. */
  datatype PhaseConfig = PhaseConfig(displayLabel: string, durationMs: nat, instruction: string, color: string)

  /** The table, a constant record keyed by every phase; nothing ever updates it. */
  const PhaseConfigs: map<Phase, PhaseConfig> := map[
    Idle := PhaseConfig("準備開始", 0, "點擊開始按鈕", "bg-blue-400"),
    Inhale := PhaseConfig("吸氣", 4000, "用鼻子緩慢吸氣...", "bg-cyan-300"),
    Hold := PhaseConfig("憋氣", 7000, "保持氣息...", "bg-indigo-300"),
    Exhale := PhaseConfig("吐氣", 8000, "用嘴巴緩慢吐氣...", "bg-emerald-300")
  ]

  /** Every phase has a row: the table is total. */
  lemma TableIsTotal()
    ensures forall p: Phase :: p in PhaseConfigs
  {
    forall p: Phase ensures p in PhaseConfigs {
      match p
      case Idle =>
      case Inhale =>
      case Hold =>
      case Exhale =>
    }
  }

  /** Table lookup `PHASE_CONFIGS[p]`. */
  function Config(p: Phase): (r: PhaseConfig)
    ensures r.durationMs == 0 <==> p == Idle
  {
    TableIsTotal();
    PhaseConfigs[p]
  }

  function Duration(p: Phase): nat
  {
    Config(p).durationMs
  }

  /** One full inhale, hold and exhale, in milliseconds. */
  const TotalCycleDuration: nat := Duration(Inhale) + Duration(Hold) + Duration(Exhale)

  /** Every row carries a non-empty label, instruction and colour, and a duration. */
  lemma RowsAreComplete(p: Phase)
    ensures Config(p).displayLabel != [] && Config(p).instruction != [] && Config(p).color != []
    ensures Config(p).durationMs <= 8000
  {
  }

  /** The configured durations: 0, 4000, 7000 and 8000 ms. */
  lemma DurationsAreFixed()
    ensures Duration(Idle) == 0
    ensures Duration(Inhale) == 4000
    ensures Duration(Hold) == 7000
    ensures Duration(Exhale) == 8000
  {
  }

  /** The derived cycle length is the sum of the three breathing phases, 19000 ms. */
  lemma TotalCycleIs19Seconds()
    ensures TotalCycleDuration == Duration(Inhale) + Duration(Hold) + Duration(Exhale) == 19000
  {
  }

  /**
   * The phase whose callback the timer of phase `p` runs: inhale's timer
   * runs hold, hold's runs exhale, exhale's runs inhale.
   */
  function Successor(p: BreathPhase): (r: BreathPhase)
    ensures r != p
    ensures r == Inhale <==> p == Exhale
  {
    match p
    case Inhale => Hold
    case Hold => Exhale
    case Exhale => Inhale
  }

  /** The successor relation is a single cycle of length three through every breathing phase. */
  lemma SuccessorIsThreeCycle(p: BreathPhase)
    ensures Successor(Successor(p)) != p
    ensures Successor(Successor(Successor(p))) == p
  {
  }

  /** The three timers of one cycle, started at any phase, add up to TotalCycleDuration. */
  lemma CycleDelaysSum(p: BreathPhase)
    ensures Duration(p) + Duration(Successor(p)) + Duration(Successor(Successor(p))) == TotalCycleDuration
  {
  }

}
