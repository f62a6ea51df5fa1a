/** The start/stop control state of the price simulation: the running flag
    and the timer field of the price service, and the transitions that
    StartSimulation, StopSimulation and Dispose make on them. */
module Control {
  import opened Wrappers
  import opened Config

  /** A System.Threading.Timer as the service creates it: fire after
      `dueTimeMs`, then every `periodMs`, until disposed. */
  datatype Timer = Timer(dueTimeMs: int, periodMs: int, disposed: bool)

  /** The service's `_isRunning` flag and `_timer` field. */
  datatype State = State(running: bool, timer: Option<Timer>)

  /** Whether a call ran to its end or left by an exception. */
  datatype Completion = Completed | Threw

  datatype Step = Step(state: State, completion: Completion)

  /** No timer and not running: the state of a new service. */
  function Initial(): State {
    State(false, None)
  }

  /** A timer exists and has not been disposed. */
  predicate HasLiveTimer(s: State) {
    s.timer.Some? && !s.timer.value.disposed
  }

  /** The consistency the service is meant to keep: running exactly when a
      live timer exists. */
  predicate Consistent(s: State) {
    s.running <==> HasLiveTimer(s)
  }

  /** Every timer the service holds was created by a start under `cfg`:
      due immediately, with the configured interval as period. */
  predicate TimerMatches(s: State, cfg: SimulationConfig) {
    s.timer.Some? ==>
      s.timer.value.dueTimeMs == 0 && s.timer.value.periodMs == cfg.updateIntervalSeconds * 1000
  }

  /** Start has an effect: not already running and enabled. */
  predicate StartTakesEffect(s: State, cfg: SimulationConfig) {
    !s.running && cfg.isEnabled
  }

  /** StartSimulation: nothing when already running or disabled; otherwise
      the flag is set first and then a timer is built with due time zero and
      the configured period. Building the timer throws when the period is
      refused, and then the flag stays set and the old timer field stays. */
  function StartStep(s: State, cfg: SimulationConfig): (r: Step)
    ensures !StartTakesEffect(s, cfg) ==> r == Step(s, Completed)
    ensures r.state.running <==> s.running || cfg.isEnabled
    ensures r.completion == Threw <==> StartTakesEffect(s, cfg) && !TimerIntervalAccepted(cfg.updateIntervalSeconds)
    ensures r.completion == Threw ==> r.state.timer == s.timer
    ensures StartTakesEffect(s, cfg) && r.completion == Completed ==>
      r.state.timer == Some(Timer(0, cfg.updateIntervalSeconds * 1000, false))
  {
    if !StartTakesEffect(s, cfg) then Step(s, Completed)
    else if !TimerIntervalAccepted(cfg.updateIntervalSeconds) then Step(State(true, s.timer), Threw)
    else Step(State(true, Some(Timer(0, cfg.updateIntervalSeconds * 1000, false))), Completed)
  }

  /** StopSimulation: clear the flag and dispose the timer, if there is one. */
  function StopStep(s: State): (r: State)
    ensures !r.running && !HasLiveTimer(r)
    ensures r.timer.Some? <==> s.timer.Some?
  {
    State(false, if s.timer.Some? then Some(s.timer.value.(disposed := true)) else None)
  }

  /** Dispose: dispose the timer, if there is one; the flag is left alone. */
  function DisposeStep(s: State): (r: State)
    ensures r.running == s.running && !HasLiveTimer(r)
    ensures r.timer.Some? <==> s.timer.Some?
  {
    State(s.running, if s.timer.Some? then Some(s.timer.value.(disposed := true)) else None)
  }

  /** Start cannot reach the throwing path under `cfg`. */
  predicate StartCannotThrow(cfg: SimulationConfig) {
    !cfg.isEnabled || TimerIntervalAccepted(cfg.updateIntervalSeconds)
  }

  /** The control calls a caller can make one after the other. */
  datatype Call = Start | Stop

  function Apply(s: State, cfg: SimulationConfig, c: Call): State {
    match c
    case Start => StartStep(s, cfg).state
    case Stop => StopStep(s)
  }

  /** The state after a sequence of calls, in order. */
  function Run(s: State, cfg: SimulationConfig, calls: seq<Call>): State
    decreases |calls|
  {
    if calls == [] then s else Run(Apply(s, cfg, calls[0]), cfg, calls[1..])
  }

  /** Start changes nothing when the engine is running or disabled. */
  lemma StartNoOp(s: State, cfg: SimulationConfig)
    requires s.running || !cfg.isEnabled
    ensures StartStep(s, cfg) == Step(s, Completed)
  {
  }

  /** From stopped and enabled, start sets the flag and installs exactly one
      new live timer, due at once and firing every interval; it throws only
      when the timer refuses the interval. */
  lemma StartFromStopped(s: State, cfg: SimulationConfig)
    requires !s.running && cfg.isEnabled
    ensures StartStep(s, cfg).state.running
    ensures StartStep(s, cfg).completion == Threw <==> !TimerIntervalAccepted(cfg.updateIntervalSeconds)
    ensures TimerIntervalAccepted(cfg.updateIntervalSeconds) ==>
      StartStep(s, cfg).state.timer == Some(Timer(0, cfg.updateIntervalSeconds * 1000, false))
  {
  }

  /** Stop leaves the engine stopped with no live timer, whatever the state,
      and stopping twice is stopping once. */
  lemma StopStops(s: State)
    ensures !StopStep(s).running && !HasLiveTimer(StopStep(s))
    ensures StopStep(StopStep(s)) == StopStep(s)
  {
  }

  /** Starting twice is starting once. */
  lemma StartTwiceIsStartOnce(s: State, cfg: SimulationConfig)
    ensures StartStep(StartStep(s, cfg).state, cfg).state == StartStep(s, cfg).state
  {
  }

  /** Stop then start leaves the engine running exactly when it is enabled,
      whatever the state before (even when the start throws). */
  lemma RestartRunsIffEnabled(s: State, cfg: SimulationConfig)
    ensures StartStep(StopStep(s), cfg).state.running == cfg.isEnabled
  {
  }

  /** Each call keeps the state consistent and its timer matching the
      configuration, provided start cannot throw. */
  lemma ApplyKeepsConsistent(s: State, cfg: SimulationConfig, c: Call)
    requires Consistent(s) && TimerMatches(s, cfg)
    requires StartCannotThrow(cfg)
    ensures Consistent(Apply(s, cfg, c)) && TimerMatches(Apply(s, cfg, c), cfg)
  {
  }

  /** Under any sequence of sequential start and stop calls from the initial
      state, a live timer exists exactly when the engine is running. */
  lemma {:induction false} RunKeepsConsistent(s: State, cfg: SimulationConfig, calls: seq<Call>)
    requires Consistent(s) && TimerMatches(s, cfg)
    requires StartCannotThrow(cfg)
    ensures Consistent(Run(s, cfg, calls)) && TimerMatches(Run(s, cfg, calls), cfg)
    decreases |calls|
  {
    if calls != [] {
      ApplyKeepsConsistent(s, cfg, calls[0]);
      RunKeepsConsistent(Apply(s, cfg, calls[0]), cfg, calls[1..]);
    }
  }

  lemma FromInitial(cfg: SimulationConfig, calls: seq<Call>)
    requires StartCannotThrow(cfg)
    ensures Consistent(Run(Initial(), cfg, calls))
  {
    RunKeepsConsistent(Initial(), cfg, calls);
  }

  /** When the timer refuses the interval, a start from the initial state
      throws and leaves the flag set with no timer at all: the engine then
      reports running, no ticks come, and every later start is a no-op until
      a stop. */
  lemma RefusedIntervalBreaksConsistency(cfg: SimulationConfig)
    requires cfg.isEnabled && !TimerIntervalAccepted(cfg.updateIntervalSeconds)
    ensures StartStep(Initial(), cfg) == Step(State(true, None), Threw)
    ensures !Consistent(StartStep(Initial(), cfg).state)
    ensures StartStep(StartStep(Initial(), cfg).state, cfg).state == State(true, None)
  {
  }

  /** Dispose leaves no live timer but keeps the flag, so after Dispose a
      running engine is no longer consistent. */
  lemma DisposeKeepsFlag(s: State)
    ensures !HasLiveTimer(DisposeStep(s)) && DisposeStep(s).running == s.running
    ensures s.running ==> !Consistent(DisposeStep(s))
  {
  }
}
