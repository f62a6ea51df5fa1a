/** The simulation settings record (StockSimulationConfig) and its defaults. */
module Config {

  /** A C# `int`. */
  type Int32 = x: int | -0x8000_0000 <= x < 0x8000_0000

  /** The five settings. The record itself enforces no relation between
      them: an interval of zero or less, or a minimum change above the
      maximum, are representable and are handled (or not) by the users. */
  datatype SimulationConfig = SimulationConfig(
    updateIntervalSeconds: Int32,
    maxPriceChangePercent: real,
    minPriceChangePercent: real,
    minPrice: real,
    isEnabled: bool)

  /** The values the record is initialised with when no setting overrides them. */
  function Default(): (d: SimulationConfig)
    ensures d.updateIntervalSeconds > 0 && TimerIntervalAccepted(d.updateIntervalSeconds)
    ensures d.minPriceChangePercent <= d.maxPriceChangePercent && d.minPrice > 0.0
    ensures d.isEnabled
  {
    SimulationConfig(3, 5.0, -5.0, 0.01, true)
  }

  /** The largest period, in milliseconds, that System.Threading.Timer accepts. */
  const MaxTimerMs: int := 4294967294

  /** Whether an interval in seconds, turned into a TimeSpan, is accepted as a
      timer period: the timer refuses negative periods and periods above
      MaxTimerMs milliseconds by throwing. */
  predicate TimerIntervalAccepted(seconds: int) {
    0 <= seconds * 1000 <= MaxTimerMs
  }

  /** The defaults: a positive 3-second interval that the timer accepts,
      bounds -5 <= 5, a strictly positive floor of 0.01, and enabled. */
  lemma DefaultsAreSane()
    ensures Default().updateIntervalSeconds == 3 && Default().updateIntervalSeconds > 0
    ensures TimerIntervalAccepted(Default().updateIntervalSeconds)
    ensures Default().minPriceChangePercent == -5.0 && Default().maxPriceChangePercent == 5.0
    ensures Default().minPriceChangePercent <= Default().maxPriceChangePercent
    ensures Default().minPrice == 0.01 && Default().minPrice > 0.0
    ensures Default().isEnabled
  {
  }

  /** Nothing in the record ties its fields together: a record with a
      negative interval and inverted bounds is a value of the type. */
  lemma RecordEnforcesNoConstraint()
    ensures exists c: SimulationConfig ::
      c.updateIntervalSeconds <= 0 && c.minPriceChangePercent > c.maxPriceChangePercent
  {
    var c := SimulationConfig(-1, -5.0, 5.0, 0.01, true);
    assert c.updateIntervalSeconds <= 0 && c.minPriceChangePercent > c.maxPriceChangePercent;
  }
}
