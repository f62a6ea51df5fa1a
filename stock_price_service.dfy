/** The price simulation service: the start/stop control state, the stock
    table it updates, and the update cycle the timer triggers. The timer's
    firing is not modelled; a tick is a call of UpdatePrices. */
module PriceService {
  import opened Wrappers
  import opened Config
  import opened Pricing
  import opened Control
  import opened PriceCycle

  class StockPriceService {
    /** The settings captured once when the service is built. */
    const config: SimulationConfig
    var running: bool
    var timer: Option<Timer>
    /** The Stocks table, as last saved. */
    var stocks: seq<Stock>
    /** Every list broadcast to the "StockPrices" group, in order. */
    ghost var sent: seq<seq<StockDto>>
    /** How many timers the service has built. */
    ghost var timersCreated: nat

    function State(): State
      reads this
    {
      Control.State(running, timer)
    }

    /** The timer field only ever holds a timer built from `config`. */
    ghost predicate Valid()
      reads this
    {
      TimerMatches(State(), config)
    }

    constructor (config: SimulationConfig, stocks: seq<Stock>)
      ensures this.config == config && this.stocks == stocks
      ensures State() == Initial() && Consistent(State()) && Valid()
      ensures sent == [] && timersCreated == 0
    {
      this.config := config;
      this.stocks := stocks;
      running := false;
      timer := None;
      sent := [];
      timersCreated := 0;
    }

    method StartSimulation() returns (c: Completion)
      requires Valid()
      modifies this`running, this`timer, this`timersCreated
      ensures Valid()
      ensures State() == StartStep(old(State()), config).state
      ensures c == StartStep(old(State()), config).completion
      ensures timersCreated == old(timersCreated) +
        (if StartTakesEffect(old(State()), config) && c == Completed then 1 else 0)
      ensures StartCannotThrow(config) && old(Consistent(State())) ==> Consistent(State())
    {
      if running || !config.isEnabled {
        return Completed;
      }
      running := true;
      if !TimerIntervalAccepted(config.updateIntervalSeconds) {
        // the timer constructor throws; the flag is already set
        return Threw;
      }
      timer := Some(Timer(0, config.updateIntervalSeconds * 1000, false));
      timersCreated := timersCreated + 1;
      c := Completed;
    }

    method StopSimulation()
      requires Valid()
      modifies this`running, this`timer
      ensures Valid()
      ensures State() == StopStep(old(State()))
      ensures !running && Consistent(State())
    {
      running := false;
      if timer.Some? {
        timer := Some(timer.value.(disposed := true));
      }
    }

    method IsRunning() returns (b: bool)
      ensures b == running
    {
      b := running;
    }

    method Dispose()
      requires Valid()
      modifies this`timer
      ensures Valid()
      ensures State() == DisposeStep(old(State()))
      ensures !HasLiveTimer(State())
    {
      if timer.Some? {
        timer := Some(timer.value.(disposed := true));
      }
    }

    /** One tick. `samples[k]` is the random draw and `clock[k]` the clock
        reading for the k-th stock of the table; `saveSucceeds` and
        `sendSucceeds` say whether saving the table and broadcasting the
        list complete without an exception (either is caught and logged). */
    method UpdatePrices(samples: seq<real>, clock: seq<int>, saveSucceeds: bool, sendSucceeds: bool)
      requires |samples| == |stocks| && |clock| == |stocks|
      modifies this`stocks, this`sent
      ensures !old(running) ==> stocks == old(stocks) && sent == old(sent)
      ensures old(running) && saveSucceeds ==> stocks == Cycle(config, old(stocks), samples, clock)
      ensures old(running) && !saveSucceeds ==> stocks == old(stocks)
      ensures sent == if old(running) && saveSucceeds && sendSucceeds
                      then old(sent) + [Dtos(stocks)] else old(sent)
    {
      if !running {
        return;
      }
      var table := stocks;
      var list := table;
      var updated: seq<StockDto> := [];
      var i := 0;
      while i < |list|
        invariant 0 <= i <= |list| == |table|
        invariant stocks == table && sent == old(sent)
        invariant list[..i] == Cycle(config, table[..i], samples[..i], clock[..i])
        invariant list[i..] == table[i..]
        invariant updated == Dtos(list[..i])
      {
        var stock := list[i];
        stock := stock.(previousPrice := stock.currentPrice);
        stock := stock.(currentPrice := NextPrice(config, stock.currentPrice, samples[i]));
        stock := stock.(lastUpdated := clock[i]);
        CyclePrefix(config, table, samples, clock, i);
        list := list[i := stock];
        updated := updated + [ToDto(stock)];
        i := i + 1;
        assert list[..i] == list[..i-1] + [stock];
      }
      assert list == list[..i] && table == table[..i] && samples == samples[..i] && clock == clock[..i];
      assert updated == Dtos(list);
      if saveSucceeds {
        stocks := list;
        if sendSucceeds {
          sent := sent + [updated];
        }
      }
    }
  }
}
