/** One update cycle over the stock table, as a specification: each stock
    gets its previous price saved, a new price from the price formula and a
    time stamp, and one broadcast record is made per stock. */
module PriceCycle {
  import opened Config
  import opened Pricing

  /** A row of the Stocks table; `lastUpdated` is a clock reading. */
  datatype Stock = Stock(
    id: int,
    symbol: string,
    name: string,
    currentPrice: real,
    previousPrice: real,
    lastUpdated: int)

  /** The record broadcast to subscribers for one stock. */
  datatype StockDto = StockDto(
    id: int,
    symbol: string,
    name: string,
    currentPrice: real,
    previousPrice: real,
    lastUpdated: int)

  function ToDto(s: Stock): StockDto {
    StockDto(s.id, s.symbol, s.name, s.currentPrice, s.previousPrice, s.lastUpdated)
  }

  /** The broadcast list for a list of updated stocks: one record per stock,
      in the same order, carrying the stock's fields. */
  function Dtos(stocks: seq<Stock>): (ds: seq<StockDto>)
    ensures |ds| == |stocks|
    ensures forall k :: 0 <= k < |stocks| ==> ds[k] == ToDto(stocks[k])
  {
    seq(|stocks|, k requires 0 <= k < |stocks| => ToDto(stocks[k]))
  }

  /** One stock after one cycle, for sample r and clock reading `now`. */
  function UpdateStock(cfg: SimulationConfig, s: Stock, r: real, now: int): (s': Stock)
    ensures s'.id == s.id && s'.symbol == s.symbol && s'.name == s.name
    ensures s'.previousPrice == s.currentPrice
    ensures s'.currentPrice == NextPrice(cfg, s.currentPrice, r) && s'.currentPrice >= cfg.minPrice
    ensures s'.lastUpdated == now
  {
    s.(previousPrice := s.currentPrice,
       currentPrice := NextPrice(cfg, s.currentPrice, r),
       lastUpdated := now)
  }

  /** The stock table after one cycle: the stocks are updated in table
      order, stock k with sample samples[k] and clock reading clock[k]. */
  function Cycle(cfg: SimulationConfig, stocks: seq<Stock>, samples: seq<real>, clock: seq<int>): (r: seq<Stock>)
    requires |samples| == |stocks| && |clock| == |stocks|
    ensures |r| == |stocks|
    ensures forall k :: 0 <= k < |r| ==> r[k].id == stocks[k].id && r[k].currentPrice >= cfg.minPrice
    decreases |stocks|
  {
    if stocks == [] then []
    else
      var n := |stocks| - 1;
      Cycle(cfg, stocks[..n], samples[..n], clock[..n]) + [UpdateStock(cfg, stocks[n], samples[n], clock[n])]
  }

  /** Stock k of the cycle's result is stock k updated with its own sample
      and clock reading. */
  lemma {:induction false} CycleAt(cfg: SimulationConfig, stocks: seq<Stock>, samples: seq<real>, clock: seq<int>, k: int)
    requires |samples| == |stocks| && |clock| == |stocks|
    requires 0 <= k < |stocks|
    ensures |Cycle(cfg, stocks, samples, clock)| == |stocks|
    ensures Cycle(cfg, stocks, samples, clock)[k] == UpdateStock(cfg, stocks[k], samples[k], clock[k])
    decreases |stocks|
  {
    var n := |stocks| - 1;
    if k < n {
      CycleAt(cfg, stocks[..n], samples[..n], clock[..n], k);
    }
  }

  /** After a cycle, in table order: every stock keeps its id, symbol and
      name, its previous price is its price from before the cycle, its
      price is at or above the floor and is the formula applied to the old
      price, and it carries its clock reading. */
  lemma {:induction false} CycleProperties(cfg: SimulationConfig, stocks: seq<Stock>, samples: seq<real>, clock: seq<int>)
    requires |samples| == |stocks| && |clock| == |stocks|
    ensures |Cycle(cfg, stocks, samples, clock)| == |stocks|
    ensures forall k :: 0 <= k < |stocks| ==>
      var s, s' := stocks[k], Cycle(cfg, stocks, samples, clock)[k];
      && s'.id == s.id && s'.symbol == s.symbol && s'.name == s.name
      && s'.previousPrice == s.currentPrice
      && s'.currentPrice >= cfg.minPrice
      && s'.currentPrice == NextPrice(cfg, s.currentPrice, samples[k])
      && s'.lastUpdated == clock[k]
  {
    forall k | 0 <= k < |stocks|
      ensures Cycle(cfg, stocks, samples, clock)[k] == UpdateStock(cfg, stocks[k], samples[k], clock[k])
    {
      CycleAt(cfg, stocks, samples, clock, k);
    }
  }

  /** A cycle over a prefix of the table is the prefix of the cycle: the
      stocks are updated one after the other, in table order. */
  lemma CyclePrefix(cfg: SimulationConfig, stocks: seq<Stock>, samples: seq<real>, clock: seq<int>, i: int)
    requires |samples| == |stocks| && |clock| == |stocks|
    requires 0 <= i < |stocks|
    ensures Cycle(cfg, stocks[..i+1], samples[..i+1], clock[..i+1])
         == Cycle(cfg, stocks[..i], samples[..i], clock[..i]) + [UpdateStock(cfg, stocks[i], samples[i], clock[i])]
  {
    assert stocks[..i+1][..i] == stocks[..i];
    assert samples[..i+1][..i] == samples[..i];
    assert clock[..i+1][..i] == clock[..i];
  }
}
