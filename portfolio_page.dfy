/** The portfolio page: live prices merged into the positions, the page's
    totals and per-position changes, and the buy/sell dialog. */
module PortfolioPage {
  import opened Wrappers
  import opened Positions
  import opened Quantity

  /** A number as JavaScript computes it: a division by zero gives an
      infinity or NaN rather than a value. */
  datatype JsNumber = Finite(value: real) | NonFinite

  /** `stocks.find(stock => stock.id === id)`. */
  function FindQuote(quotes: seq<Quote>, id: int): (r: Option<Quote>)
    ensures r.None? <==> forall j :: 0 <= j < |quotes| ==> quotes[j].id != id
    ensures r.Some? ==> r.value.id == id && r.value == quotes[FirstIndex(quotes, (q: Quote) => q.id == id)]
  {
    var k := FirstIndex(quotes, (q: Quote) => q.id == id);
    if k < |quotes| then Some(quotes[k]) else None
  }

  /** One position with the live prices of its stock, when the live list
      has that stock. */
  function MergeItem(item: Position, quotes: seq<Quote>): Position {
    match FindQuote(quotes, item.stockId)
    case Some(q) =>
      item.(stock := item.stock.(currentPrice := q.currentPrice,
                                 previousPrice := q.previousPrice,
                                 lastUpdated := q.lastUpdated))
    case None => item
  }

  /** Everything but the three live price fields is the same. */
  predicate SameButPrices(a: Position, b: Position) {
    && a.id == b.id && a.stockId == b.stockId && a.quantity == b.quantity
    && a.averagePrice == b.averagePrice
    && a.stock.id == b.stock.id && a.stock.symbol == b.stock.symbol && a.stock.name == b.stock.name
  }

  /** The map inside the live price effect: each position takes the prices
      of the first live stock with its stock id; positions without one are
      kept as they are. */
  function MergeLivePrices(portfolio: seq<Position>, quotes: seq<Quote>): (r: seq<Position>)
    ensures |r| == |portfolio|
    ensures forall k :: 0 <= k < |r| ==> SameButPrices(r[k], portfolio[k])
    ensures forall k :: 0 <= k < |r| ==>
      match FindQuote(quotes, portfolio[k].stockId)
      case Some(q) =>
        && r[k].stock.currentPrice == q.currentPrice
        && r[k].stock.previousPrice == q.previousPrice
        && r[k].stock.lastUpdated == q.lastUpdated
      case None => r[k] == portfolio[k]
  {
    seq(|portfolio|, k requires 0 <= k < |portfolio| => MergeItem(portfolio[k], quotes))
  }

  /** Merging the same live list again changes nothing. */
  lemma MergeIdempotent(portfolio: seq<Position>, quotes: seq<Quote>)
    ensures MergeLivePrices(MergeLivePrices(portfolio, quotes), quotes) == MergeLivePrices(portfolio, quotes)
  {
    var once := MergeLivePrices(portfolio, quotes);
    var twice := MergeLivePrices(once, quotes);
    forall k | 0 <= k < |once| ensures twice[k] == once[k] {
      assert once[k].stockId == portfolio[k].stockId;
    }
  }

  /** Live prices do not change what was invested. */
  lemma MergeKeepsInvested(portfolio: seq<Position>, quotes: seq<Quote>)
    ensures TotalInvested(MergeLivePrices(portfolio, quotes)) == TotalInvested(portfolio)
  {
    InvestedDependsOnCosts(MergeLivePrices(portfolio, quotes), portfolio);
  }

  /** `getItemChange`: gain or loss of one position, which is its value
      less what was paid for it. */
  function ItemChange(p: Position): (change: real)
    ensures change == ItemValue(p) - ItemInvested(p)
  {
    var c, a, q := p.stock.currentPrice, p.averagePrice, p.quantity as real;
    assert (c - a) * q == c * q - a * q;
    (c - a) * q
  }

  /** `getItemChangePercentage`: the gain relative to the average price, in
      percent; there is no guard, so an average price of 0 gives no number. */
  function ItemChangePercentage(p: Position): (r: JsNumber)
    ensures r.Finite? <==> p.averagePrice != 0.0
    ensures r.Finite? ==> r.value * p.averagePrice == (p.stock.currentPrice - p.averagePrice) * 100.0
  {
    if p.averagePrice == 0.0 then NonFinite
    else Finite(((p.stock.currentPrice - p.averagePrice) / p.averagePrice) * 100.0)
  }

  /** `calculateTotalChange`: the item changes added up in order, which
      is the total value less the total invested. */
  function TotalChange(ps: seq<Position>): (total: real)
    ensures total == TotalValue(ps) - TotalInvested(ps)
    decreases |ps|
  {
    if ps == [] then 0.0 else TotalChange(ps[..|ps| - 1]) + ItemChange(ps[|ps| - 1])
  }

  /** The overall percentage shown on the page: 0 when nothing positive is
      invested, otherwise the gain relative to what was invested. */
  function TotalChangePercentage(ps: seq<Position>): (pct: real)
    ensures TotalInvested(ps) <= 0.0 ==> pct == 0.0
    ensures TotalInvested(ps) > 0.0 ==>
      pct * TotalInvested(ps) == (TotalValue(ps) - TotalInvested(ps)) * 100.0
  {
    ChangePercentage(TotalChange(ps), TotalInvested(ps))
  }

  /** The page state the dialog and the live effect work on. `balance` is
      None when no user is signed in. */
  class PortfolioScreen {
    var portfolio: seq<Position>
    var selected: Option<Position>
    var kind: TxKind
    var quantity: int
    var balance: Option<real>

    /** What the selected position holds (0 with nothing selected). */
    function Owned(): int
      reads this
    {
      if selected.Some? then selected.value.quantity else 0
    }

    /** While the dialog is open on a position holding shares, the quantity
        is one the dialog accepts. */
    ghost predicate DialogValid()
      reads this
    {
      selected.Some? && Owned() >= 1 ==> InRange(quantity, kind, Owned())
    }

    constructor (balance: Option<real>)
      ensures portfolio == [] && selected == None && quantity == 1 && kind == Buy
      ensures this.balance == balance && DialogValid()
    {
      portfolio := [];
      selected := None;
      kind := Buy;
      quantity := 1;
      this.balance := balance;
    }

    /** The live price effect: it runs only when both lists are non-empty,
        which gives the same portfolio as merging with an empty list. */
    method ApplyLivePrices(quotes: seq<Quote>)
      modifies this`portfolio
      ensures portfolio == MergeLivePrices(old(portfolio), quotes)
    {
      if |portfolio| > 0 && |quotes| > 0 {
        portfolio := MergeLivePrices(portfolio, quotes);
      } else {
        assert portfolio == MergeLivePrices(portfolio, quotes);
      }
    }

    /** `loadPortfolio`: a fetched list replaces the portfolio; a failed
        fetch leaves it. */
    method LoadPortfolio(fetched: Option<seq<Position>>)
      modifies this`portfolio
      ensures portfolio == if fetched.Some? then fetched.value else old(portfolio)
    {
      if fetched.Some? {
        portfolio := fetched.value;
      }
    }

    method OpenBuy(item: Position)
      modifies this`selected, this`kind, this`quantity
      ensures selected == Some(item) && kind == Buy && quantity == 1 && DialogValid()
    {
      selected, kind, quantity := Some(item), Buy, 1;
    }

    method OpenSell(item: Position)
      modifies this`selected, this`kind, this`quantity
      ensures selected == Some(item) && kind == Sell
      ensures quantity == InitialSellQuantity(item.quantity) && DialogValid()
    {
      selected, kind := Some(item), Sell;
      quantity := InitialSellQuantity(item.quantity);
    }

    method Decrement()
      modifies this`quantity
      ensures quantity == Decremented(old(quantity))
      ensures old(DialogValid()) ==> DialogValid()
    {
      quantity := Decremented(quantity);
    }

    method Increment()
      modifies this`quantity
      ensures quantity == Incremented(old(quantity), kind, Owned())
      ensures old(DialogValid()) ==> DialogValid()
    {
      quantity := Incremented(quantity, kind, Owned());
    }

    /** The quantity field's change handler; `parsed` is the parse of the text. */
    method TypeQuantity(parsed: Option<int>)
      modifies this`quantity
      ensures quantity == TypedQuantity(parsed, kind, Owned()) && DialogValid()
    {
      quantity := TypedQuantity(parsed, kind, Owned());
    }

    /** "Sell all". */
    method SellAll()
      requires selected.Some?
      modifies this`quantity
      ensures quantity == Owned() && DialogValid()
    {
      quantity := selected.value.quantity;
    }

    method Cancel()
      modifies this`selected
      ensures selected == None && DialogValid()
    {
      selected := None;
    }

    /** `handleTransaction`. `total` is the amount of the transaction the
        server reports, None when the request fails; `reloaded` is the
        portfolio fetched afterwards, None when that fetch fails. */
    method HandleTransaction(total: Option<real>, reloaded: Option<seq<Position>>)
      modifies this`selected, this`quantity, this`balance, this`portfolio
      ensures var go := old(selected).Some? && old(quantity) > 0 && old(balance).Some?;
        if go && total.Some? then
          && balance == Some(BalanceAfter(old(balance).value, kind, total.value))
          && selected == None && quantity == 1
          && portfolio == (if reloaded.Some? then reloaded.value else old(portfolio))
        else
          selected == old(selected) && quantity == old(quantity)
          && balance == old(balance) && portfolio == old(portfolio)
    {
      if selected.None? || quantity <= 0 || balance.None? {
        return;
      }
      if total.None? {
        return;
      }
      balance := Some(BalanceAfter(balance.value, kind, total.value));
      selected := None;
      quantity := 1;
      LoadPortfolio(reloaded);
    }
  }
}
