/** The stocks page: the search filter, the quantity owned of a stock, and
    the buy/sell dialog whose limit is read from the loaded portfolio. */
module StocksPage {
  import opened Wrappers
  import opened Positions
  import opened Quantity

  /** `toLowerCase` on the letters A to Z; other characters are kept. */
  function LowerChar(c: char): char {
    if 'A' <= c <= 'Z' then (c as int - 'A' as int + 'a' as int) as char else c
  }

  function Lower(s: string): (r: string)
    ensures |r| == |s|
    ensures forall k :: 0 <= k < |s| ==> r[k] == LowerChar(s[k])
  {
    seq(|s|, k requires 0 <= k < |s| => LowerChar(s[k]))
  }

  /** `s.includes(t)`: t occurs in s at some position. */
  predicate Includes(s: string, t: string): (b: bool)
    ensures t == [] ==> b
    ensures b ==> |t| <= |s|
    decreases |s|
  {
    |t| <= |s| && (s[..|t|] == t || Includes(s[1..], t))
  }

  /** t occurs in s starting at offset i. */
  predicate OccursAt(s: string, t: string, i: int) {
    0 <= i <= |s| - |t| && s[i..i + |t|] == t
  }

  /** Includes means "occurs at some offset". */
  lemma {:induction false} IncludesAt(s: string, t: string)
    ensures Includes(s, t) <==> exists i :: OccursAt(s, t, i)
    decreases |s|
  {
    if |t| <= |s| {
      if s[..|t|] == t {
        assert OccursAt(s, t, 0);
      } else {
        IncludesAt(s[1..], t);
        if Includes(s[1..], t) {
          var i :| OccursAt(s[1..], t, i);
          assert OccursAt(s, t, i + 1);
        }
        if exists i :: OccursAt(s, t, i) {
          var i :| OccursAt(s, t, i);
          assert i != 0;
          assert OccursAt(s[1..], t, i - 1);
        }
      }
    }
  }

  /** The search predicate of one stock. */
  predicate Matches(q: Quote, term: string) {
    Includes(Lower(q.symbol), Lower(term)) || Includes(Lower(q.name), Lower(term))
  }

  /** `filteredStocks`: the stocks whose symbol or name contains the search
      term, ignoring case, in list order. */
  function FilterStocks(stocks: seq<Quote>, term: string): (r: seq<Quote>)
    ensures |r| <= |stocks|
    ensures forall q :: q in r <==> q in stocks && Matches(q, term)
    decreases |stocks|
  {
    if stocks == [] then []
    else
      var n := |stocks| - 1;
      var rest := FilterStocks(stocks[..n], term);
      assert stocks == stocks[..n] + [stocks[n]];
      if Matches(stocks[n], term) then rest + [stocks[n]] else rest
  }

  /** `sub` is `s` with some elements left out, the rest in their order. */
  predicate IsSubsequence<T(==)>(sub: seq<T>, s: seq<T>)
    decreases |s|
  {
    if sub == [] then true
    else if s == [] then false
    else if sub[|sub| - 1] == s[|s| - 1] then IsSubsequence(sub[..|sub| - 1], s[..|s| - 1])
    else IsSubsequence(sub, s[..|s| - 1])
  }

  /** The filtered list keeps the order of the full list. */
  lemma {:induction false} FilterIsSubsequence(stocks: seq<Quote>, term: string)
    ensures IsSubsequence(FilterStocks(stocks, term), stocks)
    decreases |stocks|
  {
    if stocks != [] {
      var n := |stocks| - 1;
      var rest := FilterStocks(stocks[..n], term);
      FilterIsSubsequence(stocks[..n], term);
      if Matches(stocks[n], term) {
        assert (rest + [stocks[n]])[..|rest|] == rest;
      } else {
        SubsequenceOfLonger(rest, stocks[..n], stocks[n]);
        assert stocks == stocks[..n] + [stocks[n]];
      }
    }
  }

  /** A subsequence stays one when the longer sequence grows. */
  lemma {:induction false} SubsequenceOfLonger<T>(sub: seq<T>, s: seq<T>, x: T)
    requires IsSubsequence(sub, s)
    ensures IsSubsequence(sub, s + [x])
    decreases |s|, 1
  {
    if sub != [] {
      assert (s + [x])[..|s|] == s;
      if sub[|sub| - 1] == x {
        SubsequenceDropLast(sub, s);
      }
    }
  }

  /** A subsequence stays one when its last element is dropped. */
  lemma {:induction false} SubsequenceDropLast<T>(sub: seq<T>, s: seq<T>)
    requires sub != [] && IsSubsequence(sub, s)
    ensures IsSubsequence(sub[..|sub| - 1], s)
    decreases |s|, 0
  {
    var n := |s| - 1;
    assert s == s[..n] + [s[n]];
    var sub' := sub[..|sub| - 1];
    if sub[|sub| - 1] == s[n] {
      SubsequenceOfLonger(sub', s[..n], s[n]);
    } else {
      SubsequenceDropLast(sub, s[..n]);
      SubsequenceOfLonger(sub', s[..n], s[n]);
    }
  }

  /** An empty search term keeps every stock. */
  lemma {:induction false} EmptyTermKeepsAll(stocks: seq<Quote>)
    ensures FilterStocks(stocks, "") == stocks
    decreases |stocks|
  {
    if stocks != [] {
      var n := |stocks| - 1;
      EmptyTermKeepsAll(stocks[..n]);
      assert Lower(stocks[n].symbol)[..0] == Lower("");
      assert stocks == stocks[..n] + [stocks[n]];
    }
  }

  /** `getOwnedQuantity`: the quantity of the first position of this
      stock, 0 when the portfolio has none. */
  function OwnedQuantity(portfolio: seq<Position>, stockId: int): (n: int)
    ensures (forall j :: 0 <= j < |portfolio| ==> portfolio[j].stockId != stockId) ==> n == 0
    ensures forall k :: (0 <= k < |portfolio| && portfolio[k].stockId == stockId &&
      (forall j :: 0 <= j < k ==> portfolio[j].stockId != stockId)) ==> n == portfolio[k].quantity
  {
    var k := FirstIndex(portfolio, (p: Position) => p.stockId == stockId);
    if k < |portfolio| then portfolio[k].quantity else 0
  }

  /** The sell button is enabled only for a stock the user owns. */
  predicate SellEnabled(portfolio: seq<Position>, stockId: int): (b: bool)
    ensures b ==> exists k :: 0 <= k < |portfolio| && portfolio[k].stockId == stockId
  {
    OwnedQuantity(portfolio, stockId) != 0
  }

  class StocksScreen {
    var portfolio: seq<Position>
    var selected: Option<Quote>
    var kind: TxKind
    var quantity: int
    var balance: Option<real>

    /** What the loaded portfolio holds of the selected stock. */
    function Owned(): int
      reads this
    {
      if selected.Some? then OwnedQuantity(portfolio, selected.value.id) else 0
    }

    ghost predicate DialogValid()
      reads this
    {
      selected.Some? && Owned() >= 1 ==> InRange(quantity, kind, Owned())
    }

    constructor (balance: Option<real>)
      ensures portfolio == [] && selected == None && quantity == 1 && kind == Buy
      ensures this.balance == balance && DialogValid()
    {
      portfolio := [];
      selected := None;
      kind := Buy;
      quantity := 1;
      this.balance := balance;
    }

    /** The portfolio fetched when the page opens; a failed fetch is ignored. */
    method LoadPortfolio(fetched: Option<seq<Position>>)
      modifies this`portfolio
      ensures portfolio == if fetched.Some? then fetched.value else old(portfolio)
    {
      if fetched.Some? {
        portfolio := fetched.value;
      }
    }

    method OpenBuy(stock: Quote)
      modifies this`selected, this`kind, this`quantity
      ensures selected == Some(stock) && kind == Buy && quantity == 1 && DialogValid()
    {
      selected, kind, quantity := Some(stock), Buy, 1;
    }

    /** The sell button; it is disabled when nothing of the stock is owned,
        and then no caller reaches this. */
    method OpenSell(stock: Quote)
      requires SellEnabled(portfolio, stock.id)
      modifies this`selected, this`kind, this`quantity
      ensures selected == Some(stock) && kind == Sell
      ensures quantity == InitialSellQuantity(OwnedQuantity(portfolio, stock.id))
      ensures Owned() >= 1 ==> quantity == 1
      ensures DialogValid()
    {
      selected, kind := Some(stock), Sell;
      quantity := InitialSellQuantity(OwnedQuantity(portfolio, stock.id));
    }

    method Decrement()
      modifies this`quantity
      ensures quantity == Decremented(old(quantity))
      ensures old(DialogValid()) ==> DialogValid()
    {
      quantity := Decremented(quantity);
    }

    method Increment()
      modifies this`quantity
      ensures quantity == Incremented(old(quantity), kind, Owned())
      ensures old(DialogValid()) ==> DialogValid()
    {
      quantity := Incremented(quantity, kind, Owned());
    }

    method TypeQuantity(parsed: Option<int>)
      modifies this`quantity
      ensures quantity == TypedQuantity(parsed, kind, Owned()) && DialogValid()
    {
      quantity := TypedQuantity(parsed, kind, Owned());
    }

    /** "Sell all", shown only when some shares are owned. */
    method SellAll()
      requires selected.Some?
      modifies this`quantity
      ensures quantity == Owned() && DialogValid()
    {
      quantity := Owned();
    }

    method Cancel()
      modifies this`selected
      ensures selected == None && DialogValid()
    {
      selected := None;
    }

    /** `handleTransaction`. `total` is the amount the server reports for
        the transaction, None when the request fails; `reloaded` is the
        portfolio fetched afterwards, None when that fetch fails. */
    method HandleTransaction(total: Option<real>, reloaded: Option<seq<Position>>)
      modifies this`selected, this`quantity, this`balance, this`portfolio
      ensures var go := old(selected).Some? && old(quantity) > 0 && old(balance).Some?;
        if go && total.Some? then
          && balance == Some(BalanceAfter(old(balance).value, kind, total.value))
          && selected == None && quantity == 1
          && portfolio == (if reloaded.Some? then reloaded.value else old(portfolio))
        else
          selected == old(selected) && quantity == old(quantity)
          && balance == old(balance) && portfolio == old(portfolio)
    {
      if selected.None? || quantity <= 0 || balance.None? {
        return;
      }
      if total.None? {
        return;
      }
      balance := Some(BalanceAfter(balance.value, kind, total.value));
      selected := None;
      quantity := 1;
      LoadPortfolio(reloaded);
    }
  }
}
