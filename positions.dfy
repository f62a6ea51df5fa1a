/** Portfolio positions as the web pages receive them, and the sums the
    portfolio page and the dashboard both compute over them. Numbers are
    exact reals; quantities are whole numbers. */
module Positions {

  /** A stock as the pages hold it (prices may be refreshed live). */
  datatype Quote = Quote(
    id: int,
    symbol: string,
    name: string,
    currentPrice: real,
    previousPrice: real,
    lastUpdated: int)

  /** One position of the user's portfolio. */
  datatype Position = Position(
    id: int,
    stockId: int,
    quantity: int,
    averagePrice: real,
    stock: Quote)

  /** The index of the first element satisfying `p`, or |xs| when none
      does: what `Array.prototype.find` looks at. */
  function FirstIndex<T>(xs: seq<T>, p: T -> bool): (k: nat)
    ensures k <= |xs|
    ensures forall j :: 0 <= j < k ==> !p(xs[j])
    ensures k < |xs| ==> p(xs[k])
    decreases |xs|
  {
    if xs == [] then 0
    else if p(xs[0]) then 0
    else 1 + FirstIndex(xs[1..], p)
  }

  /** What a position is worth at the current price. */
  function ItemValue(p: Position): real {
    p.stock.currentPrice * p.quantity as real
  }

  /** What was paid for a position. */
  function ItemInvested(p: Position): real {
    p.averagePrice * p.quantity as real
  }

  predicate NonNegativeValues(ps: seq<Position>) {
    forall k :: 0 <= k < |ps| ==> ps[k].quantity >= 0 && ps[k].stock.currentPrice >= 0.0
  }

  predicate NonNegativeCosts(ps: seq<Position>) {
    forall k :: 0 <= k < |ps| ==> ps[k].quantity >= 0 && ps[k].averagePrice >= 0.0
  }

  /** The sum of current price times quantity, added up from the first
      position to the last (a left fold starting at 0). */
  function TotalValue(ps: seq<Position>): (total: real)
    ensures NonNegativeValues(ps) ==> total >= 0.0
    decreases |ps|
  {
    if ps == [] then 0.0
    else
      var n := |ps| - 1;
      assert NonNegativeValues(ps) ==> NonNegativeValues(ps[..n]);
      TotalValue(ps[..n]) + ItemValue(ps[n])
  }

  /** The sum of average price times quantity, added up in the same way. */
  function TotalInvested(ps: seq<Position>): (total: real)
    ensures NonNegativeCosts(ps) ==> total >= 0.0
    decreases |ps|
  {
    if ps == [] then 0.0
    else
      var n := |ps| - 1;
      assert NonNegativeCosts(ps) ==> NonNegativeCosts(ps[..n]);
      TotalInvested(ps[..n]) + ItemInvested(ps[n])
  }

  /** The overall change as a percentage of what was invested; 0 when
      nothing positive was invested. */
  function ChangePercentage(totalChange: real, totalInvested: real): (pct: real)
    ensures totalInvested <= 0.0 ==> pct == 0.0
    ensures totalInvested > 0.0 ==> pct * totalInvested == totalChange * 100.0
    ensures totalInvested > 0.0 ==> (pct >= 0.0 <==> totalChange >= 0.0)
  {
    if totalInvested > 0.0 then (totalChange / totalInvested) * 100.0 else 0.0
  }

  /** Positions that agree on quantity and average price have the same
      invested total. */
  lemma {:induction false} InvestedDependsOnCosts(a: seq<Position>, b: seq<Position>)
    requires |a| == |b|
    requires forall k :: 0 <= k < |a| ==> a[k].quantity == b[k].quantity && a[k].averagePrice == b[k].averagePrice
    ensures TotalInvested(a) == TotalInvested(b)
    decreases |a|
  {
    if a != [] {
      var n := |a| - 1;
      InvestedDependsOnCosts(a[..n], b[..n]);
    }
  }
}
