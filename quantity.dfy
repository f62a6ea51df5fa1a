/** The quantity control of the buy/sell dialog shared by the portfolio and
    stocks pages: the value typed in, the minus and plus buttons, and the
    balance change after a transaction. */
module Quantity {
  import opened Wrappers

  datatype TxKind = Buy | Sell

  /** `parseInt(text) || 1`: text that does not parse (NaN) and a parsed 0
      are both falsy and become 1; anything else is kept. `parsed` is None
      when the text does not parse. */
  function ParsedOrOne(parsed: Option<int>): (n: int)
    ensures n != 0
    ensures parsed.Some? && parsed.value != 0 ==> n == parsed.value
    ensures parsed.None? || parsed.value == 0 ==> n == 1
  {
    if parsed.Some? && parsed.value != 0 then parsed.value else 1
  }

  /** A quantity the dialog accepts: at least 1, and at most what is owned
      when selling. */
  predicate InRange(q: int, kind: TxKind, owned: int) {
    q >= 1 && (kind == Sell ==> q <= owned)
  }

  /** The typed value, raised to 1 and, when selling, lowered to what is owned
      (`Math.min(Math.max(1, n), max)` with max = Infinity when buying). */
  function TypedQuantity(parsed: Option<int>, kind: TxKind, owned: int): (q: int)
    ensures kind == Buy ==> q >= 1
    ensures kind == Sell ==> q <= owned
    ensures owned >= 1 ==> InRange(q, kind, owned)
    ensures parsed.Some? && InRange(parsed.value, kind, owned) ==> q == parsed.value
    ensures parsed.None? && (kind == Buy || owned >= 1) ==> q == 1
    ensures parsed.Some? && parsed.value < 1 && (kind == Buy || owned >= 1) ==> q == 1
    ensures kind == Sell && owned >= 1 && parsed.Some? && parsed.value > owned ==> q == owned
  {
    var n := ParsedOrOne(parsed);
    var atLeastOne := if n >= 1 then n else 1;
    if kind == Sell && owned < atLeastOne then owned else atLeastOne
  }

  /** The minus button: `Math.max(1, q - 1)`. */
  function Decremented(q: int): (r: int)
    ensures r >= 1
    ensures q >= 2 ==> r == q - 1
    ensures q <= 2 ==> r == 1
  {
    if q - 1 >= 1 then q - 1 else 1
  }

  /** The plus button: one more, but never above what is owned when selling
      (when buying the cap is q + 1 itself). */
  function Incremented(q: int, kind: TxKind, owned: int): (r: int)
    ensures kind == Buy ==> r == q + 1
    ensures kind == Sell ==> r <= owned && r <= q + 1
    ensures kind == Sell && q < owned ==> r == q + 1
  {
    var cap := if kind == Sell then owned else q + 1;
    if q + 1 <= cap then q + 1 else cap
  }

  /** The quantity a sell dialog opens with: `Math.min(1, owned)`. */
  function InitialSellQuantity(owned: int): (q: int)
    ensures owned >= 1 ==> q == 1
    ensures q <= owned
  {
    if 1 <= owned then 1 else owned
  }

  /** Every control keeps an accepted quantity accepted (for a position that
      holds at least one share), and both dialogs open with an accepted one. */
  lemma ControlsKeepRange(q: int, kind: TxKind, owned: int, parsed: Option<int>)
    requires owned >= 1
    requires InRange(q, kind, owned)
    ensures InRange(Decremented(q), kind, owned)
    ensures InRange(Incremented(q, kind, owned), kind, owned)
    ensures InRange(TypedQuantity(parsed, kind, owned), kind, owned)
    ensures InRange(1, Buy, owned) && InRange(InitialSellQuantity(owned), Sell, owned)
    ensures InRange(owned, Sell, owned)
  {
  }

  /** The balance after a completed transaction of `total`: lower by it after
      a buy, higher by it after a sell. */
  function BalanceAfter(balance: real, kind: TxKind, total: real): (b: real)
    ensures kind == Buy ==> b + total == balance
    ensures kind == Sell ==> b - total == balance
  {
    if kind == Buy then balance - total else balance + total
  }

  /** Buying for a total and selling for the same total gives the balance back. */
  lemma BuyThenSellRestoresBalance(balance: real, total: real)
    ensures BalanceAfter(BalanceAfter(balance, Buy, total), Sell, total) == balance
  {
  }
}
