/** The per-stock price formula of one simulation cycle: a bounded
    percentage change drawn from a sample r, rounding to cents with
    round-half-to-even (the default mode of Math.Round(decimal, int)),
    and the configured price floor. */
module Pricing {
  import opened Config

  /** x is a whole number of cents. */
  predicate IsCents(x: real) {
    (x * 100.0).Floor as real == x * 100.0
  }

  /** The whole number nearest to y, ties going to the even neighbour. */
  function RoundHalfEvenInt(y: real): (n: int)
    ensures y - 0.5 <= n as real <= y + 0.5
    ensures n as real - y == 0.5 || y - n as real == 0.5 ==> n % 2 == 0
  {
    var f := y.Floor;
    var frac := y - f as real;
    if frac < 0.5 then f
    else if frac > 0.5 then f + 1
    else if f % 2 == 0 then f
    else f + 1
  }

  /** Math.Round(x, 2): x rounded to two decimals, midpoints to the even cent. */
  function RoundHalfEven2(x: real): (y: real)
    ensures IsCents(y)
    ensures x - 0.005 <= y <= x + 0.005
    ensures y - x == 0.005 || x - y == 0.005 ==> (y * 100.0).Floor % 2 == 0
  {
    var n := RoundHalfEvenInt(x * 100.0);
    CentsOf(n);
    assert (n as real / 100.0) - x == (n as real - x * 100.0) / 100.0;
    n as real / 100.0
  }

  /** n / 100 is a whole number of cents. */
  lemma CentsOf(n: int)
    ensures (n as real / 100.0) * 100.0 == n as real
    ensures IsCents(n as real / 100.0)
  {
    var y := n as real / 100.0;
    assert y * 100.0 == n as real;
    assert (n as real).Floor == n;
  }

  /** A value that already is a whole number of cents is left alone. */
  lemma RoundKeepsCents(x: real)
    requires IsCents(x)
    ensures RoundHalfEven2(x) == x
  {
    var y := x * 100.0;
    assert y.Floor as real == y;
    assert RoundHalfEvenInt(y) == y.Floor;
    assert RoundHalfEven2(x) == y.Floor as real / 100.0;
  }

  /** Rounding twice is rounding once. */
  lemma RoundIdempotent(x: real)
    ensures RoundHalfEven2(RoundHalfEven2(x)) == RoundHalfEven2(x)
  {
    RoundKeepsCents(RoundHalfEven2(x));
  }

  /** Rounding is monotone. */
  lemma RoundMonotone(x: real, x': real)
    requires x <= x'
    ensures RoundHalfEven2(x) <= RoundHalfEven2(x')
  {
    var y, y' := x * 100.0, x' * 100.0;
    var n, n' := RoundHalfEvenInt(y), RoundHalfEvenInt(y');
    assert y <= y';
    assert n <= n';
    assert n as real / 100.0 <= n' as real / 100.0;
  }

  /** The percentage change of one stock, as a fraction:
      (r * (Max - Min) + Min) / 100. */
  function ChangeFraction(cfg: SimulationConfig, r: real): (c: real)
    ensures 0.0 <= r <= 1.0 && cfg.minPriceChangePercent <= cfg.maxPriceChangePercent ==>
      cfg.minPriceChangePercent / 100.0 <= c <= cfg.maxPriceChangePercent / 100.0
    ensures r == 0.0 ==> c == cfg.minPriceChangePercent / 100.0
    ensures r == 1.0 ==> c == cfg.maxPriceChangePercent / 100.0
  {
    MulUnitInterval(r, cfg.maxPriceChangePercent - cfg.minPriceChangePercent);
    (r * (cfg.maxPriceChangePercent - cfg.minPriceChangePercent) + cfg.minPriceChangePercent) / 100.0
  }

  lemma MulUnitInterval(r: real, d: real)
    ensures 0.0 <= r <= 1.0 && 0.0 <= d ==> 0.0 <= r * d <= d
  {
    if 0.0 <= r <= 1.0 && 0.0 <= d {
      assert d - r * d == (1.0 - r) * d;
      MulNonNegative(1.0 - r, d);
      MulNonNegative(r, d);
    }
  }

  /** The unrounded new price: price * (1 + change). */
  function RawPrice(cfg: SimulationConfig, price: real, r: real): (raw: real)
    ensures 0.0 <= price && 0.0 <= r <= 1.0 && cfg.minPriceChangePercent <= cfg.maxPriceChangePercent ==>
      price * (1.0 + cfg.minPriceChangePercent / 100.0) <= raw <= price * (1.0 + cfg.maxPriceChangePercent / 100.0)
  {
    var c := ChangeFraction(cfg, r);
    MulMonotone(price, 1.0 + cfg.minPriceChangePercent / 100.0, 1.0 + c);
    MulMonotone(price, 1.0 + c, 1.0 + cfg.maxPriceChangePercent / 100.0);
    price * (1.0 + c)
  }

  lemma MulMonotone(a: real, b: real, b': real)
    ensures 0.0 <= a && b <= b' ==> a * b <= a * b'
  {
    if 0.0 <= a && b <= b' {
      assert a * b' - a * b == a * (b' - b);
      MulNonNegative(a, b' - b);
    }
  }

  /** The next price of a stock whose price is `price`:
      Math.Max(MinPrice, Math.Round(raw, 2)). */
  function NextPrice(cfg: SimulationConfig, price: real, r: real): (p: real)
    ensures p >= cfg.minPrice
    ensures IsCents(p) || p == cfg.minPrice
  {
    var rounded := RoundHalfEven2(RawPrice(cfg, price, r));
    if cfg.minPrice >= rounded then cfg.minPrice else rounded
  }

  /** For a sample r in [0, 1) and Min <= Max the change lies in
      [Min/100, Max/100], strictly below Max/100 when Min < Max. */
  lemma ChangeFractionInRange(cfg: SimulationConfig, r: real)
    requires 0.0 <= r < 1.0
    requires cfg.minPriceChangePercent <= cfg.maxPriceChangePercent
    ensures cfg.minPriceChangePercent / 100.0 <= ChangeFraction(cfg, r) <= cfg.maxPriceChangePercent / 100.0
    ensures cfg.minPriceChangePercent < cfg.maxPriceChangePercent ==>
      ChangeFraction(cfg, r) < cfg.maxPriceChangePercent / 100.0
  {
    var lo, hi := cfg.minPriceChangePercent, cfg.maxPriceChangePercent;
    var d := hi - lo;
    MulBelowOne(r, d);
    var x := r * d + lo;
    assert lo <= x <= hi;
    assert d > 0.0 ==> x < hi;
    assert ChangeFraction(cfg, r) == x / 100.0;
  }

  lemma MulBelowOne(r: real, d: real)
    requires 0.0 <= r < 1.0 && 0.0 <= d
    ensures 0.0 <= r * d <= d
    ensures 0.0 < d ==> r * d < d
  {
    assert d - r * d == (1.0 - r) * d;
  }

  /** The next price is the rounded raw price whenever that is at or above
      the floor, and the floor otherwise; in both cases it is within half a
      cent of the raw price or equal to the floor. */
  lemma NextPriceBounds(cfg: SimulationConfig, price: real, r: real)
    ensures RoundHalfEven2(RawPrice(cfg, price, r)) >= cfg.minPrice ==>
      NextPrice(cfg, price, r) == RoundHalfEven2(RawPrice(cfg, price, r))
    ensures RoundHalfEven2(RawPrice(cfg, price, r)) < cfg.minPrice ==>
      NextPrice(cfg, price, r) == cfg.minPrice
    ensures NextPrice(cfg, price, r) == cfg.minPrice || RawPrice(cfg, price, r) - 0.005 <= NextPrice(cfg, price, r)
    ensures NextPrice(cfg, price, r) <= cfg.minPrice || NextPrice(cfg, price, r) <= RawPrice(cfg, price, r) + 0.005
  {
  }

  /** A higher old price never gives a lower new price for the same sample,
      as long as the multiplier 1 + change is not negative. */
  lemma NextPriceMonotone(cfg: SimulationConfig, price: real, price': real, r: real)
    requires price <= price'
    requires 1.0 + ChangeFraction(cfg, r) >= 0.0
    ensures NextPrice(cfg, price, r) <= NextPrice(cfg, price', r)
  {
    var m := 1.0 + ChangeFraction(cfg, r);
    assert RawPrice(cfg, price, r) == price * m && RawPrice(cfg, price', r) == price' * m;
    assert price' * m - price * m == (price' - price) * m;
    assert (price' - price) * m >= 0.0 by {
      MulNonNegative(price' - price, m);
    }
    RoundMonotone(price * m, price' * m);
  }

  lemma MulNonNegative(a: real, b: real)
    requires 0.0 <= a && 0.0 <= b
    ensures 0.0 <= a * b
  {
  }

  /** Worked examples with the default bounds -5..5 and floor 0.01. */
  lemma DefaultScenarios()
    ensures NextPrice(Default(), 100.0, 0.5) == 100.0
    ensures NextPrice(Default(), 100.0, 0.0) == 95.0
    ensures NextPrice(Default(), 100.0, 0.999) == 104.99
  {
    assert ChangeFraction(Default(), 0.5) == 0.0;
    assert RoundHalfEvenInt(10000.0) == 10000;
    assert ChangeFraction(Default(), 0.0) == -0.05;
    assert RoundHalfEvenInt(9500.0) == 9500;
    assert ChangeFraction(Default(), 0.999) == 0.04990;
    assert 100.0 * (1.0 + 0.04990) * 100.0 == 10499.0;
    assert RoundHalfEvenInt(10499.0) == 10499;
  }

  /** A drop below the floor is clamped: 0.02 with a -90% change is 0.002,
      which rounds to 0.00, and the floor 0.01 is returned. */
  lemma FloorScenario()
    ensures NextPrice(SimulationConfig(3, 5.0, -90.0, 0.01, true), 0.02, 0.0) == 0.01
  {
    var cfg := SimulationConfig(3, 5.0, -90.0, 0.01, true);
    assert ChangeFraction(cfg, 0.0) == -0.9;
    assert 0.02 * (1.0 + -0.9) * 100.0 == 0.2;
    assert RoundHalfEvenInt(0.2) == 0;
  }

  /** Midpoints go to the even cent: 1.125 becomes 1.12, 1.135 becomes 1.14. */
  lemma HalfEvenScenario()
    ensures RoundHalfEven2(1.125) == 1.12
    ensures RoundHalfEven2(1.135) == 1.14
  {
    assert 1.125 * 100.0 == 112.5;
    assert (112.5).Floor == 112;
    assert 1.135 * 100.0 == 113.5;
    assert (113.5).Floor == 113;
  }
}
