/**
 * The command-line simulator: one binary-shock step in decimal units with
 * no floor, and the loop that accumulates a list of prices by repeated
 * steps. The coin `up` stands for `np.random.choice` picking `+volatility`;
 * the loop's coins are a function `flip` of the day number.
 */
module StockPy {
  import Brownian

  /** `np.random.choice([-volatility, volatility])`. */
  function Shock(volatility: real, up: bool): (c: real)
    ensures c == volatility || c == -volatility
    ensures volatility != 0.0 ==> (c == volatility <==> up)
  {
    if up then volatility else -volatility
  }

  /** The move factor `1 + drift + random_change`. */
  function Factor(volatility: real, drift: real, up: bool): (f: real)
    ensures f == 1.0 + drift - volatility || f == 1.0 + drift + volatility
    ensures volatility == 0.0 ==> f == 1.0 + drift
  {
    1.0 + drift + Shock(volatility, up)
  }

  /** A price times a factor. */
  function Scale(price: real, factor: real): real {
    price * factor
  }

  /** `price * (1 + drift + random_change)`. */
  function BrownianMotionStep(price: real, volatility: real, drift: real, up: bool): (r: real)
    ensures r == price * (1.0 + drift - volatility) || r == price * (1.0 + drift + volatility)
    ensures up ==> r == price * (1.0 + drift + volatility)
    ensures !up ==> r == price * (1.0 + drift - volatility)
    ensures volatility == 0.0 ==> r == price * (1.0 + drift)
  {
    Scale(price, Factor(volatility, drift, up))
  }

  /**
   * Unlike the browser simulator there is no floor: a positive price can
   * step to a price at or below zero once the downward factor is not positive.
   */
  lemma NoFloor(price: real, volatility: real, drift: real)
    requires price > 0.0 && 1.0 + drift - volatility <= 0.0
    ensures BrownianMotionStep(price, volatility, drift, false) <= 0.0
  {
    NonPositiveProduct(price, 1.0 + drift - volatility);
  }

  lemma NonPositiveProduct(a: real, b: real)
    requires a > 0.0 && b <= 0.0
    ensures Scale(a, b) <= 0.0
  {
  }

  lemma PositiveProduct(a: real, b: real)
    requires a > 0.0 && b > 0.0
    ensures Scale(a, b) > 0.0
  {
  }

  /** A concrete price that goes negative: 100 with drift -0.6 and volatility 0.5, coin down, gives -10. */
  lemma NegativePriceExample()
    ensures BrownianMotionStep(100.0, 0.5, -0.6, false) == -10.0
  {
  }

  /**
   * The browser's tick in percent units is this step on decimal units,
   * raised to the 0.01 floor.
   */
  lemma BrowserStepIsFlooredStep(last: real, driftPct: real, volPct: real, up: bool)
    ensures var s := BrownianMotionStep(last, volPct / 100.0, driftPct / 100.0, up);
      Brownian.NextPrice(last, driftPct, volPct, up) == if s < Brownian.MinPrice then Brownian.MinPrice else s
  {
    Brownian.RawStepIsBinaryShock(last, driftPct, volPct, up);
  }

  /**
   * The price list built for `days` days: `[initial_price]` extended, for
   * each day from 1 to `days - 1`, by the step from the previous price with
   * that day's coin.
   */
  function Prices(initialPrice: real, days: int, volatility: real, drift: real, flip: nat -> bool): (prices: seq<real>)
    decreases days
    ensures |prices| == if days < 1 then 1 else days
    ensures prices[0] == initialPrice
    ensures forall day :: 1 <= day < |prices| ==>
      prices[day] == BrownianMotionStep(prices[day - 1], volatility, drift, flip(day))
  {
    if days <= 1 then [initialPrice]
    else
      var before := Prices(initialPrice, days - 1, volatility, drift, flip);
      before + [BrownianMotionStep(before[|before| - 1], volatility, drift, flip(days - 1))]
  }

  /** Simulating more days extends the list: the first days are the same. */
  lemma {:induction false} PricesPrefix(initialPrice: real, days: int, more: int, volatility: real, drift: real, flip: nat -> bool)
    requires 1 <= days <= more
    decreases more
    ensures Prices(initialPrice, days, volatility, drift, flip)
         == Prices(initialPrice, more, volatility, drift, flip)[..days]
  {
    if days < more {
      PricesPrefix(initialPrice, days, more - 1, volatility, drift, flip);
    }
  }

  /** `x` to the power `k`. */
  function Pow(x: real, k: nat): real {
    if k == 0 then 1.0 else Pow(x, k - 1) * x
  }

  /** Without volatility the path is deterministic compound growth: day k holds `initial * (1 + drift)^k`. */
  lemma {:induction false} DeterministicPath(initialPrice: real, days: int, drift: real, flip: nat -> bool, day: nat)
    requires day < |Prices(initialPrice, days, 0.0, drift, flip)|
    ensures Prices(initialPrice, days, 0.0, drift, flip)[day] == initialPrice * Pow(1.0 + drift, day)
  {
    if day > 0 {
      DeterministicPath(initialPrice, days, drift, flip, day - 1);
      var prices := Prices(initialPrice, days, 0.0, drift, flip);
      assert prices[day] == Scale(prices[day - 1], Factor(0.0, drift, flip(day)));
      assert Factor(0.0, drift, flip(day)) == 1.0 + drift;
    }
  }

  /** When both moves are positive factors, a positive start stays positive on every day. */
  lemma {:induction false} PositivePath(initialPrice: real, days: int, volatility: real, drift: real, flip: nat -> bool, day: nat)
    requires initialPrice > 0.0 && 1.0 + drift - volatility > 0.0 && 1.0 + drift + volatility > 0.0
    requires day < |Prices(initialPrice, days, volatility, drift, flip)|
    ensures Prices(initialPrice, days, volatility, drift, flip)[day] > 0.0
  {
    if day > 0 {
      PositivePath(initialPrice, days, volatility, drift, flip, day - 1);
      var prices := Prices(initialPrice, days, volatility, drift, flip);
      PositiveProduct(prices[day - 1], Factor(volatility, drift, flip(day)));
    }
  }

  /**
   * The accumulation loop of `simulate_and_plot` without the plotting:
   * `prices = [initial_price]`, then one append per day in `range(1, days)`.
   */
  method SimulatePrices(initialPrice: real, days: int, volatility: real, drift: real, flip: nat -> bool)
    returns (prices: seq<real>)
    ensures prices == Prices(initialPrice, days, volatility, drift, flip)
    ensures |prices| == if days < 1 then 1 else days
    ensures prices[0] == initialPrice
    ensures forall day :: 1 <= day < |prices| ==>
      prices[day] == BrownianMotionStep(prices[day - 1], volatility, drift, flip(day))
  {
    prices := [initialPrice];
    var day := 1;
    while day < days
      invariant 1 <= day && (day <= days || day == 1)
      invariant prices == Prices(initialPrice, day, volatility, drift, flip)
    {
      var newPrice := BrownianMotionStep(prices[|prices| - 1], volatility, drift, flip(day));
      prices := prices + [newPrice];
      day := day + 1;
    }
  }
}
