/**
 * The statistics route `GET /api/stockstats?symbol=...`: its error
 * branches, the loop that turns a daily adjusted-close series into
 * log-returns, the mean and population variance of those returns, the
 * drift and volatility percentages derived from them, and the fallback
 * chain that picks the reported price.
 *
 * The upstream fetch is not performed: its outcome is a parameter. The
 * natural logarithm and the square root are parameters too; of the square
 * root only non-negativity is assumed.
 */
module StockStats {
  import opened Wrappers

  type NonNegReal = x: real | x >= 0.0

  /** One entry per trading day; `None` is a `null` in the upstream array. */
  type Series = seq<Option<real>>

  /** The fields of `chart.result[0]` the route reads. `None` is an absent (or null) field. */
  datatype ChartResult = ChartResult(adjclose: Option<Series>, regularMarketPrice: Option<real>)

  /** What `res.json()` produced: a parse failure with its message, or `chart.result[0]` if there is one. */
  datatype Json = Unparsable(message: string) | Parsed(result: Option<ChartResult>)

  /** The outcome of the upstream request: a thrown transport error, or a response with its `ok` flag. */
  datatype Upstream = TransportError(message: string) | Reply(ok: bool, json: Json)

  datatype Body =
    | Stats(drift: real, volatility: real, price: Option<real>)
    | ErrorMessage(error: string)

  datatype Response = Response(status: int, body: Body)

  // ---------------------------------------------------------------------------
  // Log-returns
  // ---------------------------------------------------------------------------

  /** `prev != null && curr != null && prev > 0` for the pair ending at index `i`. */
  predicate ValidPair(prices: Series, i: int) {
    1 <= i < |prices| && prices[i - 1].Some? && prices[i].Some? && prices[i - 1].value > 0.0
  }

  /**
   * The indices in [1, n) whose pair is valid, in increasing order: exactly
   * the iterations of the loop, up to `n`, that push a return.
   */
  function ValidIndicesBelow(prices: Series, n: nat): (idx: seq<nat>)
    ensures forall k :: 0 <= k < |idx| ==> 1 <= idx[k] < n && ValidPair(prices, idx[k])
    ensures forall k, l :: 0 <= k < l < |idx| ==> idx[k] < idx[l]
    ensures forall i :: 1 <= i < n && ValidPair(prices, i) ==> i in idx
    ensures |idx| <= if n == 0 then 0 else n - 1
  {
    if n <= 1 then []
    else ValidIndicesBelow(prices, n - 1) + (if ValidPair(prices, n - 1) then [n - 1] else [])
  }

  /** The indices of all valid adjacent pairs of the series. */
  function ValidIndices(prices: Series): seq<nat> {
    ValidIndicesBelow(prices, |prices|)
  }

  /** `Math.log(curr / prev)` for the valid pair ending at `i`. */
  function LogReturnAt(prices: Series, i: int, log: real -> real): real
    requires ValidPair(prices, i)
  {
    log(prices[i].value / prices[i - 1].value)
  }

  /** The returns pushed by the iterations below `n`: one per valid pair, in index order. */
  function LogReturnsBelow(prices: Series, n: nat, log: real -> real): (r: seq<real>)
    ensures |r| == |ValidIndicesBelow(prices, n)|
  {
    var idx := ValidIndicesBelow(prices, n);
    seq(|idx|, k requires 0 <= k < |idx| => LogReturnAt(prices, idx[k], log))
  }

  /** One return per valid pair of the whole series, in index order, each the log of that pair's ratio. */
  function LogReturnsOf(prices: Series, log: real -> real): (r: seq<real>)
    ensures |r| == |ValidIndices(prices)|
    ensures forall k :: 0 <= k < |r| ==>
      ValidPair(prices, ValidIndices(prices)[k]) && r[k] == LogReturnAt(prices, ValidIndices(prices)[k], log)
  {
    LogReturnsBelow(prices, |prices|, log)
  }

  /** One iteration more pushes the pair's return exactly when the pair is valid. */
  lemma LogReturnsBelowNext(prices: Series, n: nat, log: real -> real)
    requires 1 <= n
    ensures LogReturnsBelow(prices, n + 1, log)
         == LogReturnsBelow(prices, n, log) + (if ValidPair(prices, n) then [LogReturnAt(prices, n, log)] else [])
  {
    var before := ValidIndicesBelow(prices, n);
    var after := ValidIndicesBelow(prices, n + 1);
    assert after == before + (if ValidPair(prices, n) then [n] else []);
    var lhs := LogReturnsBelow(prices, n + 1, log);
    var rhs := LogReturnsBelow(prices, n, log) + (if ValidPair(prices, n) then [LogReturnAt(prices, n, log)] else []);
    assert |lhs| == |rhs|;
    forall k | 0 <= k < |lhs| ensures lhs[k] == rhs[k] {
      if k < |before| {
        assert after[k] == before[k];
      }
    }
  }

  /**
   * The loop of the route: for i from 1 while i < prices.length, push
   * `log(curr/prev)` when the pair is valid. The result has one entry per
   * valid pair, each the log of that pair's ratio, in index order.
   */
  method BuildReturns(prices: Series, log: real -> real) returns (logReturns: seq<real>)
    ensures logReturns == LogReturnsOf(prices, log)
    ensures |logReturns| == |ValidIndices(prices)|
    ensures forall k :: 0 <= k < |logReturns| ==>
      ValidPair(prices, ValidIndices(prices)[k])
      && logReturns[k] == LogReturnAt(prices, ValidIndices(prices)[k], log)
  {
    logReturns := [];
    var i := 1;
    while i < |prices|
      invariant 1 <= i && (i <= |prices| || i == 1)
      invariant logReturns == LogReturnsBelow(prices, i, log)
    {
      var prev := prices[i - 1];
      var curr := prices[i];
      LogReturnsBelowNext(prices, i, log);
      if prev.Some? && curr.Some? && prev.value > 0.0 {
        logReturns := logReturns + [log(curr.value / prev.value)];
      }
      i := i + 1;
    }
    assert logReturns == LogReturnsOf(prices, log) by {
      if |prices| == 0 {
        assert |ValidIndicesBelow(prices, 1)| == 0 && |ValidIndices(prices)| == 0;
      } else {
        assert i == |prices|;
      }
    }
  }

  /** There are at most `|prices| - 1` returns, so none at all for a series shorter than 2. */
  lemma ReturnsBound(prices: Series, log: real -> real)
    ensures |LogReturnsOf(prices, log)| <= if |prices| == 0 then 0 else |prices| - 1
    ensures |prices| < 2 ==> LogReturnsOf(prices, log) == []
  {
  }

  /** A pair is used exactly when it is valid: an index is among the used ones if and only if its pair is valid. */
  lemma ValidIndicesExact(prices: Series, i: int)
    ensures i in ValidIndices(prices) <==> ValidPair(prices, i)
  {
  }

  // ---------------------------------------------------------------------------
  // Mean, population variance, drift and volatility
  // ---------------------------------------------------------------------------

  /** `xs.reduce((a, b) => a + b, 0)`, folded from the left. */
  function Sum(xs: seq<real>): real {
    if xs == [] then 0.0 else Sum(xs[..|xs| - 1]) + xs[|xs| - 1]
  }

  /** `Sum(xs) / xs.length`. */
  function Mean(xs: seq<real>): real
    requires |xs| > 0
  {
    Sum(xs) / (|xs| as real)
  }

  /**
   * The product `a * b`. The squares below are written `Product(d, d)` so
   * that the sign facts about them are derived from the two-factor lemmas
   * that follow.
   */
  function Product(a: real, b: real): real {
    a * b
  }

  /** Two factors of the same sign have a non-negative product. */
  lemma ProductNonNegative(a: real, b: real)
    requires (a >= 0.0 && b >= 0.0) || (a <= 0.0 && b <= 0.0)
    ensures Product(a, b) >= 0.0
  {
  }

  /** Two non-zero factors of the same strict sign have a positive product. */
  lemma ProductPositive(a: real, b: real)
    requires (a > 0.0 && b > 0.0) || (a < 0.0 && b < 0.0)
    ensures Product(a, b) > 0.0
  {
  }

  /** Samples all above c add up to more than n copies of c. */
  lemma {:induction false} SumAbove(xs: seq<real>, c: real)
    requires |xs| > 0
    requires forall i :: 0 <= i < |xs| ==> xs[i] > c
    ensures Sum(xs) > (|xs| as real) * c
  {
    if |xs| > 1 {
      SumAbove(xs[..|xs| - 1], c);
    }
  }

  /** Samples all below c add up to less than n copies of c. */
  lemma {:induction false} SumBelow(xs: seq<real>, c: real)
    requires |xs| > 0
    requires forall i :: 0 <= i < |xs| ==> xs[i] < c
    ensures Sum(xs) < (|xs| as real) * c
  {
    if |xs| > 1 {
      SumBelow(xs[..|xs| - 1], c);
    }
  }

  /** The mean lies within the samples: some sample is at or below it and some sample is at or above it. */
  lemma MeanWithinSamples(xs: seq<real>)
    requires |xs| > 0
    ensures exists i :: 0 <= i < |xs| && xs[i] <= Mean(xs)
    ensures exists j :: 0 <= j < |xs| && xs[j] >= Mean(xs)
  {
    var n := |xs| as real;
    assert n * Mean(xs) == Sum(xs);
    if forall i :: 0 <= i < |xs| ==> xs[i] > Mean(xs) {
      SumAbove(xs, Mean(xs));
      assert false;
    }
    if forall j :: 0 <= j < |xs| ==> xs[j] < Mean(xs) {
      SumBelow(xs, Mean(xs));
      assert false;
    }
  }

  /** A square is never negative, and it is positive unless its root is zero. */
  lemma Square(d: real)
    ensures Product(d, d) >= 0.0
    ensures d != 0.0 ==> Product(d, d) > 0.0
  {
    ProductNonNegative(d, d);
    if d != 0.0 {
      ProductPositive(d, d);
    }
  }

  /** `xs.reduce((a, b) => a + (b - m) ** 2, 0)`: a sum of squares, so never negative. */
  function SumSquaredDeviations(xs: seq<real>, m: real): (r: real)
    ensures r >= 0.0
  {
    if xs == [] then 0.0
    else
      Square(xs[|xs| - 1] - m);
      SumSquaredDeviations(xs[..|xs| - 1], m) + Product(xs[|xs| - 1] - m, xs[|xs| - 1] - m)
  }

  /** Population variance (divided by n, not n - 1); never negative. */
  function Variance(xs: seq<real>): (v: real)
    requires |xs| > 0
    ensures v >= 0.0
  {
    SumSquaredDeviations(xs, Mean(xs)) / (|xs| as real)
  }

  /** The sum of n copies of c is n times c. */
  lemma {:induction false} SumOfConstant(xs: seq<real>, c: real)
    requires forall i :: 0 <= i < |xs| ==> xs[i] == c
    ensures Sum(xs) == (|xs| as real) * c
  {
    if xs != [] {
      SumOfConstant(xs[..|xs| - 1], c);
    }
  }

  /** Deviations from the common value of constant samples add up to zero. */
  lemma {:induction false} DeviationsOfConstant(xs: seq<real>, c: real)
    requires forall i :: 0 <= i < |xs| ==> xs[i] == c
    ensures SumSquaredDeviations(xs, c) == 0.0
  {
    if xs != [] {
      DeviationsOfConstant(xs[..|xs| - 1], c);
    }
  }

  /** One sample away from the centre makes the squared deviations add up to more than zero. */
  lemma {:induction false} DeviationPositive(xs: seq<real>, m: real, i: int)
    requires 0 <= i < |xs| && xs[i] != m
    ensures SumSquaredDeviations(xs, m) > 0.0
  {
    var prefix := xs[..|xs| - 1];
    Square(xs[|xs| - 1] - m);
    if i < |xs| - 1 {
      assert prefix[i] == xs[i];
      DeviationPositive(prefix, m, i);
    }
  }

  /** If all samples equal c, the mean is c and the variance is zero. */
  lemma ConstantSamples(xs: seq<real>, c: real)
    requires |xs| > 0
    requires forall i :: 0 <= i < |xs| ==> xs[i] == c
    ensures Mean(xs) == c
    ensures Variance(xs) == 0.0
  {
    SumOfConstant(xs, c);
    DeviationsOfConstant(xs, c);
  }

  /** The variance is zero exactly when all samples are equal. */
  lemma VarianceZeroIff(xs: seq<real>)
    requires |xs| > 0
    ensures Variance(xs) == 0.0 <==> forall i, j :: 0 <= i < |xs| && 0 <= j < |xs| ==> xs[i] == xs[j]
  {
    if exists i :: 0 <= i < |xs| && xs[i] != Mean(xs) {
      var i :| 0 <= i < |xs| && xs[i] != Mean(xs);
      DeviationPositive(xs, Mean(xs), i);
      assert Variance(xs) > 0.0;
    }
    if forall i, j :: 0 <= i < |xs| && 0 <= j < |xs| ==> xs[i] == xs[j] {
      ConstantSamples(xs, xs[0]);
    }
  }

  /** The two statistics the route reports, in percent. */
  datatype Estimate = Estimate(drift: real, volatility: real)

  /** Drift and volatility in percent: `mean * 100` and `Math.sqrt(variance) * 100`. */
  function EstimateOf(logReturns: seq<real>, sqrt: real -> NonNegReal): (e: Estimate)
    requires |logReturns| > 0
    ensures e.drift == 100.0 * Mean(logReturns)
    ensures e.volatility >= 0.0
    ensures e.volatility == 100.0 * sqrt(Variance(logReturns))
  {
    Estimate(Mean(logReturns) * 100.0, sqrt(Variance(logReturns)) * 100.0)
  }

  /** Constant returns c give drift 100c and the volatility of a zero variance, 100 times sqrt(0). */
  lemma EstimateOfConstant(logReturns: seq<real>, c: real, sqrt: real -> NonNegReal)
    requires |logReturns| > 0
    requires forall i :: 0 <= i < |logReturns| ==> logReturns[i] == c
    ensures EstimateOf(logReturns, sqrt) == Estimate(100.0 * c, 100.0 * sqrt(0.0))
  {
    ConstantSamples(logReturns, c);
  }

  // ---------------------------------------------------------------------------
  // The reported price and the request handler
  // ---------------------------------------------------------------------------

  /** `result?.indicators?.adjclose?.[0]?.adjclose || []`: a missing series is an empty one. */
  function SeriesOf(result: Option<ChartResult>): (prices: Series)
    ensures result.Some? && result.value.adjclose.Some? ==> prices == result.value.adjclose.value
    ensures result.None? || result.value.adjclose.None? ==> prices == []
  {
    if result.Some? then result.value.adjclose.GetOr([]) else []
  }

  /**
   * `regularMarketPrice ?? (prices.length > 0 ? prices[prices.length - 1] : null)`:
   * the market price when present (0 included), otherwise the series' last
   * entry, which may itself be null, otherwise null.
   */
  function PickPrice(result: Option<ChartResult>, prices: Series): (price: Option<real>)
    ensures result.Some? && result.value.regularMarketPrice.Some? ==> price == result.value.regularMarketPrice
    ensures (result.None? || result.value.regularMarketPrice.None?) && prices != [] ==> price == prices[|prices| - 1]
    ensures (result.None? || result.value.regularMarketPrice.None?) && prices == [] ==> price == None
  {
    if result.Some? && result.value.regularMarketPrice.Some? then result.value.regularMarketPrice
    else if |prices| > 0 then prices[|prices| - 1]
    else None
  }

  const MissingSymbol: string := "Missing symbol"
  const FailedToFetch: string := "Failed to fetch data"
  const InsufficientData: string := "Insufficient data for symbol"

  /** The handler. `symbol` is the query parameter (`None` when absent). */
  method Get(symbol: Option<string>, upstream: Upstream, log: real -> real, sqrt: real -> NonNegReal)
    returns (resp: Response)
    ensures symbol.None? || symbol == Some("") ==> resp == Response(400, ErrorMessage(MissingSymbol))
    ensures symbol.Some? && symbol.value != "" ==>
      match upstream
      case TransportError(msg) => resp == Response(500, ErrorMessage("Error: " + msg))
      case Reply(ok, json) =>
        if !ok then resp == Response(500, ErrorMessage(FailedToFetch))
        else match json
          case Unparsable(msg) => resp == Response(500, ErrorMessage("Error: " + msg))
          case Parsed(result) =>
            var logReturns := LogReturnsOf(SeriesOf(result), log);
            if logReturns == [] then resp == Response(500, ErrorMessage(InsufficientData))
            else
              var e := EstimateOf(logReturns, sqrt);
              resp == Response(200, Stats(e.drift, e.volatility, PickPrice(result, SeriesOf(result))))
    ensures resp.status == 200 || resp.status == 400 || resp.status == 500
    ensures resp.status == 200 <==> resp.body.Stats?
    ensures resp.body.Stats? ==> resp.body.volatility >= 0.0
  {
    if symbol.None? || symbol.value == "" {
      return Response(400, ErrorMessage(MissingSymbol));
    }
    match upstream
    case TransportError(msg) =>
      resp := Response(500, ErrorMessage("Error: " + msg));
    case Reply(ok, json) =>
      if !ok {
        return Response(500, ErrorMessage(FailedToFetch));
      }
      match json
      case Unparsable(msg) =>
        resp := Response(500, ErrorMessage("Error: " + msg));
      case Parsed(result) =>
        var prices := SeriesOf(result);
        var logReturns := BuildReturns(prices, log);
        if |logReturns| == 0 {
          return Response(500, ErrorMessage(InsufficientData));
        }
        var e := EstimateOf(logReturns, sqrt);
        resp := Response(200, Stats(e.drift, e.volatility, PickPrice(result, prices)));
  }

  /** The indices of the valid pairs of [100, 110, 121] are 1 and 2. */
  lemma EqualRatiosIndices()
    ensures ValidIndices([Some(100.0), Some(110.0), Some(121.0)]) == [1, 2]
  {
    var prices: Series := [Some(100.0), Some(110.0), Some(121.0)];
    assert ValidIndicesBelow(prices, 1) == [];
    assert ValidPair(prices, 1);
    assert ValidIndicesBelow(prices, 2) == [1];
    assert ValidPair(prices, 2);
  }

  /**
   * Prices [100, 110, 121] rise by the same ratio twice: two returns log(1.1),
   * drift 100 log(1.1) and the volatility of a zero variance.
   */
  lemma EqualRatiosExample(log: real -> real, sqrt: real -> NonNegReal)
    ensures LogReturnsOf([Some(100.0), Some(110.0), Some(121.0)], log) == [log(1.1), log(1.1)]
    ensures EstimateOf([log(1.1), log(1.1)], sqrt) == Estimate(100.0 * log(1.1), 100.0 * sqrt(0.0))
  {
    var prices: Series := [Some(100.0), Some(110.0), Some(121.0)];
    EqualRatiosIndices();
    var r := LogReturnsOf(prices, log);
    assert 110.0 / 100.0 == 1.1 && 121.0 / 110.0 == 1.1;
    assert r[0] == LogReturnAt(prices, 1, log);
    assert r[1] == LogReturnAt(prices, 2, log);
    EstimateOfConstant([log(1.1), log(1.1)], log(1.1), sqrt);
  }
}
