# StockOverflow core in Dafny

StockOverflow is a small web application with a command-line companion.
This project models three parts of it and proves properties of the model:

- **The browser simulator** (`app/brownian/page.js`). Its state is the
  initial price, volatility and drift (in percent), the number of days to
  show, the displayed path and the Idle/Running flag. This becomes the class
  `Brownian.Simulator`. One timer tick (`generateNextPrice`) takes the last
  price, or the initial price when the path is empty. It applies a ± shock
  of the volatility plus the drift, raises the result to the 0.01 floor and
  keeps the newest `days` prices. The model also covers:
  - the start and stop actions;
  - the three input clamps and the drift parse;
  - the symbol normalisation against the ticker table;
  - the rule that colours chart segments green or red.
- **The statistics route** (`app/api/stockstats/route.js`). It checks the
  `symbol` parameter and the upstream outcome. It turns the daily
  adjusted-close series into log-returns, skipping invalid pairs. It then
  computes the mean and the population variance, and reports drift
  (100 × mean), volatility (100 × √variance) and a price chosen by a
  fallback chain. The return-building loop is the method
  `StockStats.BuildReturns`, proved against the specification function
  `StockStats.LogReturnsOf`.
- **The Python simulator** (`stock.py`). `brownian_motion_step` is the same
  binary shock, in decimal units and with no floor. The accumulation loop of
  `simulate_and_plot` is the method `StockPy.SimulatePrices`, proved
  against the function `StockPy.Prices`.

Things outside the model:
- **Randomness** is a parameter. A coin `up` means the positive shock. In
  the browser, `up` stands for `Math.random() >= 0.5`. In Python the coins
  are a function `flip` from the day number to a coin.
- **Logarithm and square root** are the parameters `log: real -> real` and
  `sqrt: real -> NonNegReal`. The only thing assumed of the square root is
  that it is non-negative.
- **The upstream HTTP exchange** is a value of the datatype
  `StockStats.Upstream`.
- **Parsing** is not modelled. `parseFloat`/`parseInt` arrive as
  `Option<real>`/`Option<int>`, and `None` stands for NaN. JavaScript's
  `x || d` treats both NaN and 0 as missing.
- **Numbers** are mathematical reals, not IEEE doubles.

Two details of the code that the model keeps:
- `route.js:38-39` divides by n, so `StockStats.Variance` is the population
  variance.
- `normalizeSymbol` upper-cases first and then trims (`page.js:67`), and so
  does `Brownian.NormalizeSymbol`. `JsString.TrimUpperCaseCommute` proves
  that for the modelled case mapping the two orders give the same string.

## Model

All source paths are in the repository.

| member | source | states |
|---|---|---|
| JsString.ToUpperCase | app/brownian/page.js:67 | Maps each character to its upper-case form, keeps the length, and leaves no lower-case ASCII letter. |
| JsString.Trim | app/brownian/page.js:67 | Returns the input with a leading run and a trailing run removed (a prefix of the suffix left by `TrimStart`); the result starts and ends with non-whitespace. |
| JsString.TrimDropsSpace | app/brownian/page.js:67 | What `trim` removes at either end is white space only. Covers `JsString.TrimStartDropsSpace` and `JsString.TrimEndDropsSpace`. |
| JsString.UpperCasedFixed | app/brownian/page.js:67 | Upper-casing a string that is already upper-cased changes nothing. |
| JsString.TrimKeepsUpperCased | app/brownian/page.js:67 | Trimming an upper-cased string leaves it upper-cased. |
| JsString.UpperCharKeepsSpace | app/brownian/page.js:67 | Case mapping a character never makes or removes white space. |
| JsString.TrimStartUpperCase | app/brownian/page.js:67 | Dropping leading white space commutes with upper-casing. |
| JsString.TrimEndUpperCase | app/brownian/page.js:67 | Dropping trailing white space commutes with upper-casing. |
| JsString.TrimUpperCaseCommute | app/brownian/page.js:67 | `toUpperCase().trim()` equals `trim().toUpperCase()`. |
| Brownian.AddNames | app/brownian/page.js:24-29 | The reduce over the ticker list: every key of the table is a seed key or a ticker's upper-cased name, and every value is a seed value or a ticker's symbol. |
| Brownian.AddNamesKeeps | app/brownian/page.js:24-29 | A seed key that no ticker's upper-cased name equals keeps its seed value. |
| Brownian.AddNamesMaps | app/brownian/page.js:24-26 | A ticker whose upper-cased name no later entry repeats is mapped to its own symbol. |
| Brownian.UpperNamesDistinct | app/brownian/page.js:14-29 | The seven upper-cased company names are pairwise different, and none is GOOGLE. |
| Brownian.NameToSymbolEntries | app/brownian/page.js:24-29 | Covers `Brownian.NameToSymbol`: the table maps GOOGLE to GOOG and each listed company's upper-cased name to its ticker. |
| Brownian.PopularTickersShape | app/brownian/page.js:14-22 | Every listed ticker symbol is exactly four ASCII letters A-Z, and no company name has length 4. |
| Brownian.TickerIsNormal | app/brownian/page.js:14-22 | A four-letter A-Z ticker is upper-cased and has no white space at its ends. |
| Brownian.NameToSymbolShape | app/brownian/page.js:14-29 | In the name table, no key has length 4, and every value is a four-letter A-Z ticker. |
| Brownian.NormalizeSymbol | app/brownian/page.js:66-69 | Returns the table's ticker when the trimmed, upper-cased input is a key, and that string itself otherwise. |
| Brownian.NormalizeSymbolIdempotent | app/brownian/page.js:66-69 | The result is upper-cased and trimmed, and normalising it again returns it unchanged. |
| Brownian.CompanyNamesTrimmed | app/brownian/page.js:14-22 | No listed company name has white space at its ends. |
| Brownian.NormalizeCompanyName | app/brownian/page.js:66-69 | A listed company's name normalises to its ticker (`Apple` to `AAPL`). |
| Brownian.NormalizeTicker | app/brownian/page.js:66-69 | A listed ticker normalises to itself. |
| Brownian.NormalizeGoogle | app/brownian/page.js:27-29 | `Google` normalises to `GOOG` through the seed entry. |
| Brownian.NormalizeKnownSymbols | app/brownian/page.js:14-29 | For every listed ticker, its company name and the ticker itself both normalise to the ticker, and `Google` to `GOOG`. |
| Brownian.ClampInitialPrice | app/brownian/page.js:265 | The initial price is at least 0.01. It is 0.01 for NaN, 0 or small input, and the parsed value when that is at least 0.01. |
| Brownian.ClampVolatility | app/brownian/page.js:280 | Volatility is never negative, and a non-negative parsed value is kept. |
| Brownian.ParseDrift | app/brownian/page.js:293 | Drift is not clamped: any parsed value, negative ones included, is kept, and NaN gives 0. |
| Brownian.ClampDays | app/brownian/page.js:307 | Days lie in [1, 1000]. NaN and 0 give 100, in-range values are kept, negative values give 1, and large values give 1000. |
| Brownian.NextPrice | app/brownian/page.js:47-51 | The new price is at least 0.01. It is either 0.01 or the unfloored step, and it is the unfloored step whenever that reaches 0.01. |
| Brownian.RawStepIsBinaryShock | app/brownian/page.js:47-50 | Before flooring, the step is `last*(1+d/100+v/100)` for the up coin and `last*(1+d/100-v/100)` for the down coin. |
| Brownian.Base | app/brownian/page.js:46 | The step starts from the last path element, or from the initial price when the path is empty. |
| Brownian.SliceFromIsSuffix | app/brownian/page.js:52 | Covers `Brownian.SliceFrom`: one-argument `slice` returns a suffix, of length `min(len, -start)` for a negative start and `max(0, len - start)` otherwise. |
| Brownian.Window | app/brownian/page.js:52 | Keeps the newest `min(len, days)` elements, as a suffix of the input. |
| Brownian.WindowIsSlice | app/brownian/page.js:52 | For `days >= 1`, JavaScript's `slice(-days)` is that window; for `days == 0` it keeps everything. |
| Brownian.WindowAppend | app/brownian/page.js:52 | Windowing after an append equals appending to the window, then windowing again. |
| Brownian.NextPath | app/brownian/page.js:45-53 | After a tick, the length is `min(old+1, days)`, the new price is last, and the surviving old prices are the old path's suffix, in order. |
| Brownian.NextPathAboveFloor | app/brownian/page.js:51-52 | If all old prices are at least 0.01, so are all prices after the tick. |
| Brownian.History | app/brownian/page.js:44-53 | The untruncated run has one price per coin after the starting path, which stays a prefix. The first new price is the floored step from the last starting price, or from the initial price when the path is empty. Each later price is the floored step from the price just before it, with its own coin. |
| Brownian.Run | app/brownian/page.js:44-53 | The path after one tick per coin: no coins leave the path as it was, and after at least one tick it holds between 1 and `days` prices. |
| Brownian.RunIsWindowOfHistory | app/brownian/page.js:52 | Running ticks on a windowed path gives the window of the full history. Cutting at every tick is the same as cutting once at the end. |
| Brownian.RunFromStartLength | app/brownian/page.js:56-57 | A run from `[initialPrice]` shows `min(coins+1, days)` prices: the newest of its history. |
| Brownian.SegmentColour | app/brownian/page.js:113-116 | A segment is green exactly when `p0 <= p1`, and red exactly when `p1 < p0`. |
| Brownian.Simulator.constructor | app/brownian/page.js:32-37 | The initial state: price 100, volatility 1, drift 0.1, 100 days, empty path, Idle. |
| Brownian.Simulator.Start | app/brownian/page.js:56-59 | The path becomes exactly `[initialPrice]` and the simulator runs, whatever came before. The parameters are unchanged and the invariant is kept. |
| Brownian.Simulator.Stop | app/brownian/page.js:61-64 | The simulator goes Idle, and the path and parameters are unchanged. |
| Brownian.Simulator.Step | app/brownian/page.js:44-54 | The path becomes `NextPath` of the old path. The flag and parameters are unchanged. All prices stay at or above 0.01, and a running path stays between 1 and `days` long. |
| Brownian.Simulator.SetInitialPrice | app/brownian/page.js:262-266 | Only while Idle, the initial price becomes the clamped input. Nothing else changes. |
| Brownian.Simulator.SetVolatility | app/brownian/page.js:277-281 | Only while Idle, the volatility becomes the clamped input. Nothing else changes. |
| Brownian.Simulator.SetDrift | app/brownian/page.js:291-293 | Only while Idle, the drift becomes the parsed input. Nothing else changes. |
| Brownian.Simulator.SetDays | app/brownian/page.js:304-308 | Only while Idle, days becomes the clamped input. Nothing else changes, and a longer path is only cut at the next tick. |
| Brownian.RunAndStopTwice | app/brownian/page.js:44-64 | The caller starts, ticks once per coin, and stops twice. Afterwards the four parameters are unchanged, the path is the newest `days` prices of the run from the old initial price, and the simulator is Idle and valid. |
| StockStats.ValidIndicesBelow | app/api/stockstats/route.js:24-29 | The indices whose pair is valid (`prev` and `curr` present, `prev > 0`), increasing and complete. There are at most `n - 1` of them. |
| StockStats.LogReturnsBelowNext | app/api/stockstats/route.js:24-29 | One more iteration appends the pair's log-ratio exactly when the pair is valid. |
| StockStats.LogReturnsOf | app/api/stockstats/route.js:23-30 | The reference result of the loop: one return per valid pair of the series, in index order, each the log of that pair's ratio. |
| StockStats.BuildReturns | app/api/stockstats/route.js:23-30 | The loop yields exactly `LogReturnsOf`: one entry per valid pair, in index order, each the log of that pair's ratio. |
| StockStats.ReturnsBound | app/api/stockstats/route.js:23-30 | There are at most `max(0, len-1)` returns, and none for a series shorter than 2. |
| StockStats.ValidIndicesExact | app/api/stockstats/route.js:27 | An index contributes a return if and only if its pair is valid. |
| StockStats.SumAbove | app/api/stockstats/route.js:37 | Covers `StockStats.Sum`: samples all above c add up to more than n × c. |
| StockStats.SumBelow | app/api/stockstats/route.js:37 | Samples all below c add up to less than n × c. |
| StockStats.MeanWithinSamples | app/api/stockstats/route.js:37 | Covers `StockStats.Mean`: some return is at or below the mean and some is at or above it. |
| StockStats.SumSquaredDeviations | app/api/stockstats/route.js:39 | The folded sum of squared deviations is never negative. |
| StockStats.Variance | app/api/stockstats/route.js:38-39 | The population variance is never negative. |
| StockStats.ConstantSamples | app/api/stockstats/route.js:37-39 | If all returns equal c, the mean is c and the variance is 0. |
| StockStats.DeviationPositive | app/api/stockstats/route.js:39 | One sample away from the centre makes the sum of squared deviations positive. |
| StockStats.VarianceZeroIff | app/api/stockstats/route.js:37-39 | The variance is 0 if and only if all returns are equal. |
| StockStats.EstimateOf | app/api/stockstats/route.js:40-41 | Drift is 100 × mean. Volatility is 100 × √variance, so it is never negative. |
| StockStats.EstimateOfConstant | app/api/stockstats/route.js:37-41 | Constant returns c give drift 100c and volatility 100 × √0. |
| StockStats.EqualRatiosIndices | app/api/stockstats/route.js:24-29 | For [100, 110, 121], both pairs are valid. |
| StockStats.EqualRatiosExample | app/api/stockstats/route.js:23-41 | [100, 110, 121] gives the returns [log 1.1, log 1.1], drift 100 log 1.1 and the volatility of zero variance. |
| StockStats.SeriesOf | app/api/stockstats/route.js:21-22 | A missing result or a missing series is the empty series; otherwise the series itself. |
| StockStats.PickPrice | app/api/stockstats/route.js:42-44 | The market price when present (0 included); otherwise the last series entry (possibly null); otherwise null. |
| StockStats.Get | app/api/stockstats/route.js:3-49 | Lists every branch. A missing or empty symbol gives 400 "Missing symbol". A transport or parse failure gives 500 "Error: " + message. A non-ok reply gives 500 "Failed to fetch data". No returns gives 500 "Insufficient data for symbol". Otherwise 200 with drift, volatility and price together. Status is 200 exactly for a statistics body, whose volatility is never negative. |
| StockPy.Shock | stock.py:7 | The shock is `+volatility` or `-volatility`, and for non-zero volatility the coin decides which. |
| StockPy.Factor | stock.py:7-8 | The move factor is `1+d-v` or `1+d+v`, and `1+d` when volatility is 0. |
| StockPy.BrownianMotionStep | stock.py:6-8 | The result is exactly `p*(1+d-v)` (down) or `p*(1+d+v)` (up), and `p*(1+d)` when volatility is 0. |
| StockPy.NoFloor | stock.py:8 | There is no floor: a positive price steps to a non-positive one when `1+d-v <= 0` and the coin is down. |
| StockPy.NegativePriceExample | stock.py:8 | 100 with drift -0.6 and volatility 0.5, coin down, steps to -10. |
| StockPy.BrowserStepIsFlooredStep | stock.py:6-8 | The browser's tick in percent units is this step in decimal units, raised to the 0.01 floor. |
| StockPy.Prices | stock.py:11-24 | The list has `max(1, days)` prices. It starts at the initial price, and day k's price is the step from day k-1's with day k's coin. |
| StockPy.PricesPrefix | stock.py:22-24 | Simulating more days keeps the earlier days unchanged. |
| StockPy.DeterministicPath | stock.py:22-24 | With volatility 0, day k holds `initial*(1+d)^k`. |
| StockPy.PositivePath | stock.py:22-24 | If both move factors are positive, a positive start stays positive on every day. |
| StockPy.SimulatePrices | stock.py:10-24 | The loop yields exactly `Prices`: `max(1, days)` prices, the first the initial one, each later one the step from the previous. |

## Left out

- The upstream HTTP request: the URL, headers, `NextResponse`, and `res.json()` itself. It is I/O; its outcome is the `Upstream` parameter of `StockStats.Get`.
- React rendering, `useState`/`useEffect` wiring, the `setInterval`/`clearInterval` timer and the suggestions drop-down. These are UI and scheduling. A tick is a call of `Brownian.Simulator.Step`, and clearing the interval belongs to the timer.
- Whether a tick fires while Idle: nothing in `generateNextPrice` checks `isRunning`. `Brownian.Simulator.Step` can therefore be called in either state, and the empty-path fallback to the initial price is reachable.
- `fetchStats`: network access, the `toFixed(2)` rounding and `parseFloat` of its strings. These are network and float formatting. It writes the parameters directly and so bypasses the input clamps, which the model does not capture. So does the following. The Fetch button is not disabled while running (`page.js:247`), so a fetch can change the parameters during a run. Ticks already running keep the values captured when the run started, because the timer effect depends only on `isRunning` (`page.js:95-100`). A fetched price below 0.005 becomes 0 through `toFixed(2)` (`page.js:83-84`), so in the page `Brownian.Simulator.Valid()`'s `initialPrice >= 0.01` can fail and the first displayed price can be 0.
- Chart.js options beyond the segment colour rule, including the y-axis minimum of 0.95 × the smallest price. These are presentation.
- IEEE floating point: NaN and -Infinity from the logarithm of 0 or of a negative ratio, overflow, and rounding. The model uses mathematical reals.
- String parsing by `parseFloat`/`parseInt`. Its result enters as an `Option`.
- Non-ASCII case mapping in `toUpperCase`. Only ASCII letters are mapped.
- StockStats.EstimateOf: the square root is a parameter about which only non-negativity is known, so volatility is related to the variance only through that parameter.
- A `chart.result[0]` whose `adjclose` is present but not an array. The series is either absent or a sequence.
- The default arguments of `simulate_and_plot` (`stock.py:10`). The script's only call passes all four, so `StockPy.SimulatePrices` takes them as plain parameters.
- All of matplotlib, `input()`, `time.sleep` and `plt.pause` in `stock.py`. These are I/O.
- `app/page.js`, which only navigates between pages.
