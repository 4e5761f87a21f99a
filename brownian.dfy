/**
 * The bounded price-path simulator of the Brownian motion page: the tick
 * step with its 0.01 floor and sliding window, the Idle/Running state
 * machine, the input clamps, the symbol normaliser over the fixed
 * name-to-ticker table, and the up/down colour rule for chart segments.
 */
module Brownian {
  import opened Wrappers
  import opened JsString

  /** Floor applied to every simulated price, and the lower bound of the initial-price input. */
  const MinPrice: real := 0.01
  /** Bounds and default of the "Days (Max Points to Show)" input. */
  const MaxDays: int := 1000
  const DefaultDays: int := 100

  // ---------------------------------------------------------------------------
  // Ticker table and symbol normalisation
  // ---------------------------------------------------------------------------

  datatype Ticker = Ticker(symbol: string, name: string)

  /** The suggestion list offered under the symbol input. */
  const PopularTickers: seq<Ticker> := [
    Ticker("AAPL", "Apple"),
    Ticker("AMZN", "Amazon"),
    Ticker("MSFT", "Microsoft"),
    Ticker("GOOG", "Alphabet"),
    Ticker("NVDA", "NVIDIA"),
    Ticker("META", "Meta Platforms"),
    Ticker("TSLA", "Tesla")
  ]

  /** The reduce that builds the table: each ticker's upper-cased name is mapped to its symbol, later entries winning. */
  function AddNames(ts: seq<Ticker>, acc: map<string, string>): (m: map<string, string>)
    ensures forall k :: k in m ==> k in acc || exists t :: t in ts && k == ToUpperCase(t.name)
    ensures forall k :: k in m ==> m[k] in acc.Values || exists t :: t in ts && m[k] == t.symbol
  {
    if ts == [] then acc
    else AddNames(ts[1..], acc[ToUpperCase(ts[0].name) := ts[0].symbol])
  }

  /** A seed key that no ticker's upper-cased name equals keeps its seed value. */
  lemma {:induction false} AddNamesKeeps(ts: seq<Ticker>, acc: map<string, string>, k: string)
    requires k in acc
    requires forall t :: t in ts ==> ToUpperCase(t.name) != k
    ensures k in AddNames(ts, acc) && AddNames(ts, acc)[k] == acc[k]
  {
    if ts != [] {
      assert forall t :: t in ts[1..] ==> t in ts;
      AddNamesKeeps(ts[1..], acc[ToUpperCase(ts[0].name) := ts[0].symbol], k);
    }
  }

  /** A ticker whose upper-cased name no later entry repeats ends up mapped to its own symbol. */
  lemma {:induction false} AddNamesMaps(ts: seq<Ticker>, acc: map<string, string>, i: int)
    requires 0 <= i < |ts|
    requires forall j :: i < j < |ts| ==> ToUpperCase(ts[j].name) != ToUpperCase(ts[i].name)
    ensures ToUpperCase(ts[i].name) in AddNames(ts, acc)
    ensures AddNames(ts, acc)[ToUpperCase(ts[i].name)] == ts[i].symbol
  {
    var next := acc[ToUpperCase(ts[0].name) := ts[0].symbol];
    if i == 0 {
      forall t | t in ts[1..]
        ensures ToUpperCase(t.name) != ToUpperCase(ts[0].name)
      {
        var j :| 0 <= j < |ts[1..]| && ts[1..][j] == t;
        assert ts[j + 1] == t;
      }
      AddNamesKeeps(ts[1..], next, ToUpperCase(ts[0].name));
    } else {
      forall j | i - 1 < j < |ts[1..]|
        ensures ToUpperCase(ts[1..][j].name) != ToUpperCase(ts[1..][i - 1].name)
      {
        assert ts[1..][j] == ts[j + 1];
      }
      AddNamesMaps(ts[1..], next, i - 1);
    }
  }

  /** `NAME_TO_SYMBOL`: upper-cased company name to ticker, seeded with the extra entry GOOGLE. */
  function NameToSymbol(): map<string, string> {
    AddNames(PopularTickers, map["GOOGLE" := "GOOG"])
  }

  /** The upper-cased names of the list are pairwise different, and none of them is the seed key GOOGLE. */
  lemma UpperNamesDistinct()
    ensures forall i, j :: 0 <= i < j < |PopularTickers| ==>
      ToUpperCase(PopularTickers[i].name) != ToUpperCase(PopularTickers[j].name)
    ensures forall t :: t in PopularTickers ==> ToUpperCase(t.name) != "GOOGLE"
  {
    forall i, j | 0 <= i < j < |PopularTickers|
      ensures ToUpperCase(PopularTickers[i].name) != ToUpperCase(PopularTickers[j].name)
    {
      var a := PopularTickers[i].name;
      var b := PopularTickers[j].name;
      if |a| == |b| {
        assert ToUpperCase(a)[0] == UpperChar(a[0]) && ToUpperCase(b)[0] == UpperChar(b[0]);
      }
    }
    forall t | t in PopularTickers
      ensures ToUpperCase(t.name) != "GOOGLE"
    {
      if |t.name| == 6 {
        assert ToUpperCase(t.name)[0] == UpperChar(t.name[0]);
      }
    }
  }

  /** The table maps GOOGLE to GOOG and every listed company's upper-cased name to its ticker. */
  lemma NameToSymbolEntries()
    ensures "GOOGLE" in NameToSymbol() && NameToSymbol()["GOOGLE"] == "GOOG"
    ensures forall i :: 0 <= i < |PopularTickers| ==>
      ToUpperCase(PopularTickers[i].name) in NameToSymbol()
      && NameToSymbol()[ToUpperCase(PopularTickers[i].name)] == PopularTickers[i].symbol
  {
    UpperNamesDistinct();
    AddNamesKeeps(PopularTickers, map["GOOGLE" := "GOOG"], "GOOGLE");
    forall i | 0 <= i < |PopularTickers|
      ensures ToUpperCase(PopularTickers[i].name) in NameToSymbol()
      ensures NameToSymbol()[ToUpperCase(PopularTickers[i].name)] == PopularTickers[i].symbol
    {
      AddNamesMaps(PopularTickers, map["GOOGLE" := "GOOG"], i);
    }
  }

  /** Every ticker in the list has a name whose length is not 4 and a 4-letter upper-case symbol. */
  lemma PopularTickersShape()
    ensures forall t :: t in PopularTickers ==> |t.name| != 4 && IsTicker(t.symbol)
  {
    forall t | t in PopularTickers
      ensures |t.name| != 4 && IsTicker(t.symbol)
    {
      var i :| 0 <= i < |PopularTickers| && PopularTickers[i] == t;
      assert 'A' <= t.symbol[0] <= 'Z' && 'A' <= t.symbol[1] <= 'Z';
      assert 'A' <= t.symbol[2] <= 'Z' && 'A' <= t.symbol[3] <= 'Z';
    }
  }

  predicate IsCapital(c: char) {
    'A' <= c <= 'Z'
  }

  /** Four ASCII upper-case letters. */
  ghost predicate IsTicker(s: string) {
    |s| == 4 && IsCapital(s[0]) && IsCapital(s[1]) && IsCapital(s[2]) && IsCapital(s[3])
  }

  /** A ticker is upper-cased and has no white space at its ends. */
  lemma TickerIsNormal(s: string)
    requires IsTicker(s)
    ensures IsUpperCased(s) && IsTrimmed(s)
  {
  }

  /** Keys that are not 4 long and ticker-shaped values survive every step of the reduce. */
  lemma {:induction false} AddNamesShape(ts: seq<Ticker>, acc: map<string, string>)
    requires forall t :: t in ts ==> |t.name| != 4 && IsTicker(t.symbol)
    requires forall k :: k in acc ==> |k| != 4 && IsTicker(acc[k])
    ensures forall k :: k in AddNames(ts, acc) ==> |k| != 4 && IsTicker(AddNames(ts, acc)[k])
  {
    if ts != [] {
      AddNamesShape(ts[1..], acc[ToUpperCase(ts[0].name) := ts[0].symbol]);
    }
  }

  /** No key of the table has length 4, and every value is a ticker of four upper-case letters. */
  lemma NameToSymbolShape()
    ensures forall k :: k in NameToSymbol() ==> |k| != 4 && IsTicker(NameToSymbol()[k])
  {
    PopularTickersShape();
    var seed := map["GOOGLE" := "GOOG"];
    assert IsTicker("GOOG") by {
      assert 'A' <= "GOOG"[0] <= 'Z' && 'A' <= "GOOG"[1] <= 'Z';
      assert 'A' <= "GOOG"[2] <= 'Z' && 'A' <= "GOOG"[3] <= 'Z';
    }
    assert forall k :: k in seed ==> k == "GOOGLE" && seed[k] == "GOOG";
    AddNamesShape(PopularTickers, seed);
  }

  /** `normalizeSymbol`: upper-case and trim, then replace a known company name by its ticker. */
  function NormalizeSymbol(value: string): (r: string)
    ensures var upper := Trim(ToUpperCase(value));
      (upper in NameToSymbol() ==> r == NameToSymbol()[upper])
      && (upper !in NameToSymbol() ==> r == upper)
  {
    var upper := Trim(ToUpperCase(value));
    if upper in NameToSymbol() then NameToSymbol()[upper] else upper
  }

  /** Every normalised symbol is upper-cased and trimmed, and normalising it again changes nothing. */
  lemma NormalizeSymbolIdempotent(value: string)
    ensures IsUpperCased(NormalizeSymbol(value)) && IsTrimmed(NormalizeSymbol(value))
    ensures NormalizeSymbol(NormalizeSymbol(value)) == NormalizeSymbol(value)
  {
    NameToSymbolShape();
    var upper := Trim(ToUpperCase(value));
    TrimKeepsUpperCased(ToUpperCase(value));
    var r := NormalizeSymbol(value);
    if upper in NameToSymbol() {
      assert IsTicker(r);
      TickerIsNormal(r);
    }
    assert IsUpperCased(r) && IsTrimmed(r);
    UpperCasedFixed(r);
    TrimmedFixed(r);
    assert Trim(ToUpperCase(r)) == r;
    assert r !in NameToSymbol();
  }

  /** No listed company name has white space at its ends. */
  lemma CompanyNamesTrimmed(i: int)
    requires 0 <= i < |PopularTickers|
    ensures IsTrimmed(PopularTickers[i].name)
  {
  }

  /** A listed company's name normalises to its ticker. */
  lemma NormalizeCompanyName(i: int)
    requires 0 <= i < |PopularTickers|
    ensures NormalizeSymbol(PopularTickers[i].name) == PopularTickers[i].symbol
  {
    var name := PopularTickers[i].name;
    CompanyNamesTrimmed(i);
    TrimmedFixed(name);
    TrimUpperCaseCommute(name);
    NameToSymbolEntries();
  }

  /** A listed ticker normalises to itself. */
  lemma NormalizeTicker(i: int)
    requires 0 <= i < |PopularTickers|
    ensures NormalizeSymbol(PopularTickers[i].symbol) == PopularTickers[i].symbol
  {
    var sym := PopularTickers[i].symbol;
    PopularTickersShape();
    assert PopularTickers[i] in PopularTickers;
    TickerIsNormal(sym);
    UpperCasedFixed(sym);
    TrimmedFixed(sym);
    NameToSymbolShape();
  }

  /** The extra name, in any case, normalises to GOOG. */
  lemma NormalizeGoogle()
    ensures NormalizeSymbol("Google") == "GOOG"
  {
    var g := ToUpperCase("Google");
    assert g == "GOOGLE" by {
      assert g[0] == 'G' && g[1] == 'O' && g[2] == 'O' && g[3] == 'G' && g[4] == 'L' && g[5] == 'E';
    }
    TrimmedFixed(g);
    NameToSymbolEntries();
  }

  /**
   * Against this table a listed company's name normalises to its ticker, a
   * ticker normalises to itself, and the extra name Google to GOOG.
   */
  lemma NormalizeKnownSymbols()
    ensures forall i :: 0 <= i < |PopularTickers| ==> NormalizeSymbol(PopularTickers[i].name) == PopularTickers[i].symbol
    ensures forall i :: 0 <= i < |PopularTickers| ==> NormalizeSymbol(PopularTickers[i].symbol) == PopularTickers[i].symbol
    ensures NormalizeSymbol("Google") == "GOOG"
  {
    forall i | 0 <= i < |PopularTickers|
      ensures NormalizeSymbol(PopularTickers[i].name) == PopularTickers[i].symbol
      ensures NormalizeSymbol(PopularTickers[i].symbol) == PopularTickers[i].symbol
    {
      NormalizeCompanyName(i);
      NormalizeTicker(i);
    }
    NormalizeGoogle();
  }

  // ---------------------------------------------------------------------------
  // Input clamps (the onChange handlers of the parameter inputs)
  // ---------------------------------------------------------------------------

  // An argument of `None` is a parse that gave NaN. JavaScript's `x || d`
  // replaces both NaN and 0 by the default `d`.

  /** `Math.max(0.01, parseFloat(v) || 0.01)`: at least 0.01, the parsed value when that is at least 0.01. */
  function ClampInitialPrice(parsed: Option<real>): (p: real)
    ensures p >= MinPrice
    ensures p == MinPrice || parsed == Some(p)
    ensures parsed.Some? && parsed.value >= MinPrice ==> p == parsed.value
  {
    var v := if parsed.None? || parsed.value == 0.0 then MinPrice else parsed.value;
    if MinPrice >= v then MinPrice else v
  }

  /** `Math.max(0, parseFloat(v) || 0)`: never negative, the parsed value when that is non-negative. */
  function ClampVolatility(parsed: Option<real>): (vol: real)
    ensures vol >= 0.0
    ensures vol == 0.0 || parsed == Some(vol)
    ensures parsed.Some? && parsed.value >= 0.0 ==> vol == parsed.value
  {
    var v := if parsed.None? || parsed.value == 0.0 then 0.0 else parsed.value;
    if 0.0 >= v then 0.0 else v
  }

  /** `parseFloat(v) || 0`: drift is not clamped, so any parsed value, negative ones included, is kept. */
  function ParseDrift(parsed: Option<real>): (d: real)
    ensures parsed.Some? ==> d == parsed.value
    ensures parsed.None? ==> d == 0.0
  {
    parsed.GetOr(0.0)
  }

  /**
   * `Math.min(1000, Math.max(1, parseInt(v) || 100))`: always in [1, 1000];
   * NaN and 0 both give the default 100, negative values give 1.
   */
  function ClampDays(parsed: Option<int>): (d: int)
    ensures 1 <= d <= MaxDays
    ensures parsed.None? || parsed == Some(0) ==> d == DefaultDays
    ensures parsed.Some? && 1 <= parsed.value <= MaxDays ==> d == parsed.value
    ensures parsed.Some? && parsed.value < 0 ==> d == 1
    ensures parsed.Some? && parsed.value > MaxDays ==> d == MaxDays
  {
    var v := if parsed.None? || parsed.value == 0 then DefaultDays else parsed.value;
    var atLeastOne := if 1 >= v then 1 else v;
    if MaxDays <= atLeastOne then MaxDays else atLeastOne
  }

  // ---------------------------------------------------------------------------
  // The tick step
  // ---------------------------------------------------------------------------

  /** The unfloored step: `last * (1 + drift/100 + change)` with change = +vol/100 when `up`, -vol/100 otherwise. */
  function RawStep(last: real, driftPct: real, volPct: real, up: bool): real {
    last * (1.0 + driftPct / 100.0 + (if up then volPct / 100.0 else -(volPct / 100.0)))
  }

  /**
   * The new price of a tick: the unfloored step raised to 0.01 when it falls
   * below. The coin `up` stands for `Math.random() >= 0.5`.
   */
  function NextPrice(last: real, driftPct: real, volPct: real, up: bool): (p: real)
    ensures p >= MinPrice
    ensures p == MinPrice || p == RawStep(last, driftPct, volPct, up)
    ensures RawStep(last, driftPct, volPct, up) >= MinPrice ==> p == RawStep(last, driftPct, volPct, up)
  {
    var raw := RawStep(last, driftPct, volPct, up);
    if raw < MinPrice then MinPrice else raw
  }

  /** The step is one of exactly two multiplicative moves before flooring, and the coin selects which. */
  lemma RawStepIsBinaryShock(last: real, driftPct: real, volPct: real, up: bool)
    ensures up ==> RawStep(last, driftPct, volPct, up) == last * (1.0 + driftPct / 100.0 + volPct / 100.0)
    ensures !up ==> RawStep(last, driftPct, volPct, up) == last * (1.0 + driftPct / 100.0 - volPct / 100.0)
  {
  }

  /** `prev[prev.length - 1] ?? initialPrice`: the last price of the path, or the initial price for an empty path. */
  function Base(prev: seq<real>, initialPrice: real): (b: real)
    ensures prev != [] ==> b == prev[|prev| - 1]
    ensures prev == [] ==> b == initialPrice
  {
    if |prev| == 0 then initialPrice else prev[|prev| - 1]
  }

  /**
   * JavaScript's `s.slice(start)` for an integer start: a negative start
   * counts from the end and is cut off at 0, a non-negative one is cut off at
   * the length.
   */
  function SliceFrom<T>(s: seq<T>, start: int): seq<T> {
    if start < 0 then (if |s| + start < 0 then s else s[|s| + start..])
    else if start < |s| then s[start..] else []
  }

  /**
   * `slice` with one argument always returns a suffix: of length `-start`
   * (at most the whole) for a negative start, and of the elements from
   * `start` on for a non-negative one.
   */
  lemma SliceFromIsSuffix<T>(s: seq<T>, start: int)
    ensures |SliceFrom(s, start)| == if start < 0 then (if |s| + start < 0 then |s| else -start)
                                     else (if start < |s| then |s| - start else 0)
    ensures SliceFrom(s, start) == s[|s| - |SliceFrom(s, start)|..]
  {
  }

  /** The newest `days` elements of `s` (all of them when there are fewer): a suffix of `s`. */
  function Window<T>(s: seq<T>, days: int): (r: seq<T>)
    requires days >= 1
    ensures |r| == if |s| < days then |s| else days
    ensures r == s[|s| - |r|..]
  {
    if |s| <= days then s else s[|s| - days..]
  }

  /**
   * `s.slice(-days)` is that window for every `days` of at least 1; with
   * `days` = 0 it would be the whole of `s`, since -0 is 0.
   */
  lemma WindowIsSlice<T>(s: seq<T>, days: int)
    ensures days >= 1 ==> SliceFrom(s, -days) == Window(s, days)
    ensures days == 0 ==> SliceFrom(s, -days) == s
  {
  }

  /** Windowing first and appending afterwards gives the same window as appending to the whole history. */
  lemma WindowAppend<T>(history: seq<T>, x: T, days: int)
    requires days >= 1
    ensures Window(Window(history, days) + [x], days) == Window(history + [x], days)
  {
    if |history| >= days {
      var w := history[|history| - days..];
      assert Window(history, days) == w;
      assert Window(w + [x], days) == (w + [x])[1..];
      assert (w + [x])[1..] == history[|history| - days + 1..] + [x];
      assert Window(history + [x], days) == (history + [x])[|history| + 1 - days..];
      assert (history + [x])[|history| + 1 - days..] == history[|history| - days + 1..] + [x];
    }
  }

  /**
   * The updater passed to `setDataPoints` on each tick,
   * `[...prev, newPrice].slice(-days)`: append the floored step from the
   * path's base and keep the newest `days` prices.
   */
  function NextPath(prev: seq<real>, initialPrice: real, driftPct: real, volPct: real, days: int, up: bool): (path: seq<real>)
    requires days >= 1
    ensures |path| == if |prev| + 1 < days then |prev| + 1 else days
    ensures path[|path| - 1] == NextPrice(Base(prev, initialPrice), driftPct, volPct, up)
    ensures forall i :: 0 <= i < |path| - 1 ==> path[i] == prev[|prev| - (|path| - 1) + i]
  {
    var next := NextPrice(Base(prev, initialPrice), driftPct, volPct, up);
    var s := prev + [next];
    WindowIsSlice(s, days);
    var w := Window(s, days);
    assert w[|w| - 1] == s[|s| - 1];
    assert forall i :: 0 <= i < |w| - 1 ==> w[i] == s[|s| - |w| + i] && s[|s| - |w| + i] == prev[|prev| + 1 - |w| + i];
    SliceFrom(s, -days)
  }

  /** A tick keeps every price of the path at or above the floor. */
  lemma NextPathAboveFloor(prev: seq<real>, initialPrice: real, driftPct: real, volPct: real, days: int, up: bool)
    requires days >= 1
    requires forall i :: 0 <= i < |prev| ==> prev[i] >= MinPrice
    ensures forall i :: 0 <= i < |NextPath(prev, initialPrice, driftPct, volPct, days, up)| ==>
      NextPath(prev, initialPrice, driftPct, volPct, days, up)[i] >= MinPrice
  {
  }

  // ---------------------------------------------------------------------------
  // Many ticks: the displayed path is the newest part of the whole run
  // ---------------------------------------------------------------------------

  /** The unbounded history of a run: `prev` followed by one new price per coin, never truncated. */
  function History(prev: seq<real>, initialPrice: real, driftPct: real, volPct: real, coins: seq<bool>): (h: seq<real>)
    ensures |h| == |prev| + |coins|
    ensures h[..|prev|] == prev
    ensures coins != [] ==> h[|prev|] == NextPrice(Base(prev, initialPrice), driftPct, volPct, coins[0])
    ensures forall k :: |prev| < k < |h| ==> h[k] == NextPrice(h[k - 1], driftPct, volPct, coins[k - |prev|])
  {
    if coins == [] then prev
    else
      var rest := coins[..|coins| - 1];
      var before := History(prev, initialPrice, driftPct, volPct, rest);
      var h := before + [NextPrice(Base(before, initialPrice), driftPct, volPct, coins[|coins| - 1])];
      assert forall k :: 0 <= k < |before| ==> h[k] == before[k];
      assert forall i :: 0 <= i < |rest| ==> rest[i] == coins[i];
      h
  }

  /** The displayed path after one tick per coin, in order. */
  function Run(prev: seq<real>, initialPrice: real, driftPct: real, volPct: real, days: int, coins: seq<bool>): (path: seq<real>)
    requires days >= 1
    ensures coins == [] ==> path == prev
    ensures coins != [] ==> 1 <= |path| <= days
  {
    if coins == [] then prev
    else NextPath(Run(prev, initialPrice, driftPct, volPct, days, coins[..|coins| - 1]),
                  initialPrice, driftPct, volPct, days, coins[|coins| - 1])
  }

  /** The window has the same last price as its history, so a tick starts from the same base. */
  lemma BaseOfWindow(h: seq<real>, initialPrice: real, days: int)
    requires days >= 1
    ensures Base(Window(h, days), initialPrice) == Base(h, initialPrice)
  {
  }

  /**
   * However many ticks run, the displayed path is exactly the newest `days`
   * prices of the run's whole history, in the order they were generated.
   */
  lemma {:induction false} RunIsWindowOfHistory(h: seq<real>, initialPrice: real, driftPct: real, volPct: real,
                                                days: int, coins: seq<bool>)
    requires days >= 1
    ensures Run(Window(h, days), initialPrice, driftPct, volPct, days, coins)
         == Window(History(h, initialPrice, driftPct, volPct, coins), days)
  {
    if coins != [] {
      var earlier := coins[..|coins| - 1];
      var before := History(h, initialPrice, driftPct, volPct, earlier);
      RunIsWindowOfHistory(h, initialPrice, driftPct, volPct, days, earlier);
      var x := NextPrice(Base(before, initialPrice), driftPct, volPct, coins[|coins| - 1]);
      BaseOfWindow(before, initialPrice, days);
      WindowIsSlice(Window(before, days) + [x], days);
      WindowAppend(before, x, days);
    }
  }

  /** A run started by `startSimulation` shows at most `days` prices, exactly `days` once that many have been generated. */
  lemma RunFromStartLength(initialPrice: real, driftPct: real, volPct: real, days: int, coins: seq<bool>)
    requires days >= 1
    ensures var path := Run([initialPrice], initialPrice, driftPct, volPct, days, coins);
      |path| == (if |coins| + 1 < days then |coins| + 1 else days)
      && path == Window(History([initialPrice], initialPrice, driftPct, volPct, coins), days)
  {
    RunIsWindowOfHistory([initialPrice], initialPrice, driftPct, volPct, days, coins);
  }

  // ---------------------------------------------------------------------------
  // Chart segment colour
  // ---------------------------------------------------------------------------

  datatype Colour = Green | Red

  /** A segment from `p0` to `p1` is drawn green exactly when the price does not fall, red otherwise. */
  function SegmentColour(p0: real, p1: real): (c: Colour)
    ensures c == Green <==> p0 <= p1
    ensures c == Red <==> p1 < p0
  {
    if p0 <= p1 then Green else Red
  }

  // ---------------------------------------------------------------------------
  // The simulator component's state
  // ---------------------------------------------------------------------------

  /**
   * The component's state: the four parameters, the displayed path
   * (`dataPoints`) and the Idle/Running flag (`isRunning`).
   */
  class Simulator {
    var initialPrice: real
    var volatility: real
    var drift: real
    var days: int
    var path: seq<real>
    var running: bool

    /**
     * The clamped parameters are in range, every displayed price is at or
     * above the floor, and while running the path is non-empty and at most
     * `days` long.
     */
    ghost predicate Valid()
      reads this
    {
      initialPrice >= MinPrice && volatility >= 0.0 && 1 <= days <= MaxDays
      && (forall i :: 0 <= i < |path| ==> path[i] >= MinPrice)
      && (running ==> 1 <= |path| <= days)
    }

    /** The state's initial values: price 100, volatility 1 %, drift 0.1 %, 100 days, empty path, Idle. */
    constructor ()
      ensures Valid()
      ensures initialPrice == 100.0 && volatility == 1.0 && drift == 0.1 && days == DefaultDays
      ensures path == [] && !running
    {
      initialPrice, volatility, drift, days := 100.0, 1.0, 0.1, DefaultDays;
      path, running := [], false;
    }

    /** `startSimulation`: the path becomes exactly `[initialPrice]` and the simulator runs, whatever came before. */
    method Start()
      requires Valid()
      modifies this
      ensures Valid()
      ensures path == [initialPrice] && running
      ensures initialPrice == old(initialPrice) && volatility == old(volatility)
      ensures drift == old(drift) && days == old(days)
    {
      path := [initialPrice];
      running := true;
    }

    /** `stopSimulation`: the simulator goes Idle and the path is kept for display. */
    method Stop()
      requires Valid()
      modifies this
      ensures Valid()
      ensures !running && path == old(path)
      ensures initialPrice == old(initialPrice) && volatility == old(volatility)
      ensures drift == old(drift) && days == old(days)
    {
      running := false;
    }

    /** One tick of the timer (`generateNextPrice`): the path becomes `NextPath` of the old path, nothing else changes. */
    method Step(up: bool)
      requires Valid()
      modifies this
      ensures Valid()
      ensures path == NextPath(old(path), initialPrice, drift, volatility, days, up)
      ensures running == old(running)
      ensures initialPrice == old(initialPrice) && volatility == old(volatility)
      ensures drift == old(drift) && days == old(days)
    {
      NextPathAboveFloor(path, initialPrice, drift, volatility, days, up);
      path := NextPath(path, initialPrice, drift, volatility, days, up);
    }

    /** The initial-price input, editable only while Idle. */
    method SetInitialPrice(parsed: Option<real>)
      requires Valid() && !running
      modifies this
      ensures Valid()
      ensures initialPrice == ClampInitialPrice(parsed)
      ensures volatility == old(volatility) && drift == old(drift) && days == old(days)
      ensures path == old(path) && running == old(running)
    {
      initialPrice := ClampInitialPrice(parsed);
    }

    /** The volatility input, editable only while Idle. */
    method SetVolatility(parsed: Option<real>)
      requires Valid() && !running
      modifies this
      ensures Valid()
      ensures volatility == ClampVolatility(parsed)
      ensures initialPrice == old(initialPrice) && drift == old(drift) && days == old(days)
      ensures path == old(path) && running == old(running)
    {
      volatility := ClampVolatility(parsed);
    }

    /** The drift input, editable only while Idle. */
    method SetDrift(parsed: Option<real>)
      requires Valid() && !running
      modifies this
      ensures Valid()
      ensures drift == ParseDrift(parsed)
      ensures initialPrice == old(initialPrice) && volatility == old(volatility) && days == old(days)
      ensures path == old(path) && running == old(running)
    {
      drift := ParseDrift(parsed);
    }

    /** The days input, editable only while Idle; a longer retained path is cut only on the next tick. */
    method SetDays(parsed: Option<int>)
      requires Valid() && !running
      modifies this
      ensures Valid()
      ensures days == ClampDays(parsed)
      ensures initialPrice == old(initialPrice) && volatility == old(volatility) && drift == old(drift)
      ensures path == old(path) && running == old(running)
    {
      days := ClampDays(parsed);
    }
  }

  /**
   * A caller's view: from any state, a start followed by one tick per coin
   * shows the newest `days` prices of the run, and stopping twice leaves
   * the same state as stopping once.
   */
  method RunAndStopTwice(sim: Simulator, coins: seq<bool>)
    requires sim.Valid()
    modifies sim
    ensures sim.Valid() && !sim.running
    ensures sim.initialPrice == old(sim.initialPrice) && sim.volatility == old(sim.volatility)
    ensures sim.drift == old(sim.drift) && sim.days == old(sim.days)
    ensures sim.path == Window(History([old(sim.initialPrice)], old(sim.initialPrice), old(sim.drift), old(sim.volatility), coins),
                               old(sim.days))
  {
    ghost var ip, dr, vol, d := sim.initialPrice, sim.drift, sim.volatility, sim.days;
    sim.Start();
    var k := 0;
    while k < |coins|
      invariant 0 <= k <= |coins|
      invariant sim.Valid() && sim.running
      invariant sim.initialPrice == ip && sim.drift == dr && sim.volatility == vol && sim.days == d
      invariant sim.path == Run([ip], ip, dr, vol, d, coins[..k])
    {
      sim.Step(coins[k]);
      assert coins[..k + 1][..k] == coins[..k];
      k := k + 1;
    }
    assert coins[..k] == coins;
    RunFromStartLength(ip, dr, vol, d, coins);
    sim.Stop();
    ghost var once := sim.path;
    sim.Stop();
    assert sim.path == once;
  }
}
