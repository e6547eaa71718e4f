/** The market-data endpoints: the last `limit` bars of a history, the chart
    payload built from them, and the search over the built-in symbol list. */
module DataEndpoint {
  import opened Common
  import opened TradingModels

  // ---------------------------------------------------------------- bar window

  /** `data[-limit:]`: the last `limit` bars for a positive limit, every bar for
      `limit == 0` (since `-0 == 0`), and the bars after the first `-limit` for a
      negative one. */
  function LastBars(data: seq<MarketBar>, limit: int): (r: seq<MarketBar>)
    ensures |r| <= |data|
    ensures limit >= 0 ==> r == data[|data| - |r|..]
    ensures limit > 0 ==> |r| == (if limit <= |data| then limit else |data|)
    ensures limit == 0 ==> r == data
    ensures limit < 0 ==> r == (if -limit <= |data| then data[-limit..] else [])
  {
    LastItems(data, limit);
    PySliceFrom(data, -limit)
  }

  // ---------------------------------------------------------------- chart payload

  /** One lightweight-charts candle. */
  datatype Candle = Candle(time: int, open: real, high: real, low: real, close: real)

  /** The chart response: the empty payload when the history is empty, otherwise the
      candles and volumes of the window together with the request's symbol and timeframe. */
  datatype ChartPayload =
    | NoBars
    | Chart(candles: seq<Candle>, volume: seq<real>, symbol: string, timeframe: string)

  /** `int(item.timestamp.timestamp())`: whole seconds since the epoch, truncated
      toward zero (`Instant` counts microseconds). */
  function EpochSeconds(t: Instant): (s: int)
    ensures t >= 0 ==> s * MICROS_PER_SECOND <= t < (s + 1) * MICROS_PER_SECOND
    ensures t < 0 ==> (s - 1) * MICROS_PER_SECOND < t <= s * MICROS_PER_SECOND
  {
    TruncDiv(t, MICROS_PER_SECOND)
  }

  function CandleOf(b: MarketBar): (c: Candle)
    ensures c.open == b.open && c.high == b.high && c.low == b.low && c.close == b.close
    ensures c.time == EpochSeconds(b.timestamp)
  {
    Candle(EpochSeconds(b.timestamp), b.open, b.high, b.low, b.close)
  }

  /** `get_chart_data` on the history `data` the data service returned. */
  method ChartData(data: seq<MarketBar>, symbol: string, timeframe: string, limit: int) returns (out: ChartPayload)
    ensures data == [] <==> out == NoBars
    ensures out.Chart? ==>
      var window := LastBars(data, limit);
      out.symbol == symbol && out.timeframe == timeframe &&
      |out.candles| == |window| && |out.volume| == |window| &&
      forall i :: 0 <= i < |window| ==> out.candles[i] == CandleOf(window[i]) && out.volume[i] == window[i].volume
  {
    if data == [] {
      return NoBars;
    }
    var window := LastBars(data, limit);
    var candles: seq<Candle> := [];
    var volumes: seq<real> := [];
    for i := 0 to |window|
      invariant |candles| == i && |volumes| == i
      invariant forall k :: 0 <= k < i ==> candles[k] == CandleOf(window[k]) && volumes[k] == window[k].volume
    {
      var item := window[i];
      candles := candles + [Candle(EpochSeconds(item.timestamp), item.open, item.high, item.low, item.close)];
      volumes := volumes + [item.volume];
    }
    out := Chart(candles, volumes, symbol, timeframe);
  }

  /** Truncation toward zero is monotone, so bars in time order give candles in time order. */
  lemma EpochSecondsMonotone(s: Instant, t: Instant)
    requires s <= t
    ensures EpochSeconds(s) <= EpochSeconds(t)
  {
    var a, b := EpochSeconds(s), EpochSeconds(t);
    if s >= 0 {
      assert a * MICROS_PER_SECOND <= t < (b + 1) * MICROS_PER_SECOND;
    } else if t >= 0 {
      assert a <= 0 <= b;
    } else {
      assert (a - 1) * MICROS_PER_SECOND < s <= t <= b * MICROS_PER_SECOND;
    }
  }

  /** The chart's candles are in time order whenever the history is. */
  lemma ChartTimesOrdered(data: seq<MarketBar>, limit: int, out: ChartPayload)
    requires forall i, j :: 0 <= i < j < |data| ==> data[i].timestamp <= data[j].timestamp
    requires out.Chart? && |out.candles| == |LastBars(data, limit)|
    requires forall i :: 0 <= i < |out.candles| ==> out.candles[i] == CandleOf(LastBars(data, limit)[i])
    ensures forall i, j :: 0 <= i < j < |out.candles| ==> out.candles[i].time <= out.candles[j].time
  {
    var window := LastBars(data, limit);
    var start := |data| - |window|;
    assert window == data[start..] by {
      if limit < 0 && -limit > |data| {
        assert window == [];
      }
    }
    forall i, j | 0 <= i < j < |out.candles| ensures out.candles[i].time <= out.candles[j].time {
      assert window[i] == data[start + i] && window[j] == data[start + j];
      EpochSecondsMonotone(window[i].timestamp, window[j].timestamp);
    }
  }

  // ---------------------------------------------------------------- symbol search

  /** The built-in symbol list of `search_symbols`, in its order. */
  const COMMON_SYMBOLS: seq<string> := [
    "AAPL", "MSFT", "GOOGL", "TSLA", "NVDA", "AMZN", "META", "AMD",
    "NFLX", "DIS", "ORCL", "INTC", "CSCO", "ADBE", "CRM", "PYPL",
    "SPY", "QQQ", "IWM", "DIA", "VTI", "VOO",
    "BTC-USD", "ETH-USD", "SOL-USD", "DOGE-USD"]

  const EMPTY_QUERY_COUNT: nat := 12
  const MAX_RESULTS: nat := 20

  /** `[s for s in symbols if query in s]`. */
  function Matching(symbols: seq<string>, query: string): (r: seq<string>)
    ensures |r| <= |symbols|
    ensures forall s :: s in r <==> s in symbols && Contains(s, query)
  {
    if symbols == [] then []
    else (if Contains(symbols[0], query) then [symbols[0]] else []) + Matching(symbols[1..], query)
  }

  /** `Matching` keeps the order of `symbols`: filtering a concatenation filters each
      part and keeps the parts in order. */
  lemma {:induction false} MatchingAppend(s: seq<string>, t: seq<string>, query: string)
    ensures Matching(s + t, query) == Matching(s, query) + Matching(t, query)
  {
    if s != [] {
      assert (s + t)[1..] == s[1..] + t;
      MatchingAppend(s[1..], t, query);
    } else {
      assert s + t == t;
    }
  }

  /** `search_symbols`: the first twelve built-in symbols for an empty query, otherwise
      the first twenty (or fewer) built-in symbols containing the upper-cased query, in
      list order (`Matching` keeps the list's order, see `MatchingAppend`). */
  function SearchSymbols(q: string): (r: seq<string>)
    ensures q == "" ==> r == COMMON_SYMBOLS[..EMPTY_QUERY_COUNT]
    ensures q != "" ==> |r| <= MAX_RESULTS
    ensures q != "" ==> forall s :: s in r ==> s in COMMON_SYMBOLS && Contains(s, Upper(q))
    ensures q != "" && |Matching(COMMON_SYMBOLS, Upper(q))| <= MAX_RESULTS ==>
      forall s :: s in COMMON_SYMBOLS && Contains(s, Upper(q)) ==> s in r
    ensures q != "" ==>
      var matching := Matching(COMMON_SYMBOLS, Upper(q));
      r == matching[..if |matching| < MAX_RESULTS then |matching| else MAX_RESULTS]
  {
    if q == "" then PySliceTo(COMMON_SYMBOLS, EMPTY_QUERY_COUNT)
    else
      var filtered := Matching(COMMON_SYMBOLS, Upper(q));
      FirstItems(filtered, MAX_RESULTS);
      PySliceTo(filtered, MAX_RESULTS)
  }

  lemma UpperIdempotent(s: string)
    ensures Upper(Upper(s)) == Upper(s)
  {
    assert forall i :: 0 <= i < |s| ==> UpperChar(UpperChar(s[i])) == UpperChar(s[i]);
  }

  /** The search ignores the case of ASCII letters in the query. */
  lemma SearchIgnoresCase(q: string)
    ensures SearchSymbols(Upper(q)) == SearchSymbols(q)
  {
    UpperIdempotent(q);
    if q != "" {
      assert |Upper(q)| > 0;
    }
  }
}
