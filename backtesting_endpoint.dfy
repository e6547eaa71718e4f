/** The backtesting HTTP endpoints: date-range validation, the preset timeframe
    table, multi-symbol batches with their summary, and the strategy comparison.
    The engine run itself (historical data, AI signals, simulation and Sharpe
    ratio) is an oracle `engine` from a setup to a run or an error message. */
module BacktestEndpoint {
  import opened Common
  import opened Backtest

  const MIN_DAYS: int := 30
  const MAX_DAYS: int := 1825
  const MAX_BATCH: nat := 20

  datatype HttpError = HttpError(status: nat, detail: string)

  /** What one engine run reports: its result and its Sharpe ratio. */
  datatype EngineRun = EngineRun(result: BacktestResult, sharpeRatio: real)

  /** The engine, fixed for one request: a run, or the text of the exception it raised. */
  type Engine = Setup -> Result<EngineRun, string>

  /** `BacktestRequest`; `initial_capital` is accepted and never used. */
  datatype BacktestRequest = BacktestRequest(symbol: string, startDate: Instant, endDate: Instant,
                                             initialCapital: real, positionSizePct: real,
                                             useStopLoss: bool, useTakeProfit: bool, minConfidence: real)

  datatype QuickRequest = QuickRequest(symbol: string, timeframe: string, initialCapital: real, minConfidence: real)

  // ---------------------------------------------------------------- date range

  /** `(end - start).days`: whole days, floored. */
  function DaysBetween(start: Instant, end: Instant): int
  {
    (end - start) / MICROS_PER_DAY
  }

  function ValidateRange(start: Instant, end: Instant): (r: Result<int, HttpError>)
    ensures r.Ok? ==> r.value == DaysBetween(start, end) && MIN_DAYS <= r.value <= MAX_DAYS
    ensures r.Err? ==> r.error.status == 400
    ensures end <= start ==> r == Err(HttpError(400, "End date must be after start date"))
  {
    if end <= start then Err(HttpError(400, "End date must be after start date"))
    else if DaysBetween(start, end) < MIN_DAYS then Err(HttpError(400, "Backtest period must be at least 30 days"))
    else if DaysBetween(start, end) > MAX_DAYS then Err(HttpError(400, "Backtest period cannot exceed 5 years"))
    else Ok(DaysBetween(start, end))
  }

  /** A range is accepted exactly when it spans at least 30 days and less than 1826. */
  lemma {:induction false} ValidRangeSpan(start: Instant, end: Instant)
    ensures ValidateRange(start, end).Ok?
            <==> MIN_DAYS * MICROS_PER_DAY <= end - start < (MAX_DAYS + 1) * MICROS_PER_DAY
  {
    var x := end - start;
    var d := x / MICROS_PER_DAY;
    assert x == MICROS_PER_DAY * d + x % MICROS_PER_DAY;
    assert 0 <= x % MICROS_PER_DAY < MICROS_PER_DAY;
  }

  // ---------------------------------------------------------------- timeframes

  const TIMEFRAMES: seq<string> := ["1M", "3M", "6M", "1Y", "2Y", "5Y"]

  const TIMEFRAME_ERROR: string := "Invalid timeframe. Must be one of: 1M, 3M, 6M, 1Y, 2Y, 5Y"

  /** `timeframe_map`. */
  function TimeframeDays(tf: string): (r: Option<int>)
    ensures r.Some? <==> tf in TIMEFRAMES
  {
    if tf == "1M" then Some(30)
    else if tf == "3M" then Some(90)
    else if tf == "6M" then Some(180)
    else if tf == "1Y" then Some(365)
    else if tf == "2Y" then Some(730)
    else if tf == "5Y" then Some(1825)
    else None
  }

  /** The range a preset timeframe ends at `now` and starts `days` earlier. */
  function TimeframeRange(tf: string, now: Instant): (r: Result<(Instant, int), HttpError>)
    ensures r.Err? <==> tf !in TIMEFRAMES
    ensures r.Err? ==> r.error == HttpError(400, TIMEFRAME_ERROR)
    ensures r.Ok? ==> r.value.0 == now - r.value.1 * MICROS_PER_DAY
  {
    match TimeframeDays(tf)
    case None => Err(HttpError(400, TIMEFRAME_ERROR))
    case Some(days) => Ok((now - days * MICROS_PER_DAY, days))
  }

  /** Every preset timeframe gives a range the full endpoint would also accept,
      with the same day count. */
  lemma {:induction false} TimeframesAreValidRanges(tf: string, now: Instant)
    requires tf in TIMEFRAMES
    ensures TimeframeRange(tf, now).Ok?
    ensures var (start, days) := TimeframeRange(tf, now).value;
            ValidateRange(start, now) == Ok(days)
  {
    var (start, days) := TimeframeRange(tf, now).value;
    assert MIN_DAYS <= days <= MAX_DAYS;
    assert now - start == days * MICROS_PER_DAY;
    assert DaysBetween(start, now) == days;
  }

  // ---------------------------------------------------------------- single runs

  /** The engine's keyword defaults for the arguments the caller leaves out. */
  function DefaultSetup(symbol: string, start: Instant, end: Instant, minConfidence: real): Setup
  {
    Setup(symbol, start, end, 0.1, true, true, minConfidence)
  }

  datatype RunResponse = RunResponse(days: int, run: EngineRun)

  /** POST /backtest/run: validation first, then the engine; an engine exception becomes 500. */
  function RunEndpoint(req: BacktestRequest, engine: Engine): (r: Result<RunResponse, HttpError>)
    ensures ValidateRange(req.startDate, req.endDate).Err? ==> r == Err(ValidateRange(req.startDate, req.endDate).error)
    ensures r.Ok? ==> ValidateRange(req.startDate, req.endDate) == Ok(r.value.days)
    ensures ValidateRange(req.startDate, req.endDate).Ok? ==>
              var run := engine(Setup(req.symbol, req.startDate, req.endDate, req.positionSizePct,
                                      req.useStopLoss, req.useTakeProfit, req.minConfidence));
              (run.Ok? ==> r.Ok? && r.value.run == run.value)
              && (run.Err? ==> r == Err(HttpError(500, run.error)))
  {
    match ValidateRange(req.startDate, req.endDate)
    case Err(e) => Err(e)
    case Ok(days) =>
      match engine(Setup(req.symbol, req.startDate, req.endDate, req.positionSizePct,
                         req.useStopLoss, req.useTakeProfit, req.minConfidence))
      case Err(msg) => Err(HttpError(500, msg))
      case Ok(run) => Ok(RunResponse(days, run))
  }

  datatype QuickResponse = QuickResponse(timeframe: string, days: int, run: EngineRun)

  /** POST /backtest/quick: only the symbol and minimum confidence reach the engine. */
  function QuickEndpoint(req: QuickRequest, now: Instant, engine: Engine): (r: Result<QuickResponse, HttpError>)
    ensures req.timeframe !in TIMEFRAMES ==> r == Err(HttpError(400, TIMEFRAME_ERROR))
    ensures r.Ok? ==> r.value.timeframe == req.timeframe && TimeframeDays(req.timeframe) == Some(r.value.days)
    ensures r.Ok? ==> engine(DefaultSetup(req.symbol, now - r.value.days * MICROS_PER_DAY, now, req.minConfidence))
                      == Ok(r.value.run)
    ensures r.Err? && req.timeframe in TIMEFRAMES ==> r.error.status == 500
  {
    match TimeframeRange(req.timeframe, now)
    case Err(e) => Err(e)
    case Ok((start, days)) =>
      match engine(DefaultSetup(req.symbol, start, now, req.minConfidence))
      case Err(msg) => Err(HttpError(500, msg))
      case Ok(run) => Ok(QuickResponse(req.timeframe, days, run))
  }

  // ---------------------------------------------------------------- multi-symbol batches

  /** One entry of a batch: the run, or the error text it failed with. */
  datatype Outcome = Succeeded(symbol: string, run: EngineRun) | Failed(symbol: string, error: string)

  function BacktestOne(symbol: string, start: Instant, end: Instant, minConfidence: real, engine: Engine): Outcome
  {
    match engine(DefaultSetup(symbol, start, end, minConfidence))
    case Ok(run) => Succeeded(symbol, run)
    case Err(msg) => Failed(symbol, msg)
  }

  /** `[r for r in results if r.get("success")]`. */
  function Successful(results: seq<Outcome>): (r: seq<EngineRun>)
    ensures |r| <= |results|
    ensures forall run :: run in r <==> exists k :: 0 <= k < |results| && results[k].Succeeded? && results[k].run == run
  {
    if |results| == 0 then []
    else
      var rest := Successful(results[1..]);
      assert forall k :: 1 <= k < |results| ==> results[k] == results[1..][k - 1];
      if results[0].Succeeded? then [results[0].run] + rest else rest
  }

  /** The number of successful entries. */
  function SuccessCount(results: seq<Outcome>): nat
  {
    if |results| == 0 then 0
    else (if results[0].Succeeded? then 1 else 0) + SuccessCount(results[1..])
  }

  lemma {:induction false} SuccessfulCount(results: seq<Outcome>)
    ensures |Successful(results)| == SuccessCount(results)
    ensures SuccessCount(results) == 0 <==> forall k :: 0 <= k < |results| ==> results[k].Failed?
  {
    if |results| > 0 {
      SuccessfulCount(results[1..]);
      assert forall k :: 1 <= k < |results| ==> results[k] == results[1..][k - 1];
    }
  }

  function Returns(runs: seq<EngineRun>): (r: seq<real>)
    ensures |r| == |runs| && forall k :: 0 <= k < |runs| ==> r[k] == runs[k].result.totalReturnPct
  {
    seq(|runs|, k requires 0 <= k < |runs| => runs[k].result.totalReturnPct)
  }

  function WinRates(runs: seq<EngineRun>): (r: seq<real>)
    ensures |r| == |runs| && forall k :: 0 <= k < |runs| ==> r[k] == runs[k].result.winRate
  {
    seq(|runs|, k requires 0 <= k < |runs| => runs[k].result.winRate)
  }

  function Sharpes(runs: seq<EngineRun>): (r: seq<real>)
    ensures |r| == |runs| && forall k :: 0 <= k < |runs| ==> r[k] == runs[k].sharpeRatio
  {
    seq(|runs|, k requires 0 <= k < |runs| => runs[k].sharpeRatio)
  }

  datatype SummaryStats = SummaryStats(avgReturnPct: real, avgWinRate: real, avgSharpeRatio: real,
                                       best: EngineRun, worst: EngineRun)

  datatype BatchSummary = BatchSummary(totalSymbols: nat, successful: nat, failed: int, stats: Option<SummaryStats>)

  /** The summary of a batch of `total` symbols; averages and extremes only with a success. */
  function Summarize(total: nat, results: seq<Outcome>): BatchSummary
  {
    var ok := Successful(results);
    var stats := if |ok| > 0 then
                   Some(SummaryStats(Mean(Returns(ok)), Mean(WinRates(ok)), Mean(Sharpes(ok)),
                                     ok[FirstMaxIndex(Returns(ok))], ok[FirstMinIndex(Returns(ok))]))
                 else None;
    BatchSummary(total, |ok|, total - |ok|, stats)
  }

  datatype BatchResponse = BatchResponse(timeframe: string, summary: BatchSummary, results: seq<Outcome>)

  /** POST /backtest/multi-symbol: the batch size is checked before the timeframe. */
  function MultiSymbol(symbols: seq<string>, timeframe: string, minConfidence: real, now: Instant,
                       engine: Engine): Result<BatchResponse, HttpError>
  {
    if |symbols| > MAX_BATCH then Err(HttpError(400, "Maximum 20 symbols allowed per batch"))
    else
      match TimeframeRange(timeframe, now)
      case Err(e) => Err(e)
      case Ok((start, _)) =>
        var results := seq(|symbols|, k requires 0 <= k < |symbols| => BacktestOne(symbols[k], start, now, minConfidence, engine));
        Ok(BatchResponse(timeframe, Summarize(|symbols|, results), results))
  }

  lemma MultiSymbolErrors(symbols: seq<string>, timeframe: string, minConfidence: real, now: Instant, engine: Engine)
    ensures |symbols| > MAX_BATCH ==>
              MultiSymbol(symbols, timeframe, minConfidence, now, engine) == Err(HttpError(400, "Maximum 20 symbols allowed per batch"))
    ensures |symbols| <= MAX_BATCH && timeframe !in TIMEFRAMES ==>
              MultiSymbol(symbols, timeframe, minConfidence, now, engine) == Err(HttpError(400, TIMEFRAME_ERROR))
    ensures |symbols| <= MAX_BATCH && timeframe in TIMEFRAMES ==> MultiSymbol(symbols, timeframe, minConfidence, now, engine).Ok?
  {
  }

  /** One outcome per requested symbol, in request order, each from the engine run on that symbol. */
  lemma MultiSymbolResults(symbols: seq<string>, timeframe: string, minConfidence: real, now: Instant, engine: Engine)
    requires MultiSymbol(symbols, timeframe, minConfidence, now, engine).Ok?
    ensures var b := MultiSymbol(symbols, timeframe, minConfidence, now, engine).value;
            var start := now - TimeframeDays(timeframe).value * MICROS_PER_DAY;
            |b.results| == |symbols|
            && forall k :: 0 <= k < |symbols| ==>
                 b.results[k].symbol == symbols[k]
                 && (b.results[k].Succeeded? <==> engine(DefaultSetup(symbols[k], start, now, minConfidence)).Ok?)
  {
  }

  /** The counts add up: successful + failed = total. */
  lemma {:induction false} SummaryCounts(results: seq<Outcome>)
    ensures var s := Summarize(|results|, results);
            s.successful + s.failed == s.totalSymbols == |results|
            && 0 <= s.failed && s.successful == SuccessCount(results)
  {
    SuccessfulCount(results);
  }

  /** Averages and extremes exist exactly when a run succeeded; `best` has the
      largest return and `worst` the smallest (the first such in batch order),
      both are successful runs, and the average return lies between them. */
  lemma {:induction false} SummaryExtremes(results: seq<Outcome>)
    ensures var s := Summarize(|results|, results);
            (s.stats.Some? <==> exists k :: 0 <= k < |results| && results[k].Succeeded?)
    ensures var s := Summarize(|results|, results);
            var ok := Successful(results);
            s.stats.Some? ==>
              s.stats.value.best in ok && s.stats.value.worst in ok
              && (forall run :: run in ok ==>
                    s.stats.value.worst.result.totalReturnPct <= run.result.totalReturnPct
                                                           <= s.stats.value.best.result.totalReturnPct)
              && s.stats.value.worst.result.totalReturnPct <= s.stats.value.avgReturnPct
                 <= s.stats.value.best.result.totalReturnPct
  {
    var ok := Successful(results);
    SuccessfulCount(results);
    if |ok| > 0 {
      var xs := Returns(ok);
      var hi := FirstMaxIndex(xs);
      var lo := FirstMinIndex(xs);
      MeanBounds(xs, xs[lo], xs[hi]);
      forall run | run in ok
        ensures ok[lo].result.totalReturnPct <= run.result.totalReturnPct <= ok[hi].result.totalReturnPct
      {
        var j :| 0 <= j < |ok| && ok[j] == run;
        assert xs[lo] <= xs[j] <= xs[hi];
      }
    } else {
      assert forall k :: 0 <= k < |results| ==> results[k].Failed?;
    }
  }

  // ---------------------------------------------------------------- strategy comparison

  datatype Strategy = Strategy(name: string, minConfidence: real, positionSizePct: real)

  const STRATEGIES: seq<Strategy> := [Strategy("conservative", 0.8, 0.05),
                                      Strategy("moderate", 0.6, 0.1),
                                      Strategy("aggressive", 0.5, 0.2)]

  datatype Comparison = Comparison(strategy: Strategy, outcome: Outcome)

  function TestStrategy(symbol: string, start: Instant, end: Instant, st: Strategy, engine: Engine): Comparison
  {
    var setup := Setup(symbol, start, end, st.positionSizePct, true, true, st.minConfidence);
    match engine(setup)
    case Ok(run) => Comparison(st, Succeeded(symbol, run))
    case Err(msg) => Comparison(st, Failed(symbol, msg))
  }

  /** The successful comparisons, in order. */
  function SuccessfulComparisons(cs: seq<Comparison>): (r: seq<Comparison>)
    ensures forall c :: c in r <==> c in cs && c.outcome.Succeeded?
  {
    if |cs| == 0 then []
    else
      assert forall c :: c in cs <==> c == cs[0] || c in cs[1..];
      (if cs[0].outcome.Succeeded? then [cs[0]] else []) + SuccessfulComparisons(cs[1..])
  }

  function ComparisonSharpes(cs: seq<Comparison>): (r: seq<real>)
    requires forall k :: 0 <= k < |cs| ==> cs[k].outcome.Succeeded?
    ensures |r| == |cs| && forall k :: 0 <= k < |cs| ==> r[k] == cs[k].outcome.run.sharpeRatio
  {
    seq(|cs|, k requires 0 <= k < |cs| => cs[k].outcome.run.sharpeRatio)
  }

  /** The name of the first successful strategy with the largest Sharpe ratio. */
  function BestStrategy(cs: seq<Comparison>): Option<string>
  {
    var ok := SuccessfulComparisons(cs);
    if |ok| == 0 then None
    else
      assert forall k :: 0 <= k < |ok| ==> ok[k] in ok;
      Some(ok[FirstMaxIndex(ComparisonSharpes(ok))].strategy.name)
  }

  function Recommendation(best: Option<string>): string
  {
    match best
    case Some(name) => "Based on Sharpe ratio, the " + name + " strategy performed best"
    case None => "No successful backtests"
  }

  datatype CompareResponse = CompareResponse(symbol: string, timeframe: string, comparisons: seq<Comparison>,
                                             bestStrategy: Option<string>, recommendation: string)

  /** GET /backtest/compare: the three strategies over one preset timeframe. */
  function Compare(symbol: string, timeframe: string, now: Instant, engine: Engine): (r: Result<CompareResponse, HttpError>)
    ensures timeframe !in TIMEFRAMES ==> r == Err(HttpError(400, TIMEFRAME_ERROR))
    ensures r.Ok? ==> |r.value.comparisons| == |STRATEGIES|
                      && forall k :: 0 <= k < |STRATEGIES| ==> r.value.comparisons[k].strategy == STRATEGIES[k]
  {
    match TimeframeRange(timeframe, now)
    case Err(e) => Err(e)
    case Ok((start, _)) =>
      var cs := seq(|STRATEGIES|, k requires 0 <= k < |STRATEGIES| => TestStrategy(symbol, start, now, STRATEGIES[k], engine));
      var best := BestStrategy(cs);
      Ok(CompareResponse(symbol, timeframe, cs, best, Recommendation(best)))
  }

  /** The best strategy is absent exactly when every run failed; otherwise it
      names a successful run whose Sharpe ratio no successful run exceeds. */
  lemma {:induction false} BestStrategyIsBest(cs: seq<Comparison>)
    ensures BestStrategy(cs).None? <==> forall k :: 0 <= k < |cs| ==> cs[k].outcome.Failed?
    ensures BestStrategy(cs).Some? ==>
              exists k :: 0 <= k < |cs| && cs[k].outcome.Succeeded? && cs[k].strategy.name == BestStrategy(cs).value
                          && forall j :: 0 <= j < |cs| && cs[j].outcome.Succeeded? ==>
                               cs[j].outcome.run.sharpeRatio <= cs[k].outcome.run.sharpeRatio
  {
    var ok := SuccessfulComparisons(cs);
    if |ok| == 0 {
      forall k | 0 <= k < |cs| ensures cs[k].outcome.Failed? {
        assert cs[k] in cs;
      }
    } else {
      assert ok[0] in ok;
      assert forall k :: 0 <= k < |ok| ==> ok[k] in ok;
      var xs := ComparisonSharpes(ok);
      var b := FirstMaxIndex(xs);
      assert ok[b] in cs;
      var k :| 0 <= k < |cs| && cs[k] == ok[b];
      forall j | 0 <= j < |cs| && cs[j].outcome.Succeeded?
        ensures cs[j].outcome.run.sharpeRatio <= cs[k].outcome.run.sharpeRatio
      {
        assert cs[j] in ok;
        var i :| 0 <= i < |ok| && ok[i] == cs[j];
        assert xs[i] <= xs[b];
      }
    }
  }

  // ---------------------------------------------------------------- presets

  datatype Preset = Preset(key: string, name: string, minConfidence: real, positionSizePct: real,
                           useStopLoss: bool, useTakeProfit: bool)

  /** GET /backtest/presets (descriptions left out). */
  const PRESETS: seq<Preset> := [
    Preset("conservative", "Conservative Strategy", 0.8, 0.05, true, true),
    Preset("moderate", "Moderate Strategy", 0.6, 0.1, true, true),
    Preset("aggressive", "Aggressive Strategy", 0.5, 0.2, true, false),
    Preset("high_frequency", "High Frequency", 0.55, 0.08, true, true)
  ]

  /** The compared strategies carry their presets' confidence and size, but the
      comparison keeps the take-profit rule on for "aggressive", whose preset
      turns it off. */
  lemma ComparedStrategiesMatchPresets()
    ensures forall k :: 0 <= k < |STRATEGIES| ==>
              PRESETS[k].key == STRATEGIES[k].name
              && PRESETS[k].minConfidence == STRATEGIES[k].minConfidence
              && PRESETS[k].positionSizePct == STRATEGIES[k].positionSizePct
    ensures PRESETS[2].key == "aggressive" && !PRESETS[2].useTakeProfit
  {
  }
}
