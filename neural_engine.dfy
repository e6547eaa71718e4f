/** The neural engine: the LSTM predictor's sequence windowing, training gate
    and forecast branches, the transformer predictor's attention weighting,
    and the ensemble's weighted average and signal rule. Least-squares slopes
    (`np.polyfit`) and standard deviations of a price window are oracles
    passed in as `slope` and `stdev`; the other series statistics the
    transformer reads are inputs. */
module NeuralEngine {
  import opened Common
  import opened MlEngine

  type PosInt = n: int | n >= 1 witness 1

  /** A window statistic computed by numpy on a list of prices. */
  type Stat = seq<real> -> real

  /** Market closes, which the model takes to be positive (numpy would
      otherwise divide by zero into `inf`). */
  predicate Positive(prices: seq<real>)
  {
    forall i :: 0 <= i < |prices| ==> prices[i] > 0.0
  }

  /** The dictionary `LSTMPredictor.predict` returns. */
  datatype LstmForecast = LstmForecast(
    predictedPrice: real,
    predictedChangePct: real,
    confidence: real,
    trendStrength: real,
    forecastHorizon: int)

  /** `_heuristic_prediction`: flat with a low confidence on fewer than ten
      prices, otherwise the slope over the last twenty prices extrapolated
      over the horizon. */
  function Heuristic(prices: seq<real>, horizon: PosInt, slope: Stat): (r: LstmForecast)
    requires Positive(prices)
    ensures |prices| < 10 ==>
      && r.predictedChangePct == 0.0 && r.confidence == 0.3 && r.trendStrength == 0.0
      && r.predictedPrice == (if |prices| > 0 then prices[|prices| - 1] else 0.0)
    ensures |prices| >= 10 ==>
      var last := prices[|prices| - 1];
      var change := slope(Tail(prices, 20)) * horizon as real;
      && r.confidence == 0.5 && r.trendStrength == 0.5
      && r.predictedPrice == last + change
      && r.predictedChangePct * last == change * 100.0
    ensures r.forecastHorizon == horizon
  {
    if |prices| < 10 then
      LstmForecast(if |prices| > 0 then prices[|prices| - 1] else 0.0, 0.0, 0.3, 0.0, horizon)
    else
      var recent := Tail(prices, 20);
      var change := slope(recent) * horizon as real;
      var current := recent[|recent| - 1];
      PercentOf(change, current);
      LstmForecast(current + change, change / current * 100.0, 0.5, 0.5, horizon)
  }

  class LSTMPredictor {
    const lookbackPeriod: PosInt
    const forecastHorizon: PosInt
    var isTrained: bool
    var mean: real

    constructor(lookback: PosInt, horizon: PosInt)
      ensures lookbackPeriod == lookback && forecastHorizon == horizon
      ensures !isTrained
    {
      lookbackPeriod := lookback;
      forecastHorizon := horizon;
      isTrained := false;
      mean := 0.0;
    }

    /** `range(len(data) - lookback - horizon + 1)` has this many steps. */
    function SequenceCount(n: nat): (c: nat)
      ensures c == 0 <==> n < lookbackPeriod + forecastHorizon
      ensures c > 0 ==> c + lookbackPeriod + forecastHorizon == n + 1
    {
      if n + 1 < lookbackPeriod + forecastHorizon then 0 else n + 1 - lookbackPeriod - forecastHorizon
    }

    /** `prepare_sequences`: each window of `lookback` prices paired with the
        price `horizon` steps after the window's last one. */
    method PrepareSequences(data: seq<real>) returns (xs: seq<seq<real>>, ys: seq<real>)
      ensures |xs| == |ys| == SequenceCount(|data|)
      ensures forall i :: 0 <= i < |xs| ==>
        i + lookbackPeriod + forecastHorizon <= |data| &&
        xs[i] == data[i..i + lookbackPeriod] && ys[i] == data[i + lookbackPeriod + forecastHorizon - 1]
    {
      var count := |data| - lookbackPeriod - forecastHorizon + 1;
      xs, ys := [], [];
      var i := 0;
      while i < count
        invariant 0 <= i && (count >= 0 ==> i <= count) && (count < 0 ==> i == 0)
        invariant |xs| == |ys| == i
        invariant forall k :: 0 <= k < i ==>
          k + lookbackPeriod + forecastHorizon <= |data| &&
          xs[k] == data[k..k + lookbackPeriod] && ys[k] == data[k + lookbackPeriod + forecastHorizon - 1]
      {
        xs := xs + [data[i..i + lookbackPeriod]];
        ys := ys + [data[i + lookbackPeriod + forecastHorizon - 1]];
        i := i + 1;
      }
    }

    /** `train`: it succeeds, and marks the predictor trained, only with at
        least 100 sequences; otherwise nothing changes. */
    method Train(prices: seq<real>) returns (ok: bool)
      modifies this
      ensures ok <==> SequenceCount(|prices|) >= 100
      ensures ok ==> |prices| > 0 && isTrained && mean == Mean(prices)
      ensures !ok ==> isTrained == old(isTrained) && mean == old(mean)
    {
      var xs, ys := PrepareSequences(prices);
      if |xs| < 100 {
        return false;
      }
      isTrained := true;
      mean := Mean(prices);
      return true;
    }

    /** `predict`: the heuristic unless trained and given a full window; the
        trained forecast's confidence is one minus the relative volatility,
        clamped to [0.3, 0.95]. */
    function Forecast(prices: seq<real>, slope: Stat, stdev: Stat): (r: LstmForecast)
      reads this
      requires Positive(prices)
      ensures !isTrained || |prices| < lookbackPeriod ==> r == Heuristic(prices, forecastHorizon, slope)
      ensures isTrained && |prices| >= lookbackPeriod ==>
        r == WindowForecast(Tail(prices, lookbackPeriod), forecastHorizon, slope, stdev)
      ensures 0.3 <= r.confidence <= 0.95
      ensures r.forecastHorizon == forecastHorizon
    {
      if !isTrained || |prices| < lookbackPeriod then
        Heuristic(prices, forecastHorizon, slope)
      else
        WindowForecast(Tail(prices, lookbackPeriod), forecastHorizon, slope, stdev)
    }
  }

  lemma PercentOf(change: real, current: real)
    requires current != 0.0
    ensures change / current * 100.0 * current == change * 100.0
  {
    assert change / current * current == change;
  }

  /** `prices.std() / prices.mean()` for positive prices. */
  function RelativeVolatility(window: seq<real>, stdev: Stat): real
    requires |window| > 0 && Positive(window)
  {
    MeanPositive(window);
    stdev(window) / Mean(window)
  }

  /** The trained branch of `LSTMPredictor.predict` on a full window: the
      confidence is one minus the relative volatility, clamped to [0.3, 0.95]. */
  function WindowForecast(window: seq<real>, horizon: PosInt, slope: Stat, stdev: Stat): (r: LstmForecast)
    requires |window| > 0 && Positive(window)
    ensures var change := slope(window) * horizon as real;
      && r.predictedPrice == window[|window| - 1] + change
      && r.predictedChangePct * window[|window| - 1] == change * 100.0
    ensures r.confidence == Min(0.95, Max(0.3, 1.0 - RelativeVolatility(window, stdev)))
    ensures 0.3 <= r.confidence <= 0.95
    ensures r.trendStrength == if stdev(window) > 0.0 then Abs(slope(window)) / stdev(window) else 0.0
    ensures r.forecastHorizon == horizon
  {
    var trend := slope(window);
    var volatility := stdev(window);
    var change := trend * horizon as real;
    var current := window[|window| - 1];
    PercentOf(change, current);
    LstmForecast(current + change, change / current * 100.0,
                 Min(0.95, Max(0.3, 1.0 - RelativeVolatility(window, stdev))),
                 if volatility > 0.0 then Abs(trend) / volatility else 0.0, horizon)
  }

  // ---------------------------------------------------------------- transformer

  datatype Weight = Weight(feature: string, value: real)

  /** The frame statistics the transformer reads besides the closes. */
  datatype TransformerInputs = TransformerInputs(
    hasVolume: bool,
    volumeSpike: real,  // mean of the last 5 volumes over the mean of the last 20
    priceTrend: real,   // mean of the last 10 close-to-close returns
    volumeTrend: real)  // mean of the last 10 volume changes

  datatype TransformerForecast = TransformerForecast(
    predictedMovePct: real,
    confidence: real,
    attention: seq<Weight>,
    model: string)

  const TRANSFORMER_FALLBACK: TransformerForecast := TransformerForecast(0.0, 0.3, [], "transformer_fallback")

  /** The three raw attention weights, each clipped to [0.3, 1]. */
  function RawAttention(closes: seq<real>, inputs: TransformerInputs, slope: Stat, stdev: Stat): (w: (real, real, real))
    requires Positive(closes) && |closes| >= 20
    ensures 0.3 <= w.0 <= 1.0 && 0.3 <= w.1 <= 1.0 && 0.3 <= w.2 <= 1.0
  {
    MeanPositive(closes);
    var recent := Tail(closes, 20);
    ( Clip(1.0 - stdev(recent) / Mean(closes), 0.3, 1.0),
      Clip(inputs.volumeSpike / 2.0, 0.3, 1.0),
      Clip(Abs(slope(recent)) * 10.0, 0.3, 1.0) )
  }

  lemma ThirdsOfTotal(a: real, b: real, c: real)
    requires a > 0.0 && b > 0.0 && c > 0.0
    ensures a / (a + b + c) + b / (a + b + c) + c / (a + b + c) == 1.0
  {
    var t := a + b + c;
    assert a / t + b / t + c / t == (a + b + c) / t;
  }

  /** `TransformerPredictor.predict`: `np.polyfit(range(20), ...)` raises on
      fewer than twenty closes and the missing `'volume'` weight raises
      without a volume column; both give the fallback. Otherwise the weights
      are normalised to sum to one, so the confidence, their mean, is 1/3. */
  function Transformer(closes: seq<real>, inputs: TransformerInputs, slope: Stat, stdev: Stat): (r: TransformerForecast)
    requires Positive(closes)
    ensures r == TRANSFORMER_FALLBACK <==> |closes| < 20 || !inputs.hasVolume
    ensures |closes| >= 20 && inputs.hasVolume ==>
      && r.confidence == 1.0 / 3.0
      && |r.attention| == 3
      && [r.attention[0].feature, r.attention[1].feature, r.attention[2].feature] == ["price", "volume", "trend"]
      && r.attention[0].value + r.attention[1].value + r.attention[2].value == 1.0
      && r.predictedMovePct == (inputs.priceTrend * r.attention[0].value + inputs.volumeTrend * r.attention[1].value) * 100.0
      && r.model == "transformer"
  {
    if |closes| < 20 || !inputs.hasVolume then TRANSFORMER_FALLBACK
    else
      var w := RawAttention(closes, inputs, slope, stdev);
      var total := w.0 + w.1 + w.2;
      var price, volume, trend := w.0 / total, w.1 / total, w.2 / total;
      ThirdsOfTotal(w.0, w.1, w.2);
      MeanOfThree(price, volume, trend);
      TransformerForecast((inputs.priceTrend * price + inputs.volumeTrend * volume) * 100.0,
                          Mean([price, volume, trend]),
                          [Weight("price", price), Weight("volume", volume), Weight("trend", trend)],
                          "transformer")
  }

  lemma MeanOfThree(a: real, b: real, c: real)
    ensures Mean([a, b, c]) == (a + b + c) / 3.0
  {
    var s := [a, b, c];
    assert s[1..] == [b, c];
    assert [b, c][1..] == [c];
    assert Sum([c]) == c by { assert [c][1..] == []; }
    assert Sum([b, c]) == b + c;
  }

  // ---------------------------------------------------------------- ensemble

  datatype NeuralPrediction = NeuralPrediction(
    symbol: string,
    predictedPrice: real,
    predictedChangePct: real,
    confidence: real,
    signal: SignalStrength,
    lstmShortTerm: LstmForecast,
    lstmLongTerm: LstmForecast,
    transformer: TransformerForecast,
    timestamp: Instant)

  /** `NeuralTradingEngine._determine_signal`. */
  function DetermineSignal(change: real, confidence: real): (r: SignalStrength)
    ensures r == StrongBuy <==> change > 1.0 && confidence > 0.7
    ensures r == Buy <==> change > 0.5 && !(change > 1.0 && confidence > 0.7)
    ensures r == StrongSell <==> change < -1.0 && confidence > 0.7
    ensures r == Sell <==> change < -0.5 && !(change < -1.0 && confidence > 0.7)
    ensures r == Neutral <==> -0.5 <= change <= 0.5
  {
    if change > 1.0 && confidence > 0.7 then StrongBuy
    else if change > 0.5 then Buy
    else if change < -1.0 && confidence > 0.7 then StrongSell
    else if change < -0.5 then Sell
    else Neutral
  }

  /** The ensemble step of `NeuralTradingEngine.predict`. An empty close
      series makes `df['close'].iloc[-1]` raise, and `_fallback_prediction`
      reads the same element and raises again, so the call fails. */
  function Ensemble(symbol: string, closes: seq<real>, short: LstmForecast, long: LstmForecast,
                    transformer: TransformerForecast, now: Instant): (r: Result<NeuralPrediction, string>)
    ensures r.Err? <==> |closes| == 0
    ensures r.Ok? ==>
      var p := r.value;
      && p.confidence == (short.confidence + long.confidence + transformer.confidence) / 3.0
      && p.predictedChangePct == short.predictedChangePct * 0.4 + long.predictedChangePct * 0.3 + transformer.predictedMovePct * 0.3
      && p.predictedPrice == short.predictedPrice * 0.4 + long.predictedPrice * 0.3
           + closes[|closes| - 1] * (1.0 + transformer.predictedMovePct / 100.0) * 0.3
      && p.signal == DetermineSignal(p.predictedChangePct, p.confidence)
      && p.symbol == symbol && p.timestamp == now
      && p.lstmShortTerm == short && p.lstmLongTerm == long && p.transformer == transformer
  {
    if |closes| == 0 then Err("IndexError: single positional indexer is out-of-bounds")
    else
      MeanOfThree(short.confidence, long.confidence, transformer.confidence);
      var confidence := Mean([short.confidence, long.confidence, transformer.confidence]);
      var price := short.predictedPrice * 0.4 + long.predictedPrice * 0.3
                   + closes[|closes| - 1] * (1.0 + transformer.predictedMovePct / 100.0) * 0.3;
      var change := short.predictedChangePct * 0.4 + long.predictedChangePct * 0.3 + transformer.predictedMovePct * 0.3;
      Ok(NeuralPrediction(symbol, price, change, confidence, DetermineSignal(change, confidence),
                          short, long, transformer, now))
  }

  /** The ensemble weights 0.4, 0.3 and 0.3 sum to one: three models that
      agree give back their common forecast. */
  lemma EnsembleOfAgreement(symbol: string, closes: seq<real>, short: LstmForecast, long: LstmForecast,
                            transformer: TransformerForecast, now: Instant, change: real)
    requires |closes| > 0
    requires short.predictedChangePct == long.predictedChangePct == transformer.predictedMovePct == change
    requires short.predictedPrice == long.predictedPrice == closes[|closes| - 1] * (1.0 + change / 100.0)
    ensures Ensemble(symbol, closes, short, long, transformer, now).value.predictedChangePct == change
    ensures Ensemble(symbol, closes, short, long, transformer, now).value.predictedPrice == short.predictedPrice
  {
  }

  /** A transformer forecast's confidence is either the fallback's 0.3 or 1/3. */
  lemma TransformerConfidence(closes: seq<real>, inputs: TransformerInputs, slope: Stat, stdev: Stat)
    requires Positive(closes)
    ensures Transformer(closes, inputs, slope, stdev).confidence in {0.3, 1.0 / 3.0}
  {
  }

  /** `NeuralTradingEngine`: a short-horizon and a long-horizon LSTM, a
      transformer, and a cache of the last prediction per symbol. */
  class NeuralTradingEngine {
    const lstmShort: LSTMPredictor
    const lstmLong: LSTMPredictor
    var predictionsCache: map<string, NeuralPrediction>

    ghost predicate Valid()
    {
      lstmShort != lstmLong
    }

    constructor()
      ensures Valid()
      ensures fresh(lstmShort) && fresh(lstmLong)
      ensures lstmShort.lookbackPeriod == 30 && lstmShort.forecastHorizon == 3 && !lstmShort.isTrained
      ensures lstmLong.lookbackPeriod == 60 && lstmLong.forecastHorizon == 10 && !lstmLong.isTrained
      ensures predictionsCache == map[]
    {
      lstmShort := new LSTMPredictor(30, 3);
      lstmLong := new LSTMPredictor(60, 10);
      predictionsCache := map[];
    }

    /** The prediction `predict` makes from the predictors' current state. */
    function PredictionOf(symbol: string, closes: seq<real>, inputs: TransformerInputs,
                          slope: Stat, stdev: Stat, now: Instant): Result<NeuralPrediction, string>
      reads lstmShort, lstmLong
      requires Positive(closes)
    {
      Ensemble(symbol, closes, lstmShort.Forecast(closes, slope, stdev), lstmLong.Forecast(closes, slope, stdev),
               Transformer(closes, inputs, slope, stdev), now)
    }

    /** The ensemble confidence lies in [0.3, 0.745]: the LSTMs give at most
        0.95 and the transformer at most 1/3. */
    lemma ConfidenceBounds(symbol: string, closes: seq<real>, inputs: TransformerInputs,
                           slope: Stat, stdev: Stat, now: Instant)
      requires Positive(closes) && |closes| > 0
      ensures 0.3 <= PredictionOf(symbol, closes, inputs, slope, stdev, now).value.confidence <= 0.745
    {
      TransformerConfidence(closes, inputs, slope, stdev);
    }

    /** `predict`: a successful prediction is cached under its symbol. */
    method Predict(symbol: string, closes: seq<real>, inputs: TransformerInputs,
                   slope: Stat, stdev: Stat, now: Instant) returns (r: Result<NeuralPrediction, string>)
      requires Positive(closes)
      modifies this
      ensures r == PredictionOf(symbol, closes, inputs, slope, stdev, now)
      ensures r.Ok? ==> predictionsCache == old(predictionsCache)[symbol := r.value]
      ensures r.Err? ==> predictionsCache == old(predictionsCache)
    {
      var short := lstmShort.Forecast(closes, slope, stdev);
      var long := lstmLong.Forecast(closes, slope, stdev);
      var transformer := Transformer(closes, inputs, slope, stdev);
      r := Ensemble(symbol, closes, short, long, transformer, now);
      if r.Ok? {
        predictionsCache := predictionsCache[symbol := r.value];
      }
    }

    /** `train_models`: trains both LSTMs on the same closes and reports success. */
    method TrainModels(symbol: string, closes: seq<real>) returns (ok: bool)
      requires Valid()
      modifies lstmShort, lstmLong
      ensures ok
      ensures lstmShort.isTrained == (old(lstmShort.isTrained) || lstmShort.SequenceCount(|closes|) >= 100)
      ensures lstmLong.isTrained == (old(lstmLong.isTrained) || lstmLong.SequenceCount(|closes|) >= 100)
    {
      var shortOk := lstmShort.Train(closes);
      var longOk := lstmLong.Train(closes);
      return true;
    }
  }
}
