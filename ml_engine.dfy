/** The ML engine's scalar rules: five component scores over the latest row of
    the technical features, their mean, the score-to-signal thresholds and the
    target/stop/take-profit arithmetic of a prediction, with the engine's
    prediction cache. The feature columns themselves (pandas rolling windows)
    are inputs. */
module MlEngine {
  import opened Common

  /** `SignalStrength`; the neural engine and the engine core use the same five names. */
  datatype SignalStrength = StrongBuy | Buy | Neutral | Sell | StrongSell
  {
    function Name(): string
    {
      match this
      case StrongBuy => "STRONG_BUY"
      case Buy => "BUY"
      case Neutral => "NEUTRAL"
      case Sell => "SELL"
      case StrongSell => "STRONG_SELL"
    }

    predicate IsBuy()
    {
      this == Buy || this == StrongBuy
    }

    predicate IsSell()
    {
      this == Sell || this == StrongSell
    }
  }

  /** The five names are pairwise different strings. */
  lemma NamesDistinct(a: SignalStrength, b: SignalStrength)
    ensures a.Name() == b.Name() <==> a == b
  {
  }

  /** The last row of `calculate_technical_features`. Every column is always
      computed except `volume_ratio`, which exists only when the frame has a
      volume column. */
  datatype Features = Features(
    rsi14: real,
    macdHist: real,
    bbPosition: real,
    bbWidth: real,
    recentReturns: real,  // mean of the last five `returns`
    close: real,
    open: real,
    sma5: real,
    sma20: real,
    sma50: real,
    sma200: real,
    adx: real,
    atr: real,
    volumeRatio: Option<real>)

  // ---------------------------------------------------------------- component scores

  /** RSI: oversold adds 0.3, overbought subtracts 0.3, in between (50 - rsi) / 100. */
  function RsiContribution(rsi: real): (r: real)
    ensures -0.3 <= r <= 0.3
    ensures r == 0.3 <==> rsi < 30.0
    ensures r == -0.3 <==> rsi > 70.0
    ensures r > 0.0 <==> rsi < 50.0
  {
    if rsi < 30.0 then 0.3
    else if rsi > 70.0 then -0.3
    else (50.0 - rsi) / 100.0
  }

  /** A higher RSI never raises the contribution. */
  lemma RsiContributionAntitone(lo: real, hi: real)
    requires lo <= hi
    ensures RsiContribution(hi) <= RsiContribution(lo)
  {
  }

  function MacdContribution(hist: real): (r: real)
    ensures r == 0.2 <==> hist > 0.0
    ensures r == 0.2 || r == -0.2
  {
    if hist > 0.0 then 0.2 else -0.2
  }

  function BollingerContribution(position: real): (r: real)
    ensures r == 0.2 <==> position < 0.2
    ensures r == -0.2 <==> position > 0.8
    ensures r == 0.0 <==> 0.2 <= position <= 0.8
  {
    if position < 0.2 then 0.2
    else if position > 0.8 then -0.2
    else 0.0
  }

  /** `_technical_score`: the three contributions, clipped to [-1, 1]; the
      clip never binds, because the sum already lies in [-0.7, 0.7]. */
  function TechnicalScore(f: Features): (r: real)
    ensures -0.7 <= r <= 0.7
    ensures r == RsiContribution(f.rsi14) + MacdContribution(f.macdHist) + BollingerContribution(f.bbPosition)
  {
    Clip(RsiContribution(f.rsi14) + MacdContribution(f.macdHist) + BollingerContribution(f.bbPosition), -1.0, 1.0)
  }

  /** `_momentum_score`: recent returns (clipped to ±0.5) plus ±0.3 for the SMA5/SMA20 crossover. */
  function MomentumScore(f: Features): (r: real)
    ensures -0.8 <= r <= 0.8
    ensures f.sma5 > f.sma20 ==> -0.2 <= r
    ensures !(f.sma5 > f.sma20) ==> r <= 0.2
    ensures f.recentReturns >= 0.0 && f.sma5 > f.sma20 ==> r >= 0.3
    ensures f.recentReturns <= 0.0 && !(f.sma5 > f.sma20) ==> r <= -0.3
  {
    var recent := Clip(f.recentReturns * 100.0, -0.5, 0.5);
    var crossover := if f.sma5 > f.sma20 then 0.3 else -0.3;
    Clip(recent + crossover, -1.0, 1.0)
  }

  predicate Uptrend(f: Features)
  {
    f.close > f.sma50 > f.sma200
  }

  predicate Downtrend(f: Features)
  {
    f.close < f.sma50 < f.sma200
  }

  /** `_trend_score`: ±0.4 when ADX shows a strong trend, ±0.3 for the SMA50/SMA200 stack. */
  function TrendScore(f: Features): (r: real)
    ensures -0.7 <= r <= 0.7
    ensures r == 0.7 <==> f.adx > 25.0 && f.close > f.sma20 && Uptrend(f)
    ensures r == -0.7 <==> f.adx > 25.0 && !(f.close > f.sma20) && Downtrend(f)
    ensures f.adx <= 25.0 ==> r == (if Uptrend(f) then 0.3 else if Downtrend(f) then -0.3 else 0.0)
  {
    var strength := if f.adx > 25.0 then (if f.close > f.sma20 then 0.4 else -0.4) else 0.0;
    var stack := if Uptrend(f) then 0.3 else if Downtrend(f) then -0.3 else 0.0;
    Clip(strength + stack, -1.0, 1.0)
  }

  predicate VolumeSpike(f: Features)
  {
    f.volumeRatio.Some? && f.volumeRatio.value > 1.5
  }

  /** `_volume_score`: a volume spike confirms the bar's direction. */
  function VolumeScore(f: Features): (r: real)
    ensures r == 0.3 <==> VolumeSpike(f) && f.close > f.open
    ensures r == -0.3 <==> VolumeSpike(f) && !(f.close > f.open)
    ensures r == 0.0 <==> !VolumeSpike(f)
  {
    if VolumeSpike(f) then (if f.close > f.open then 0.3 else -0.3) else 0.0
  }

  /** `_volatility_score`: a narrow band is a breakout hint, a wide one a caution. */
  function VolatilityScore(f: Features): (r: real)
    ensures r == 0.2 <==> f.bbWidth < 0.05
    ensures r == -0.2 <==> f.bbWidth > 0.15
    ensures r == 0.0 <==> 0.05 <= f.bbWidth <= 0.15
  {
    if f.bbWidth < 0.05 then 0.2
    else if f.bbWidth > 0.15 then -0.2
    else 0.0
  }

  // ---------------------------------------------------------------- ensemble

  datatype ModelScore = ModelScore(name: string, value: real)

  function ScoreValues(ms: seq<ModelScore>): (r: seq<real>)
    ensures |r| == |ms|
    ensures forall i :: 0 <= i < |ms| ==> r[i] == ms[i].value
  {
    seq(|ms|, i requires 0 <= i < |ms| => ms[i].value)
  }

  /** `_get_ensemble_prediction`: the five named component scores, in insertion order. */
  function Scores(f: Features): (r: seq<ModelScore>)
    ensures |r| == 5
    ensures forall i :: 0 <= i < 5 ==> -1.0 <= r[i].value <= 1.0
    ensures [r[0].name, r[1].name, r[2].name, r[3].name, r[4].name] == ["technical", "momentum", "trend", "volume", "volatility"]
  {
    [ ModelScore("technical", TechnicalScore(f)),
      ModelScore("momentum", MomentumScore(f)),
      ModelScore("trend", TrendScore(f)),
      ModelScore("volume", VolumeScore(f)),
      ModelScore("volatility", VolatilityScore(f)) ]
  }

  lemma MeanOfFive(a: real, b: real, c: real, d: real, e: real)
    ensures Mean([a, b, c, d, e]) == (a + b + c + d + e) / 5.0
  {
    var s := [a, b, c, d, e];
    assert s[1..] == [b, c, d, e];
    assert [b, c, d, e][1..] == [c, d, e];
    assert [c, d, e][1..] == [d, e];
    assert [d, e][1..] == [e];
    assert Sum([e]) == e by { assert [e][1..] == []; }
    assert Sum([d, e]) == d + e;
    assert Sum([c, d, e]) == c + d + e;
    assert Sum([b, c, d, e]) == b + c + d + e;
  }

  /** `np.mean(list(scores.values()))`. */
  function CombinedScore(f: Features): real
  {
    Mean(ScoreValues(Scores(f)))
  }

  /** The combined score never leaves [-0.54, 0.54]: the component bounds add
      up to 2.7 on either side. */
  lemma CombinedScoreBounds(f: Features)
    ensures -0.54 <= CombinedScore(f) <= 0.54
  {
    var ms := Scores(f);
    var t, m, tr, v, vo := TechnicalScore(f), MomentumScore(f), TrendScore(f), VolumeScore(f), VolatilityScore(f);
    assert ScoreValues(ms) == [t, m, tr, v, vo];
    MeanOfFive(t, m, tr, v, vo);
    assert -0.3 <= v <= 0.3;
    assert -0.2 <= vo <= 0.2;
  }

  /** `_score_to_signal`: the strong signals also need confidence above 0.7. */
  function ScoreToSignal(score: real, confidence: real): (r: SignalStrength)
    ensures r == StrongBuy <==> score > 0.6 && confidence > 0.7
    ensures r == Buy <==> score > 0.3 && !(score > 0.6 && confidence > 0.7)
    ensures r == StrongSell <==> score < -0.6 && confidence > 0.7
    ensures r == Sell <==> score < -0.3 && !(score < -0.6 && confidence > 0.7)
    ensures r == Neutral <==> -0.3 <= score <= 0.3
  {
    if score > 0.6 && confidence > 0.7 then StrongBuy
    else if score > 0.3 then Buy
    else if score < -0.6 && confidence > 0.7 then StrongSell
    else if score < -0.3 then Sell
    else Neutral
  }

  // ---------------------------------------------------------------- predictions

  datatype MLPrediction = MLPrediction(
    symbol: string,
    signal: SignalStrength,
    confidence: real,
    targetPrice: real,
    stopLoss: real,
    takeProfit: real,
    predictedChange: real,  // percent
    modelScores: seq<ModelScore>,
    timestamp: Instant)

  /** `_fallback_prediction`: a NEUTRAL, half-confident prediction at the current price. */
  function Fallback(symbol: string, price: real, now: Instant): (p: MLPrediction)
    ensures p.signal == Neutral && p.confidence == 0.5 && p.predictedChange == 0.0
    ensures p.targetPrice == price && p.stopLoss == price * 0.98 && p.takeProfit == price * 1.02
    ensures p.modelScores == [ModelScore("fallback", 0.0)]
    ensures p.symbol == symbol && p.timestamp == now
  {
    MLPrediction(symbol, Neutral, 0.5, price, price * 0.98, price * 1.02, 0.0, [ModelScore("fallback", 0.0)], now)
  }

  /** `predict`: `features` is `None` when computing the features raised (a
      missing OHLC column or an empty frame), which yields the fallback. Only
      BUY and STRONG_BUY get the long plan; every other signal, NEUTRAL
      included, gets the short one. */
  function Prediction(symbol: string, features: Option<Features>, price: real, now: Instant): (p: MLPrediction)
    ensures features.None? ==> p == Fallback(symbol, price, now)
    ensures features.Some? ==>
      var combined := CombinedScore(features.value);
      && p.confidence == Abs(combined)
      && p.signal == ScoreToSignal(combined, p.confidence)
      && p.modelScores == Scores(features.value)
      && p.targetPrice == price * (1.0 + p.predictedChange / 100.0)
      && (p.signal.IsBuy() ==> p.predictedChange == 2.0 * p.confidence)
      && (!p.signal.IsBuy() ==> p.predictedChange == -2.0 * p.confidence)
    ensures features.Some? && p.signal.IsBuy() ==>
      p.stopLoss == price - 2.0 * features.value.atr && p.takeProfit == price + 3.0 * features.value.atr
    ensures features.Some? && !p.signal.IsBuy() ==>
      p.stopLoss == price + 2.0 * features.value.atr && p.takeProfit == price - 3.0 * features.value.atr
    ensures p.symbol == symbol && p.timestamp == now
  {
    match features
    case None => Fallback(symbol, price, now)
    case Some(f) =>
      var scores := Scores(f);
      var combined := CombinedScore(f);
      var confidence := Abs(combined);
      var signal := ScoreToSignal(combined, confidence);
      if signal.IsBuy() then
        var change := confidence * 2.0;
        MLPrediction(symbol, signal, confidence, price * (1.0 + change / 100.0),
                     price - f.atr * 2.0, price + f.atr * 3.0, change, scores, now)
      else
        var change := -confidence * 2.0;
        MLPrediction(symbol, signal, confidence, price * (1.0 + change / 100.0),
                     price + f.atr * 2.0, price - f.atr * 3.0, change, scores, now)
  }

  /** The confidence is at most 0.54, so `predict` never reaches the strong
      signals, which need more than 0.6 of score and 0.7 of confidence. */
  lemma PredictionNeverStrong(symbol: string, features: Option<Features>, price: real, now: Instant)
    ensures 0.0 <= Prediction(symbol, features, price, now).confidence <= 0.54
    ensures Prediction(symbol, features, price, now).signal !in {StrongBuy, StrongSell}
  {
    if features.Some? {
      CombinedScoreBounds(features.value);
    }
  }

  /** With a positive ATR the stop and the take-profit bracket the price on
      the side the signal trades. */
  lemma PredictionBrackets(symbol: string, f: Features, price: real, now: Instant)
    requires f.atr > 0.0
    ensures var p := Prediction(symbol, Some(f), price, now);
      p.signal.IsBuy() ==> p.stopLoss < price < p.takeProfit
    ensures var p := Prediction(symbol, Some(f), price, now);
      !p.signal.IsBuy() ==> p.takeProfit < price < p.stopLoss
  {
  }

  // ---------------------------------------------------------------- engine

  /** `MLTradingEngine`: the scikit-learn models it builds are never consulted
      by `predict`; only the prediction cache is state. */
  class MLTradingEngine {
    var predictionCache: map<string, MLPrediction>

    constructor()
      ensures predictionCache == map[]
    {
      predictionCache := map[];
    }

    /** A computed prediction is cached under its symbol; the fallback is not. */
    method Predict(symbol: string, features: Option<Features>, price: real, now: Instant) returns (p: MLPrediction)
      modifies this
      ensures p == Prediction(symbol, features, price, now)
      ensures features.Some? ==> predictionCache == old(predictionCache)[symbol := p]
      ensures features.None? ==> predictionCache == old(predictionCache)
    {
      p := Prediction(symbol, features, price, now);
      if features.Some? {
        predictionCache := predictionCache[symbol := p];
      }
    }
  }
}
