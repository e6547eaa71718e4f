/** The engine core that unifies the ML and neural engines: the signal-to-score
    mapping, the weighted combination, the final signal thresholds, the risk
    score and trade plan, the live-signal cache with its bounded per-symbol
    history, the top-opportunity query and the asset-type detection. */
module AiEngineCore {
  import opened Common
  import opened Sorting
  import opened MlEngine
  import NeuralEngine

  /** `LiveSignal`. `signal` is one of the five `SignalStrength` names, the
      only strings `_determine_signal` returns. */
  datatype LiveSignal = LiveSignal(
    symbol: string,
    assetType: string,
    signal: SignalStrength,
    confidence: real,
    currentPrice: real,
    predictedPrice: real,
    predictedChangePct: real,
    technicalScore: real,
    mlScore: real,
    neuralScore: real,
    riskScore: real,
    entryPrice: real,
    stopLoss: real,
    takeProfit: real,
    positionSizePct: real,
    timestamp: Instant)

  /** `to_dict`'s `risk_reward_ratio` (before rounding): reward over risk, and
      0 when the stop sits at the entry. */
  function RiskReward(entry: real, stop: real, target: real): (r: real)
    ensures entry == stop ==> r == 0.0
    ensures entry != stop ==> r * (entry - stop) == target - entry
  {
    if entry != stop then (target - entry) / (entry - stop) else 0.0
  }

  // ---------------------------------------------------------------- combination

  /** `_signal_to_score`. */
  function SignalToScore(s: SignalStrength): (r: real)
    ensures -1.0 <= r <= 1.0
    ensures r > 0.0 <==> s.IsBuy()
    ensures r < 0.0 <==> s.IsSell()
    ensures Abs(r) == 1.0 <==> s == StrongBuy || s == StrongSell
  {
    match s
    case StrongBuy => 1.0
    case Buy => 0.5
    case Neutral => 0.0
    case Sell => -0.5
    case StrongSell => -1.0
  }

  /** A stronger buy scores higher: the mapping is injective. */
  lemma SignalToScoreInjective(a: SignalStrength, b: SignalStrength)
    ensures SignalToScore(a) == SignalToScore(b) <==> a == b
  {
  }

  datatype CombinedScore = CombinedScore(technical: real, ml: real, neural: real, overall: real)

  const TECHNICAL_WEIGHT: real := 0.3
  const ML_WEIGHT: real := 0.35
  const NEURAL_WEIGHT: real := 0.35

  /** `_combine_predictions`: the technical score is the mean of the ML
      component scores, the ML score its signal's score, the neural score
      half the predicted change; the confidence is the mean of the two
      engines' confidences. */
  function Combine(ml: MLPrediction, neural: NeuralEngine.NeuralPrediction): (r: (CombinedScore, real))
    requires |ml.modelScores| > 0
    ensures r.0.technical == Mean(ScoreValues(ml.modelScores))
    ensures r.0.ml == SignalToScore(ml.signal)
    ensures r.0.neural * 2.0 == neural.predictedChangePct
    ensures r.0.overall == TECHNICAL_WEIGHT * r.0.technical + ML_WEIGHT * r.0.ml + NEURAL_WEIGHT * r.0.neural
    ensures r.1 * 2.0 == ml.confidence + neural.confidence
  {
    var technical := Mean(ScoreValues(ml.modelScores));
    var mlScore := SignalToScore(ml.signal);
    var neuralScore := neural.predictedChangePct / 2.0;
    ( CombinedScore(technical, mlScore, neuralScore,
                    technical * TECHNICAL_WEIGHT + mlScore * ML_WEIGHT + neuralScore * NEURAL_WEIGHT),
      (ml.confidence + neural.confidence) / 2.0 )
  }

  /** The weights sum to one: components that agree give their common value. */
  lemma CombineAgreement(ml: MLPrediction, neural: NeuralEngine.NeuralPrediction, x: real)
    requires |ml.modelScores| > 0
    requires Mean(ScoreValues(ml.modelScores)) == x && SignalToScore(ml.signal) == x
    requires neural.predictedChangePct == 2.0 * x
    ensures Combine(ml, neural).0.overall == x
  {
  }

  /** `_determine_signal`: the strong signals need confidence above 0.75. */
  function DetermineSignal(overall: real, confidence: real): (r: SignalStrength)
    ensures r == StrongBuy <==> overall > 0.6 && confidence > 0.75
    ensures r == Buy <==> overall > 0.3 && !(overall > 0.6 && confidence > 0.75)
    ensures r == StrongSell <==> overall < -0.6 && confidence > 0.75
    ensures r == Sell <==> overall < -0.3 && !(overall < -0.6 && confidence > 0.75)
    ensures r == Neutral <==> -0.3 <= overall <= 0.3
  {
    if overall > 0.6 && confidence > 0.75 then StrongBuy
    else if overall > 0.3 then Buy
    else if overall < -0.6 && confidence > 0.75 then StrongSell
    else if overall < -0.3 then Sell
    else Neutral
  }

  // ---------------------------------------------------------------- risk and plan

  /** The signal-strength entry of `_calculate_risk_score` (its 0.5 default
      is never used: every signal is one of the five). */
  function SignalRisk(s: SignalStrength): (r: real)
    ensures r == 0.8 <==> s == Neutral
    ensures s.IsBuy() || s.IsSell() ==> r <= 0.3
    ensures 0.2 <= r <= 0.8
  {
    match s
    case StrongBuy => 0.2
    case Buy => 0.3
    case Neutral => 0.8
    case Sell => 0.3
    case StrongSell => 0.2
  }

  /** The factors `_calculate_risk_score` averages: volatility, volume (only
      with a volume column), confidence and signal strength. `volatility` is
      the standard deviation of the last twenty returns and `volumeRatio` the
      mean of the last five volumes over that of the last twenty. */
  function RiskFactors(volatility: real, volumeRatio: Option<real>, signal: SignalStrength, confidence: real): (r: seq<real>)
    ensures |r| == (if volumeRatio.Some? then 4 else 3)
    ensures r[0] == Min(volatility * 50.0, 1.0)
    ensures volumeRatio.Some? ==> r[1] == 1.0 - Min(volumeRatio.value, 1.0)
    ensures r[|r| - 2] == 1.0 - confidence && r[|r| - 1] == SignalRisk(signal)
  {
    [Min(volatility * 50.0, 1.0)]
    + (if volumeRatio.Some? then [1.0 - Min(volumeRatio.value, 1.0)] else [])
    + [1.0 - confidence, SignalRisk(signal)]
  }

  /** `_calculate_risk_score`: the mean of the risk factors. */
  function RiskScore(volatility: real, volumeRatio: Option<real>, signal: SignalStrength, confidence: real): real
  {
    Mean(RiskFactors(volatility, volumeRatio, signal, confidence))
  }

  /** With a non-negative volatility and volume ratio and a confidence in
      [0, 1], every factor lies in [0, 1], and so does the score. */
  lemma RiskScoreBounds(volatility: real, volumeRatio: Option<real>, signal: SignalStrength, confidence: real)
    requires volatility >= 0.0 && 0.0 <= confidence <= 1.0
    requires volumeRatio.Some? ==> volumeRatio.value >= 0.0
    ensures 0.0 <= RiskScore(volatility, volumeRatio, signal, confidence) <= 1.0
  {
    var fs := RiskFactors(volatility, volumeRatio, signal, confidence);
    assert forall i :: 0 <= i < |fs| ==> 0.0 <= fs[i] <= 1.0 by {
      forall i | 0 <= i < |fs| ensures 0.0 <= fs[i] <= 1.0 {
        if volumeRatio.Some? && i == 1 {
        } else {
          assert i == 0 || i == |fs| - 2 || i == |fs| - 1;
        }
      }
    }
    MeanBounds(fs, 0.0, 1.0);
  }

  datatype TradePlan = TradePlan(entry: real, stopLoss: real, takeProfit: real, positionSizePct: real)

  const MAX_POSITION_PCT: real := 10.0

  /** The ATR `_generate_trade_plan` uses: the frame's when it has high and
      low columns, otherwise 2% of the price. */
  function PlanAtr(price: real, atr: Option<real>): real
  {
    if atr.Some? then atr.value else price * 0.02
  }

  /** `_generate_trade_plan`: a long plan for buys, the mirror image for
      sells, a ±2% band for NEUTRAL; the stop is never negative and the
      position shrinks linearly with the risk. */
  function Plan(signal: SignalStrength, price: real, atr: Option<real>, risk: real): (p: TradePlan)
    ensures p.entry == price
    ensures p.stopLoss >= 0.0
    ensures p.positionSizePct == MAX_POSITION_PCT * (1.0 - risk)
    ensures signal.IsBuy() ==>
      p.stopLoss == Max(price - 2.0 * PlanAtr(price, atr), 0.0) && p.takeProfit == price + 3.0 * PlanAtr(price, atr)
    ensures signal.IsSell() ==>
      p.stopLoss == Max(price + 2.0 * PlanAtr(price, atr), 0.0) && p.takeProfit == price - 3.0 * PlanAtr(price, atr)
    ensures signal == Neutral ==> p.stopLoss == Max(price * 0.98, 0.0) && p.takeProfit == price * 1.02
  {
    var a := PlanAtr(price, atr);
    var size := MAX_POSITION_PCT * (1.0 - risk);
    var (stop, target) :=
      if signal.IsBuy() then (price - a * 2.0, price + a * 3.0)
      else if signal.IsSell() then (price + a * 2.0, price - a * 3.0)
      else (price * 0.98, price * 1.02);
    TradePlan(price, Max(stop, 0.0), target, size)
  }

  /** A risk in [0, 1] sizes the position between 0% and 10%. */
  lemma PositionSizeBounds(signal: SignalStrength, price: real, atr: Option<real>, risk: real)
    requires 0.0 <= risk <= 1.0
    ensures 0.0 <= Plan(signal, price, atr, risk).positionSizePct <= MAX_POSITION_PCT
  {
  }

  /** For a positive price and ATR, a plan whose stop is not cut off at zero
      risks two ATRs to gain three (a reward-to-risk of 1.5), and the NEUTRAL
      band risks 2% to gain 2% (1.0). The stop and target sit on opposite
      sides of the entry. */
  lemma PlanRiskReward(signal: SignalStrength, price: real, atr: Option<real>, risk: real)
    requires price > 0.0 && PlanAtr(price, atr) > 0.0 && price > 2.0 * PlanAtr(price, atr)
    ensures var p := Plan(signal, price, atr, risk);
      RiskReward(p.entry, p.stopLoss, p.takeProfit) == (if signal == Neutral then 1.0 else 1.5)
    ensures var p := Plan(signal, price, atr, risk);
      signal.IsSell() ==> p.takeProfit < p.entry < p.stopLoss
    ensures var p := Plan(signal, price, atr, risk);
      !signal.IsSell() ==> p.stopLoss < p.entry < p.takeProfit
  {
    var p := Plan(signal, price, atr, risk);
    var a := PlanAtr(price, atr);
    if signal == Neutral {
      RiskRewardOf(p.entry, p.stopLoss, p.takeProfit, 1.0);
    } else if signal.IsBuy() {
      assert p.entry - p.stopLoss == 2.0 * a;
      RiskRewardOf(p.entry, p.stopLoss, p.takeProfit, 1.5);
    } else {
      assert p.entry - p.stopLoss == -2.0 * a;
      RiskRewardOf(p.entry, p.stopLoss, p.takeProfit, 1.5);
    }
  }

  lemma RiskRewardOf(entry: real, stop: real, target: real, k: real)
    requires entry != stop && target - entry == k * (entry - stop)
    ensures RiskReward(entry, stop, target) == k
  {
    var d := entry - stop;
    var r := RiskReward(entry, stop, target);
    assert r * d == k * d;
    assert (r - k) * d == 0.0;
  }

  /** `_create_neutral_signal`: what a failed analysis returns. */
  function NeutralSignal(symbol: string, price: real, assetType: string, now: Instant): (s: LiveSignal)
    ensures s.signal == Neutral && s.confidence == 0.3 && s.riskScore == 0.5 && s.positionSizePct == 1.0
    ensures s.predictedPrice == price && s.predictedChangePct == 0.0
    ensures s.technicalScore == 0.0 && s.mlScore == 0.0 && s.neuralScore == 0.0
    ensures s.entryPrice == price && s.stopLoss == price * 0.98 && s.takeProfit == price * 1.02
    ensures s.symbol == symbol && s.assetType == assetType && s.currentPrice == price && s.timestamp == now
  {
    LiveSignal(symbol, assetType, Neutral, 0.3, price, price, 0.0, 0.0, 0.0, 0.0, 0.5,
               price, price * 0.98, price * 1.02, 1.0, now)
  }

  // ---------------------------------------------------------------- analysis

  /** What `analyze_symbol` reads of its data frame. */
  datatype Frame = Frame(
    closes: seq<real>,
    features: Option<Features>,                      // the ML engine's feature row
    transformer: NeuralEngine.TransformerInputs,
    volatility: real,                                // std of the last twenty returns
    volumeRatio: Option<real>,                       // `None` without a volume column
    atr: Option<real>)                               // `None` without high/low columns

  /** The signal `analyze_symbol` builds from the two engines' predictions, or
      `None` when the neural engine raised. */
  function Analysis(symbol: string, frame: Frame, price: real, assetType: string, ml: MLPrediction,
                    neural: Result<NeuralEngine.NeuralPrediction, string>, now: Instant): (r: Option<LiveSignal>)
    requires |ml.modelScores| > 0
    ensures r.None? <==> neural.Err?
    ensures r.Some? ==>
      var (combined, confidence) := Combine(ml, neural.value);
      var s := r.value;
      && s.signal == DetermineSignal(combined.overall, confidence)
      && s.confidence == confidence
      && s.riskScore == RiskScore(frame.volatility, frame.volumeRatio, s.signal, confidence)
      && Plan(s.signal, price, frame.atr, s.riskScore) == TradePlan(s.entryPrice, s.stopLoss, s.takeProfit, s.positionSizePct)
      && s.predictedPrice == neural.value.predictedPrice && s.predictedChangePct == neural.value.predictedChangePct
      && s.technicalScore == combined.technical && s.mlScore == combined.ml && s.neuralScore == combined.neural
      && s.symbol == symbol && s.assetType == assetType && s.currentPrice == price && s.timestamp == now
  {
    match neural
    case Err(_) => None
    case Ok(n) =>
      var (combined, confidence) := Combine(ml, n);
      var signal := DetermineSignal(combined.overall, confidence);
      var risk := RiskScore(frame.volatility, frame.volumeRatio, signal, confidence);
      var plan := Plan(signal, price, frame.atr, risk);
      Some(LiveSignal(symbol, assetType, signal, confidence, price, n.predictedPrice, n.predictedChangePct,
                      combined.technical, combined.ml, combined.neural, risk,
                      plan.entry, plan.stopLoss, plan.takeProfit, plan.positionSizePct, now))
  }

  /** A strong signal needs the mean confidence above 0.75, which an ML
      confidence of at most 0.54 and a neural one of at most 0.745 never
      reach. */
  lemma AnalysisNeverStrong(symbol: string, frame: Frame, price: real, assetType: string, ml: MLPrediction,
                            neural: Result<NeuralEngine.NeuralPrediction, string>, now: Instant)
    requires |ml.modelScores| > 0
    requires ml.confidence <= 0.54
    requires neural.Ok? ==> neural.value.confidence <= 0.745
    ensures var r := Analysis(symbol, frame, price, assetType, ml, neural, now);
      r.Some? ==> r.value.signal != StrongBuy && r.value.signal != StrongSell
  {
  }

  // ---------------------------------------------------------------- history

  const HISTORY_LIMIT: nat := 100

  /** `deque(maxlen=100).append`: appends, dropping the oldest when full. */
  function Push<T>(h: seq<T>, s: T): (r: seq<T>)
    ensures 0 < |r| <= HISTORY_LIMIT
    ensures r[|r| - 1] == s
  {
    if |h| >= HISTORY_LIMIT then h[|h| - HISTORY_LIMIT + 1..] + [s] else h + [s]
  }

  /** On a history within the cap, a push keeps the last 100 of the history
      followed by the new signal. */
  lemma PushIsTail<T>(h: seq<T>, s: T)
    requires |h| <= HISTORY_LIMIT
    ensures Push(h, s) == Tail(h + [s], HISTORY_LIMIT)
  {
  }

  function PushAll<T>(h: seq<T>, ss: seq<T>): seq<T>
    decreases |ss|
  {
    if |ss| == 0 then h else PushAll(Push(h, ss[0]), ss[1..])
  }

  /** However many signals arrive, the history is the last 100 of them. */
  lemma {:induction false} HistoryKeepsLatest<T>(h: seq<T>, ss: seq<T>)
    requires |h| <= HISTORY_LIMIT
    ensures PushAll(h, ss) == Tail(h + ss, HISTORY_LIMIT)
    decreases |ss|
  {
    if |ss| > 0 {
      HistoryKeepsLatest(Push(h, ss[0]), ss[1..]);
      PushThenTail(h, ss[0], ss[1..]);
      assert [ss[0]] + ss[1..] == ss;
    }
  }

  lemma PushThenTail<T>(h: seq<T>, x: T, rest: seq<T>)
    requires |h| <= HISTORY_LIMIT
    ensures Tail(Push(h, x) + rest, HISTORY_LIMIT) == Tail(h + ([x] + rest), HISTORY_LIMIT)
  {
    PushIsTail(h, x);
    TailOfTail(h + [x], rest, HISTORY_LIMIT);
    assert h + [x] + rest == h + ([x] + rest);
  }

  /** Keeping the last `k` before appending more does not change the last `k`
      of the whole. */
  lemma TailOfTail<T>(a: seq<T>, b: seq<T>, k: nat)
    ensures Tail(Tail(a, k) + b, k) == Tail(a + b, k)
  {
    var ta := Tail(a, k);
    var lhs := Tail(ta + b, k);
    var rhs := Tail(a + b, k);
    assert |lhs| == |rhs|;
    forall i | 0 <= i < |lhs| ensures lhs[i] == rhs[i] {
      var j := |ta + b| - |lhs| + i;
      var j' := |a + b| - |rhs| + i;
      assert lhs[i] == (ta + b)[j];
      assert rhs[i] == (a + b)[j'];
      if j < |ta| {
        assert (ta + b)[j] == ta[j] == a[|a| - |ta| + j];
        assert j' == |a| - |ta| + j;
      } else {
        assert (ta + b)[j] == b[j - |ta|];
        assert j' - |a| == j - |ta|;
      }
    }
  }

  /** `get_top_signals`' ranking key (on unrounded values). */
  function Opportunity(s: LiveSignal): real
  {
    Abs(s.confidence * s.predictedChangePct)
  }

  predicate Qualifies(s: LiveSignal, minConfidence: real)
  {
    s.confidence >= minConfidence && s.signal != Neutral
  }

  function Filter(ss: seq<LiveSignal>, minConfidence: real): (r: seq<LiveSignal>)
    ensures forall x :: x in r <==> x in ss && Qualifies(x, minConfidence)
    ensures |r| <= |ss|
  {
    if |ss| == 0 then []
    else (if Qualifies(ss[0], minConfidence) then [ss[0]] else []) + Filter(ss[1..], minConfidence)
  }

  /** The values of `m` at `keys`, in order. */
  function Lookup(keys: seq<string>, m: map<string, LiveSignal>): (r: seq<LiveSignal>)
    requires forall k :: k in keys ==> k in m
    ensures |r| == |keys|
    ensures forall i :: 0 <= i < |keys| ==> r[i] == m[keys[i]]
  {
    if |keys| == 0 then [] else [m[keys[0]]] + Lookup(keys[1..], m)
  }

  /** `get_top_signals` over a list of signals: the qualifying ones, largest
      |confidence × predicted change| first, cut at `limit` with Python's
      slice semantics. */
  function Top(signals: seq<LiveSignal>, limit: int, minConfidence: real): (r: seq<LiveSignal>)
    ensures SortedDesc(r, Opportunity)
    ensures forall x :: x in r ==> x in signals && Qualifies(x, minConfidence)
    ensures var candidates := Filter(signals, minConfidence);
      && |r| == PyIndex(|candidates|, limit)
      && multiset(r) <= multiset(candidates)
      && (limit >= |candidates| ==> multiset(r) == multiset(candidates))
      && forall o, p :: o in multiset(candidates) - multiset(r) && p in r ==> Opportunity(o) <= Opportunity(p)
  {
    var candidates := Filter(signals, minConfidence);
    var r := Largest(candidates, Opportunity, PyIndex(|candidates|, limit));
    forall x | x in r ensures x in candidates {
      assert x in multiset(r);
    }
    r
  }

  /** `AIEngineCore`: `liveSignals` is a Python dictionary, so `order` keeps its
      keys in insertion order (overwriting a key keeps its place). */
  class AIEngineCore {
    const ml: MLTradingEngine
    const neural: NeuralEngine.NeuralTradingEngine
    var liveSignals: map<string, LiveSignal>
    var order: seq<string>
    var signalHistory: map<string, seq<LiveSignal>>

    ghost predicate Valid()
      reads this
    {
      && Distinct(order)
      && (forall s :: s in order <==> s in liveSignals)
      && (forall s :: s in signalHistory ==> |signalHistory[s]| <= HISTORY_LIMIT)
    }

    constructor()
      ensures Valid()
      ensures fresh(ml) && fresh(neural)
      ensures liveSignals == map[] && order == [] && signalHistory == map[]
    {
      ml := new MLTradingEngine();
      neural := new NeuralEngine.NeuralTradingEngine();
      liveSignals := map[];
      order := [];
      signalHistory := map[];
    }

    function HistoryOf(symbol: string): seq<LiveSignal>
      reads this
    {
      if symbol in signalHistory then signalHistory[symbol] else []
    }

    /** What `analyze_symbol` produces from the two engines on `frame`, or
        `None` when the neural engine raises. */
    function Outcome(symbol: string, frame: Frame, price: real, assetType: string,
                     slope: NeuralEngine.Stat, stdev: NeuralEngine.Stat, now: Instant): Option<LiveSignal>
      reads neural.lstmShort, neural.lstmLong
      requires NeuralEngine.Positive(frame.closes)
    {
      Analysis(symbol, frame, price, assetType, MlEngine.Prediction(symbol, frame.features, price, now),
               neural.PredictionOf(symbol, frame.closes, frame.transformer, slope, stdev, now), now)
    }

    lemma OutcomeNeverStrong(symbol: string, frame: Frame, price: real, assetType: string,
                             slope: NeuralEngine.Stat, stdev: NeuralEngine.Stat, now: Instant)
      requires NeuralEngine.Positive(frame.closes)
      ensures var r := Outcome(symbol, frame, price, assetType, slope, stdev, now);
        r.Some? ==> r.value.signal != StrongBuy && r.value.signal != StrongSell
    {
      var n := neural.PredictionOf(symbol, frame.closes, frame.transformer, slope, stdev, now);
      PredictionNeverStrong(symbol, frame.features, price, now);
      if n.Ok? {
        neural.ConfidenceBounds(symbol, frame.closes, frame.transformer, slope, stdev, now);
      }
      AnalysisNeverStrong(symbol, frame, price, assetType, MlEngine.Prediction(symbol, frame.features, price, now), n, now);
    }

    /** Caches `live` as the symbol's latest signal and appends it to the
        symbol's bounded history. */
    method Record(symbol: string, live: LiveSignal)
      requires Valid()
      modifies this
      ensures Valid()
      ensures liveSignals == old(liveSignals)[symbol := live]
      ensures order == if symbol in old(order) then old(order) else old(order) + [symbol]
      ensures signalHistory == old(signalHistory)[symbol := Push(old(HistoryOf(symbol)), live)]
    {
      if symbol !in liveSignals {
        DistinctSnoc(order, symbol);
        order := order + [symbol];
      }
      liveSignals := liveSignals[symbol := live];
      var history := Push(HistoryOf(symbol), live);
      assert |history| <= HISTORY_LIMIT;
      signalHistory := signalHistory[symbol := history];
    }

    /** The two engines' predictions, combined into the analysis. */
    method RunEngines(symbol: string, frame: Frame, price: real, assetType: string,
                      slope: NeuralEngine.Stat, stdev: NeuralEngine.Stat, now: Instant)
      returns (outcome: Option<LiveSignal>)
      requires NeuralEngine.Positive(frame.closes)
      modifies ml, neural
      ensures outcome == Outcome(symbol, frame, price, assetType, slope, stdev, now)
      ensures frame.features.Some? ==>
        ml.predictionCache == old(ml.predictionCache)[symbol := MlEngine.Prediction(symbol, frame.features, price, now)]
      ensures frame.features.None? ==> ml.predictionCache == old(ml.predictionCache)
    {
      var mlPrediction := ml.Predict(symbol, frame.features, price, now);
      var neuralPrediction := neural.Predict(symbol, frame.closes, frame.transformer, slope, stdev, now);
      outcome := Analysis(symbol, frame, price, assetType, mlPrediction, neuralPrediction, now);
    }

    /** `analyze_symbol`: runs both engines; a completed analysis overwrites
        the symbol's live signal and is appended to its bounded history,
        while a failure returns the neutral signal and records nothing. No
        analysis is ever a strong buy or a strong sell. */
    method AnalyzeSymbol(symbol: string, frame: Frame, price: real, assetType: string,
                         slope: NeuralEngine.Stat, stdev: NeuralEngine.Stat, now: Instant)
      returns (live: LiveSignal)
      requires Valid() && NeuralEngine.Positive(frame.closes)
      modifies this, ml, neural
      ensures Valid()
      ensures frame.features.Some? ==>
        ml.predictionCache == old(ml.predictionCache)[symbol := MlEngine.Prediction(symbol, frame.features, price, now)]
      ensures frame.features.None? ==> ml.predictionCache == old(ml.predictionCache)
      ensures var r := Outcome(symbol, frame, price, assetType, slope, stdev, now);
        r.Some? ==>
          && live == r.value
          && liveSignals == old(liveSignals)[symbol := live]
          && order == (if symbol in old(order) then old(order) else old(order) + [symbol])
          && signalHistory == old(signalHistory)[symbol := Push(old(HistoryOf(symbol)), live)]
      ensures Outcome(symbol, frame, price, assetType, slope, stdev, now).None? ==>
        && live == NeutralSignal(symbol, price, assetType, now)
        && liveSignals == old(liveSignals) && order == old(order) && signalHistory == old(signalHistory)
      ensures live.signal != StrongBuy && live.signal != StrongSell
    {
      OutcomeNeverStrong(symbol, frame, price, assetType, slope, stdev, now);
      var outcome := RunEngines(symbol, frame, price, assetType, slope, stdev, now);
      live := Settle(symbol, outcome, price, assetType, now);
    }

    /** Records a completed analysis, or falls back to the neutral signal. */
    method Settle(symbol: string, outcome: Option<LiveSignal>, price: real, assetType: string, now: Instant)
      returns (live: LiveSignal)
      requires Valid()
      modifies this
      ensures Valid()
      ensures outcome.Some? ==>
        && live == outcome.value
        && liveSignals == old(liveSignals)[symbol := live]
        && order == (if symbol in old(order) then old(order) else old(order) + [symbol])
        && signalHistory == old(signalHistory)[symbol := Push(old(HistoryOf(symbol)), live)]
      ensures outcome.None? ==>
        && live == NeutralSignal(symbol, price, assetType, now)
        && liveSignals == old(liveSignals) && order == old(order) && signalHistory == old(signalHistory)
    {
      if outcome.None? {
        return NeutralSignal(symbol, price, assetType, now);
      }
      live := outcome.value;
      Record(symbol, live);
    }

    /** `get_all_live_signals`: the cached signals in insertion order. */
    function AllLiveSignals(): (r: seq<LiveSignal>)
      reads this
      requires Valid()
      ensures |r| == |order|
      ensures forall i :: 0 <= i < |order| ==> r[i] == liveSignals[order[i]]
      ensures forall x :: x in r <==> x in liveSignals.Values
    {
      var r := Lookup(order, liveSignals);
      forall x | x in liveSignals.Values ensures x in r {
        var k :| k in liveSignals && liveSignals[k] == x;
        var i :| 0 <= i < |order| && order[i] == k;
        assert r[i] == x;
      }
      r
    }

    /** `get_signal`. */
    function GetSignal(symbol: string): (r: Option<LiveSignal>)
      reads this
      ensures r.Some? <==> symbol in liveSignals
      ensures r.Some? ==> r.value == liveSignals[symbol]
    {
      if symbol in liveSignals then Some(liveSignals[symbol]) else None
    }

    /** `get_top_signals` over the cached signals. */
    function TopSignals(limit: int, minConfidence: real): (r: seq<LiveSignal>)
      reads this
      requires Valid()
      ensures SortedDesc(r, Opportunity)
      ensures forall x :: x in r ==> x in liveSignals.Values && Qualifies(x, minConfidence)
      ensures var candidates := Filter(AllLiveSignals(), minConfidence);
        && |r| == PyIndex(|candidates|, limit)
        && multiset(r) <= multiset(candidates)
        && (limit >= |candidates| ==> multiset(r) == multiset(candidates))
        && forall o, p :: o in multiset(candidates) - multiset(r) && p in r ==> Opportunity(o) <= Opportunity(p)
    {
      Top(AllLiveSignals(), limit, minConfidence)
    }
  }

  // ---------------------------------------------------------------- asset types

  /** `_detect_asset_type`, checked in this order. */
  function DetectAssetType(symbol: string): (r: string)
    ensures r == "crypto" <==> Contains(symbol, "-USD") || Contains(symbol, "BTC") || Contains(symbol, "ETH")
    ensures r == "forex" <==> r != "crypto" && Contains(symbol, "=X")
    ensures r == "index" <==> r != "crypto" && r != "forex" && symbol in ["SPY", "QQQ", "DIA", "IWM"]
    ensures r in {"crypto", "forex", "index", "stock"}
  {
    if Contains(symbol, "-USD") || Contains(symbol, "BTC") || Contains(symbol, "ETH") then "crypto"
    else if Contains(symbol, "=X") then "forex"
    else if symbol in ["SPY", "QQQ", "DIA", "IWM"] then "index"
    else "stock"
  }

  /** The engine's own table of supported symbols. */
  const STOCKS: seq<string> := ["AAPL", "MSFT", "GOOGL", "TSLA", "AMZN", "NVDA", "META", "NFLX"]
  const CRYPTO: seq<string> := ["BTC-USD", "ETH-USD", "SOL-USD", "BNB-USD", "ADA-USD"]
  const INDICES: seq<string> := ["SPY", "QQQ", "DIA", "IWM"]
  const FOREX: seq<string> := ["EURUSD=X", "GBPUSD=X", "USDJPY=X"]

  /** A symbol with none of '-', 'B', 'H' or '=' that is not an index is a stock. */
  lemma PlainSymbolIsStock(s: string)
    requires '-' !in s && 'B' !in s && 'H' !in s && '=' !in s
    requires s !in ["SPY", "QQQ", "DIA", "IWM"]
    ensures DetectAssetType(s) == "stock"
  {
    MissingCharNotContained(s, "-USD", 0);
    MissingCharNotContained(s, "BTC", 0);
    MissingCharNotContained(s, "ETH", 2);
    MissingCharNotContained(s, "=X", 0);
  }

  /** Every symbol of the table is detected as the group it is listed under. */
  lemma StocksDetected()
    ensures forall s :: s in STOCKS ==> DetectAssetType(s) == "stock"
  {
    forall s | s in STOCKS ensures DetectAssetType(s) == "stock" {
      PlainSymbolIsStock(s);
    }
  }

  /** A symbol ending in `suffix` contains it. */
  lemma SuffixContained(s: string, suffix: string)
    requires |suffix| <= |s| && s[|s| - |suffix|..] == suffix
    ensures Contains(s, suffix)
  {
    ContainsAt(s, suffix);
    assert OccursAt(s, suffix, |s| - |suffix|);
  }

  lemma CryptoDetected()
    ensures forall s :: s in CRYPTO ==> DetectAssetType(s) == "crypto"
  {
    forall s | s in CRYPTO ensures DetectAssetType(s) == "crypto" {
      SuffixContained(s, "-USD");
    }
  }

  lemma IndicesDetected()
    ensures forall s :: s in INDICES ==> DetectAssetType(s) == "index"
  {
    forall s | s in INDICES ensures DetectAssetType(s) == "index" {
      MissingCharNotContained(s, "-USD", 0);
      MissingCharNotContained(s, "BTC", 0);
      MissingCharNotContained(s, "ETH", 2);
      MissingCharNotContained(s, "=X", 0);
    }
  }

  /** A symbol ending in "=X" with neither '-' nor 'T' is a forex pair. */
  lemma PairSymbolIsForex(s: string)
    requires '-' !in s && 'T' !in s
    requires 2 <= |s| && s[|s| - 2..] == "=X"
    ensures DetectAssetType(s) == "forex"
  {
    MissingCharNotContained(s, "-USD", 0);
    MissingCharNotContained(s, "BTC", 1);
    MissingCharNotContained(s, "ETH", 1);
    SuffixContained(s, "=X");
  }

  lemma ForexDetected()
    ensures forall s :: s in FOREX ==> DetectAssetType(s) == "forex"
  {
    forall s | s in FOREX ensures DetectAssetType(s) == "forex" {
      PairSymbolIsForex(s);
    }
  }
}
