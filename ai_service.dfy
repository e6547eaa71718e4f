/** The multi-agent decision service: per-indicator classifiers over the
    indicators' scalar outputs, the technical, news, fundamental and risk
    agents, and the orchestrator's weighted vote. Indicator values are inputs
    (`None` where pandas yields NaN); the fundamental agent's `random.uniform`
    draw is a parameter. */
module AiService {
  import opened Common
  import opened TradingModels

  // ---------------------------------------------------------------- indicator classifiers

  /** What one indicator votes: "BUY", "SELL" or "NEUTRAL", with a confidence. */
  datatype Reading = Reading(signal: string, confidence: real)

  const NO_READING: Reading := Reading("NEUTRAL", 0.0)

  predicate Voting(r: Reading)
  {
    r.signal != "NEUTRAL"
  }

  /** A confidence Python computes as `min(x, 1.0)` for a non-negative `x`. */
  predicate Unit(c: real)
  {
    0.0 <= c <= 1.0
  }

  /** RSI: oversold below 30, overbought above 70. */
  function RsiReading(value: Option<real>): (r: Reading)
    ensures value.None? ==> r == NO_READING
    ensures value.Some? ==> (r.signal == "BUY" <==> value.value < 30.0) && (r.signal == "SELL" <==> value.value > 70.0)
    ensures Unit(r.confidence)
  {
    match value
    case None => NO_READING
    case Some(v) =>
      if v < 30.0 then Reading("BUY", Min((30.0 - v) / 30.0, 1.0))
      else if v > 70.0 then Reading("SELL", Min((v - 70.0) / 30.0, 1.0))
      else Reading("NEUTRAL", 0.5)
  }

  /** RSI confidence grows as the value moves deeper into the oversold zone. */
  lemma RsiDeeperIsSurer(v: real, w: real)
    requires w <= v < 30.0
    ensures RsiReading(Some(w)).confidence >= RsiReading(Some(v)).confidence
  {
  }

  /** MACD over (macd line, signal line); the histogram is their difference. */
  function MacdReading(lines: Option<(real, real)>): (r: Reading)
    ensures lines.None? ==> r == NO_READING
    ensures lines.Some? ==> (r.signal == "BUY" <==> lines.value.0 > lines.value.1)
                            && (r.signal == "SELL" <==> lines.value.0 < lines.value.1)
    ensures Unit(r.confidence)
  {
    match lines
    case None => NO_READING
    case Some((macd, signalLine)) =>
      var histogram := macd - signalLine;
      var ratio := if macd != 0.0 then Abs(histogram) / Abs(macd) else 0.5;
      if macd > signalLine && histogram > 0.0 then Reading("BUY", Min(ratio, 1.0))
      else if macd < signalLine && histogram < 0.0 then Reading("SELL", Min(ratio, 1.0))
      else Reading("NEUTRAL", 0.5)
  }

  /** Moving averages over (SMA 20, SMA 50) and the last price. A zero SMA 20
      divides by zero in numpy, giving infinity, which `min` caps at 1. */
  function MovingAverageReading(smas: Option<(real, real)>, price: real): (r: Reading)
    ensures smas.None? ==> r == NO_READING
    ensures smas.Some? ==>
              (r.signal == "BUY" <==> smas.value.0 > smas.value.1 && price > smas.value.0)
              && (r.signal == "SELL" <==> smas.value.0 < smas.value.1 && price < smas.value.0)
    ensures smas.Some? && smas.value.0 >= 0.0 ==> Unit(r.confidence)
  {
    match smas
    case None => NO_READING
    case Some((sma20, sma50)) =>
      if sma20 > sma50 && price > sma20 then
        Reading("BUY", if sma20 == 0.0 then 1.0 else Min((price - sma20) / sma20 * 10.0, 1.0))
      else if sma20 < sma50 && price < sma20 then
        Reading("SELL", if sma20 == 0.0 then 1.0 else Min((sma20 - price) / sma20 * 10.0, 1.0))
      else Reading("NEUTRAL", 0.5)
  }

  /** Bollinger bands over (upper, middle, lower) and the last price. */
  function BollingerReading(bands: Option<(real, real, real)>, price: real): (r: Reading)
    ensures bands.None? ==> r == NO_READING
    ensures bands.Some? ==> (r.signal == "BUY" <==> price < bands.value.2)
                            && (r.signal == "SELL" <==> !(price < bands.value.2) && price > bands.value.0)
    ensures Unit(r.confidence)
  {
    match bands
    case None => NO_READING
    case Some((upper, middle, lower)) =>
      if price < lower then
        BandConfidence(lower - price, middle - lower);
        Reading("BUY", Min(if middle - lower > 0.0 then (lower - price) / (middle - lower) else 0.5, 1.0))
      else if price > upper then
        BandConfidence(price - upper, upper - middle);
        Reading("SELL", Min(if upper - middle > 0.0 then (price - upper) / (upper - middle) else 0.5, 1.0))
      else Reading("NEUTRAL", 0.5)
  }

  /** A band breach's confidence: the breach over the band's half-width, 0.5 for a
      degenerate band, capped at 1. */
  lemma BandConfidence(breach: real, width: real)
    requires breach >= 0.0
    ensures Unit(Min(if width > 0.0 then breach / width else 0.5, 1.0))
  {
    if width > 0.0 {
      QuotientNonNegative(breach, width);
    }
  }

  /** Stochastic oscillator over (%K, %D). */
  function StochasticReading(kd: Option<(real, real)>): (r: Reading)
    ensures kd.None? ==> r == NO_READING
    ensures kd.Some? ==> (r.signal == "BUY" <==> kd.value.0 < 20.0 && kd.value.0 > kd.value.1)
                         && (r.signal == "SELL" <==> kd.value.0 > 80.0 && kd.value.0 < kd.value.1)
    ensures Unit(r.confidence)
  {
    match kd
    case None => NO_READING
    case Some((k, d)) =>
      if k < 20.0 && k > d then Reading("BUY", Min((20.0 - k) / 20.0, 1.0))
      else if k > 80.0 && k < d then Reading("SELL", Min((k - 80.0) / 20.0, 1.0))
      else Reading("NEUTRAL", 0.5)
  }

  /** Volume over (current, average, last price change). Its dictionary has no
      confidence, so the aggregation's default of 0.5 applies. */
  function VolumeReading(v: Option<(real, real, real)>): (r: Reading)
    ensures v.Some? ==>
              var ratio := if v.value.1 > 0.0 then v.value.0 / v.value.1 else 1.0;
              (r.signal == "BUY" <==> ratio > 1.5 && v.value.2 > 0.0)
              && (r.signal == "SELL" <==> ratio > 1.5 && v.value.2 < 0.0)
    ensures v.None? ==> r.signal == "NEUTRAL"
    ensures Unit(r.confidence)
  {
    match v
    case None => Reading("NEUTRAL", 0.5)
    case Some((current, average, change)) =>
      var ratio := if average > 0.0 then current / average else 1.0;
      if ratio > 1.5 && change > 0.0 then Reading("BUY", 0.5)
      else if ratio > 1.5 && change < 0.0 then Reading("SELL", 0.5)
      else Reading("NEUTRAL", 0.5)
  }

  /** The indicators' scalar outputs; `None` where the source returns its NaN dictionary. */
  datatype TechnicalInputs = TechnicalInputs(
    rsi: Option<real>,
    macd: Option<(real, real)>,
    smas: Option<(real, real)>,
    bands: Option<(real, real, real)>,
    stochastic: Option<(real, real)>,
    volume: Option<(real, real, real)>,
    price: real)

  /** The readings in the dictionary's order. ATR reports a volatility and no
      signal, so it never votes and is not listed. */
  function Readings(x: TechnicalInputs): (r: seq<Reading>)
    ensures |r| == 6
  {
    [RsiReading(x.rsi), MacdReading(x.macd), MovingAverageReading(x.smas, x.price),
     BollingerReading(x.bands, x.price), StochasticReading(x.stochastic), VolumeReading(x.volume)]
  }

  function SignalOf(r: Reading): string { r.signal }

  /** Every classifier votes "BUY", "SELL" or "NEUTRAL". */
  lemma ReadingSignals(x: TechnicalInputs)
    ensures forall k :: 0 <= k < 6 ==> SignalOf(Readings(x)[k]) in {"BUY", "SELL", "NEUTRAL"}
  {
  }

  // ---------------------------------------------------------------- aggregation

  /** The non-neutral readings, in order. */
  function Votes(rs: seq<Reading>): (r: seq<Reading>)
    ensures |r| <= |rs|
    ensures forall v :: v in r <==> v in rs && Voting(v)
  {
    if |rs| == 0 then []
    else
      var init := rs[..|rs| - 1];
      assert forall v :: v in rs <==> v in init || v == rs[|rs| - 1];
      Votes(init) + (if Voting(rs[|rs| - 1]) then [rs[|rs| - 1]] else [])
  }

  /** `signals.count(s)`. */
  function Count(votes: seq<Reading>, s: string): nat
  {
    if |votes| == 0 then 0
    else (if votes[0].signal == s then 1 else 0) + Count(votes[1..], s)
  }

  /** `[c for s, c in zip(signals, confidence_scores) if s == side]`. */
  function ConfidencesFor(votes: seq<Reading>, s: string): seq<real>
  {
    if |votes| == 0 then []
    else (if votes[0].signal == s then [votes[0].confidence] else []) + ConfidencesFor(votes[1..], s)
  }

  lemma {:induction false} ConfidencesForCount(votes: seq<Reading>, s: string)
    ensures |ConfidencesFor(votes, s)| == Count(votes, s)
    ensures (forall k :: 0 <= k < |votes| ==> Unit(votes[k].confidence)) ==>
              forall k :: 0 <= k < |ConfidencesFor(votes, s)| ==> Unit(ConfidencesFor(votes, s)[k])
  {
    if |votes| > 0 {
      ConfidencesForCount(votes[1..], s);
    }
  }

  /** The overall technical signal and its confidence before the 0.95 cap. */
  function Aggregate(rs: seq<Reading>): (Signal, real)
  {
    var votes := Votes(rs);
    var buy := Count(votes, "BUY");
    var sell := Count(votes, "SELL");
    if |votes| == 0 then (Hold, 0.5)
    else if buy > sell && buy >= 2 then
      (if buy < 4 then BuySignal else StrongBuy,
       if |ConfidencesFor(votes, "BUY")| > 0 then Mean(ConfidencesFor(votes, "BUY")) else 0.5)
    else if sell > buy && sell >= 2 then
      (if sell < 4 then SellSignal else StrongSell,
       if |ConfidencesFor(votes, "SELL")| > 0 then Mean(ConfidencesFor(votes, "SELL")) else 0.5)
    else (Hold, 0.5)
  }

  /** The aggregation rule: a buy needs a strict majority over sells and at
      least two buy votes, four make it strong, and its confidence is the mean
      of the buy votes' confidences; sells mirror this; anything else holds at
      0.5. With every confidence in [0, 1], so is the result. */
  lemma {:induction false} AggregateRule(rs: seq<Reading>)
    ensures var buy, sell := Count(Votes(rs), "BUY"), Count(Votes(rs), "SELL");
            var (sig, conf) := Aggregate(rs);
            (sig in {BuySignal, StrongBuy} <==> buy > sell && buy >= 2)
            && (sig == StrongBuy <==> buy > sell && buy >= 4)
            && (sig in {SellSignal, StrongSell} <==> sell > buy && sell >= 2)
            && (sig == StrongSell <==> sell > buy && sell >= 4)
            && (sig in {BuySignal, StrongBuy} ==>
                  |ConfidencesFor(Votes(rs), "BUY")| > 0 && conf == Mean(ConfidencesFor(Votes(rs), "BUY")))
            && (sig in {SellSignal, StrongSell} ==>
                  |ConfidencesFor(Votes(rs), "SELL")| > 0 && conf == Mean(ConfidencesFor(Votes(rs), "SELL")))
            && (sig == Hold ==> conf == 0.5)
    ensures (forall k :: 0 <= k < |rs| ==> Unit(rs[k].confidence)) ==> Unit(Aggregate(rs).1)
  {
    var votes := Votes(rs);
    ConfidencesForCount(votes, "BUY");
    ConfidencesForCount(votes, "SELL");
    CountBound(votes, "BUY");
    CountBound(votes, "SELL");
    if forall k :: 0 <= k < |rs| ==> Unit(rs[k].confidence) {
      forall k | 0 <= k < |votes| ensures Unit(votes[k].confidence) {
        assert votes[k] in rs;
      }
      ConfidencesForCount(votes, "BUY");
      ConfidencesForCount(votes, "SELL");
      if |ConfidencesFor(votes, "BUY")| > 0 {
        MeanBounds(ConfidencesFor(votes, "BUY"), 0.0, 1.0);
      }
      if |ConfidencesFor(votes, "SELL")| > 0 {
        MeanBounds(ConfidencesFor(votes, "SELL"), 0.0, 1.0);
      }
    }
  }

  lemma {:induction false} CountBound(votes: seq<Reading>, s: string)
    ensures Count(votes, s) <= |votes|
    ensures |votes| > 0 && Count(votes, s) == 0 ==> forall k :: 0 <= k < |votes| ==> votes[k].signal != s
  {
    if |votes| > 0 {
      CountBound(votes[1..], s);
      if Count(votes, s) == 0 {
        assert votes[0].signal != s;
        assert forall k :: 1 <= k < |votes| ==> votes[k] == votes[1..][k - 1];
      }
    }
  }

  /** The aggregation loop: the non-neutral readings, in order. */
  method CollectVotes(rs: seq<Reading>) returns (votes: seq<Reading>)
    ensures votes == Votes(rs)
    ensures forall k :: 0 <= k < |votes| ==> Voting(votes[k])
  {
    votes := [];
    for i := 0 to |rs|
      invariant votes == Votes(rs[..i])
    {
      assert rs[..i + 1][..i] == rs[..i];
      if rs[i].signal != "NEUTRAL" {
        votes := votes + [rs[i]];
      }
    }
    assert rs[..|rs|] == rs;
    assert forall k :: 0 <= k < |votes| ==> votes[k] in votes;
  }

  // ---------------------------------------------------------------- agents

  const MIN_TECHNICAL_BARS: nat := 50
  const TECHNICAL_CAP: real := 0.95

  /** The technical agent on `barCount` bars. An invalid confidence makes the
      record raise, and the agent's handler answers HOLD at 0.0. */
  function TechnicalAnalysis(symbol: string, barCount: nat, x: TechnicalInputs, now: Instant): (a: AgentAnalysis)
    ensures a.agentType == Technical && a.symbol == symbol
    ensures barCount < MIN_TECHNICAL_BARS ==> a.signal == Hold && a.confidence == 0.0
    ensures 0.0 <= a.confidence <= TECHNICAL_CAP
  {
    if barCount < MIN_TECHNICAL_BARS then
      AgentAnalysis(Technical, symbol, Hold, 0.0, "Insufficient historical data for analysis", now, NoMetadata)
    else
      var (sig, conf) := Aggregate(Readings(x));
      match NewAgentAnalysis(Technical, symbol, sig, Min(conf, TECHNICAL_CAP), "", now, OtherMetadata)
      case Ok(a) => a
      case Err(e) => AgentAnalysis(Technical, symbol, Hold, 0.0, "Analysis error: " + e, now, NoMetadata)
  }

  /** With a non-negative SMA 20 (so with positive prices) the technical agent
      never takes its error path: it reports the aggregate, capped at 0.95. */
  lemma TechnicalReportsAggregate(symbol: string, barCount: nat, x: TechnicalInputs, now: Instant)
    requires barCount >= MIN_TECHNICAL_BARS
    requires x.smas.None? || x.smas.value.0 >= 0.0
    ensures var a := TechnicalAnalysis(symbol, barCount, x, now);
            a.signal == Aggregate(Readings(x)).0 && a.confidence == Min(Aggregate(Readings(x)).1, TECHNICAL_CAP)
  {
    var rs := Readings(x);
    assert forall k :: 0 <= k < |rs| ==> Unit(rs[k].confidence);
    AggregateRule(rs);
  }

  datatype NewsItem = NewsItem(sentimentScore: Option<real>)

  function Scores(news: seq<NewsItem>): (r: seq<real>)
    ensures |r| <= |news|
  {
    if |news| == 0 then []
    else (if news[0].sentimentScore.Some? then [news[0].sentimentScore.value] else []) + Scores(news[1..])
  }

  /** The news agent's verdict on a mean sentiment. */
  function SentimentVerdict(avg: real): (r: (Signal, real))
    ensures avg > 0.6 <==> r.0 == StrongBuy
    ensures 0.2 < avg <= 0.6 <==> r.0 == BuySignal
    ensures avg < -0.6 <==> r.0 == StrongSell
    ensures -0.6 <= avg < -0.2 <==> r.0 == SellSignal
    ensures -0.2 <= avg <= 0.2 <==> r.0 == Hold
    ensures r.0 in {StrongBuy, StrongSell} ==> r.1 == Min(0.85, 0.6 + Abs(avg) * 0.2)
    ensures r.0 in {BuySignal, SellSignal} ==> r.1 == 0.7
    ensures r.0 == Hold ==> r.1 == 0.5
  {
    if avg > 0.6 then (StrongBuy, Min(0.85, 0.6 + avg * 0.2))
    else if avg > 0.2 then (BuySignal, 0.7)
    else if avg < -0.6 then (StrongSell, Min(0.85, 0.6 + Abs(avg) * 0.2))
    else if avg < -0.2 then (SellSignal, 0.7)
    else (Hold, 0.5)
  }

  function NewsAnalysis(symbol: string, news: seq<NewsItem>, now: Instant): (a: AgentAnalysis)
    ensures a.agentType == News && a.symbol == symbol
    ensures |news| == 0 ==> a.signal == Hold && a.confidence == 0.0
    ensures |news| > 0 && |Scores(news)| == 0 ==> a.signal == Hold && a.confidence == 0.3
    ensures |Scores(news)| > 0 ==> (a.signal, a.confidence) == SentimentVerdict(Mean(Scores(news)))
    ensures 0.0 <= a.confidence <= 0.85
  {
    if |news| == 0 then AgentAnalysis(News, symbol, Hold, 0.0, "No recent news available", now, NoMetadata)
    else
      var scores := Scores(news);
      if |scores| == 0 then AgentAnalysis(News, symbol, Hold, 0.3, "", now, NoMetadata)
      else
        var (sig, conf) := SentimentVerdict(Mean(scores));
        AgentAnalysis(News, symbol, sig, conf, "", now, OtherMetadata)
  }

  /** The fundamental agent; `u` is the `random.uniform(-1, 1)` draw's source. */
  function FundamentalAnalysis(symbol: string, hasFundamentals: bool, u: Draw, now: Instant): (a: AgentAnalysis)
    ensures a.agentType == Fundamental && a.symbol == symbol
    ensures !hasFundamentals ==> a.signal == Hold && a.confidence == 0.0
    ensures a.signal in {BuySignal, SellSignal, Hold} && 0.0 <= a.confidence <= 0.75
    ensures Weight(a) <= 1
  {
    if !hasFundamentals then
      AgentAnalysis(Fundamental, symbol, Hold, 0.0, "No fundamental data available", now, NoMetadata)
    else
      var score := Uniform(-1.0, 1.0, u);
      if score > 0.5 then
        AgentAnalysis(Fundamental, symbol, BuySignal, 0.75, "Strong fundamentals: healthy financials and growth", now, NoMetadata)
      else if score < -0.5 then
        AgentAnalysis(Fundamental, symbol, SellSignal, 0.75, "Weak fundamentals: concerning financial metrics", now, NoMetadata)
      else
        AgentAnalysis(Fundamental, symbol, Hold, 0.6, "Mixed fundamentals: neutral outlook", now, NoMetadata)
  }

  /** The risk manager's limits, fixed at construction. */
  datatype RiskLimits = RiskLimits(maxPositionSize: real, maxDailyLoss: real)

  const DEFAULT_LIMITS: RiskLimits := RiskLimits(0.1, 0.05)

  datatype RiskInputs = RiskInputs(portfolioValue: real, dailyPnl: real, heldSymbols: seq<string>,
                                   proposedQuantity: real, currentPrice: real)

  /** The day's loss and the proposed trade as shares of the portfolio (0 for an empty portfolio). */
  function DailyLossShare(x: RiskInputs): real
  {
    if x.portfolioValue > 0.0 then Abs(x.dailyPnl) / x.portfolioValue else 0.0
  }

  function PositionShare(x: RiskInputs): real
  {
    if x.portfolioValue > 0.0 then x.proposedQuantity * x.currentPrice / x.portfolioValue else 0.0
  }

  /** The risk level and the concerns, in the order the checks run. */
  function Assess(lim: RiskLimits, symbol: string, x: RiskInputs): (string, seq<RiskConcern>)
  {
    var lossBreached := DailyLossShare(x) > lim.maxDailyLoss;
    var sizeBreached := PositionShare(x) > lim.maxPositionSize;
    var level1 := if lossBreached then "CRITICAL" else "LOW";
    var level := if sizeBreached && level1 != "CRITICAL" then "HIGH" else level1;
    var cs := (if lossBreached then [DailyLossLimitExceeded(DailyLossShare(x))] else [])
              + (if sizeBreached then [PositionSizeTooLarge(PositionShare(x))] else [])
              + (if symbol in x.heldSymbols then [AlreadyHoldingSymbol] else []);
    (level, cs)
  }

  function RiskAnalysis(lim: RiskLimits, symbol: string, x: RiskInputs, now: Instant): (a: AgentAnalysis)
    ensures a.agentType == Risk && a.symbol == symbol
    ensures a.metadata.RiskMetadata?
  {
    var (level, cs) := Assess(lim, symbol, x);
    var meta := RiskMetadata(level, cs);
    if |cs| == 0 then AgentAnalysis(Risk, symbol, BuySignal, 0.8, "Risk assessment passed: within all limits", now, meta)
    else if level == "CRITICAL" then AgentAnalysis(Risk, symbol, StrongSell, 0.95, "", now, meta)
    else AgentAnalysis(Risk, symbol, Hold, 0.7, "", now, meta)
  }

  /** The risk verdict: CRITICAL exactly when the day's loss share exceeds its
      limit, HIGH when only the position share does, and the signal is BUY 0.8
      with no concern, STRONG_SELL 0.95 when CRITICAL, and HOLD 0.7 otherwise. */
  lemma RiskRules(lim: RiskLimits, symbol: string, x: RiskInputs, now: Instant)
    ensures var a := RiskAnalysis(lim, symbol, x, now);
            (a.metadata.riskLevel == "CRITICAL" <==> DailyLossShare(x) > lim.maxDailyLoss)
            && (a.metadata.riskLevel == "HIGH" <==>
                  DailyLossShare(x) <= lim.maxDailyLoss && PositionShare(x) > lim.maxPositionSize)
            && (a.signal == BuySignal <==>
                  DailyLossShare(x) <= lim.maxDailyLoss && PositionShare(x) <= lim.maxPositionSize
                  && symbol !in x.heldSymbols)
            && (a.signal == StrongSell <==> DailyLossShare(x) > lim.maxDailyLoss)
            && (a.signal == Hold <==> a.metadata.riskLevel != "CRITICAL" && |a.metadata.risks| > 0)
    ensures var a := RiskAnalysis(lim, symbol, x, now);
            (a.signal == BuySignal ==> a.confidence == 0.8 && |a.metadata.risks| == 0)
            && (a.signal == StrongSell ==> a.confidence == 0.95)
            && (a.signal == Hold ==> a.confidence == 0.7)
  {
  }

  /** A breached daily-loss limit makes the risk manager answer STRONG_SELL at 0.95. */
  lemma CriticalIsStrongSell(lim: RiskLimits, symbol: string, x: RiskInputs, now: Instant)
    requires DailyLossShare(x) > lim.maxDailyLoss
    ensures RiskAnalysis(lim, symbol, x, now).signal == StrongSell
    ensures RiskAnalysis(lim, symbol, x, now).confidence == 0.95
  {
    var (level, cs) := Assess(lim, symbol, x);
    assert level == "CRITICAL" && |cs| > 0;
  }

  // ---------------------------------------------------------------- orchestrator

  function BaseWeight(s: Signal): int
  {
    match s
    case StrongBuy => 2
    case BuySignal => 1
    case Hold => 0
    case SellSignal => -1
    case StrongSell => -2
  }

  /** A vote's weight; the risk manager's STRONG_SELL counts three times. */
  function Weight(a: AgentAnalysis): int
  {
    if a.agentType == Risk && a.signal == StrongSell then 3 * BaseWeight(a.signal) else BaseWeight(a.signal)
  }

  /** `total_score` over the collected analyses. */
  function Score(analyses: seq<AgentAnalysis>): real
  {
    if |analyses| == 0 then 0.0
    else
      var last := analyses[|analyses| - 1];
      Score(analyses[..|analyses| - 1]) + Term(last)
  }

  function Term(a: AgentAnalysis): real
  {
    Weight(a) as real * a.confidence
  }

  function TotalConfidence(analyses: seq<AgentAnalysis>): real
  {
    if |analyses| == 0 then 0.0
    else TotalConfidence(analyses[..|analyses| - 1]) + analyses[|analyses| - 1].confidence
  }

  /** The voting loop. */
  method Tally(analyses: seq<AgentAnalysis>) returns (totalScore: real, totalConfidence: real)
    ensures totalScore == Score(analyses) && totalConfidence == TotalConfidence(analyses)
  {
    totalScore, totalConfidence := 0.0, 0.0;
    for i := 0 to |analyses|
      invariant totalScore == Score(analyses[..i]) && totalConfidence == TotalConfidence(analyses[..i])
    {
      assert analyses[..i + 1][..i] == analyses[..i];
      var weight := BaseWeight(analyses[i].signal);
      if analyses[i].agentType == Risk && analyses[i].signal == StrongSell {
        weight := weight * 3;
      }
      totalScore := totalScore + weight as real * analyses[i].confidence;
      totalConfidence := totalConfidence + analyses[i].confidence;
    }
    assert analyses[..|analyses|] == analyses;
  }

  const BUY_THRESHOLD: real := 1.5
  const SELL_THRESHOLD: real := -1.5
  const DECISION_CAP: real := 0.9
  const POSITION_FRACTION: real := 0.05

  /** The risk assessment read back from the first risk analysis, if any. */
  function AssessmentOf(analyses: seq<AgentAnalysis>): RiskAssessment
  {
    if |analyses| == 0 then RiskAssessment("UNKNOWN", [])
    else if analyses[0].agentType == Risk then
      match analyses[0].metadata
      case RiskMetadata(level, risks) => RiskAssessment(level, risks)
      case _ => RiskAssessment("UNKNOWN", [])
    else AssessmentOf(analyses[1..])
  }

  /** The decision on the analyses that were collected; `None` means no trade. */
  function Decision(symbol: string, analyses: seq<AgentAnalysis>, portfolioValue: real, currentPrice: real,
                    now: Instant): Option<TradingDecision>
  {
    var score := Score(analyses);
    var avg := if |analyses| > 0 then TotalConfidence(analyses) / |analyses| as real else 0.0;
    if score > BUY_THRESHOLD || score < SELL_THRESHOLD then
      var action := if score > BUY_THRESHOLD then Buy else Sell;
      Some(TradingDecision(symbol, action, Quantity(portfolioValue, currentPrice), Some(currentPrice), Min(DECISION_CAP, avg), analyses,
                           AssessmentOf(analyses), now))
    else None
  }

  /** The decision rule: buy above +1.5, sell below -1.5, otherwise no trade;
      the confidence is the mean confidence capped at 0.9, and the quantity is
      5% of the portfolio at the current price (0 for a non-positive price). */
  lemma DecisionRule(symbol: string, analyses: seq<AgentAnalysis>, portfolioValue: real, currentPrice: real,
                     now: Instant)
    ensures var d := Decision(symbol, analyses, portfolioValue, currentPrice, now);
            (d.Some? && d.value.action == Buy <==> Score(analyses) > 1.5)
            && (d.Some? && d.value.action == Sell <==> Score(analyses) < -1.5)
            && (d.Some? ==> d.value.confidence <= 0.9 && d.value.agentVotes == analyses
                            && (|analyses| > 0 ==> d.value.confidence == Min(0.9, TotalConfidence(analyses) / |analyses| as real))
                            && (currentPrice > 0.0 ==> d.value.quantity * currentPrice == 0.05 * portfolioValue)
                            && (currentPrice <= 0.0 ==> d.value.quantity == 0.0))
  {
  }

  /** `get_trading_decision`: the four agents in order, then the vote. No agent
      of this model raises, so every analysis takes part. */
  method GetTradingDecision(symbol: string, barCount: nat, tech: TechnicalInputs, news: seq<NewsItem>,
                            hasFundamentals: bool, u: Draw, risk: RiskInputs, portfolioValue: real,
                            currentPrice: real, now: Instant)
    returns (d: Option<TradingDecision>)
    ensures d == Decision(symbol, Agents(symbol, barCount, tech, news, hasFundamentals, u, risk, now),
                          portfolioValue, currentPrice, now)
  {
    var analyses := Agents(symbol, barCount, tech, news, hasFundamentals, u, risk, now);
    var totalScore, totalConfidence := Tally(analyses);
    var avgConfidence := if |analyses| > 0 then totalConfidence / |analyses| as real else 0.0;
    if totalScore > BUY_THRESHOLD {
      d := Some(TradingDecision(symbol, Buy, Quantity(portfolioValue, currentPrice), Some(currentPrice),
                                Min(DECISION_CAP, avgConfidence), analyses, AssessmentOf(analyses), now));
    } else if totalScore < SELL_THRESHOLD {
      d := Some(TradingDecision(symbol, Sell, Quantity(portfolioValue, currentPrice), Some(currentPrice),
                                Min(DECISION_CAP, avgConfidence), analyses, AssessmentOf(analyses), now));
    } else {
      d := None;
    }
  }

  /** 5% of the portfolio's value in units at the current price; 0 for a non-positive price. */
  function Quantity(portfolioValue: real, currentPrice: real): (q: real)
    ensures currentPrice > 0.0 ==> q * currentPrice == POSITION_FRACTION * portfolioValue
    ensures currentPrice <= 0.0 ==> q == 0.0
  {
    if currentPrice > 0.0 then portfolioValue * POSITION_FRACTION / currentPrice else 0.0
  }

  /** The analyses of the technical, news, fundamental and risk agents, in that order. */
  function Agents(symbol: string, barCount: nat, tech: TechnicalInputs, news: seq<NewsItem>, hasFundamentals: bool,
                  u: Draw, risk: RiskInputs, now: Instant): (r: seq<AgentAnalysis>)
    ensures |r| == 4 && r[3] == RiskAnalysis(DEFAULT_LIMITS, symbol, risk, now)
    ensures 0.0 <= r[0].confidence <= 0.95 && 0.0 <= r[1].confidence <= 0.85
    ensures 0.0 <= r[2].confidence <= 0.75 && Weight(r[2]) <= 1
  {
    var t := TechnicalAnalysis(symbol, barCount, tech, now);
    var n := NewsAnalysis(symbol, news, now);
    var f := FundamentalAnalysis(symbol, hasFundamentals, u, now);
    [t, n, f, RiskAnalysis(DEFAULT_LIMITS, symbol, risk, now)]
  }

  /** A vote's term is at most its largest weight times its largest confidence. */
  lemma TermBound(a: AgentAnalysis, wmax: int, cmax: real)
    requires Weight(a) <= wmax && 0 <= wmax && 0.0 <= a.confidence <= cmax
    ensures Term(a) <= wmax as real * cmax
  {
    assert Weight(a) as real * a.confidence <= wmax as real * a.confidence;
    assert wmax as real * a.confidence <= wmax as real * cmax;
  }

  lemma {:induction false} ScoreOfFour(a: seq<AgentAnalysis>)
    requires |a| == 4
    ensures Score(a) == Term(a[0]) + Term(a[1]) + Term(a[2]) + Term(a[3])
  {
    assert a[..3][..2] == a[..2] && a[..2][..1] == a[..1] && a[..1][..0] == [];
    assert Score(a[..1]) == Term(a[0]);
    assert Score(a[..2]) == Term(a[0]) + Term(a[1]);
    assert Score(a[..3]) == Term(a[0]) + Term(a[1]) + Term(a[2]);
  }

  /** Four votes where the last is the risk manager's STRONG_SELL at 0.95 and
      the others stay within the agents' confidence ranges score below 1.5. */
  lemma {:induction false} VetoBound(a: seq<AgentAnalysis>)
    requires |a| == 4
    requires 0.0 <= a[0].confidence <= 0.95 && 0.0 <= a[1].confidence <= 0.85
    requires 0.0 <= a[2].confidence <= 0.75 && Weight(a[2]) <= 1
    requires Weight(a[3]) == -6 && a[3].confidence == 0.95
    ensures Score(a) < BUY_THRESHOLD
  {
    TermBound(a[0], 2, 0.95);
    TermBound(a[1], 2, 0.85);
    TermBound(a[2], 1, 0.75);
    assert Term(a[3]) == -6.0 * 0.95;
    ScoreOfFour(a);
  }

  /** The risk manager's veto: when the day's loss breaks its limit, no
      combination of the other three agents can make the decision a buy. */
  lemma CriticalRiskBlocksBuy(symbol: string, barCount: nat, tech: TechnicalInputs, news: seq<NewsItem>,
                              hasFundamentals: bool, u: Draw, risk: RiskInputs, portfolioValue: real,
                              currentPrice: real, now: Instant)
    requires DailyLossShare(risk) > DEFAULT_LIMITS.maxDailyLoss
    ensures var d := Decision(symbol, Agents(symbol, barCount, tech, news, hasFundamentals, u, risk, now),
                              portfolioValue, currentPrice, now);
            d.None? || d.value.action == Sell
  {
    var a := Agents(symbol, barCount, tech, news, hasFundamentals, u, risk, now);
    CriticalIsStrongSell(DEFAULT_LIMITS, symbol, risk, now);
    VetoBound(a);
    DecisionRule(symbol, a, portfolioValue, currentPrice, now);
  }
}
