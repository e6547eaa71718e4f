/** The backtesting engine: a bar loop that holds at most one open position,
    enters on the AI signal every fifth bar after a warm-up, leaves on
    stop-loss or take-profit, settles profit net of commission, and then
    summarises the trades and the equity curve. */
module Backtest {
  import opened Common

  const MIN_BARS: nat := 100
  const WARMUP: nat := 60
  const ENTRY_EVERY: nat := 5

  /** One row of the historical data: its date and closing price. */
  datatype Bar = Bar(date: Instant, close: real)

  /** What `analyze_symbol` answers for a bar (its `signal` is one of the
      upper-case names, e.g. "STRONG_BUY" or "NEUTRAL"). */
  datatype AiSignal = AiSignal(signal: string, confidence: real, stopLoss: real, takeProfit: real)

  /** The caller's choices for one run. */
  datatype Setup = Setup(symbol: string, startDate: Instant, endDate: Instant, positionSizePct: real,
                         useStopLoss: bool, useTakeProfit: bool, minConfidence: real)

  /** A simulated trade. `status` is "open", "stopped", "win" or "end_of_period". */
  datatype Trade = Trade(
    entryTime: Instant,
    exitTime: Option<Instant>,
    symbol: string,
    signal: string,
    entryPrice: real,
    exitPrice: Option<real>,
    quantity: real,
    stopLoss: real,
    takeProfit: real,
    pnl: Option<real>,
    status: string,
    confidence: real,
    holdTimeHours: Option<real>)

  datatype EquityPoint = EquityPoint(date: Instant, equity: real)

  datatype BacktestError = InsufficientData

  predicate IsLong(signal: string)
  {
    signal == "BUY" || signal == "STRONG_BUY"
  }

  predicate PositiveCloses(bars: seq<Bar>)
  {
    forall i :: 0 <= i < |bars| ==> bars[i].close > 0.0
  }

  // ---------------------------------------------------------------- exits and settlement

  /** `_check_exit_conditions`: a long is stopped at or below its stop and wins
      at or above its target; a short mirrors both; the stop is checked first
      and a disabled rule never fires. */
  function CheckExit(t: Trade, price: real, useStopLoss: bool, useTakeProfit: bool): (r: (bool, string))
    ensures r.0 <==> r.1 != ""
    ensures r.1 == "" || r.1 == "stopped" || r.1 == "win"
    ensures r.1 == "stopped" <==>
              useStopLoss && (if IsLong(t.signal) then price <= t.stopLoss else price >= t.stopLoss)
    ensures r.1 == "win" <==>
              r.1 != "stopped" && useTakeProfit && (if IsLong(t.signal) then price >= t.takeProfit else price <= t.takeProfit)
  {
    if IsLong(t.signal) then
      if useStopLoss && price <= t.stopLoss then (true, "stopped")
      else if useTakeProfit && price >= t.takeProfit then (true, "win")
      else (false, "")
    else
      if useStopLoss && price >= t.stopLoss then (true, "stopped")
      else if useTakeProfit && price <= t.takeProfit then (true, "win")
      else (false, "")
  }

  /** The directional move of the position at an exit price. */
  function Move(t: Trade, price: real): real
  {
    if IsLong(t.signal) then (price - t.entryPrice) * t.quantity else (t.entryPrice - price) * t.quantity
  }

  /** The profit of closing at `price`, less commission `fee` on the entry and on the exit notional. */
  function ClosePnl(t: Trade, price: real, fee: real): real
  {
    Move(t, price) - t.entryPrice * t.quantity * fee - price * t.quantity * fee
  }

  /** The commission is charged on both legs: the net profit and the two
      commissions add up to the directional move, and a long and a short of the
      same size closed at the same price together lose exactly both legs' fees twice. */
  lemma CommissionOnBothLegs(t: Trade, price: real, fee: real)
    ensures ClosePnl(t, price, fee) + t.entryPrice * t.quantity * fee + price * t.quantity * fee == Move(t, price)
    ensures ClosePnl(t.(signal := "BUY"), price, fee) + ClosePnl(t.(signal := "SELL"), price, fee)
            == -2.0 * (t.entryPrice * t.quantity * fee + price * t.quantity * fee)
  {
    var long := t.(signal := "BUY");
    var short := t.(signal := "SELL");
    assert Move(long, price) + Move(short, price) == 0.0 by {
      assert Move(long, price) == (price - t.entryPrice) * t.quantity;
      assert Move(short, price) == (t.entryPrice - price) * t.quantity;
    }
  }

  function HoldHours(entry: Instant, exit: Instant): real
  {
    (exit - entry) as real / MICROS_PER_HOUR as real
  }

  /** The trade closed at a bar with the given status and hold time. */
  function Closed(t: Trade, bar: Bar, status: string, hold: Option<real>, fee: real): (c: Trade)
    ensures c.pnl == Some(ClosePnl(t, bar.close, fee)) && c.exitPrice == Some(bar.close)
    ensures c.exitTime == Some(bar.date) && c.status == status && c.holdTimeHours == hold
    ensures c.(exitTime := t.exitTime, exitPrice := t.exitPrice, pnl := t.pnl, status := t.status,
               holdTimeHours := t.holdTimeHours) == t
  {
    t.(exitTime := Some(bar.date), exitPrice := Some(bar.close), pnl := Some(ClosePnl(t, bar.close, fee)),
       status := status, holdTimeHours := hold)
  }

  // ---------------------------------------------------------------- the bar loop

  /** The loop's state: capital, closed trades, equity curve and the open position. */
  datatype Sim = Sim(capital: real, trades: seq<Trade>, equity: seq<EquityPoint>, open: Option<Trade>)

  function Initial(s: Setup, capital: real): Sim
  {
    Sim(capital, [], [EquityPoint(s.startDate, capital)], None)
  }

  /** The exit half of a bar: an open position that meets an exit rule is
      closed, its profit is added to capital, and an equity point is recorded. */
  function ExitStep(st: Sim, bar: Bar, s: Setup, fee: real): (r: Sim)
    requires st.open.Some?
    ensures var (exit, reason) := CheckExit(st.open.value, bar.close, s.useStopLoss, s.useTakeProfit);
            if exit then
              var c := Closed(st.open.value, bar, reason, Some(HoldHours(st.open.value.entryTime, bar.date)), fee);
              r == Sim(st.capital + c.pnl.value, st.trades + [c], st.equity + [EquityPoint(bar.date, st.capital + c.pnl.value)], None)
            else r == st
  {
    var t := st.open.value;
    var (exit, reason) := CheckExit(t, bar.close, s.useStopLoss, s.useTakeProfit);
    if exit then
      var c := Closed(t, bar, reason, Some(HoldHours(t.entryTime, bar.date)), fee);
      var capital := st.capital + c.pnl.value;
      Sim(capital, st.trades + [c], st.equity + [EquityPoint(bar.date, capital)], None)
    else st
  }

  /** Whether bar `i` opens a trade from state `st`. */
  predicate Enters(st: Sim, i: nat, signals: seq<Option<AiSignal>>, s: Setup)
    requires i < |signals|
  {
    st.open.None? && i % ENTRY_EVERY == 0 && signals[i].Some?
    && signals[i].value.confidence >= s.minConfidence && signals[i].value.signal != "NEUTRAL"
  }

  /** The position opened at a bar: `capital * position_size_pct / price` units. */
  function Entry(capital: real, bar: Bar, sig: AiSignal, s: Setup): Trade
    requires bar.close > 0.0
  {
    Trade(bar.date, None, s.symbol, sig.signal, bar.close, None, capital * s.positionSizePct / bar.close,
          sig.stopLoss, sig.takeProfit, None, "open", sig.confidence, None)
  }

  /** The entry half of a bar. An analysis that raised is `None` and skips the bar. */
  function EntryStep(st: Sim, i: nat, bars: seq<Bar>, signals: seq<Option<AiSignal>>, s: Setup): (r: Sim)
    requires i < |bars| == |signals| && bars[i].close > 0.0
    ensures Enters(st, i, signals, s) ==> r == st.(open := Some(Entry(st.capital, bars[i], signals[i].value, s)))
    ensures !Enters(st, i, signals, s) ==> r == st
  {
    if Enters(st, i, signals, s) then st.(open := Some(Entry(st.capital, bars[i], signals[i].value, s))) else st
  }

  function BarStep(st: Sim, i: nat, bars: seq<Bar>, signals: seq<Option<AiSignal>>, s: Setup, fee: real): Sim
    requires i < |bars| == |signals| && bars[i].close > 0.0
  {
    var afterExit := if st.open.Some? then ExitStep(st, bars[i], s, fee) else st;
    EntryStep(afterExit, i, bars, signals, s)
  }

  /** The state after the loop has processed bars `WARMUP .. k - 1`. */
  function RunTo(bars: seq<Bar>, signals: seq<Option<AiSignal>>, s: Setup, capital: real, fee: real, k: nat): Sim
    requires k <= |bars| == |signals| && PositiveCloses(bars)
  {
    if k <= WARMUP then Initial(s, capital)
    else BarStep(RunTo(bars, signals, s, capital, fee, k - 1), k - 1, bars, signals, s, fee)
  }

  /** After the loop, a position still open is closed at the last bar with
      status "end_of_period" and no hold time, and adds no equity point. */
  function Finish(st: Sim, last: Bar, fee: real): (r: Sim)
    ensures st.open.None? ==> r == st
    ensures st.open.Some? ==>
              var c := Closed(st.open.value, last, "end_of_period", None, fee);
              r == Sim(st.capital + c.pnl.value, st.trades + [c], st.equity, None)
  {
    if st.open.Some? then
      var c := Closed(st.open.value, last, "end_of_period", None, fee);
      Sim(st.capital + c.pnl.value, st.trades + [c], st.equity, None)
    else st
  }

  // ---------------------------------------------------------------- what the loop keeps

  function PnlOf(t: Trade): real
  {
    if t.pnl.Some? then t.pnl.value else 0.0
  }

  function TotalPnl(trades: seq<Trade>): real
  {
    if |trades| == 0 then 0.0 else TotalPnl(trades[..|trades| - 1]) + PnlOf(trades[|trades| - 1])
  }

  /** Bar `i` satisfies every entry rule and `t` was opened there from its signal. */
  predicate EnteredAt(bars: seq<Bar>, signals: seq<Option<AiSignal>>, s: Setup, i: int, t: Trade)
    requires |bars| == |signals|
  {
    WARMUP <= i < |bars| && i % ENTRY_EVERY == 0 && signals[i].Some?
    && var sig := signals[i].value;
       sig.confidence >= s.minConfidence && sig.signal != "NEUTRAL"
       && t.entryTime == bars[i].date && t.entryPrice == bars[i].close && t.signal == sig.signal
       && t.confidence == sig.confidence && t.stopLoss == sig.stopLoss && t.takeProfit == sig.takeProfit
  }

  /** `t` was opened at some bar that met the entry rules. */
  ghost predicate WasEntered(bars: seq<Bar>, signals: seq<Option<AiSignal>>, s: Setup, t: Trade)
    requires |bars| == |signals|
  {
    exists i :: EnteredAt(bars, signals, s, i, t)
  }

  /** The invariants of the loop: capital is the starting capital plus every
      closed trade's profit, the equity curve has the start point and one
      point per closed trade ending at the current capital, every closed trade
      left by a stop or a target, and every trade, closed or open, was entered
      at a bar that met the entry rules. */
  ghost predicate Kept(st: Sim, bars: seq<Bar>, signals: seq<Option<AiSignal>>, s: Setup, capital: real)
    requires |bars| == |signals|
  {
    st.capital == capital + TotalPnl(st.trades)
    && |st.equity| == |st.trades| + 1
    && st.equity[0] == EquityPoint(s.startDate, capital)
    && st.equity[|st.equity| - 1].equity == st.capital
    && (forall j :: 0 <= j < |st.trades| ==>
          st.trades[j].pnl.Some? && (st.trades[j].status == "stopped" || st.trades[j].status == "win"))
    && (forall j :: 0 <= j < |st.trades| ==> WasEntered(bars, signals, s, st.trades[j]))
    && (st.open.Some? ==> WasEntered(bars, signals, s, st.open.value))
  }

  lemma BarStepKeeps(st: Sim, i: nat, bars: seq<Bar>, signals: seq<Option<AiSignal>>, s: Setup, capital: real, fee: real)
    requires i < |bars| == |signals| && PositiveCloses(bars) && WARMUP <= i
    requires Kept(st, bars, signals, s, capital)
    ensures Kept(BarStep(st, i, bars, signals, s, fee), bars, signals, s, capital)
  {
    var afterExit := if st.open.Some? then ExitStep(st, bars[i], s, fee) else st;
    if st.open.Some? && afterExit != st {
      var t := st.open.value;
      var c := afterExit.trades[|afterExit.trades| - 1];
      assert afterExit.trades == st.trades + [c];
      assert c.(exitTime := t.exitTime, exitPrice := t.exitPrice, pnl := t.pnl, status := t.status,
                holdTimeHours := t.holdTimeHours) == t;
      var e :| EnteredAt(bars, signals, s, e, t);
      assert EnteredAt(bars, signals, s, e, t);
      assert EnteredAt(bars, signals, s, e, c);
      assert WasEntered(bars, signals, s, c);
    }
    assert Kept(afterExit, bars, signals, s, capital);
    var r := EntryStep(afterExit, i, bars, signals, s);
    if Enters(afterExit, i, signals, s) {
      assert EnteredAt(bars, signals, s, i, r.open.value);
      assert WasEntered(bars, signals, s, r.open.value);
    }
  }

  /** The loop's invariants hold after every prefix of the bars. */
  lemma {:induction false} RunKeeps(bars: seq<Bar>, signals: seq<Option<AiSignal>>, s: Setup, capital: real, fee: real, k: nat)
    requires k <= |bars| == |signals| && PositiveCloses(bars)
    ensures Kept(RunTo(bars, signals, s, capital, fee, k), bars, signals, s, capital)
  {
    if k > WARMUP {
      RunKeeps(bars, signals, s, capital, fee, k - 1);
      BarStepKeeps(RunTo(bars, signals, s, capital, fee, k - 1), k - 1, bars, signals, s, capital, fee);
    }
  }

  /** With both exit rules disabled no trade is ever closed inside the loop. */
  lemma {:induction false} NoRulesNoExits(bars: seq<Bar>, signals: seq<Option<AiSignal>>, s: Setup, capital: real, fee: real, k: nat)
    requires k <= |bars| == |signals| && PositiveCloses(bars)
    requires !s.useStopLoss && !s.useTakeProfit
    ensures RunTo(bars, signals, s, capital, fee, k).trades == []
    ensures RunTo(bars, signals, s, capital, fee, k).capital == capital
  {
    if k > WARMUP {
      NoRulesNoExits(bars, signals, s, capital, fee, k - 1);
    }
  }

  /** The end-of-period close keeps the capital and entry invariants, and
      leaves one equity point fewer than trades plus one when it closes. */
  lemma FinishKeeps(st: Sim, bars: seq<Bar>, signals: seq<Option<AiSignal>>, s: Setup, capital: real, fee: real)
    requires |bars| == |signals| > 0
    requires Kept(st, bars, signals, s, capital)
    ensures var r := Finish(st, bars[|bars| - 1], fee);
            r.open.None? && r.capital == capital + TotalPnl(r.trades)
            && (|r.equity| == |r.trades| + 1 || |r.equity| == |r.trades|)
            && |r.equity| > 0 && r.equity[0] == EquityPoint(s.startDate, capital)
            && (forall j :: 0 <= j < |r.trades| ==> WasEntered(bars, signals, s, r.trades[j]))
            && (forall j :: 0 <= j < |r.trades| ==> r.trades[j].pnl.Some?)
  {
    var r := Finish(st, bars[|bars| - 1], fee);
    if st.open.Some? {
      var t := st.open.value;
      var c := r.trades[|r.trades| - 1];
      assert r.trades == st.trades + [c];
      var e :| EnteredAt(bars, signals, s, e, t);
      assert EnteredAt(bars, signals, s, e, t);
      assert EnteredAt(bars, signals, s, e, c);
      assert WasEntered(bars, signals, s, c);
    }
  }

  /** The whole run: the loop, then the end-of-period close. Capital has moved
      by exactly the trades' profit and every trade was entered by the rules. */
  function Simulate(bars: seq<Bar>, signals: seq<Option<AiSignal>>, s: Setup, capital: real, fee: real): (r: Sim)
    requires |bars| == |signals| && |bars| >= MIN_BARS && PositiveCloses(bars)
    ensures r.open.None? && r.capital == capital + TotalPnl(r.trades)
    ensures |r.equity| == |r.trades| + 1 || |r.equity| == |r.trades|
    ensures |r.equity| > 0 && r.equity[0] == EquityPoint(s.startDate, capital)
    ensures forall j :: 0 <= j < |r.trades| ==> WasEntered(bars, signals, s, r.trades[j])
    ensures forall j :: 0 <= j < |r.trades| ==> r.trades[j].pnl.Some?
  {
    var st := RunTo(bars, signals, s, capital, fee, |bars|);
    RunKeeps(bars, signals, s, capital, fee, |bars|);
    FinishKeeps(st, bars, signals, s, capital, fee);
    Finish(st, bars[|bars| - 1], fee)
  }

  // ---------------------------------------------------------------- metrics

  datatype SignalStats = SignalStats(totalTrades: nat, winRate: real, avgPnl: real, totalPnl: real)

  /** `BacktestResult` without the Sharpe ratio. */
  datatype BacktestResult = BacktestResult(
    symbol: string, startDate: Instant, endDate: Instant,
    initialCapital: real, finalCapital: real, totalReturnPct: real,
    totalTrades: nat, winningTrades: nat, losingTrades: nat, winRate: real,
    avgWin: real, avgLoss: real, largestWin: real, largestLoss: real, profitFactor: real,
    maxDrawdown: real, maxDrawdownPct: real, avgHoldTimeHours: real, tradesPerDay: real,
    bestSignalType: string, signalPerformance: seq<(string, SignalStats)>,
    equityCurve: seq<EquityPoint>, trades: seq<Trade>)

  /** The profits of the trades that gained (`t.pnl and t.pnl > 0`). */
  function WinPnls(trades: seq<Trade>): (r: seq<real>)
    ensures |r| <= |trades| && forall k :: 0 <= k < |r| ==> r[k] > 0.0
  {
    if |trades| == 0 then []
    else (if PnlOf(trades[0]) > 0.0 then [PnlOf(trades[0])] else []) + WinPnls(trades[1..])
  }

  /** The profits of the trades that lost (`t.pnl and t.pnl < 0`). */
  function LossPnls(trades: seq<Trade>): (r: seq<real>)
    ensures |r| <= |trades| && forall k :: 0 <= k < |r| ==> r[k] < 0.0
  {
    if |trades| == 0 then []
    else (if PnlOf(trades[0]) < 0.0 then [PnlOf(trades[0])] else []) + LossPnls(trades[1..])
  }

  /** A trade is at most one of winner and loser. */
  lemma {:induction false} WinnersAndLosersPartition(trades: seq<Trade>)
    ensures |WinPnls(trades)| + |LossPnls(trades)| <= |trades|
  {
    if |trades| > 0 {
      WinnersAndLosersPartition(trades[1..]);
    }
  }

  function MaxOf(s: seq<real>): (r: real)
    requires |s| > 0
    ensures (exists k :: 0 <= k < |s| && s[k] == r) && forall k :: 0 <= k < |s| ==> s[k] <= r
  {
    if |s| == 1 then s[0] else Max(s[0], MaxOf(s[1..]))
  }

  function MinOf(s: seq<real>): (r: real)
    requires |s| > 0
    ensures (exists k :: 0 <= k < |s| && s[k] == r) && forall k :: 0 <= k < |s| ==> r <= s[k]
  {
    if |s| == 1 then s[0] else Min(s[0], MinOf(s[1..]))
  }

  /** The profit factor: gains over the absolute losses, dividing by 1 when nothing lost. */
  function ProfitFactor(wins: seq<real>, losses: seq<real>): (r: real)
    requires forall k :: 0 <= k < |wins| ==> wins[k] > 0.0
    requires forall k :: 0 <= k < |losses| ==> losses[k] < 0.0
    ensures r >= 0.0
    ensures |losses| == 0 ==> r == Sum(wins)
    ensures |wins| == 0 ==> r == 0.0
  {
    SumBounds(wins, 0.0, MaxOfOrZero(wins));
    var totalProfit := if |wins| > 0 then Sum(wins) else 0.0;
    var totalLoss := if |losses| > 0 then Abs(Sum(losses)) else 1.0;
    if totalLoss > 0.0 then totalProfit / totalLoss else 0.0
  }

  function MaxOfOrZero(s: seq<real>): (r: real)
    ensures forall k :: 0 <= k < |s| ==> s[k] <= r
  {
    if |s| == 0 then 0.0 else MaxOf(s)
  }

  /** The drawdown loop's running peak, starting at the first equity value. */
  function DdPeak(first: real, values: seq<real>): (r: real)
    ensures r >= first && forall k :: 0 <= k < |values| ==> r >= values[k]
  {
    if |values| == 0 then first else Max(DdPeak(first, values[..|values| - 1]), values[|values| - 1])
  }

  /** The largest fall below the running peak, in money and in percent of the
      peak (0 while the peak is not positive); both start at 0. */
  function MaxDd(first: real, values: seq<real>): (r: (real, real))
    ensures r.0 >= 0.0 && r.1 >= 0.0
  {
    if |values| == 0 then (0.0, 0.0)
    else
      var prev := MaxDd(first, values[..|values| - 1]);
      var peak := DdPeak(first, values);
      var dd := peak - values[|values| - 1];
      (Max(prev.0, dd), Max(prev.1, FallPct(peak, dd)))
  }

  /** A fall of `dd` below `peak` in percent of the peak, 0 while the peak is not positive. */
  function FallPct(peak: real, dd: real): real
  {
    if peak > 0.0 then dd / peak * 100.0 else 0.0
  }

  /** The fall at step `k`: how far value `k` lies below the running peak through it. */
  function FallAt(first: real, values: seq<real>, k: nat): real
    requires k < |values|
  {
    DdPeak(first, values[..k + 1]) - values[k]
  }

  /** Both maxima bound the fall at every step. */
  lemma {:induction false} MaxDdBoundsFalls(first: real, values: seq<real>)
    ensures forall k :: 0 <= k < |values| ==>
              FallAt(first, values, k) <= MaxDd(first, values).0
              && FallPct(DdPeak(first, values[..k + 1]), FallAt(first, values, k)) <= MaxDd(first, values).1
  {
    if |values| > 0 {
      var n := |values| - 1;
      var init := values[..n];
      MaxDdBoundsFalls(first, init);
      assert values[..n + 1] == values;
      forall k | 0 <= k < n
        ensures FallAt(first, values, k) == FallAt(first, init, k)
        ensures DdPeak(first, values[..k + 1]) == DdPeak(first, init[..k + 1])
      {
        assert values[..k + 1] == init[..k + 1];
      }
    }
  }

  /** The money maximum is 0 or the fall at some step. */
  lemma {:induction false} MaxDdReached(first: real, values: seq<real>)
    ensures MaxDd(first, values).0 == 0.0 ||
            exists k :: 0 <= k < |values| && MaxDd(first, values).0 == FallAt(first, values, k)
  {
    if |values| > 0 {
      var n := |values| - 1;
      var init := values[..n];
      MaxDdReached(first, init);
      assert values[..n + 1] == values;
      var r, prev := MaxDd(first, values).0, MaxDd(first, init).0;
      if r != 0.0 && r != FallAt(first, values, n) {
        var k :| 0 <= k < n && prev == FallAt(first, init, k);
        FallAtInit(first, values, k);
        assert r == FallAt(first, values, k);
      }
    }
  }

  /** The percentage maximum is 0 or the percentage fall at some step. */
  lemma {:induction false} MaxDdPctReached(first: real, values: seq<real>)
    ensures MaxDd(first, values).1 == 0.0 ||
            exists k :: 0 <= k < |values| &&
              MaxDd(first, values).1 == FallPct(DdPeak(first, values[..k + 1]), FallAt(first, values, k))
  {
    if |values| > 0 {
      var n := |values| - 1;
      var init := values[..n];
      MaxDdPctReached(first, init);
      assert values[..n + 1] == values;
      var r, prev := MaxDd(first, values).1, MaxDd(first, init).1;
      if r != 0.0 && r != FallPct(DdPeak(first, values[..n + 1]), FallAt(first, values, n)) {
        var k :| 0 <= k < n && prev == FallPct(DdPeak(first, init[..k + 1]), FallAt(first, init, k));
        FallAtInit(first, values, k);
        assert r == FallPct(DdPeak(first, values[..k + 1]), FallAt(first, values, k));
      }
    }
  }

  /** Dropping the last value changes neither the peak nor the fall at an earlier step. */
  lemma FallAtInit(first: real, values: seq<real>, k: nat)
    requires k + 1 < |values|
    ensures FallAt(first, values, k) == FallAt(first, values[..|values| - 1], k)
    ensures DdPeak(first, values[..k + 1]) == DdPeak(first, values[..|values| - 1][..k + 1])
  {
    assert values[..k + 1] == values[..|values| - 1][..k + 1];
  }

  function Signals(): seq<string>
  {
    ["STRONG_BUY", "BUY", "SELL", "STRONG_SELL"]
  }

  function OfSignal(trades: seq<Trade>, signal: string): (r: seq<Trade>)
    ensures |r| <= |trades| && forall k :: 0 <= k < |r| ==> r[k].signal == signal
  {
    if |trades| == 0 then []
    else (if trades[0].signal == signal then [trades[0]] else []) + OfSignal(trades[1..], signal)
  }

  function Pnls(trades: seq<Trade>): (r: seq<real>)
    ensures |r| == |trades| && forall k :: 0 <= k < |trades| ==> r[k] == PnlOf(trades[k])
  {
    seq(|trades|, k requires 0 <= k < |trades| => PnlOf(trades[k]))
  }

  function StatsOf(trades: seq<Trade>): (r: SignalStats)
    requires |trades| > 0
    ensures r.totalTrades == |trades| && 0.0 <= r.winRate <= 100.0
  {
    var wins := |WinPnls(trades)|;
    PercentBounds(wins as real, |trades| as real);
    SignalStats(|trades|, wins as real / |trades| as real * 100.0, Mean(Pnls(trades)), Sum(Pnls(trades)))
  }

  /** The rows `(x, val(x))` for the keys `x` that `keep` admits, in key order. */
  function Rows<K, V>(keys: seq<K>, keep: K -> bool, val: K -> V): (r: seq<(K, V)>)
    ensures |r| <= |keys|
  {
    if |keys| == 0 then []
    else (if keep(keys[0]) then [(keys[0], val(keys[0]))] else []) + Rows(keys[1..], keep, val)
  }

  /** Every row is an admitted key with its value. */
  lemma {:induction false} RowsSound<K, V>(keys: seq<K>, keep: K -> bool, val: K -> V)
    ensures forall k :: 0 <= k < |Rows(keys, keep, val)| ==>
              Rows(keys, keep, val)[k].0 in keys && keep(Rows(keys, keep, val)[k].0) &&
              Rows(keys, keep, val)[k].1 == val(Rows(keys, keep, val)[k].0)
  {
    if |keys| > 0 {
      RowsSound(keys[1..], keep, val);
      var head := if keep(keys[0]) then [(keys[0], val(keys[0]))] else [];
      var rest := Rows(keys[1..], keep, val);
      var r := Rows(keys, keep, val);
      assert r == head + rest;
      forall k | 0 <= k < |r|
        ensures r[k].0 in keys && keep(r[k].0) && r[k].1 == val(r[k].0)
      {
        if k >= |head| {
          assert r[k] == rest[k - |head|];
          assert rest[k - |head|].0 in keys[1..];
        }
      }
    }
  }

  /** Every admitted key has a row: `k` is its position. */
  lemma {:induction false} RowsComplete<K, V>(keys: seq<K>, keep: K -> bool, val: K -> V, x: K) returns (k: nat)
    requires x in keys && keep(x)
    ensures k < |Rows(keys, keep, val)| && Rows(keys, keep, val)[k].0 == x
  {
    var head := if keep(keys[0]) then [(keys[0], val(keys[0]))] else [];
    var rest := Rows(keys[1..], keep, val);
    var r := Rows(keys, keep, val);
    assert r == head + rest;
    if x == keys[0] {
      k := 0;
    } else {
      assert keys == [keys[0]] + keys[1..];
      var j := RowsComplete(keys[1..], keep, val, x);
      k := j + |head|;
      assert r[k] == rest[j];
    }
  }

  /** The statistics of the trades entered on `signal` (zero when there are none). */
  function SignalRow(trades: seq<Trade>, signal: string): SignalStats
  {
    var traded := OfSignal(trades, signal);
    if |traded| > 0 then StatsOf(traded) else SignalStats(0, 0.0, 0.0, 0.0)
  }

  /** The per-signal table, in the fixed order, holding only signals that traded. */
  function SignalTable(trades: seq<Trade>, kinds: seq<string>): (r: seq<(string, SignalStats)>)
    ensures |r| <= |kinds|
  {
    Rows(kinds, (x: string) => |OfSignal(trades, x)| > 0, (x: string) => SignalRow(trades, x))
  }

  /** Index of the first entry with the largest win rate (Python's `max` keeps the first). */
  function BestAt(table: seq<(string, SignalStats)>): (r: nat)
    requires |table| > 0
    ensures r < |table|
    ensures forall k :: 0 <= k < |table| ==> table[k].1.winRate <= table[r].1.winRate
    ensures forall k :: 0 <= k < r ==> table[k].1.winRate < table[r].1.winRate
  {
    if |table| == 1 then 0
    else
      var rest := BestAt(table[1..]) + 1;
      if table[0].1.winRate >= table[rest].1.winRate then 0 else rest
  }

  function BestSignal(table: seq<(string, SignalStats)>): string
  {
    if |table| == 0 then "N/A" else table[BestAt(table)].0
  }

  function HoldTimes(trades: seq<Trade>): seq<real>
  {
    if |trades| == 0 then []
    else (if trades[0].holdTimeHours.Some? && trades[0].holdTimeHours.value != 0.0
          then [trades[0].holdTimeHours.value] else []) + HoldTimes(trades[1..])
  }

  function EquityValues(curve: seq<EquityPoint>): (r: seq<real>)
    ensures |r| == |curve| && forall k :: 0 <= k < |curve| ==> r[k] == curve[k].equity
  {
    seq(|curve|, k requires 0 <= k < |curve| => curve[k].equity)
  }

  /** Whole days between two instants (`timedelta.days` floors). */
  function Days(start: Instant, end: Instant): int
  {
    (end - start) / MICROS_PER_DAY
  }

  /** `_calculate_metrics`. */
  function MetricsOf(s: Setup, initialCapital: real, finalCapital: real, trades: seq<Trade>,
                     curve: seq<EquityPoint>): BacktestResult
    requires initialCapital > 0.0 && |curve| > 0
  {
    if |trades| == 0 then
      BacktestResult(s.symbol, s.startDate, s.endDate, initialCapital, finalCapital, 0.0, 0, 0, 0, 0.0,
                     0.0, 0.0, 0.0, 0.0, 0.0, 0.0, 0.0, 0.0, 0.0, "N/A", [], curve, [])
    else
      var wins := WinPnls(trades);
      var losses := LossPnls(trades);
      var values := EquityValues(curve);
      var dd := MaxDd(values[0], values);
      var holds := HoldTimes(trades);
      var days := Days(s.startDate, s.endDate);
      var table := SignalTable(trades, Signals());
      BacktestResult(
        s.symbol, s.startDate, s.endDate, initialCapital, finalCapital,
        (finalCapital - initialCapital) / initialCapital * 100.0,
        |trades|, |wins|, |losses|, |wins| as real / |trades| as real * 100.0,
        if |wins| > 0 then Mean(wins) else 0.0,
        if |losses| > 0 then Mean(losses) else 0.0,
        if |wins| > 0 then MaxOf(wins) else 0.0,
        if |losses| > 0 then MinOf(losses) else 0.0,
        ProfitFactor(wins, losses),
        dd.0, dd.1,
        if |holds| > 0 then Mean(holds) else 0.0,
        if days > 0 then |trades| as real / days as real else 0.0,
        BestSignal(table), table, curve, trades)
  }

  /** Every row of the per-signal table is a listed signal that traded, with
      the statistics of exactly its trades, and every listed signal that
      traded has a row. */
  lemma SignalTableRows(trades: seq<Trade>, kinds: seq<string>)
    ensures var r := SignalTable(trades, kinds);
            && (forall k :: 0 <= k < |r| ==>
                  r[k].0 in kinds && |OfSignal(trades, r[k].0)| > 0 && r[k].1 == StatsOf(OfSignal(trades, r[k].0)))
            && (forall x :: x in kinds && |OfSignal(trades, x)| > 0 ==> exists k :: 0 <= k < |r| && r[k].0 == x)
  {
    var keep := (x: string) => |OfSignal(trades, x)| > 0;
    var val := (x: string) => SignalRow(trades, x);
    RowsSound(kinds, keep, val);
    forall x | x in kinds && |OfSignal(trades, x)| > 0
      ensures exists k :: 0 <= k < |SignalTable(trades, kinds)| && SignalTable(trades, kinds)[k].0 == x
    {
      var k := RowsComplete(kinds, keep, val, x);
      assert SignalTable(trades, kinds)[k].0 == x;
    }
  }

  /** Python's `max` by win rate: the chosen signal has the highest win rate in
      the table and no earlier row ties it; an empty table gives "N/A". */
  lemma BestSignalIsBest(table: seq<(string, SignalStats)>)
    ensures |table| == 0 ==> BestSignal(table) == "N/A"
    ensures |table| > 0 ==>
              exists k :: 0 <= k < |table| && table[k].0 == BestSignal(table)
                && (forall j :: 0 <= j < |table| ==> table[j].1.winRate <= table[k].1.winRate)
                && (forall j :: 0 <= j < k ==> table[j].1.winRate < table[k].1.winRate)
  {
    if |table| > 0 {
      var b := BestAt(table);
      assert table[b].0 == BestSignal(table);
    }
  }

  /** A run without trades reports zeros, an empty table and "N/A". */
  lemma MetricsWithoutTrades(s: Setup, initialCapital: real, finalCapital: real, curve: seq<EquityPoint>)
    requires initialCapital > 0.0 && |curve| > 0
    ensures var m := MetricsOf(s, initialCapital, finalCapital, [], curve);
            m.totalTrades == 0 && m.winningTrades == 0 && m.losingTrades == 0 && m.winRate == 0.0
            && m.totalReturnPct == 0.0 && m.profitFactor == 0.0 && m.maxDrawdown == 0.0 && m.maxDrawdownPct == 0.0
            && m.tradesPerDay == 0.0 && m.bestSignalType == "N/A" && m.signalPerformance == [] && m.trades == []
            && m.equityCurve == curve
  {
  }

  /** Winners and losers are disjoint parts of the trades and the win rate is a percentage. */
  lemma MetricsCounts(s: Setup, initialCapital: real, finalCapital: real, trades: seq<Trade>, curve: seq<EquityPoint>)
    requires initialCapital > 0.0 && |curve| > 0
    ensures var m := MetricsOf(s, initialCapital, finalCapital, trades, curve);
            m.totalTrades == |trades| && m.winningTrades == |WinPnls(trades)| && m.losingTrades == |LossPnls(trades)|
            && m.winningTrades + m.losingTrades <= m.totalTrades
            && 0.0 <= m.winRate <= 100.0
  {
    WinnersAndLosersPartition(trades);
    if |trades| > 0 {
      PercentBounds(|WinPnls(trades)| as real, |trades| as real);
    }
  }

  /** The profit factor and both drawdowns are non-negative, the largest win and
      loss bound every win and loss, and a non-positive span trades 0 per day. */
  lemma MetricsBounds(s: Setup, initialCapital: real, finalCapital: real, trades: seq<Trade>, curve: seq<EquityPoint>)
    requires initialCapital > 0.0 && |curve| > 0
    ensures var m := MetricsOf(s, initialCapital, finalCapital, trades, curve);
            m.profitFactor >= 0.0 && m.maxDrawdown >= 0.0 && m.maxDrawdownPct >= 0.0
            && (forall k :: 0 <= k < |WinPnls(trades)| ==> WinPnls(trades)[k] <= m.largestWin)
            && (forall k :: 0 <= k < |LossPnls(trades)| ==> m.largestLoss <= LossPnls(trades)[k])
            && (Days(s.startDate, s.endDate) <= 0 ==> m.tradesPerDay == 0.0)
  {
  }

  /** The table and the best signal reported are those of the trades. */
  lemma MetricsSignals(s: Setup, initialCapital: real, finalCapital: real, trades: seq<Trade>, curve: seq<EquityPoint>)
    requires initialCapital > 0.0 && |curve| > 0
    ensures var m := MetricsOf(s, initialCapital, finalCapital, trades, curve);
            m.signalPerformance == (if |trades| == 0 then [] else SignalTable(trades, Signals()))
            && m.bestSignalType == BestSignal(m.signalPerformance)
  {
  }

  // ---------------------------------------------------------------- the engine

  /** The engine as the module builds it: 100000 of starting capital and 0.1%
      commission per leg. */
  class BacktestingEngine {
    const initialCapital: real
    const commissionPct: real

    constructor ()
      ensures initialCapital == 100000.0 && commissionPct == 0.001
    {
      initialCapital := 100000.0;
      commissionPct := 0.001;
    }

    /** `run_backtest` over the bars the data service returned for the range
        and the signal the AI core gives at each bar. */
    method RunBacktest(s: Setup, bars: seq<Bar>, signals: seq<Option<AiSignal>>)
      returns (r: Result<BacktestResult, BacktestError>)
      requires |signals| == |bars| && PositiveCloses(bars) && initialCapital > 0.0
      ensures |bars| < MIN_BARS <==> r == Err(InsufficientData)
      ensures |bars| >= MIN_BARS ==>
                var sim := Simulate(bars, signals, s, initialCapital, commissionPct);
                r == Ok(MetricsOf(s, initialCapital, sim.capital, sim.trades, sim.equity))
    {
      if |bars| < MIN_BARS {
        return Err(InsufficientData);
      }
      var capital, trades, equityCurve, openPosition := BarLoop(s, bars, signals);
      ghost var looped := Sim(capital, trades, equityCurve, openPosition);
      var last := bars[|bars| - 1];
      if openPosition.Some? {
        var t := openPosition.value;
        var move := if IsLong(t.signal) then (last.close - t.entryPrice) * t.quantity
                    else (t.entryPrice - last.close) * t.quantity;
        var pnl := move - t.entryPrice * t.quantity * commissionPct - last.close * t.quantity * commissionPct;
        assert pnl == ClosePnl(t, last.close, commissionPct);
        capital := capital + pnl;
        trades := trades + [t.(exitTime := Some(last.date), exitPrice := Some(last.close), pnl := Some(pnl),
                               status := "end_of_period", holdTimeHours := None)];
        openPosition := None;
      }
      assert Sim(capital, trades, equityCurve, openPosition) == Finish(looped, last, commissionPct);
      assert Sim(capital, trades, equityCurve, openPosition) == Simulate(bars, signals, s, initialCapital, commissionPct);
      var m := CalculateMetrics(s, capital, trades, equityCurve);
      r := Ok(m);
    }

    /** The bar loop of `run_backtest`, from the warm-up bar to the last bar. */
    method BarLoop(s: Setup, bars: seq<Bar>, signals: seq<Option<AiSignal>>)
      returns (capital: real, trades: seq<Trade>, equityCurve: seq<EquityPoint>, openPosition: Option<Trade>)
      requires |signals| == |bars| >= MIN_BARS && PositiveCloses(bars)
      ensures Sim(capital, trades, equityCurve, openPosition)
              == RunTo(bars, signals, s, initialCapital, commissionPct, |bars|)
    {
      capital := initialCapital;
      trades := [];
      equityCurve := [EquityPoint(s.startDate, capital)];
      openPosition := None;
      var i := WARMUP;
      while i < |bars|
        invariant WARMUP <= i <= |bars|
        invariant Sim(capital, trades, equityCurve, openPosition)
                  == RunTo(bars, signals, s, initialCapital, commissionPct, i)
      {
        capital, trades, equityCurve, openPosition := ExitBar(s, bars[i], capital, trades, equityCurve, openPosition);
        capital, trades, equityCurve, openPosition := EnterBar(s, bars, signals, i, capital, trades, equityCurve, openPosition);
        i := i + 1;
      }
    }

    /** The exit half of one bar of the loop. */
    method ExitBar(s: Setup, bar: Bar, capital: real, trades: seq<Trade>, equityCurve: seq<EquityPoint>,
                   openPosition: Option<Trade>)
      returns (capital': real, trades': seq<Trade>, equityCurve': seq<EquityPoint>, openPosition': Option<Trade>)
      ensures var st := Sim(capital, trades, equityCurve, openPosition);
              Sim(capital', trades', equityCurve', openPosition')
              == if openPosition.Some? then ExitStep(st, bar, s, commissionPct) else st
    {
      capital', trades', equityCurve', openPosition' := capital, trades, equityCurve, openPosition;
      var currentPrice := bar.close;
      var currentDate := bar.date;
      if openPosition.Some? {
        var t := openPosition.value;
        var exit := CheckExit(t, currentPrice, s.useStopLoss, s.useTakeProfit);
        var exitSignal, exitReason := exit.0, exit.1;
        if exitSignal {
          var move := if IsLong(t.signal) then (currentPrice - t.entryPrice) * t.quantity
                      else (t.entryPrice - currentPrice) * t.quantity;
          var pnl := move - t.entryPrice * t.quantity * commissionPct - currentPrice * t.quantity * commissionPct;
          assert pnl == ClosePnl(t, bar.close, commissionPct);
          var closed := t.(exitTime := Some(currentDate), exitPrice := Some(currentPrice), pnl := Some(pnl),
                           status := exitReason, holdTimeHours := Some(HoldHours(t.entryTime, currentDate)));
          capital' := capital + pnl;
          trades' := trades + [closed];
          openPosition' := None;
          equityCurve' := equityCurve + [EquityPoint(currentDate, capital')];
        }
      }
    }

    /** The entry half of one bar of the loop. */
    method EnterBar(s: Setup, bars: seq<Bar>, signals: seq<Option<AiSignal>>, i: nat, capital: real,
                    trades: seq<Trade>, equityCurve: seq<EquityPoint>, openPosition: Option<Trade>)
      returns (capital': real, trades': seq<Trade>, equityCurve': seq<EquityPoint>, openPosition': Option<Trade>)
      requires i < |bars| == |signals| && bars[i].close > 0.0
      ensures Sim(capital', trades', equityCurve', openPosition')
              == EntryStep(Sim(capital, trades, equityCurve, openPosition), i, bars, signals, s)
    {
      capital', trades', equityCurve', openPosition' := capital, trades, equityCurve, openPosition;
      var currentPrice := bars[i].close;
      var currentDate := bars[i].date;
      if openPosition.None? && i % ENTRY_EVERY == 0 && signals[i].Some? {
        var signal := signals[i].value;
        if signal.confidence >= s.minConfidence && signal.signal != "NEUTRAL" {
          var positionValue := capital * s.positionSizePct;
          var quantity := positionValue / currentPrice;
          assert quantity == Entry(capital, bars[i], signal, s).quantity;
          openPosition' := Some(Trade(currentDate, None, s.symbol, signal.signal, currentPrice, None, quantity,
                                      signal.stopLoss, signal.takeProfit, None, "open", signal.confidence, None));
        }
      }
    }

    /** `_calculate_metrics`, with its drawdown loop. */
    method CalculateMetrics(s: Setup, finalCapital: real, trades: seq<Trade>, curve: seq<EquityPoint>)
      returns (m: BacktestResult)
      requires initialCapital > 0.0 && |curve| > 0
      ensures m == MetricsOf(s, initialCapital, finalCapital, trades, curve)
    {
      if |trades| == 0 {
        return MetricsOf(s, initialCapital, finalCapital, trades, curve);
      }
      var maxDd, maxDdPct := MaxDrawdown(curve);
      m := MetricsOf(s, initialCapital, finalCapital, trades, curve).(maxDrawdown := maxDd, maxDrawdownPct := maxDdPct);
    }
  }

  /** The drawdown loop: the peak starts at the first equity value. */
  method MaxDrawdown(curve: seq<EquityPoint>) returns (maxDd: real, maxDdPct: real)
    requires |curve| > 0
    ensures (maxDd, maxDdPct) == MaxDd(curve[0].equity, EquityValues(curve))
  {
    ghost var values := EquityValues(curve);
    var peak := curve[0].equity;
    maxDd := 0.0;
    maxDdPct := 0.0;
    var i := 0;
    while i < |curve|
      invariant 0 <= i <= |curve|
      invariant peak == DdPeak(values[0], values[..i])
      invariant (maxDd, maxDdPct) == MaxDd(values[0], values[..i])
    {
      assert values[..i + 1][..i] == values[..i];
      var equity := curve[i].equity;
      if equity > peak {
        peak := equity;
      }
      var dd := peak - equity;
      var ddPct := if peak > 0.0 then dd / peak * 100.0 else 0.0;
      assert ddPct == FallPct(peak, dd);
      maxDd := Max(maxDd, dd);
      maxDdPct := Max(maxDdPct, ddPct);
      i := i + 1;
    }
    assert values[..|curve|] == values;
  }
}
