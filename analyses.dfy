/** The performance endpoint: stored trades are replayed in order, sells are
    matched against earlier buy lots first-in-first-out per symbol, and the
    running profit, the win/loss counts and the maximum drawdown are reported. */
module Analyses {
  import opened Common

  /** A stored trade row. `entryPrice` is the `entry_price` entry of the
      trade's extra metadata, when there is one. */
  datatype StoredTrade = StoredTrade(
    symbol: string,
    side: string,
    quantity: real,
    price: real,
    value: real,
    timestamp: Instant,
    entryPrice: Option<real>)

  /** An open buy lot. */
  datatype Lot = Lot(quantity: real, price: real, timestamp: Instant)

  datatype CumulativePoint = CumulativePoint(timestamp: Instant, value: real)

  /** The response's `data`; `maxDrawdownPct` is `max_drawdown * 100`. */
  datatype Metrics = Metrics(totalTrades: nat, winRate: real, totalPnl: real, maxDrawdownPct: real,
                             cumulativeReturns: seq<CumulativePoint>)

  const NO_METRICS := Metrics(0, 0.0, 0.0, 0.0, [])

  // ---------------------------------------------------------------- FIFO matching

  /** Where the matching loop stops: the lots left, the quantity still to
      close and the cost of what was closed. */
  datatype LotMatch = LotMatch(lots: seq<Lot>, remaining: real, cost: real)

  /** The matching loop: while quantity remains and lots exist, take as much
      of the front lot as is still needed, and drop the lot once it is used up.
      A front lot no larger than what remains is taken whole; a larger one is
      cut down, which closes the whole remaining quantity. */
  function Fifo(lots: seq<Lot>, remaining: real, cost: real): LotMatch
    decreases |lots| + (if remaining > 0.0 then 1 else 0)
  {
    if remaining <= 0.0 || |lots| == 0 then LotMatch(lots, remaining, cost)
    else if remaining >= lots[0].quantity then
      Fifo(lots[1..], remaining - lots[0].quantity, cost + lots[0].quantity * lots[0].price)
    else
      Fifo([lots[0].(quantity := lots[0].quantity - remaining)] + lots[1..], 0.0, cost + remaining * lots[0].price)
  }

  /** One round of the matching loop. */
  lemma FifoStep(lots: seq<Lot>, remaining: real, cost: real)
    requires remaining > 0.0 && |lots| > 0
    ensures remaining >= lots[0].quantity ==>
              Fifo(lots, remaining, cost) == Fifo(lots[1..], remaining - lots[0].quantity, cost + lots[0].quantity * lots[0].price)
    ensures remaining < lots[0].quantity ==>
              Fifo(lots, remaining, cost)
              == Fifo([lots[0].(quantity := lots[0].quantity - remaining)] + lots[1..], 0.0, cost + remaining * lots[0].price)
  {
  }

  function LotQuantity(lots: seq<Lot>): real
  {
    if |lots| == 0 then 0.0 else lots[0].quantity + LotQuantity(lots[1..])
  }

  predicate PositiveLots(lots: seq<Lot>)
  {
    forall k :: 0 <= k < |lots| ==> lots[k].quantity > 0.0
  }

  /** With lots of positive quantity, matching never closes more than asked,
      takes exactly the closed quantity out of the lots, leaves a quantity
      open only once every lot is used up, and leaves only positive lots. */
  lemma {:induction false} FifoConsumesFront(lots: seq<Lot>, remaining: real, cost: real)
    requires PositiveLots(lots) && remaining >= 0.0
    ensures var m := Fifo(lots, remaining, cost);
            0.0 <= m.remaining <= remaining
            && LotQuantity(m.lots) == LotQuantity(lots) - (remaining - m.remaining)
            && (m.remaining > 0.0 ==> m.lots == [])
            && PositiveLots(m.lots) && |m.lots| <= |lots|
    decreases |lots| + (if remaining > 0.0 then 1 else 0)
  {
    if remaining > 0.0 && |lots| > 0 {
      FifoStep(lots, remaining, cost);
      assert LotQuantity(lots) == lots[0].quantity + LotQuantity(lots[1..]);
      if remaining >= lots[0].quantity {
        FifoConsumesFront(lots[1..], remaining - lots[0].quantity, cost + lots[0].quantity * lots[0].price);
      } else {
        var next := [lots[0].(quantity := lots[0].quantity - remaining)] + lots[1..];
        assert next[1..] == lots[1..];
      }
    }
  }

  // ---------------------------------------------------------------- one trade

  /** The profit a trade contributes and the lots after it. Sides are compared
      with the exact strings "BUY" and "SELL"; any other side contributes 0. */
  function ApplyTrade(lots: map<string, seq<Lot>>, t: StoredTrade): (r: (real, map<string, seq<Lot>>))
    ensures t.side == "BUY" ==>
              r.0 == 0.0
              && r.1 == lots[t.symbol := (if t.symbol in lots then lots[t.symbol] else []) + [Lot(t.quantity, t.price, t.timestamp)]]
    ensures t.side == "SELL" && t.entryPrice.Some? ==> r == ((t.price - t.entryPrice.value) * t.quantity, lots)
    ensures t.side != "BUY" && t.side != "SELL" ==> r == (0.0, lots)
    ensures forall s :: s != t.symbol ==> (s in r.1 <==> s in lots) && (s in lots ==> r.1[s] == lots[s])
  {
    if t.side == "BUY" then
      var open := if t.symbol in lots then lots[t.symbol] else [];
      (0.0, lots[t.symbol := open + [Lot(t.quantity, t.price, t.timestamp)]])
    else if t.side == "SELL" then
      if t.entryPrice.Some? then
        ((t.price - t.entryPrice.value) * t.quantity, lots)
      else if t.symbol in lots && |lots[t.symbol]| > 0 then
        var m := Fifo(lots[t.symbol], t.quantity, 0.0);
        var closed := t.quantity - m.remaining;
        (if closed > 0.0 then (t.price - m.cost / closed) * closed else 0.0, lots[t.symbol := m.lots])
      else
        var avgPrice := if t.quantity > 0.0 then t.value / t.quantity else t.price;
        ((t.price - avgPrice * 0.98) * t.quantity, lots)
    else
      (0.0, lots)
  }

  /** A sell with no recorded entry price against open lots of positive
      quantity closes at most its own quantity, takes exactly that quantity
      out of the symbol's lots and earns its price less the matched cost on
      what it closed. */
  lemma SellMatchesLots(lots: map<string, seq<Lot>>, t: StoredTrade)
    requires t.side == "SELL" && t.entryPrice.None? && t.quantity >= 0.0
    requires t.symbol in lots && |lots[t.symbol]| > 0 && PositiveLots(lots[t.symbol])
    ensures var m := Fifo(lots[t.symbol], t.quantity, 0.0);
            var r := ApplyTrade(lots, t);
            var closed := t.quantity - m.remaining;
            0.0 <= closed <= t.quantity
            && r.1 == lots[t.symbol := m.lots]
            && LotQuantity(r.1[t.symbol]) == LotQuantity(lots[t.symbol]) - closed
            && PositiveLots(r.1[t.symbol])
            && (closed > 0.0 ==> r.0 == t.price * closed - m.cost)
  {
    var m := Fifo(lots[t.symbol], t.quantity, 0.0);
    FifoConsumesFront(lots[t.symbol], t.quantity, 0.0);
    var closed := t.quantity - m.remaining;
    if closed > 0.0 {
      assert (t.price - m.cost / closed) * closed == t.price * closed - m.cost / closed * closed;
    }
  }

  /** The state of the replay after a prefix of the trades. */
  datatype Replay = Replay(lots: map<string, seq<Lot>>, cumulativePnl: real, points: seq<CumulativePoint>,
                           wins: nat, losses: nat)

  function Step(st: Replay, t: StoredTrade): Replay
  {
    Record(st, t, ApplyTrade(st.lots, t))
  }

  /** The replay state once trade `t` has contributed `applied`'s profit and lots. */
  function Record(st: Replay, t: StoredTrade, applied: (real, map<string, seq<Lot>>)): Replay
  {
    var (pnl, lots) := applied;
    var total := st.cumulativePnl + pnl;
    var sell := t.side == "SELL";
    Replay(lots, total, st.points + [CumulativePoint(t.timestamp, total)],
           st.wins + (if sell && pnl > 0.0 then 1 else 0),
           st.losses + (if sell && pnl < 0.0 then 1 else 0))
  }

  function ReplayAll(trades: seq<StoredTrade>): Replay
  {
    if |trades| == 0 then Replay(map[], 0.0, [], 0, 0)
    else Step(ReplayAll(trades[..|trades| - 1]), trades[|trades| - 1])
  }

  /** The profit trade `k` contributes in the replay. */
  function PnlAt(trades: seq<StoredTrade>, k: nat): real
    requires k < |trades|
  {
    ApplyTrade(ReplayAll(trades[..k]).lots, trades[k]).0
  }

  function SellCount(trades: seq<StoredTrade>): nat
  {
    if |trades| == 0 then 0
    else SellCount(trades[..|trades| - 1]) + (if trades[|trades| - 1].side == "SELL" then 1 else 0)
  }

  /** There is one cumulative point per trade, stamped with the trade's time
      and holding the running profit through that trade. */
  lemma {:induction false} ReplayPoints(trades: seq<StoredTrade>)
    ensures var r := ReplayAll(trades);
            |r.points| == |trades|
            && forall k :: 0 <= k < |trades| ==>
                 r.points[k] == CumulativePoint(trades[k].timestamp, ReplayAll(trades[..k + 1]).cumulativePnl)
  {
    PointsLength(trades);
    forall k | 0 <= k < |trades|
      ensures ReplayAll(trades).points[k] == CumulativePoint(trades[k].timestamp, ReplayAll(trades[..k + 1]).cumulativePnl)
    {
      PointAt(trades, k);
    }
  }

  lemma {:induction false} PointsLength(trades: seq<StoredTrade>)
    ensures |ReplayAll(trades).points| == |trades|
  {
    if |trades| > 0 {
      PointsLength(trades[..|trades| - 1]);
      PointsSnoc(trades);
    }
  }

  /** Point `k` is fixed once trade `k` is replayed. */
  lemma {:induction false} PointAt(trades: seq<StoredTrade>, k: nat)
    requires k < |trades|
    ensures |ReplayAll(trades).points| == |trades|
    ensures ReplayAll(trades).points[k] == CumulativePoint(trades[k].timestamp, ReplayAll(trades[..k + 1]).cumulativePnl)
  {
    var n := |trades| - 1;
    var init := trades[..n];
    PointsLength(init);
    PointsSnoc(trades);
    if k == n {
      assert trades[..k + 1] == trades;
    } else {
      PointAt(init, k);
      assert init[..k + 1] == trades[..k + 1];
      assert init[k] == trades[k];
    }
  }

  /** A trade adds one point, holding the running profit through it. */
  lemma PointsSnoc(trades: seq<StoredTrade>)
    requires |trades| > 0
    ensures ReplayAll(trades).points
            == ReplayAll(trades[..|trades| - 1]).points
               + [CumulativePoint(trades[|trades| - 1].timestamp, ReplayAll(trades).cumulativePnl)]
  {
    var st, t := ReplayAll(trades[..|trades| - 1]), trades[|trades| - 1];
    var applied := ApplyTrade(st.lots, t);
    assert ReplayAll(trades) == Record(st, t, applied);
    RecordAddsPoint(st, t, applied);
  }

  lemma RecordAddsPoint(st: Replay, t: StoredTrade, applied: (real, map<string, seq<Lot>>))
    ensures Record(st, t, applied).points
            == st.points + [CumulativePoint(t.timestamp, Record(st, t, applied).cumulativePnl)]
  {
  }

  /** The running profit moves by exactly each trade's contribution. */
  lemma RunningProfitSteps(trades: seq<StoredTrade>, k: nat)
    requires k < |trades|
    ensures ReplayAll(trades[..k + 1]).cumulativePnl == ReplayAll(trades[..k]).cumulativePnl + PnlAt(trades, k)
  {
    assert trades[..k + 1][..k] == trades[..k];
  }

  /** Only sells count as wins or losses. */
  lemma {:induction false} WinsAndLossesAreSells(trades: seq<StoredTrade>)
    ensures ReplayAll(trades).wins + ReplayAll(trades).losses <= SellCount(trades)
  {
    if |trades| > 0 {
      WinsAndLossesAreSells(trades[..|trades| - 1]);
    }
  }

  /** Trades stored with lowercase sides, as the ledger writes them, add no
      profit, no lot and no win or loss. */
  lemma {:induction false} LowercaseSidesCountNothing(trades: seq<StoredTrade>)
    requires forall k :: 0 <= k < |trades| ==> trades[k].side == "buy" || trades[k].side == "sell"
    ensures var r := ReplayAll(trades);
            r.cumulativePnl == 0.0 && r.wins == 0 && r.losses == 0 && r.lots == map[]
            && forall k :: 0 <= k < |r.points| ==> r.points[k].value == 0.0
  {
    if |trades| > 0 {
      LowercaseSidesCountNothing(trades[..|trades| - 1]);
    }
  }

  // ---------------------------------------------------------------- summary figures

  /** `wins / (wins + losses) * 100`, or 0 with no closed trades. */
  function WinRate(wins: nat, losses: nat): (r: real)
    ensures 0.0 <= r <= 100.0
    ensures wins + losses == 0 ==> r == 0.0
    ensures wins + losses > 0 ==> r * (wins + losses) as real == wins as real * 100.0
  {
    if wins + losses > 0 then
      var total := (wins + losses) as real;
      assert wins as real / total <= 1.0;
      wins as real / total * 100.0
    else 0.0
  }

  /** The peak after a prefix of values: the running maximum, starting at 0. */
  function Peak(values: seq<real>): real
  {
    if |values| == 0 then 0.0 else Max(Peak(values[..|values| - 1]), values[|values| - 1])
  }

  /** The drawdown at a point below its peak, 0 while the peak is not positive. */
  function DrawdownAt(peak: real, v: real): real
  {
    if peak > 0.0 then (peak - v) / peak else 0.0
  }

  /** The largest drawdown over the values, starting from 0. */
  function MaxDrawdownOf(values: seq<real>): (r: real)
    ensures r >= 0.0
  {
    if |values| == 0 then 0.0
    else Max(MaxDrawdownOf(values[..|values| - 1]), DrawdownAt(Peak(values), values[|values| - 1]))
  }

  /** The peak never falls below 0 or any value seen. */
  lemma {:induction false} PeakBounds(values: seq<real>)
    ensures Peak(values) >= 0.0
    ensures forall k :: 0 <= k < |values| ==> Peak(values) >= values[k]
  {
    if |values| > 0 {
      PeakBounds(values[..|values| - 1]);
    }
  }

  /** While no value is positive the peak stays at 0, so the drawdown is 0. */
  lemma {:induction false} NoPositivePeakNoDrawdown(values: seq<real>)
    requires forall k :: 0 <= k < |values| ==> values[k] <= 0.0
    ensures Peak(values) == 0.0 && MaxDrawdownOf(values) == 0.0
  {
    if |values| > 0 {
      NoPositivePeakNoDrawdown(values[..|values| - 1]);
    }
  }

  /** While the running profit stays non-negative the drawdown is at most 100%. */
  lemma {:induction false} DrawdownAtMostOne(values: seq<real>)
    requires forall k :: 0 <= k < |values| ==> values[k] >= 0.0
    ensures MaxDrawdownOf(values) <= 1.0
  {
    if |values| > 0 {
      var init := values[..|values| - 1];
      DrawdownAtMostOne(init);
      var p := Peak(values);
      var v := values[|values| - 1];
      if p > 0.0 {
        PeakBounds(values);
        RatioAtMostOne(p - v, p);
      }
    }
  }

  function PointValues(points: seq<CumulativePoint>): (r: seq<real>)
    ensures |r| == |points| && forall k :: 0 <= k < |points| ==> r[k] == points[k].value
  {
    seq(|points|, k requires 0 <= k < |points| => points[k].value)
  }

  /** What the endpoint reports for the trades in its window. */
  function MetricsOf(trades: seq<StoredTrade>): Metrics
  {
    if |trades| == 0 then NO_METRICS
    else
      var r := ReplayAll(trades);
      Metrics(|trades|, WinRate(r.wins, r.losses), r.cumulativePnl,
              MaxDrawdownOf(PointValues(r.points)) * 100.0, r.points)
  }

  // ---------------------------------------------------------------- the endpoint's loops

  /** The FIFO loop over one symbol's lots for a sell of `quantity`. */
  method MatchLots(lots: seq<Lot>, quantity: real) returns (rest: seq<Lot>, remaining: real, totalCost: real)
    ensures LotMatch(rest, remaining, totalCost) == Fifo(lots, quantity, 0.0)
  {
    rest := lots;
    remaining := quantity;
    totalCost := 0.0;
    while remaining > 0.0 && |rest| > 0
      invariant Fifo(rest, remaining, totalCost) == Fifo(lots, quantity, 0.0)
      decreases |rest| + (if remaining > 0.0 then 1 else 0)
    {
      ghost var before := Fifo(rest, remaining, totalCost);
      FifoStep(rest, remaining, totalCost);
      var pos := rest[0];
      var qtyToClose := Min(remaining, pos.quantity);
      ghost var closedCost := qtyToClose * pos.price;
      if remaining >= pos.quantity {
        assert qtyToClose == rest[0].quantity;
        assert closedCost == rest[0].quantity * rest[0].price;
      } else {
        assert closedCost == remaining * rest[0].price;
      }
      totalCost := totalCost + qtyToClose * pos.price;
      remaining := remaining - qtyToClose;
      pos := pos.(quantity := pos.quantity - qtyToClose);
      if pos.quantity <= 0.0 {
        rest := rest[1..];
      } else {
        rest := [pos] + rest[1..];
      }
      assert Fifo(rest, remaining, totalCost) == before;
    }
  }

  /** The drawdown loop over the cumulative points. */
  method MaxDrawdown(points: seq<CumulativePoint>) returns (maxDrawdown: real)
    ensures maxDrawdown == MaxDrawdownOf(PointValues(points))
  {
    ghost var values := PointValues(points);
    maxDrawdown := 0.0;
    var peak := 0.0;
    var i := 0;
    while i < |points|
      invariant 0 <= i <= |points|
      invariant peak == Peak(values[..i])
      invariant maxDrawdown == MaxDrawdownOf(values[..i])
    {
      assert values[..i + 1][..i] == values[..i];
      var v := points[i].value;
      if v > peak {
        peak := v;
      }
      var drawdown := if peak > 0.0 then (peak - v) / peak else 0.0;
      if drawdown > maxDrawdown {
        maxDrawdown := drawdown;
      }
      i := i + 1;
    }
    assert values[..|points|] == values;
  }

  /** The body of the replay loop for one trade: its profit and the lots after it. */
  method TradePnl(positions: map<string, seq<Lot>>, trade: StoredTrade)
    returns (tradePnl: real, lots: map<string, seq<Lot>>)
    ensures (tradePnl, lots) == ApplyTrade(positions, trade)
  {
    tradePnl := 0.0;
    lots := positions;
    var symbol := trade.symbol;
    if trade.side == "BUY" {
      var open := if symbol in lots then lots[symbol] else [];
      lots := lots[symbol := open + [Lot(trade.quantity, trade.price, trade.timestamp)]];
    } else if trade.side == "SELL" {
      if trade.entryPrice.Some? {
        tradePnl := (trade.price - trade.entryPrice.value) * trade.quantity;
      } else if symbol in lots && |lots[symbol]| > 0 {
        UnpricedSell(positions, trade);
        var rest, remainingQty, totalCost := MatchLots(lots[symbol], trade.quantity);
        lots := lots[symbol := rest];
        var closedQty := trade.quantity - remainingQty;
        if closedQty > 0.0 {
          var avgEntry := totalCost / closedQty;
          tradePnl := (trade.price - avgEntry) * closedQty;
        }
        ghost var m := Fifo(positions[symbol], trade.quantity, 0.0);
        assert m.remaining == remainingQty && m.cost == totalCost;
        assert tradePnl == ApplyTrade(positions, trade).0 && lots == ApplyTrade(positions, trade).1;
      } else {
        UnpricedSell(positions, trade);
        var avgPrice := if trade.quantity > 0.0 then trade.value / trade.quantity else trade.price;
        var estimatedEntry := avgPrice * 0.98;
        tradePnl := (trade.price - estimatedEntry) * trade.quantity;
      }
    }
    assert tradePnl == ApplyTrade(positions, trade).0;
    assert lots == ApplyTrade(positions, trade).1;
  }

  /** The two ways a sell without a recorded entry price is priced. */
  lemma UnpricedSell(lots: map<string, seq<Lot>>, t: StoredTrade)
    requires t.side == "SELL" && t.entryPrice.None?
    ensures t.symbol in lots && |lots[t.symbol]| > 0 ==>
              var m := Fifo(lots[t.symbol], t.quantity, 0.0);
              var closed := t.quantity - m.remaining;
              ApplyTrade(lots, t).0 == (if closed > 0.0 then (t.price - m.cost / closed) * closed else 0.0)
              && ApplyTrade(lots, t).1 == lots[t.symbol := m.lots]
    ensures !(t.symbol in lots && |lots[t.symbol]| > 0) ==>
              ApplyTrade(lots, t).0 == (t.price - (if t.quantity > 0.0 then t.value / t.quantity else t.price) * 0.98) * t.quantity
              && ApplyTrade(lots, t).1 == lots
  {
  }

  /** The replay loop over the trades. */
  method ReplayTrades(trades: seq<StoredTrade>) returns (r: Replay)
    ensures r == ReplayAll(trades)
  {
    var positions: map<string, seq<Lot>> := map[];
    var cumulativePnl := 0.0;
    var cumulativeReturns: seq<CumulativePoint> := [];
    var winningTrades: nat := 0;
    var losingTrades: nat := 0;
    var i := 0;
    while i < |trades|
      invariant 0 <= i <= |trades|
      invariant Replay(positions, cumulativePnl, cumulativeReturns, winningTrades, losingTrades) == ReplayAll(trades[..i])
    {
      var trade := trades[i];
      assert trades[..i + 1][..i] == trades[..i];
      var tradePnl;
      tradePnl, positions := TradePnl(positions, trade);
      if trade.side == "SELL" {
        if tradePnl > 0.0 {
          winningTrades := winningTrades + 1;
        } else if tradePnl < 0.0 {
          losingTrades := losingTrades + 1;
        }
      }
      cumulativePnl := cumulativePnl + tradePnl;
      cumulativeReturns := cumulativeReturns + [CumulativePoint(trade.timestamp, cumulativePnl)];
      i := i + 1;
    }
    assert trades[..|trades|] == trades;
    r := Replay(positions, cumulativePnl, cumulativeReturns, winningTrades, losingTrades);
  }

  /** `get_performance_metrics` over the trades of the window, in the order
      the repository returns them. */
  method PerformanceMetrics(trades: seq<StoredTrade>) returns (m: Metrics)
    ensures m == MetricsOf(trades)
    ensures |trades| == 0 ==> m == NO_METRICS
    ensures m.totalTrades == |trades| && |m.cumulativeReturns| == |trades|
    ensures 0.0 <= m.winRate <= 100.0 && m.maxDrawdownPct >= 0.0
  {
    if |trades| == 0 {
      return NO_METRICS;
    }
    var r := ReplayTrades(trades);
    ReplayPoints(trades);
    var winRate := if r.wins + r.losses > 0
                   then r.wins as real / (r.wins + r.losses) as real * 100.0 else 0.0;
    assert winRate == WinRate(r.wins, r.losses);
    var maxDrawdown := MaxDrawdown(r.points);
    m := Metrics(|trades|, winRate, r.cumulativePnl, maxDrawdown * 100.0, r.points);
  }
}
