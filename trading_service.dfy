/** The paper-trading ledger: orders and positions kept in dictionaries, a cash
    balance, and the risk service's pure checks. */
module Trading {
  import opened Common
  import opened TradingModels
  import opened Sorting
  import Config

  const STARTING_CAPITAL: real := 100000.0

  /** One `trade_history` entry. The stored order is the same object as the one
      in `orders`, so the record refers to it by id. */
  datatype TradeRecord = TradeRecord(timestamp: Instant, orderId: string, decision: TradingDecision)

  // ---------------------------------------------------------------- the position book

  /** The part of the ledger a fill changes: the positions dictionary (with its
      key order in `held`) and the cash balance. */
  datatype Book = Book(positions: map<string, Position>, held: seq<string>, cash: real)

  ghost predicate BookValid(b: Book)
  {
    Distinct(b.held)
    && (forall s :: s in b.positions <==> s in b.held)
    && (forall s :: s in b.positions ==> b.positions[s].symbol == s)
  }

  /** Adding a fill to a held position: quantity and cost basis grow by the
      fill, and the average entry price is recomputed from them. */
  function AddToPosition(p: Position, qty: real, price: real): (q: Position)
    ensures q.quantity == p.quantity + qty && q.costBasis == p.costBasis + qty * price
    ensures q.quantity > 0.0 ==> q.avgEntryPrice * q.quantity == q.costBasis
    ensures q.quantity <= 0.0 ==> q.avgEntryPrice == 0.0
    ensures q.symbol == p.symbol && q.realizedPnl == p.realizedPnl && q.currentPrice == p.currentPrice
  {
    var newQuantity := p.quantity + qty;
    var newCost := p.costBasis + qty * price;
    p.(quantity := newQuantity,
       avgEntryPrice := if newQuantity > 0.0 then newCost / newQuantity else 0.0,
       costBasis := newCost)
  }

  /** Selling part of a held position: quantity drops by the fill, the cost
      basis drops by the fill at the average entry price (which is kept), and
      the realized profit grows by the fill's gain over that price. */
  function ReducePosition(p: Position, qty: real, price: real): (q: Position)
    ensures q.quantity == p.quantity - qty && q.avgEntryPrice == p.avgEntryPrice
    ensures q.costBasis == p.costBasis - qty * p.avgEntryPrice
    ensures q.realizedPnl == p.realizedPnl + (price - p.avgEntryPrice) * qty
    ensures q.symbol == p.symbol && q.currentPrice == p.currentPrice
  {
    p.(quantity := p.quantity - qty,
       realizedPnl := p.realizedPnl + (price - p.avgEntryPrice) * qty,
       costBasis := p.costBasis - qty * p.avgEntryPrice)
  }

  /** A position opened by a buy fill. */
  function OpenPosition(symbol: string, qty: real, price: real): (q: Position)
    ensures q.symbol == symbol && q.quantity == qty
    ensures q.avgEntryPrice == price && q.currentPrice == price
    ensures q.costBasis == qty * price && q.marketValue == qty * price
    ensures q.unrealizedPnl == 0.0 && q.realizedPnl == 0.0
  {
    Position(symbol, qty, price, price, 0.0, 0.0, qty * price, qty * price)
  }

  /** `_update_position` on a fill of `qty` at `price`. */
  function ApplyFill(b: Book, symbol: string, side: OrderSide, qty: real, price: real): (r: Book)
    ensures BookValid(b) ==> BookValid(r)
    ensures symbol in b.positions && side == Buy ==>
              r.positions == b.positions[symbol := AddToPosition(b.positions[symbol], qty, price)]
              && r.held == b.held && r.cash == b.cash - qty * price
    ensures symbol in b.positions && side == Sell && qty >= b.positions[symbol].quantity ==>
              r.positions == b.positions - {symbol} && r.held == Without(b.held, symbol)
              && r.cash == b.cash + qty * price
    ensures symbol in b.positions && side == Sell && qty < b.positions[symbol].quantity ==>
              r.positions == b.positions[symbol := ReducePosition(b.positions[symbol], qty, price)]
              && r.held == b.held && r.cash == b.cash + qty * price
    ensures symbol !in b.positions && side == Buy ==>
              r.positions == b.positions[symbol := OpenPosition(symbol, qty, price)]
              && r.held == b.held + [symbol] && r.cash == b.cash - qty * price
    ensures symbol !in b.positions && side == Sell ==> r == b
    ensures forall s :: s != symbol ==> (s in r.positions <==> s in b.positions)
    ensures forall s :: s != symbol && s in r.positions ==> r.positions[s] == b.positions[s]
  {
    if symbol in b.positions then
      var p := b.positions[symbol];
      if side == Buy then
        Book(b.positions[symbol := AddToPosition(p, qty, price)], b.held, b.cash - qty * price)
      else if qty >= p.quantity then
        assert BookValid(b) ==> Distinct(Without(b.held, symbol)) by {
          if BookValid(b) { WithoutDistinct(b.held, symbol); }
        }
        Book(b.positions - {symbol}, Without(b.held, symbol), b.cash + qty * price)
      else
        Book(b.positions[symbol := ReducePosition(p, qty, price)], b.held, b.cash + qty * price)
    else if side == Buy then
      Book(b.positions[symbol := OpenPosition(symbol, qty, price)], b.held + [symbol], b.cash - qty * price)
    else
      b
  }

  // ---------------------------------------------------------------- sums over the book

  /** Σ f(positions[s]) over the held symbols, in dictionary order. */
  function SumBy(held: seq<string>, ps: map<string, Position>, f: Position -> real): real
    requires forall s :: s in held ==> s in ps
  {
    if |held| == 0 then 0.0 else SumBy(held[..|held| - 1], ps, f) + f(ps[held[|held| - 1]])
  }

  function CostBasisOf(p: Position): real { p.costBasis }
  function MarketValueOf(p: Position): real { p.marketValue }
  function RealizedOf(p: Position): real { p.realizedPnl }
  function UnrealizedOf(p: Position): real { p.unrealizedPnl }

  /** The total cost basis of the book. */
  function CostTotal(b: Book): real
    requires BookValid(b)
  {
    SumBy(b.held, b.positions, CostBasisOf)
  }

  lemma {:induction false} SumByFresh(held: seq<string>, ps: map<string, Position>, s: string, v: Position,
                                      f: Position -> real)
    requires forall t :: t in held ==> t in ps
    requires s !in held
    ensures SumBy(held, ps[s := v], f) == SumBy(held, ps, f)
  {
    if |held| > 0 {
      SumByFresh(held[..|held| - 1], ps, s, v, f);
    }
  }

  lemma {:induction false} SumByUpdate(held: seq<string>, ps: map<string, Position>, s: string, v: Position,
                                       f: Position -> real)
    requires forall t :: t in held ==> t in ps
    requires Distinct(held) && s in held
    ensures SumBy(held, ps[s := v], f) == SumBy(held, ps, f) - f(ps[s]) + f(v)
  {
    var init := held[..|held| - 1];
    var last := held[|held| - 1];
    assert Distinct(init);
    if last == s {
      assert s !in init;
      SumByFresh(init, ps, s, v, f);
    } else {
      assert s in init by {
        var k :| 0 <= k < |held| && held[k] == s;
        assert k < |held| - 1;
        assert init[k] == s;
      }
      SumByUpdate(init, ps, s, v, f);
    }
  }

  lemma {:induction false} SumByWithout(held: seq<string>, ps: map<string, Position>, s: string,
                                        f: Position -> real)
    requires forall t :: t in held ==> t in ps
    requires Distinct(held) && s in held
    ensures SumBy(Without(held, s), ps - {s}, f) == SumBy(held, ps, f) - f(ps[s])
  {
    var init := held[..|held| - 1];
    var last := held[|held| - 1];
    assert Distinct(init);
    if last == s {
      assert s !in init;
      assert Without(held, s) == Without(init, s) == init;
      SumByFrame(init, ps, ps - {s}, f);
    } else {
      assert s in init by {
        var k :| 0 <= k < |held| && held[k] == s;
        assert k < |held| - 1;
        assert init[k] == s;
      }
      SumByWithout(init, ps, s, f);
      var w := Without(held, s);
      assert w == Without(init, s) + [last];
      assert w[..|w| - 1] == Without(init, s);
    }
  }

  lemma {:induction false} SumByFrame(held: seq<string>, ps: map<string, Position>, qs: map<string, Position>,
                                      f: Position -> real)
    requires forall t :: t in held ==> t in ps && t in qs && qs[t] == ps[t]
    ensures SumBy(held, qs, f) == SumBy(held, ps, f)
  {
    if |held| > 0 {
      SumByFrame(held[..|held| - 1], ps, qs, f);
    }
  }

  /** A buy moves value from cash into the cost basis: cash plus total cost
      basis is unchanged, whether or not the symbol was held. */
  lemma BuyConservesCashPlusCost(b: Book, symbol: string, qty: real, price: real)
    requires BookValid(b)
    ensures var r := ApplyFill(b, symbol, Buy, qty, price);
            r.cash + CostTotal(r) == b.cash + CostTotal(b)
  {
    var r := ApplyFill(b, symbol, Buy, qty, price);
    if symbol in b.positions {
      SumByUpdate(b.held, b.positions, symbol, AddToPosition(b.positions[symbol], qty, price), CostBasisOf);
    } else {
      SumByFresh(b.held, b.positions, symbol, OpenPosition(symbol, qty, price), CostBasisOf);
      assert r.held[..|r.held| - 1] == b.held;
    }
  }

  /** A partial sell turns the fill's gain over the average entry price into
      cash: cash plus total cost basis grows by exactly the realized profit. */
  lemma PartialSellRealizesGain(b: Book, symbol: string, qty: real, price: real)
    requires BookValid(b)
    requires symbol in b.positions && qty < b.positions[symbol].quantity
    ensures var r := ApplyFill(b, symbol, Sell, qty, price);
            var p := b.positions[symbol];
            r.cash + CostTotal(r) == b.cash + CostTotal(b) + (price - p.avgEntryPrice) * qty
            && r.positions[symbol].realizedPnl - p.realizedPnl == (price - p.avgEntryPrice) * qty
  {
    var p := b.positions[symbol];
    SumByUpdate(b.held, b.positions, symbol, ReducePosition(p, qty, price), CostBasisOf);
  }

  /** Closing a position credits the whole fill, even beyond the held quantity,
      and drops the position's cost basis from the book. */
  lemma FullSellCreditsWholeFill(b: Book, symbol: string, qty: real, price: real)
    requires BookValid(b)
    requires symbol in b.positions && qty >= b.positions[symbol].quantity
    ensures var r := ApplyFill(b, symbol, Sell, qty, price);
            r.cash + CostTotal(r) == b.cash + CostTotal(b) - b.positions[symbol].costBasis + qty * price
  {
    SumByWithout(b.held, b.positions, symbol, CostBasisOf);
  }

  // ---------------------------------------------------------------- valuation

  /** `current_prices.get(symbol, position.current_price)`. */
  function PriceFor(prices: map<string, real>, p: Position): real
  {
    if p.symbol in prices then prices[p.symbol] else p.currentPrice
  }

  /** A position marked to `price`. */
  function Revalued(p: Position, price: real): (q: Position)
    ensures q.currentPrice == price && q.marketValue == p.quantity * price
    ensures q.unrealizedPnl == (price - p.avgEntryPrice) * p.quantity
    ensures q.symbol == p.symbol && q.quantity == p.quantity && q.avgEntryPrice == p.avgEntryPrice
    ensures q.realizedPnl == p.realizedPnl && q.costBasis == p.costBasis
  {
    p.(currentPrice := price, marketValue := p.quantity * price,
       unrealizedPnl := (price - p.avgEntryPrice) * p.quantity)
  }

  function RevaluedBook(ps: map<string, Position>, prices: map<string, real>): (r: map<string, Position>)
    ensures r.Keys == ps.Keys
    ensures forall s :: s in r ==> r[s] == Revalued(ps[s], PriceFor(prices, ps[s]))
  {
    map s | s in ps :: Revalued(ps[s], PriceFor(prices, ps[s]))
  }

  /** Σ quantity × price over the held symbols, the price being the supplied
      one or the position's stored current price. */
  function HoldingsValue(held: seq<string>, ps: map<string, Position>, prices: map<string, real>): real
    requires forall s :: s in held ==> s in ps
  {
    if |held| == 0 then 0.0
    else
      var p := ps[held[|held| - 1]];
      HoldingsValue(held[..|held| - 1], ps, prices) + p.quantity * PriceFor(prices, p)
  }

  /** After marking to market, the positions' market values add up to the
      holdings' value at the supplied prices. */
  lemma {:induction false} RevaluedMarketValue(held: seq<string>, ps: map<string, Position>, prices: map<string, real>)
    requires forall s :: s in held ==> s in ps
    ensures SumBy(held, RevaluedBook(ps, prices), MarketValueOf) == HoldingsValue(held, ps, prices)
  {
    if |held| > 0 {
      RevaluedMarketValue(held[..|held| - 1], ps, prices);
    }
  }

  /** Marking to market leaves the realized profits as they were. */
  lemma {:induction false} RevaluedKeepsRealized(held: seq<string>, ps: map<string, Position>, prices: map<string, real>)
    requires forall s :: s in held ==> s in ps
    ensures SumBy(held, RevaluedBook(ps, prices), RealizedOf) == SumBy(held, ps, RealizedOf)
  {
    if |held| > 0 {
      RevaluedKeepsRealized(held[..|held| - 1], ps, prices);
    }
  }

  function CreatedKey(o: Order): real { o.createdAt as real }

  // ---------------------------------------------------------------- the service

  class TradingService {
    const settings: Config.Settings
    const initialCapital: real
    var orders: map<string, Order>
    /** The keys of `orders` in insertion order. */
    var orderIds: seq<string>
    var positions: map<string, Position>
    /** The keys of `positions` in insertion order. */
    var held: seq<string>
    var cash: real
    var tradeHistory: seq<TradeRecord>

    ghost predicate Valid()
      reads this
    {
      Distinct(orderIds)
      && (forall id :: id in orders <==> id in orderIds)
      && BookValid(Book(positions, held, cash))
      && (forall i :: 0 <= i < |tradeHistory| ==> tradeHistory[i].orderId in orders)
    }

    function BookOf(): Book
      reads this
    {
      Book(positions, held, cash)
    }

    /** A fresh ledger with 100 000 in cash and nothing else. */
    constructor (s: Config.Settings)
      ensures Valid()
      ensures settings == s
      ensures cash == STARTING_CAPITAL && initialCapital == STARTING_CAPITAL
      ensures orders == map[] && orderIds == [] && positions == map[] && held == [] && tradeHistory == []
    {
      settings := s;
      orders := map[];
      orderIds := [];
      positions := map[];
      held := [];
      cash := STARTING_CAPITAL;
      initialCapital := STARTING_CAPITAL;
      tradeHistory := [];
    }

    /** `_update_position`: applies one fill to the positions and the cash. */
    method UpdatePosition(symbol: string, side: OrderSide, qty: real, price: real)
      requires Valid()
      modifies this
      ensures Valid()
      ensures BookOf() == ApplyFill(old(BookOf()), symbol, side, qty, price)
      ensures orders == old(orders) && orderIds == old(orderIds) && tradeHistory == old(tradeHistory)
    {
      ghost var want := ApplyFill(BookOf(), symbol, side, qty, price);
      if symbol in positions {
        var position := positions[symbol];
        if side == Buy {
          positions := positions[symbol := AddToPosition(position, qty, price)];
          cash := cash - qty * price;
        } else if qty >= position.quantity {
          WithoutDistinct(held, symbol);
          positions := positions - {symbol};
          held := Without(held, symbol);
          cash := cash + qty * price;
        } else {
          positions := positions[symbol := ReducePosition(position, qty, price)];
          cash := cash + qty * price;
        }
      } else if side == Buy {
        positions := positions[symbol := OpenPosition(symbol, qty, price)];
        held := held + [symbol];
        cash := cash - qty * price;
      }
      assert positions == want.positions && held == want.held && cash == want.cash;
    }

    /** `place_order`: a market order for the decision. In paper mode it fills
        at once at the decision's price and updates the book; otherwise it stays
        pending. A paper fill without a price raises before anything changes. */
    method PlaceOrder(decision: TradingDecision, orderId: string, now: Instant) returns (r: Result<Order, string>)
      requires Valid()
      modifies this
      ensures Valid()
      ensures r.Err? <==> settings.paperTrading && decision.price.None?
      ensures r.Err? ==> orders == old(orders) && orderIds == old(orderIds)
                         && tradeHistory == old(tradeHistory) && BookOf() == old(BookOf())
      ensures r.Ok? ==> r.value == MarketOrder(decision, orderId, now, settings.paperTrading)
      ensures r.Ok? && settings.paperTrading ==>
                BookOf() == ApplyFill(old(BookOf()), decision.symbol, decision.action,
                                      decision.quantity, decision.price.value)
      ensures r.Ok? && !settings.paperTrading ==> BookOf() == old(BookOf())
      ensures r.Ok? ==> orders == old(orders)[orderId := r.value]
                        && orderIds == (if orderId in old(orders) then old(orderIds) else old(orderIds) + [orderId])
                        && tradeHistory == old(tradeHistory) + [TradeRecord(now, orderId, decision)]
    {
      var paper := settings.paperTrading;
      if paper && decision.price.None? {
        return Err("TypeError: the decision has no price to fill at");
      }
      var order := MarketOrder(decision, orderId, now, paper);
      if paper {
        UpdatePosition(order.symbol, order.side, order.filledQuantity, decision.price.value);
      }
      if orderId !in orders {
        orderIds := orderIds + [orderId];
      }
      orders := orders[orderId := order];
      tradeHistory := tradeHistory + [TradeRecord(now, orderId, decision)];
      r := Ok(order);
    }

    /** `get_portfolio_summary`: marks every position to the supplied price (or
        its stored one) in place and totals the book. */
    method GetPortfolioSummary(prices: map<string, real>) returns (summary: PortfolioSummary)
      requires Valid()
      modifies this
      ensures Valid()
      ensures positions == RevaluedBook(old(positions), prices)
      ensures held == old(held) && cash == old(cash)
      ensures orders == old(orders) && orderIds == old(orderIds) && tradeHistory == old(tradeHistory)
      ensures |summary.positions| == |held|
      ensures forall k :: 0 <= k < |held| ==> summary.positions[k] == positions[held[k]]
      ensures summary.positionsValue == HoldingsValue(held, old(positions), prices)
      ensures summary.totalValue == cash + summary.positionsValue
      ensures summary.totalPnl == SumBy(held, old(positions), RealizedOf) + SumBy(held, positions, UnrealizedOf)
      ensures summary.dailyPnl == summary.totalPnl
      ensures summary.cash == cash && summary.buyingPower == cash
    {
      var realized := SumBy(held, positions, RealizedOf);
      var book, listed, unrealized, positionsValue := MarkToMarket(held, positions, prices);
      RevaluedMarketValue(held, positions, prices);
      positions := book;
      summary := PortfolioSummary(cash + positionsValue, cash, positionsValue, realized + unrealized,
                                  realized + unrealized, listed, cash);
    }

    /** The orders in dictionary order. */
    function OrderList(): (r: seq<Order>)
      reads this
      requires Valid()
      ensures |r| == |orderIds|
      ensures forall k :: 0 <= k < |r| ==> r[k] == orders[orderIds[k]]
    {
      Lookup(orderIds, orders)
    }

    /** `get_orders`: the most recent orders first, at most `limit` of them. */
    function GetOrders(limit: int): (r: seq<Order>)
      reads this
      requires Valid()
      ensures SortedDesc(r, CreatedKey)
      ensures |r| == PyIndex(|orders|, limit)
      ensures forall o :: o in r ==> o in orders.Values
      ensures multiset(r) <= multiset(OrderList())
      ensures limit >= |orders| ==> multiset(r) == multiset(OrderList())
      ensures forall o, p :: o in multiset(OrderList()) - multiset(r) && p in r ==> CreatedKey(o) <= CreatedKey(p)
    {
      OrderKeysCount();
      OrderListValues();
      RecentOrders(OrderList(), limit)
    }

    lemma OrderListValues()
      requires Valid()
      ensures forall o :: o in OrderList() ==> o in orders.Values
    {
      var all := OrderList();
      forall o | o in all ensures o in orders.Values {
        var k :| 0 <= k < |all| && all[k] == o;
        assert orders[orderIds[k]] == o;
      }
    }

    lemma OrderKeysCount()
      requires Valid()
      ensures |orders| == |orderIds|
    {
      DistinctCard(orderIds);
      assert orders.Keys == set id | id in orderIds;
    }

    /** `cancel_order`: only a pending or open order becomes cancelled. */
    method CancelOrder(orderId: string) returns (ok: bool)
      requires Valid()
      modifies this
      ensures Valid()
      ensures ok <==> orderId in old(orders) && old(orders)[orderId].status in {Pending, Open}
      ensures ok ==> orders == old(orders)[orderId := old(orders)[orderId].(status := Cancelled)]
      ensures !ok ==> orders == old(orders)
      ensures orderIds == old(orderIds) && BookOf() == old(BookOf()) && tradeHistory == old(tradeHistory)
    {
      if orderId in orders {
        var order := orders[orderId];
        if order.status == Pending || order.status == Open {
          orders := orders[orderId := order.(status := Cancelled)];
          return true;
        }
      }
      return false;
    }
  }

  /** The order `place_order` records: a market order for the decision that
      in paper mode is filled in full at the decision's price and otherwise
      stays pending with nothing filled. */
  function MarketOrder(d: TradingDecision, orderId: string, now: Instant, paper: bool): (o: Order)
    ensures o.id == Some(orderId) && o.symbol == d.symbol && o.side == d.action
    ensures o.orderType == Market && o.quantity == d.quantity && o.price == d.price
    ensures o.createdAt == now && o.updatedAt == now
    ensures paper ==> o.status == Filled && o.filledQuantity == d.quantity && o.filledAvgPrice == d.price
    ensures !paper ==> o.status == Pending && o.filledQuantity == 0.0 && o.filledAvgPrice.None?
  {
    var o := NewOrder(Some(orderId), d.symbol, d.action, Market, d.quantity, d.price, now);
    if paper then o.(status := Filled, filledQuantity := o.quantity, filledAvgPrice := d.price)
    else o.(status := Pending)
  }

  /** The loop of `get_portfolio_summary`: marks each held position to market
      in dictionary order, listing it and adding up its unrealized profit and
      market value. */
  method MarkToMarket(held: seq<string>, positions: map<string, Position>, prices: map<string, real>)
    returns (book: map<string, Position>, listed: seq<Position>, unrealized: real, positionsValue: real)
    requires Distinct(held) && forall s :: s in positions <==> s in held
    ensures book == RevaluedBook(positions, prices)
    ensures |listed| == |held| && forall k :: 0 <= k < |held| ==> listed[k] == book[held[k]]
    ensures unrealized == SumBy(held, book, UnrealizedOf)
    ensures positionsValue == SumBy(held, book, MarketValueOf)
  {
    ghost var marked := RevaluedBook(positions, prices);
    book := positions;
    listed := [];
    unrealized := 0.0;
    positionsValue := 0.0;
    var i := 0;
    while i < |held|
      invariant 0 <= i <= |held|
      invariant book.Keys == positions.Keys
      invariant forall k :: 0 <= k < |held| ==> book[held[k]] == if k < i then marked[held[k]] else positions[held[k]]
      invariant |listed| == i
      invariant forall k :: 0 <= k < i ==> listed[k] == marked[held[k]]
      invariant unrealized == Total(listed, UnrealizedOf)
      invariant positionsValue == Total(listed, MarketValueOf)
    {
      var symbol := held[i];
      var position := book[symbol];
      position := Revalued(position, PriceFor(prices, position));
      assert position == marked[symbol];
      MarkStep(held, positions, marked, book, i, position);
      book := book[symbol := position];
      ListedStep(held, marked, listed, i, position);
      TotalSnoc(listed, position, UnrealizedOf);
      TotalSnoc(listed, position, MarketValueOf);
      listed := listed + [position];
      unrealized := unrealized + position.unrealizedPnl;
      positionsValue := positionsValue + position.marketValue;
      i := i + 1;
    }
    MarkedEverywhere(held, positions, book, marked);
    SumByTotal(held, book, listed, UnrealizedOf);
    SumByTotal(held, book, listed, MarketValueOf);
  }

  /** One step of the marking loop keeps the split between marked and unmarked positions. */
  lemma MarkStep(held: seq<string>, positions: map<string, Position>, marked: map<string, Position>,
                 book: map<string, Position>, i: nat, position: Position)
    requires Distinct(held) && i < |held|
    requires forall k :: 0 <= k < |held| ==> held[k] in book && held[k] in marked && held[k] in positions
    requires position == marked[held[i]]
    requires forall k :: 0 <= k < |held| ==> book[held[k]] == if k < i then marked[held[k]] else positions[held[k]]
    ensures forall k :: 0 <= k < |held| ==>
              book[held[i] := position][held[k]] == if k < i + 1 then marked[held[k]] else positions[held[k]]
  {
    forall k | 0 <= k < |held|
      ensures book[held[i] := position][held[k]] == if k < i + 1 then marked[held[k]] else positions[held[k]]
    {
      if k != i { assert held[k] != held[i]; }
    }
  }

  /** One step of the marking loop extends the listing by the marked position. */
  lemma ListedStep(held: seq<string>, marked: map<string, Position>, listed: seq<Position>, i: nat,
                   position: Position)
    requires i < |held| && |listed| == i
    requires forall k :: 0 <= k < |held| ==> held[k] in marked
    requires forall k :: 0 <= k < i ==> listed[k] == marked[held[k]]
    requires position == marked[held[i]]
    ensures forall k :: 0 <= k < i + 1 ==> (listed + [position])[k] == marked[held[k]]
  {
  }

  lemma TotalSnoc(ps: seq<Position>, p: Position, f: Position -> real)
    ensures Total(ps + [p], f) == Total(ps, f) + f(p)
  {
    assert (ps + [p])[..|ps|] == ps;
  }

  /** Σ f over a list of positions. */
  function Total(ps: seq<Position>, f: Position -> real): real
  {
    if |ps| == 0 then 0.0 else Total(ps[..|ps| - 1], f) + f(ps[|ps| - 1])
  }

  lemma {:induction false} SumByTotal(held: seq<string>, book: map<string, Position>, listed: seq<Position>,
                                      f: Position -> real)
    requires forall t :: t in held ==> t in book
    requires |listed| == |held| && forall k :: 0 <= k < |held| ==> listed[k] == book[held[k]]
    ensures SumBy(held, book, f) == Total(listed, f)
  {
    if |held| > 0 {
      SumByTotal(held[..|held| - 1], book, listed[..|listed| - 1], f);
    }
  }

  lemma MarkedEverywhere(held: seq<string>, positions: map<string, Position>, book: map<string, Position>,
                         marked: map<string, Position>)
    requires forall s :: s in positions <==> s in held
    requires book.Keys == positions.Keys && marked.Keys == positions.Keys
    requires forall k :: 0 <= k < |held| ==> book[held[k]] == marked[held[k]]
    ensures book == marked
  {
    forall s | s in book ensures book[s] == marked[s] {
      var k :| 0 <= k < |held| && held[k] == s;
    }
  }

  function Lookup(ids: seq<string>, m: map<string, Order>): (r: seq<Order>)
    requires forall id :: id in ids ==> id in m
    ensures |r| == |ids|
    ensures forall k :: 0 <= k < |ids| ==> r[k] == m[ids[k]]
  {
    seq(|ids|, k requires 0 <= k < |ids| => m[ids[k]])
  }

  /** The orders newest first, cut as Python's `[:limit]` cuts (a negative
      limit drops from the end). */
  function RecentOrders(all: seq<Order>, limit: int): (r: seq<Order>)
    ensures SortedDesc(r, CreatedKey)
    ensures |r| == PyIndex(|all|, limit)
    ensures multiset(r) <= multiset(all)
    ensures forall o :: o in r ==> o in all
    ensures limit >= |all| ==> multiset(r) == multiset(all)
    ensures forall o, p :: o in multiset(all) - multiset(r) && p in r ==> CreatedKey(o) <= CreatedKey(p)
  {
    var r := Largest(all, CreatedKey, PyIndex(|all|, limit));
    forall o | o in r ensures o in all {
      assert o in multiset(r);
    }
    r
  }

  /** A distinct sequence has as many elements as the set of its elements. */
  lemma {:induction false} DistinctCard(s: seq<string>)
    requires Distinct(s)
    ensures |set x | x in s| == |s|
  {
    if |s| > 0 {
      var init := s[..|s| - 1];
      assert Distinct(init);
      DistinctCard(init);
      assert s[|s| - 1] !in init;
      assert (set x | x in s) == (set x | x in init) + {s[|s| - 1]} by {
        assert s == init + [s[|s| - 1]];
      }
    }
  }

  // ---------------------------------------------------------------- risk

  /** One failed risk rule, with the figures its message reports. */
  datatype RiskFinding =
    | PositionSizeExceeded(pct: real, limit: real)
    | DailyLossExceeded(pct: real, limit: real)
    | InsufficientBuyingPower(need: real, have: real)

  datatype RiskCheck = RiskCheck(approved: bool, risks: seq<RiskFinding>, positionPct: real, dailyLossPct: real)

  /** `x / total if total > 0 else 0`. */
  function ShareOf(x: real, total: real): real
  {
    if total > 0.0 then x / total else 0.0
  }

  class RiskService {
    const maxPositionSize: real
    const maxDailyLoss: real
    const stopLossPct: real

    /** The limits are read from the settings once, at construction. */
    constructor (s: Config.Settings)
      ensures maxPositionSize == s.maxPositionSize && maxDailyLoss == s.maxDailyLoss
      ensures stopLossPct == s.stopLossPercentage
    {
      maxPositionSize := s.maxPositionSize;
      maxDailyLoss := s.maxDailyLoss;
      stopLossPct := s.stopLossPercentage;
    }

    /** `check_trade_risk`: approves iff the trade's share of the portfolio and
        the day's loss are within the limits and, for a buy, the trade fits the
        buying power. A decision without a price raises. */
    function CheckTradeRisk(d: TradingDecision, p: PortfolioSummary): (r: Result<RiskCheck, string>)
      ensures r.Ok? <==> d.price.Some?
      ensures r.Ok? ==>
                var tradeValue := d.quantity * d.price.value;
                var c := r.value;
                (p.totalValue > 0.0 ==> c.positionPct == tradeValue / p.totalValue
                                        && c.dailyLossPct == Abs(p.dailyPnl) / p.totalValue)
                && (p.totalValue <= 0.0 ==> c.positionPct == 0.0 && c.dailyLossPct == 0.0)
                && (c.approved <==> c.positionPct <= maxPositionSize && c.dailyLossPct <= maxDailyLoss
                                    && (d.action == Buy ==> tradeValue <= p.buyingPower))
                && (c.approved <==> |c.risks| == 0)
    {
      if d.price.None? then Err("TypeError: the decision has no price")
      else
        var tradeValue := d.quantity * d.price.value;
        var positionPct := ShareOf(tradeValue, p.totalValue);
        var dailyLossPct := ShareOf(Abs(p.dailyPnl), p.totalValue);
        var r1 := if positionPct > maxPositionSize then [PositionSizeExceeded(positionPct, maxPositionSize)] else [];
        var r2 := if dailyLossPct > maxDailyLoss then [DailyLossExceeded(dailyLossPct, maxDailyLoss)] else [];
        var r3 := if d.action == Buy && tradeValue > p.buyingPower
                  then [InsufficientBuyingPower(tradeValue, p.buyingPower)] else [];
        var risks := r1 + r2 + r3;
        Ok(RiskCheck(|risks| == 0, risks, positionPct, dailyLossPct))
    }

    /** `calculate_stop_loss`. */
    function StopLoss(entry: real): real
    {
      entry * (1.0 - stopLossPct)
    }

    /** `calculate_take_profit`, with the default risk/reward ratio of 2. */
    function TakeProfit(entry: real, riskReward: real := 2.0): real
    {
      entry * (1.0 + stopLossPct * riskReward)
    }

    /** For a positive entry and stop fraction, the stop lies below the entry,
        the target above it, and the target's distance is `riskReward` times
        the stop's. */
    lemma TargetsBracketEntry(entry: real, riskReward: real)
      requires entry > 0.0 && stopLossPct > 0.0 && riskReward > 0.0
      ensures StopLoss(entry) < entry < TakeProfit(entry, riskReward)
      ensures TakeProfit(entry, riskReward) - entry == riskReward * (entry - StopLoss(entry))
    {
      MulPositive(entry, stopLossPct);
      MulPositive(entry * stopLossPct, riskReward);
      assert TakeProfit(entry, riskReward) - entry == entry * stopLossPct * riskReward;
      assert entry - StopLoss(entry) == entry * stopLossPct;
    }
  }
}
