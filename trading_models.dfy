/** The trading records shared by the services: string-valued enumerations and
    the pydantic records for market bars, orders, positions, agent analyses,
    trading decisions and portfolio summaries. */
module TradingModels {
  import opened Common

  // ---------------------------------------------------------------- enumerations

  datatype OrderSide = Buy | Sell

  function OrderSideValue(s: OrderSide): string
  {
    match s
    case Buy => "buy"
    case Sell => "sell"
  }

  /** `OrderSide(value)`: lookup by the enumeration's string value. */
  function ParseOrderSide(v: string): (r: Option<OrderSide>)
    ensures r.Some? ==> OrderSideValue(r.value) == v
    ensures forall s: OrderSide :: OrderSideValue(s) == v ==> r == Some(s)
  {
    if v == "buy" then Some(Buy) else if v == "sell" then Some(Sell) else None
  }

  datatype OrderType = Market | Limit | Stop | StopLimit

  function OrderTypeValue(t: OrderType): string
  {
    match t
    case Market => "market"
    case Limit => "limit"
    case Stop => "stop"
    case StopLimit => "stop_limit"
  }

  function ParseOrderType(v: string): (r: Option<OrderType>)
    ensures r.Some? ==> OrderTypeValue(r.value) == v
    ensures forall t: OrderType :: OrderTypeValue(t) == v ==> r == Some(t)
  {
    if v == "market" then Some(Market)
    else if v == "limit" then Some(Limit)
    else if v == "stop" then Some(Stop)
    else if v == "stop_limit" then Some(StopLimit)
    else None
  }

  datatype OrderStatus = Pending | Open | Filled | PartiallyFilled | Cancelled | Rejected

  function OrderStatusValue(s: OrderStatus): string
  {
    match s
    case Pending => "pending"
    case Open => "open"
    case Filled => "filled"
    case PartiallyFilled => "partially_filled"
    case Cancelled => "cancelled"
    case Rejected => "rejected"
  }

  function ParseOrderStatus(v: string): (r: Option<OrderStatus>)
    ensures r.Some? ==> OrderStatusValue(r.value) == v
    ensures forall s: OrderStatus :: OrderStatusValue(s) == v ==> r == Some(s)
  {
    if v == "pending" then Some(Pending)
    else if v == "open" then Some(Open)
    else if v == "filled" then Some(Filled)
    else if v == "partially_filled" then Some(PartiallyFilled)
    else if v == "cancelled" then Some(Cancelled)
    else if v == "rejected" then Some(Rejected)
    else None
  }

  datatype AgentType = Technical | Fundamental | News | Sentiment | Risk

  function AgentTypeValue(a: AgentType): string
  {
    match a
    case Technical => "technical"
    case Fundamental => "fundamental"
    case News => "news"
    case Sentiment => "sentiment"
    case Risk => "risk"
  }

  function ParseAgentType(v: string): (r: Option<AgentType>)
    ensures r.Some? ==> AgentTypeValue(r.value) == v
    ensures forall a: AgentType :: AgentTypeValue(a) == v ==> r == Some(a)
  {
    if v == "technical" then Some(Technical)
    else if v == "fundamental" then Some(Fundamental)
    else if v == "news" then Some(News)
    else if v == "sentiment" then Some(Sentiment)
    else if v == "risk" then Some(Risk)
    else None
  }

  datatype Signal = StrongBuy | BuySignal | Hold | SellSignal | StrongSell

  function SignalValue(s: Signal): string
  {
    match s
    case StrongBuy => "strong_buy"
    case BuySignal => "buy"
    case Hold => "hold"
    case SellSignal => "sell"
    case StrongSell => "strong_sell"
  }

  function ParseSignal(v: string): (r: Option<Signal>)
    ensures r.Some? ==> SignalValue(r.value) == v
    ensures forall s: Signal :: SignalValue(s) == v ==> r == Some(s)
  {
    if v == "strong_buy" then Some(StrongBuy)
    else if v == "buy" then Some(BuySignal)
    else if v == "hold" then Some(Hold)
    else if v == "sell" then Some(SellSignal)
    else if v == "strong_sell" then Some(StrongSell)
    else None
  }

  /** The enumerations' string values are pairwise distinct, so each value names
      one member. */
  lemma ValuesAreInjective()
    ensures forall a: OrderSide, b: OrderSide :: OrderSideValue(a) == OrderSideValue(b) ==> a == b
    ensures forall a: OrderStatus, b: OrderStatus :: OrderStatusValue(a) == OrderStatusValue(b) ==> a == b
    ensures forall a: Signal, b: Signal :: SignalValue(a) == SignalValue(b) ==> a == b
  {
  }

  // ---------------------------------------------------------------- records

  /** One price bar (`MarketData`). */
  datatype MarketBar = MarketBar(
    symbol: string,
    timestamp: Instant,
    open: real,
    high: real,
    low: real,
    close: real,
    volume: real,
    vwap: Option<real>)

  datatype Order = Order(
    id: Option<string>,
    symbol: string,
    side: OrderSide,
    orderType: OrderType,
    quantity: real,
    price: Option<real>,
    status: OrderStatus,
    filledQuantity: real,
    filledAvgPrice: Option<real>,
    createdAt: Instant,
    updatedAt: Instant)

  /** An `Order` built from its required fields, with the record's defaults for
      the rest: pending, nothing filled, and both timestamps at `now`. */
  function NewOrder(id: Option<string>, symbol: string, side: OrderSide, orderType: OrderType,
                    quantity: real, price: Option<real>, now: Instant): (o: Order)
    ensures o.status == Pending && o.filledQuantity == 0.0 && o.filledAvgPrice.None?
    ensures o.createdAt == now && o.updatedAt == now
    ensures o.symbol == symbol && o.side == side && o.quantity == quantity && o.price == price
  {
    Order(id, symbol, side, orderType, quantity, price, Pending, 0.0, None, now, now)
  }

  datatype Position = Position(
    symbol: string,
    quantity: real,
    avgEntryPrice: real,
    currentPrice: real,
    unrealizedPnl: real,
    realizedPnl: real,
    marketValue: real,
    costBasis: real)

  /** The part of an analysis's free-form `metadata` dictionary that other
      components read back: the risk manager's level ("LOW", "HIGH" or
      "CRITICAL") and its list of concerns. */
  datatype Metadata =
    | NoMetadata
    | RiskMetadata(riskLevel: string, risks: seq<RiskConcern>)
    | OtherMetadata

  /** One concern of the risk manager; the fractions are shown as percentages
      in its messages. */
  datatype RiskConcern =
    | DailyLossLimitExceeded(dailyLossPct: real)
    | PositionSizeTooLarge(positionPct: real)
    | AlreadyHoldingSymbol

  datatype AgentAnalysis = AgentAnalysis(
    agentType: AgentType,
    symbol: string,
    signal: Signal,
    confidence: real,
    reasoning: string,
    timestamp: Instant,
    metadata: Metadata)

  /** Building an `AgentAnalysis` validates `confidence` against [0, 1]; outside
      that range pydantic raises a validation error. */
  function NewAgentAnalysis(agentType: AgentType, symbol: string, signal: Signal, confidence: real,
                            reasoning: string, now: Instant, metadata: Metadata): (r: Result<AgentAnalysis, string>)
    ensures r.Ok? <==> 0.0 <= confidence <= 1.0
    ensures r.Ok? ==> r.value.confidence == confidence && r.value.signal == signal
                      && r.value.agentType == agentType && r.value.symbol == symbol
  {
    if 0.0 <= confidence && confidence <= 1.0 then
      Ok(AgentAnalysis(agentType, symbol, signal, confidence, reasoning, now, metadata))
    else
      Err("confidence must be between 0 and 1")
  }

  /** A decision's `risk_assessment`: the risk level and the concerns behind it. */
  datatype RiskAssessment = RiskAssessment(level: string, concerns: seq<RiskConcern>)

  datatype TradingDecision = TradingDecision(
    symbol: string,
    action: OrderSide,
    quantity: real,
    price: Option<real>,
    confidence: real,
    agentVotes: seq<AgentAnalysis>,
    riskAssessment: RiskAssessment,
    timestamp: Instant)

  datatype PortfolioSummary = PortfolioSummary(
    totalValue: real,
    cash: real,
    positionsValue: real,
    totalPnl: real,
    dailyPnl: real,
    positions: seq<Position>,
    buyingPower: real)
}
