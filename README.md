# A verified model of the trading dashboard backend

This project models the core of a FastAPI backend for a trading dashboard in Dafny and proves properties of the model. The backend is made of these parts:

- a multi-vendor market-data service that tries a fixed chain of data vendors per asset class;
- a never-fail data wrapper with demo and synthetic fallbacks;
- a paper-trading ledger with a risk check;
- performance analytics that match sells to buy lots first-in-first-out;
- a backtesting engine and its HTTP endpoints;
- rule-based AI agents and engines that turn indicator values into trading signals;
- live candle streams;
- the settings, watchlist and alert repositories;
- the small data and system endpoints.

Each source file of the core is one Dafny module:

| module | file | models |
|---|---|---|
| `Common` | `common.dfy` | shared helpers: `Option`, `Result`, Python slicing and substring tests, `int()` truncation, means and sums |
| `Sorting` | `sorting.dfy` | `sorted(..., reverse=True)` and SQL `ORDER BY ... DESC` as a stable insertion sort |
| `TradingModels` | `trading_models.dfy` | `backend/app/models/trading_models.py` |
| `DataExceptions` | `data_exceptions.dfy` | `backend/app/utils/data_exceptions.py` |
| `Config` | `config.dfy` | `backend/app/core/config.py` |
| `MultiSource` | `multi_source.dfy` | `backend/app/services/multi_source_data.py` |
| `DataServices` | `data_service.dfy` | `backend/app/services/data_service.py` |
| `Trading` | `trading_service.dfy` | `backend/app/services/trading_service.py` |
| `Analyses` | `analyses.dfy` | `backend/app/api/endpoints/analyses.py` |
| `Backtest` | `backtesting_engine.dfy` | `backend/app/services/backtesting_engine.py` |
| `BacktestEndpoint` | `backtesting_endpoint.dfy` | `backend/app/api/endpoints/backtesting.py` |
| `AiService` | `ai_service.dfy` | `backend/app/services/ai_service.py` |
| `AiEngineCore` | `ai_engine_core.dfy` | `backend/app/services/ai_engine_core.py` |
| `MlEngine` | `ml_engine.dfy` | `backend/app/services/ml_engine.py` |
| `NeuralEngine` | `neural_engine.dfy` | `backend/app/services/neural_engine.py` |
| `MainStreams` | `main_streams.dfy` | `backend/app/main.py` |
| `SettingsRepo` | `settings_repository.dfy` | `backend/app/db/repos/settings_repository.py` |
| `SettingsEndpoint` | `settings_endpoint.dfy` | `backend/app/api/endpoints/settings.py` |
| `Watchlists` | `watchlist_repository.dfy` | `backend/app/db/repos/watchlist_repository.py` |
| `DataEndpoint` | `data_endpoint.dfy` | `backend/app/api/endpoints/data.py` |
| `SystemEndpoint` | `system_endpoint.dfy` | `backend/app/api/endpoints/system.py` |

## How the model is built

- Prices, quantities, profit and loss, and confidences are `real`. Counters are `nat`.
- The clock is an `Instant` parameter, in whole microseconds since the Unix epoch.
- Pure decision rules are functions over datatypes, with lemmas beside them.
- Objects whose fields the source mutates are classes whose methods carry `modifies` clauses:
  - the vendor service and its per-vendor counters;
  - the trading ledger;
  - the candle aggregator;
  - the connection manager;
  - the settings, watchlist and alert tables.
- Loops in the source are `while` or `for` loops. Each one is proved against a specification function on the old state.
- Database tables are sequences of rows in insertion order, with an explicit next id.
- Vendor SDK calls, the Fernet cipher and `random` draws are oracles passed in as parameters.
  - A vendor call answers with a value, with nothing, or by raising.
  - A cipher call gives a value, or `None` where Fernet raises.

**Documentation versus code.** The system's design documentation describes retries, timeouts, result validation and a per-vendor circuit breaker in the market-data layer. The code has none of these, and the model follows the code:

- each vendor in the chain is tried once;
- the status keys that some readers look up (`circuit_breaker_state`, `can_attempt`, `success_rate`, `last_error_msg`) are never produced;
- in the system endpoint's provider summary, the `working` count is therefore always zero.

`DataExceptions` still models the error taxonomy, including the kind documented as the circuit-breaker case.

**Side strings.** The performance endpoint compares trade sides with the uppercase strings `'BUY'` and `'SELL'`. The trading service stores the lowercase enum values. The model keeps the comparison as written. `Analyses.LowercaseSidesCountNothing` shows that trades stored with lowercase sides add no profit or loss and count as neither a win nor a loss.

## Model

| member | source | states |
|---|---|---|
| TradingModels.ParseOrderSide | backend/app/models/trading_models.py:7-9 | the lookup by value returns the member whose value is the string, and it returns that member whenever one has the value |
| TradingModels.ParseOrderType | backend/app/models/trading_models.py:12-16 | as for order sides, over market/limit/stop/stop_limit |
| TradingModels.ParseOrderStatus | backend/app/models/trading_models.py:19-25 | as for order sides, over the six status values |
| TradingModels.ParseAgentType | backend/app/models/trading_models.py:28-33 | as for order sides, over the five agent types |
| TradingModels.ParseSignal | backend/app/models/trading_models.py:36-41 | as for order sides, over the five lowercase signal values |
| TradingModels.ValuesAreInjective | backend/app/models/trading_models.py:7-41 | distinct members of OrderSide, OrderStatus and Signal have distinct string values |
| TradingModels.NewOrder | backend/app/models/trading_models.py:55-66 | a new order is pending, has filled quantity 0.0, no fill price, both timestamps at the creation clock, and the given symbol, side, quantity and price |
| TradingModels.NewAgentAnalysis | backend/app/models/trading_models.py:80-87 | construction succeeds iff 0 ≤ confidence ≤ 1, and the record keeps the given type, symbol, signal and confidence |
| DataExceptions.EveryKindIsADataProviderError | backend/app/utils/data_exceptions.py:6-48 | every error is an instance of the base class, and of exactly the base class and its own kind |
| DataExceptions.NewError | backend/app/utils/data_exceptions.py:9-12 | provider, message and original error are stored as given; the original error defaults to none |
| DataExceptions.ErrorTextRoundTrip | backend/app/utils/data_exceptions.py:13 | the text "[" + provider + "] " + message gives back provider and message when the provider has no ']' |
| Config.Settings.constructor | backend/app/core/config.py:59-66 | no credentials; MAX_POSITION_SIZE 0.1, MAX_DAILY_LOSS 0.05, STOP_LOSS_PERCENTAGE 0.02, paper trading on, auto trading off |
| Config.Settings.FromEnvironment | backend/app/core/config.py:30-66 | the credentials are the environment's and every other field has its declared default |
| Config.Settings.AvailableProviders | backend/app/core/config.py:49-57 | alpaca, binance and coinbase are available iff key and secret are both non-empty; alpha_vantage and polygon iff their key is non-empty; exactly five entries |
| MultiSource.IsCrypto | backend/app/services/multi_source_data.py:145-158 | true iff the symbol contains -USD, /USD, USDT or BUSD, or starts with BTC, ETH, SOL, ADA, DOT, DOGE or MATIC |
| MultiSource.CryptoExamples | backend/app/services/multi_source_data.py:145-158 | BTC-USD, ETH/USD, DOGEUSDT and SOL are crypto symbols, and so is the plain ticker DOTX, which starts with a coin name |
| MultiSource.StockExamples | backend/app/services/multi_source_data.py:145-158 | AAPL and SPY are not crypto symbols |
| MultiSource.InitialProviders | backend/app/services/multi_source_data.py:55-108 | a vendor's client exists iff its library imports, its key is set (the secret is not checked) and its construction does not raise; the second Alpaca or Alpha Vantage client exists only with the first; yfinance needs only its library |
| MultiSource.Attempt | backend/app/services/multi_source_data.py:175-186 | each attempt adds one request; only a success sets last_success and adds a success; only an exception sets last_error; an empty answer changes neither |
| MultiSource.RunChain | backend/app/services/multi_source_data.py:170-232 | the run's stats cover the same vendors as before; its answer and its effect on each vendor are stated by ChainOutcome and ChainStats |
| MultiSource.ChainOutcome | backend/app/services/multi_source_data.py:170-232 | the chain returns the answer of the first present client with a usable answer, and nothing when there is none |
| MultiSource.ChainStats | backend/app/services/multi_source_data.py:173-232 | an attempted step applies one attempt to its vendor; absent clients and every vendor after the first success keep their stats |
| MultiSource.ChainKeepsCounts | backend/app/services/multi_source_data.py:175-183 | a chain run never breaks success_count ≤ request_count |
| MultiSource.ChainsNameEachVendorOnce | backend/app/services/multi_source_data.py:170-420 | each of the four chains names each vendor at most once, in the source's order |
| MultiSource.MultiSourceDataService.constructor | backend/app/services/multi_source_data.py:43-53 | all five vendors start with zero counts and no timestamps |
| MultiSource.MultiSourceDataService.IsInitialized | backend/app/services/multi_source_data.py:131-143 | alpaca counts as initialised when either of its clients exists; each other vendor needs its own client |
| MultiSource.MultiSourceDataService.Status | backend/app/services/multi_source_data.py:110-129 | per vendor: available = initialised; active iff initialised and the last success is under five minutes old; success and request counts equal the stored ones; last success copied |
| MultiSource.MultiSourceDataService.GetProviderStatus | backend/app/services/multi_source_data.py:110-129 | the loop builds exactly the status map and changes no state, so two calls at one clock agree |
| MultiSource.MultiSourceDataService.TryClient | backend/app/services/multi_source_data.py:173-186 | an absent client changes nothing; a present one applies one attempt to its vendor and returns the answer only when it is usable |
| MultiSource.MultiSourceDataService.GetStockPrice | backend/app/services/multi_source_data.py:170-232 | the result and the new stats are those of running alpaca_stock, polygon, alpha_vantage, yfinance in that order |
| MultiSource.MultiSourceDataService.GetCryptoPrice | backend/app/services/multi_source_data.py:234-288 | as for stocks, over alpaca_crypto, coinbase, yfinance |
| MultiSource.MultiSourceDataService.GetPrice | backend/app/services/multi_source_data.py:160-168 | crypto symbols run the crypto chain and every other symbol the stock chain |
| MultiSource.MultiSourceDataService.GetHistoricalData | backend/app/services/multi_source_data.py:290-420 | the bars of the first usable client of the symbol's history chain, or [] with the stats of every attempt |
| MultiSource.MultiSourceDataService.GetMarketSnapshot | backend/app/services/multi_source_data.py:422-450 | every entry is a requested symbol with a non-zero price |
| DataServices.ToMarketBar | backend/app/services/data_service.py:58-68 | the record copies the bar's fields and its vwap defaults to the close |
| DataServices.SynthBasePositive | backend/app/services/data_service.py:93-97 | the random walk's base price stays positive |
| DataServices.SynthBarShape | backend/app/services/data_service.py:98-108 | every fallback bar has a positive close between its low and high |
| DataServices.SyntheticBarsShape | backend/app/services/data_service.py:91-110 | exactly 100 bars, bar i dated 100 − i days before now, each well-shaped |
| DataServices.SyntheticOpenMayExceedHigh | backend/app/services/data_service.py:102-104 | a concrete draw puts a fallback bar's open above its high |
| DataServices.SnapshotRows | backend/app/services/data_service.py:222-246 | exactly the entries with a positive price are persisted, each with its data source |
| DataServices.ConvertBars | backend/app/services/data_service.py:57-69 | the loop converts the vendor bars one for one, in order |
| DataServices.GenerateSyntheticBars | backend/app/services/data_service.py:91-110 | the loop produces exactly the synthetic series |
| DataServices.DataService.constructor | backend/app/services/data_service.py:24-30 | the service wraps the given multi-vendor service |
| DataServices.DataService.GetCurrentPrice | backend/app/services/data_service.py:112-140 | the vendor price when it is positive, otherwise a demo price in [100, 500]; always positive |
| DataServices.DataService.GetMarketData | backend/app/services/data_service.py:50-110 | non-empty vendor history converted bar for bar, otherwise the synthetic series |
| DataServices.DataService.FillDemoEntries | backend/app/services/data_service.py:208-216 | every requested symbol that is missing or has a falsy price gets a positive demo entry; other entries are kept |
| DataServices.DataService.DemoEntry | backend/app/services/data_service.py:210-216 | a demo entry's price comes from get_current_price, its change is in [−5, 5] and its volume in [10^6, 10^7] |
| DataServices.DataService.GetMarketSnapshot | backend/app/services/data_service.py:199-257 | one entry per requested symbol, each with a non-zero price (a positive one when it is a demo entry), and the persisted rows are SnapshotRows of it |
| DataServices.DataService.PersistRows | backend/app/services/data_service.py:222-246 | the persist loop builds exactly the snapshot rows |
| Trading.AddToPosition | backend/app/services/trading_service.py:102-109 | quantity and cost basis grow by the fill, and the average entry price is cost over quantity |
| Trading.ReducePosition | backend/app/services/trading_service.py:119-125 | quantity drops by the fill, cost basis by fill × average entry, and the realized pnl grows by the fill's gain |
| Trading.OpenPosition | backend/app/services/trading_service.py:127-137 | a new position at the fill price with cost basis and market value = qty × price and no unrealized pnl |
| Trading.ApplyFill | backend/app/services/trading_service.py:95-139 | the four branches of `_update_position`; a sell of an unheld symbol changes nothing |
| Trading.BuyConservesCashPlusCost | backend/app/services/trading_service.py:102-109 | a buy leaves cash plus total cost basis unchanged |
| Trading.PartialSellRealizesGain | backend/app/services/trading_service.py:119-125 | a partial sell raises cash plus total cost basis by exactly the realized gain |
| Trading.FullSellCreditsWholeFill | backend/app/services/trading_service.py:112-117 | closing credits the whole fill, even beyond the held quantity, and drops the position |
| Trading.Revalued | backend/app/services/trading_service.py:149-152 | market value = qty × price and unrealized pnl = (price − entry) × qty; everything else is kept |
| Trading.RevaluedBook | backend/app/services/trading_service.py:148-152 | every position is marked to its supplied price or its stored one |
| Trading.RevaluedMarketValue | backend/app/services/trading_service.py:148-158 | after marking, the positions' market values add up to the holdings' value |
| Trading.RevaluedKeepsRealized | backend/app/services/trading_service.py:145-152 | marking to market leaves the realized pnl total unchanged |
| Trading.TradingService.constructor | backend/app/services/trading_service.py:18-23 | no orders, no positions and 100 000 in cash |
| Trading.TradingService.UpdatePosition | backend/app/services/trading_service.py:95-139 | the book becomes ApplyFill of the old book |
| Trading.TradingService.PlaceOrder | backend/app/services/trading_service.py:26-93 | records a market order; in paper mode filled at the decision's price, with the book updated; a paper fill without a price is an error that changes nothing |
| Trading.TradingService.GetPortfolioSummary | backend/app/services/trading_service.py:141-170 | positions marked in place; total value = cash + positions value; total pnl = realized + unrealized; buying power = cash |
| Trading.TradingService.OrderList | backend/app/services/trading_service.py:174 | the orders in dictionary order, one per id |
| Trading.TradingService.GetOrders | backend/app/services/trading_service.py:172-176 | newest first, as many orders as `[:limit]` keeps, each a recorded order, a sub-multiset of the recorded orders, no left-out order newer than a kept one, all of them when the limit covers the list |
| Trading.TradingService.OrderKeysCount | backend/app/services/trading_service.py:19 | the order dictionary has one key per recorded id |
| Trading.TradingService.CancelOrder | backend/app/services/trading_service.py:182-190 | true iff the order exists and was pending or open; then only its status becomes cancelled |
| Trading.MarketOrder | backend/app/services/trading_service.py:28-51 | a market order for the decision, filled in full in paper mode and pending with nothing filled otherwise |
| Trading.MarkToMarket | backend/app/services/trading_service.py:148-156 | the loop yields the marked book, the listed positions in dictionary order and the two totals over them |
| Trading.RecentOrders | backend/app/services/trading_service.py:175-176 | newest first, as many as `[:limit]` keeps, a sub-multiset of the list, no left-out order newer than a kept one, a permutation of the list when the limit covers it |
| Trading.RiskService.constructor | backend/app/services/trading_service.py:196-199 | the limits are copied from the settings |
| Trading.RiskService.CheckTradeRisk | backend/app/services/trading_service.py:202-232 | the shares are trade value and abs(daily pnl) over total value (0 when that is not positive); approved iff both are within the limits and a buy fits the buying power, iff no risk is listed; a missing price is an error |
| Trading.RiskService.TargetsBracketEntry | backend/app/services/trading_service.py:234-240 | stop below the entry, target above it, the target's distance riskReward times the stop's |
| Analyses.FifoStep | backend/app/api/endpoints/analyses.py:100-109 | one round of the matching loop takes the front lot whole when the remaining quantity covers it, and otherwise cuts it down and closes everything that remains |
| Analyses.FifoConsumesFront | backend/app/api/endpoints/analyses.py:97-111 | over lots of positive quantity, matching closes between 0 and the asked quantity, takes exactly the closed quantity out of the lots, leaves quantity open only when no lot is left, and leaves only positive lots |
| Analyses.ApplyTrade | backend/app/api/endpoints/analyses.py:80-118 | a BUY queues a new lot behind its symbol's lots and earns 0; a SELL with a recorded entry price earns (price - entry) * quantity and leaves the lots alone; any other side changes nothing; other symbols' lots are untouched |
| Analyses.SellMatchesLots | backend/app/api/endpoints/analyses.py:96-114 | a SELL without an entry price against positive open lots closes at most its quantity, removes exactly the closed quantity from that symbol's lots and earns price * closed less the matched cost |
| Analyses.UnpricedSell | backend/app/api/endpoints/analyses.py:96-118 | a SELL without an entry price earns its price less the average matched cost on what it closed when its symbol has open lots (0 if nothing closed), and otherwise its price less 98% of its average price, times its quantity, leaving the lots alone |
| Analyses.ReplayPoints | backend/app/api/endpoints/analyses.py:125-129 | one cumulative point per trade, in trade order, stamped with the trade's time and holding the running profit through that trade |
| Analyses.PointAt | backend/app/api/endpoints/analyses.py:125-129 | point k holds trade k's time and the running profit through trade k, whatever trades come after it |
| Analyses.RunningProfitSteps | backend/app/api/endpoints/analyses.py:125 | the running profit moves by exactly the trade's contribution at each step |
| Analyses.WinsAndLossesAreSells | backend/app/api/endpoints/analyses.py:120-123 | wins plus losses never exceed the number of SELL trades |
| Analyses.LowercaseSidesCountNothing | backend/app/api/endpoints/analyses.py:83-92 | trades stored with the lowercase sides "buy"/"sell" add no profit, no lot and no win or loss, and every cumulative point is 0 |
| Analyses.WinRate | backend/app/api/endpoints/analyses.py:131-132 | a percentage in [0, 100], 0 with no closed trade, and otherwise wins * 100 over wins + losses |
| Analyses.PeakBounds | backend/app/api/endpoints/analyses.py:135-138 | the running peak starts at 0 and is never below any value seen |
| Analyses.NoPositivePeakNoDrawdown | backend/app/api/endpoints/analyses.py:135-141 | while no value is positive the peak stays 0 and the maximum drawdown is 0 |
| Analyses.DrawdownAtMostOne | backend/app/api/endpoints/analyses.py:139-141 | while the running profit stays non-negative the maximum drawdown is at most 1 (100%) |
| Analyses.MaxDrawdownOf | backend/app/api/endpoints/analyses.py:134-141 | the maximum drawdown is never negative |
| Analyses.MatchLots | backend/app/api/endpoints/analyses.py:97-109 | the matching loop ends in the state the FIFO definition describes |
| Analyses.MaxDrawdown | backend/app/api/endpoints/analyses.py:134-141 | the drawdown loop computes the maximum drawdown of the cumulative values |
| Analyses.TradePnl | backend/app/api/endpoints/analyses.py:80-118 | one pass of the trade loop yields the profit and lots of the per-trade definition |
| Analyses.ReplayTrades | backend/app/api/endpoints/analyses.py:72-129 | the trade loop ends in the replay state of all trades, in order |
| Analyses.PerformanceMetrics | backend/app/api/endpoints/analyses.py:50-162 | no trades give the all-zero body; otherwise total_trades is the trade count, one cumulative point per trade, a win rate in [0, 100] and a non-negative drawdown percentage |
| Backtest.CheckExit | backend/app/services/backtesting_engine.py:235-257 | exit iff a reason is given; "stopped" iff the stop rule is on and a long is at or below (a short at or above) its stop; "win" iff not stopped and the take-profit rule is on and a long is at or above (a short at or below) its target |
| Backtest.CommissionOnBothLegs | backend/app/services/backtesting_engine.py:136-143 | the net profit plus the commission on the entry and on the exit notional is the directional move; a long and a short on the same prices together lose twice the commission |
| Backtest.Closed | backend/app/services/backtesting_engine.py:132-152 | a closed trade carries the exit bar's date and close, the net profit, the status and the hold time, and every other field of the open trade |
| Backtest.ExitStep | backend/app/services/backtesting_engine.py:124-164 | when an exit rule fires, the trade is closed at the bar, its profit is added to capital, the trade is appended and an equity point recorded, and no position remains; otherwise nothing changes |
| Backtest.EntryStep | backend/app/services/backtesting_engine.py:166-199 | a bar without an open position, on a multiple of 5, whose analysis succeeded with enough confidence and a non-NEUTRAL signal opens capital * size / price units at the close; any other bar changes nothing |
| Backtest.Finish | backend/app/services/backtesting_engine.py:201-218 | a position still open is closed at the last bar as "end_of_period", its profit added to capital, without an equity point |
| Backtest.BarStepKeeps | backend/app/services/backtesting_engine.py:118-199 | one bar keeps the loop invariants: capital is the start plus every closed profit, one equity point per closed trade after the first, and every trade was opened at a bar meeting the entry rules |
| Backtest.RunKeeps | backend/app/services/backtesting_engine.py:106-199 | the loop invariants hold after every prefix of the bars |
| Backtest.NoRulesNoExits | backend/app/services/backtesting_engine.py:125-130 | with both exit rules off no trade closes inside the loop and capital stays at its start |
| Backtest.FinishKeeps | backend/app/services/backtesting_engine.py:201-218 | after the final close no position is open, capital is the start plus all profits, and every trade has a profit and was opened at a valid bar |
| Backtest.Simulate | backend/app/services/backtesting_engine.py:106-218 | a whole run: capital is the start plus the sum of the trade profits, the equity curve starts at the start capital, and every trade was entered at a bar meeting the entry rules and has a profit |
| Backtest.WinPnls | backend/app/services/backtesting_engine.py:363 | the winners' profits are all positive and no more than the trades |
| Backtest.LossPnls | backend/app/services/backtesting_engine.py:364 | the losers' profits are all negative and no more than the trades |
| Backtest.WinnersAndLosersPartition | backend/app/services/backtesting_engine.py:363-364 | winners and losers together are at most the trades |
| Backtest.MaxOf | backend/app/services/backtesting_engine.py:371 | the largest element: one of the elements and no smaller than any |
| Backtest.MinOf | backend/app/services/backtesting_engine.py:372 | the smallest element: one of the elements and no larger than any |
| Backtest.ProfitFactor | backend/app/services/backtesting_engine.py:375-377 | non-negative; the total gain when nothing lost (the divisor is 1), and 0 when nothing won |
| Backtest.MaxOfOrZero | backend/app/services/backtesting_engine.py:371 | no element exceeds it |
| Backtest.DdPeak | backend/app/services/backtesting_engine.py:385-391 | the running peak is at least the first equity value and every value |
| Backtest.MaxDd | backend/app/services/backtesting_engine.py:384-395 | the money and percentage drawdowns are non-negative |
| Backtest.MaxDdBoundsFalls | backend/app/services/backtesting_engine.py:384-395 | at every step the fall below the running peak is at most the money maximum, and that fall over the peak in percent (0 while the peak is not positive) is at most the percentage maximum |
| Backtest.MaxDdReached | backend/app/services/backtesting_engine.py:384-395 | the money maximum is 0 or is the fall below the running peak at some step |
| Backtest.MaxDdPctReached | backend/app/services/backtesting_engine.py:384-395 | the percentage maximum is 0 or is the percentage fall at some step |
| Backtest.OfSignal | backend/app/services/backtesting_engine.py:408 | the trades of one signal type, each with that signal |
| Backtest.Pnls | backend/app/services/backtesting_engine.py:414-415 | the trades' profits, one per trade in order |
| Backtest.StatsOf | backend/app/services/backtesting_engine.py:409-416 | the row counts every trade of the signal and its win rate is a percentage |
| Backtest.SignalTable | backend/app/services/backtesting_engine.py:405-416 | at most one row per listed signal type |
| Backtest.BestAt | backend/app/services/backtesting_engine.py:419-422 | the first row with the largest win rate |
| Backtest.EquityValues | backend/app/services/backtesting_engine.py:384 | the curve's equity values, one per point in order |
| Backtest.SignalTableRows | backend/app/services/backtesting_engine.py:405-416 | every row is a listed signal type that traded, with the stats of its trades, and every listed type that traded has a row |
| Backtest.BestSignalIsBest | backend/app/services/backtesting_engine.py:419-422 | "N/A" for an empty table; otherwise the first signal with the highest win rate |
| Backtest.MetricsWithoutTrades | backend/app/services/backtesting_engine.py:331-358 | a run without trades reports zero counts, returns, drawdowns and rates, an empty table, "N/A" and the equity curve as given |
| Backtest.MetricsCounts | backend/app/services/backtesting_engine.py:360-366 | total_trades is the trade count, the winners and losers are the positive and negative profits and together no more than the trades, and the win rate is a percentage |
| Backtest.MetricsBounds | backend/app/services/backtesting_engine.py:371-403 | profit factor and drawdowns are non-negative, the largest win bounds every win, the largest loss is below every loss, and a range of no whole day trades 0 per day |
| Backtest.MetricsSignals | backend/app/services/backtesting_engine.py:405-422 | the table is the per-signal table of the trades and the best signal is chosen from it |
| Backtest.BacktestingEngine.constructor | backend/app/services/backtesting_engine.py:71-73 | starting capital 100000 and a commission of 0.1% |
| Backtest.BacktestingEngine.RunBacktest | backend/app/services/backtesting_engine.py:76-233 | fewer than 100 bars is the insufficient-data error, and exactly then; otherwise the metrics of the simulated run |
| Backtest.BacktestingEngine.BarLoop | backend/app/services/backtesting_engine.py:106-199 | the bar loop ends in the state the simulation gives after the last bar |
| Backtest.BacktestingEngine.ExitBar | backend/app/services/backtesting_engine.py:124-164 | the exit half of a bar is the exit step when a position is open and no change otherwise |
| Backtest.BacktestingEngine.EnterBar | backend/app/services/backtesting_engine.py:166-199 | the entry half of a bar is the entry step |
| Backtest.BacktestingEngine.CalculateMetrics | backend/app/services/backtesting_engine.py:319-449 | the result is the metrics definition over the trades and the curve |
| Backtest.MaxDrawdown | backend/app/services/backtesting_engine.py:384-395 | the drawdown loop computes both drawdowns from a peak that starts at the first equity value |
| BacktestEndpoint.ValidateRange | backend/app/api/endpoints/backtesting.py:60-78 | an end not after the start is the 400 "End date must be after start date"; an accepted range has between 30 and 1825 whole days; every error is a 400 |
| BacktestEndpoint.ValidRangeSpan | backend/app/api/endpoints/backtesting.py:60-78 | a range is accepted iff it spans at least 30 days and less than 1826 |
| BacktestEndpoint.TimeframeDays | backend/app/api/endpoints/backtesting.py:169-176 | a timeframe has a day count iff it is one of 1M, 3M, 6M, 1Y, 2Y and 5Y |
| BacktestEndpoint.TimeframeRange | backend/app/api/endpoints/backtesting.py:178-185 | an unknown timeframe is the 400 listing the valid ones, and only then; otherwise the range starts that many days before now |
| BacktestEndpoint.TimeframesAreValidRanges | backend/app/api/endpoints/backtesting.py:169-185 | every preset timeframe gives a range the full endpoint accepts, with the same day count |
| BacktestEndpoint.RunEndpoint | backend/app/api/endpoints/backtesting.py:36-140 | a rejected range is its 400; an accepted one passes the request's settings to the engine, whose exception becomes a 500 with its text |
| BacktestEndpoint.QuickEndpoint | backend/app/api/endpoints/backtesting.py:143-237 | an unknown timeframe is the 400; otherwise the engine runs on the symbol and minimum confidence over the timeframe ending now, with its defaults for the rest, and a failure is a 500 |
| BacktestEndpoint.Successful | backend/app/api/endpoints/backtesting.py:318 | exactly the runs of the successful entries |
| BacktestEndpoint.SuccessfulCount | backend/app/api/endpoints/backtesting.py:318-325 | the successful list has one run per success, and none iff every entry failed |
| BacktestEndpoint.Returns | backend/app/api/endpoints/backtesting.py:327 | each run's total return, in order |
| BacktestEndpoint.WinRates | backend/app/api/endpoints/backtesting.py:328 | each run's win rate, in order |
| BacktestEndpoint.Sharpes | backend/app/api/endpoints/backtesting.py:329 | each run's Sharpe ratio, in order |
| BacktestEndpoint.MultiSymbolErrors | backend/app/api/endpoints/backtesting.py:263-281 | more than 20 symbols is the 400 "Maximum 20 symbols allowed per batch", checked before the timeframe's 400; any other batch succeeds |
| BacktestEndpoint.MultiSymbolResults | backend/app/api/endpoints/backtesting.py:282-316 | one outcome per requested symbol, in request order, successful iff the engine run on that symbol succeeded |
| BacktestEndpoint.SummaryCounts | backend/app/api/endpoints/backtesting.py:318-325 | successful plus failed is the total, failed is never negative |
| BacktestEndpoint.SummaryExtremes | backend/app/api/endpoints/backtesting.py:326-331 | the averages and extremes exist iff some run succeeded; best and worst are successful runs bounding every return, and the average return lies between them |
| BacktestEndpoint.SuccessfulComparisons | backend/app/api/endpoints/backtesting.py:483 | exactly the comparisons that succeeded |
| BacktestEndpoint.ComparisonSharpes | backend/app/api/endpoints/backtesting.py:486-489 | each comparison's Sharpe ratio, in order |
| BacktestEndpoint.Compare | backend/app/api/endpoints/backtesting.py:406-504 | an unknown timeframe is the 400; otherwise one comparison per strategy, in the order conservative, moderate, aggressive |
| BacktestEndpoint.BestStrategyIsBest | backend/app/api/endpoints/backtesting.py:482-497 | no best strategy iff every run failed; otherwise a successful strategy whose Sharpe ratio is at least every other successful one's |
| BacktestEndpoint.ComparedStrategiesMatchPresets | backend/app/api/endpoints/backtesting.py:347-442 | the compared strategies carry their presets' names, confidences and sizes, and the aggressive preset alone has take-profit off |
| AiEngineCore.RiskReward | backend/app/services/ai_engine_core.py:76 | 0 when the stop equals the entry, and otherwise the ratio whose product with the risk (entry - stop) is the reward (target - entry) |
| AiEngineCore.SignalToScore | backend/app/services/ai_engine_core.py:227-236 | a score in [-1, 1], positive iff a buy, negative iff a sell, of magnitude 1 iff a strong signal |
| AiEngineCore.SignalToScoreInjective | backend/app/services/ai_engine_core.py:229-235 | distinct signals get distinct scores |
| AiEngineCore.Combine | backend/app/services/ai_engine_core.py:187-225 | technical is the mean of the model scores, ml the signal's score, neural half the predicted change; overall weighs them 0.3/0.35/0.35; confidence is the mean of the two confidences |
| AiEngineCore.CombineAgreement | backend/app/services/ai_engine_core.py:202-216 | the weights sum to one: three components that agree give their common value as the overall score |
| AiEngineCore.DetermineSignal | backend/app/services/ai_engine_core.py:238-251 | STRONG_BUY iff score > 0.6 with confidence > 0.75, BUY iff score > 0.3 and not strong, the mirror images for sells, NEUTRAL iff the score is within [-0.3, 0.3] |
| AiEngineCore.SignalRisk | backend/app/services/ai_engine_core.py:282-290 | 0.8 iff NEUTRAL, at most 0.3 for any buy or sell, always within [0.2, 0.8] |
| AiEngineCore.RiskFactors | backend/app/services/ai_engine_core.py:264-290 | the volatility factor min(50 * volatility, 1), the volume factor only with a volume column, then 1 - confidence and the signal's risk |
| AiEngineCore.RiskScoreBounds | backend/app/services/ai_engine_core.py:253-296 | with a non-negative volatility and volume ratio and a confidence in [0, 1] the risk score is in [0, 1] |
| AiEngineCore.Plan | backend/app/services/ai_engine_core.py:298-339 | entry at the price; a buy stops 2 ATR below and targets 3 ATR above, a sell the mirror image, NEUTRAL uses 0.98 and 1.02 of the price; the stop is cut off at 0; size is 10% * (1 - risk) |
| AiEngineCore.PositionSizeBounds | backend/app/services/ai_engine_core.py:315-317 | a risk in [0, 1] sizes the position between 0% and 10% |
| AiEngineCore.PlanRiskReward | backend/app/services/ai_engine_core.py:298-339 | for a positive price above 2 ATR, long plans have stop < entry < target, short plans the reverse, and the risk/reward ratio is 1.5, or 1 for NEUTRAL |
| AiEngineCore.RiskRewardOf | backend/app/services/ai_engine_core.py:76 | a target k times as far from the entry as the stop gives ratio k |
| AiEngineCore.NeutralSignal | backend/app/services/ai_engine_core.py:356-380 | a failed analysis yields NEUTRAL at confidence 0.3, risk 0.5, size 1%, stop 0.98 and target 1.02 of the price, zero scores and no predicted change |
| AiEngineCore.Analysis | backend/app/services/ai_engine_core.py:113-185 | no signal iff the neural engine raised; otherwise the signal, confidence, risk and plan are the combination's, with the neural prediction's price and change and the request's symbol, asset type, price and time |
| AiEngineCore.AnalysisNeverStrong | backend/app/services/ai_engine_core.py:238-247 | an ML confidence of at most 0.54 and a neural one of at most 0.745 keep the mean at or below 0.75, so no strong signal is produced |
| AiEngineCore.Push | backend/app/services/ai_engine_core.py:177-179 | the bounded history holds between 1 and 100 signals and ends with the new one |
| AiEngineCore.PushIsTail | backend/app/services/ai_engine_core.py:177-179 | a push is the last 100 of the history with the signal appended |
| AiEngineCore.HistoryKeepsLatest | backend/app/services/ai_engine_core.py:177-179 | after any number of pushes the history is the last 100 signals |
| AiEngineCore.PushThenTail | backend/app/services/ai_engine_core.py:177-179 | pushing and then keeping the last 100 of more signals is keeping the last 100 of everything |
| AiEngineCore.TailOfTail | backend/app/services/ai_engine_core.py:177-179 | cutting to the last k and then appending and cutting again is one cut |
| AiEngineCore.Filter | backend/app/services/ai_engine_core.py:393-397 | exactly the signals with confidence at least the minimum and a signal other than NEUTRAL |
| AiEngineCore.Top | backend/app/services/ai_engine_core.py:391-405 | from the signals with enough confidence that are not NEUTRAL: largest abs(confidence * predicted change) first, as many as `[:limit]` keeps, a sub-multiset of them, no left-out one ranked above a kept one, all of them when the limit covers them |
| AiEngineCore.AIEngineCore.constructor | backend/app/services/ai_engine_core.py:89-111 | no cached signal and no history |
| AiEngineCore.AIEngineCore.OutcomeNeverStrong | backend/app/services/ai_engine_core.py:113-185 | the analysis over the two engines as modelled never produces a strong signal |
| AiEngineCore.AIEngineCore.Record | backend/app/services/ai_engine_core.py:173-179 | caches the signal under its symbol, keeps insertion order, and pushes it onto that symbol's bounded history |
| AiEngineCore.AIEngineCore.RunEngines | backend/app/services/ai_engine_core.py:125-129 | the outcome of both engines; the ML engine caches its prediction exactly when a feature row exists |
| AiEngineCore.AIEngineCore.AnalyzeSymbol | backend/app/services/ai_engine_core.py:113-185 | a completed analysis is returned, cached and appended to the history; a failed one returns the neutral signal and leaves cache and history alone; the result is never a strong signal |
| AiEngineCore.AIEngineCore.Settle | backend/app/services/ai_engine_core.py:172-185 | records a completed outcome, or returns the neutral signal with nothing cached |
| AiEngineCore.AIEngineCore.AllLiveSignals | backend/app/services/ai_engine_core.py:382-384 | one signal per cached symbol, in insertion order, and exactly the cached signals |
| AiEngineCore.AIEngineCore.GetSignal | backend/app/services/ai_engine_core.py:386-389 | the cached signal of the symbol, and none iff none is cached |
| AiEngineCore.AIEngineCore.TopSignals | backend/app/services/ai_engine_core.py:391-405 | from the cached live signals with enough confidence that are not NEUTRAL: largest opportunity first, as many as `[:limit]` keeps, a sub-multiset of them, no left-out one ranked above a kept one, all of them when the limit covers them |
| AiEngineCore.DetectAssetType | backend/app/services/ai_engine_core.py:445-454 | crypto iff the symbol contains -USD, BTC or ETH; otherwise forex iff it contains =X; otherwise index iff one of SPY, QQQ, DIA, IWM; otherwise stock |
| AiEngineCore.PlainSymbolIsStock | backend/app/services/ai_engine_core.py:445-454 | a symbol without '-', 'B', 'H' or '=' that is not an index is a stock |
| AiEngineCore.StocksDetected | backend/app/services/ai_engine_core.py:445-454 | every listed stock is detected as a stock |
| AiEngineCore.CryptoDetected | backend/app/services/ai_engine_core.py:445-454 | every listed crypto symbol is detected as crypto |
| AiEngineCore.IndicesDetected | backend/app/services/ai_engine_core.py:445-454 | every listed index is detected as an index |
| AiEngineCore.PairSymbolIsForex | backend/app/services/ai_engine_core.py:445-454 | a symbol ending in =X with neither '-' nor 'T' is forex |
| AiEngineCore.ForexDetected | backend/app/services/ai_engine_core.py:445-454 | every listed forex pair is detected as forex |
| MlEngine.NamesDistinct | backend/app/services/ml_engine.py:25-30 | the five signal names are pairwise different |
| MlEngine.RsiContribution | backend/app/services/ml_engine.py:285-293 | in [-0.3, 0.3]; 0.3 iff oversold (RSI < 30), -0.3 iff overbought (RSI > 70), positive iff RSI < 50 |
| MlEngine.RsiContributionAntitone | backend/app/services/ml_engine.py:285-293 | a higher RSI never raises the contribution |
| MlEngine.MacdContribution | backend/app/services/ml_engine.py:295-300 | +0.2 iff the MACD histogram is positive, otherwise -0.2 |
| MlEngine.BollingerContribution | backend/app/services/ml_engine.py:302-308 | +0.2 iff near the lower band (< 0.2), -0.2 iff near the upper (> 0.8), 0 in between |
| MlEngine.TechnicalScore | backend/app/services/ml_engine.py:280-310 | the sum of the three contributions, which stays in [-0.7, 0.7] so the clip never acts |
| MlEngine.MomentumScore | backend/app/services/ml_engine.py:312-329 | in [-0.8, 0.8]; an SMA5 above SMA20 gives at least -0.2 and, with non-negative returns, at least 0.3; the mirror bounds otherwise |
| MlEngine.TrendScore | backend/app/services/ml_engine.py:331-353 | in [-0.7, 0.7]; 0.7 iff a strong trend (ADX > 25) above SMA20 in an uptrend stack, -0.7 for the mirror case; without a strong trend only the ±0.3 stack term |
| MlEngine.VolumeScore | backend/app/services/ml_engine.py:355-370 | ±0.3 iff a volume spike (ratio > 1.5), signed by the bar's direction, 0 iff no spike |
| MlEngine.VolatilityScore | backend/app/services/ml_engine.py:372-386 | +0.2 iff the band width is below 0.05, -0.2 iff above 0.15, 0 in between |
| MlEngine.ScoreValues | backend/app/services/ml_engine.py:218 | the score values, one per named score in order |
| MlEngine.Scores | backend/app/services/ml_engine.py:259-278 | five scores named technical, momentum, trend, volume and volatility, in that order, each in [-1, 1] |
| MlEngine.MeanOfFive | backend/app/services/ml_engine.py:218 | the mean of five scores is their sum over five |
| MlEngine.CombinedScoreBounds | backend/app/services/ml_engine.py:218 | the combined score stays within [-0.54, 0.54] |
| MlEngine.ScoreToSignal | backend/app/services/ml_engine.py:388-399 | STRONG_BUY iff score > 0.6 with confidence > 0.7, BUY iff score > 0.3 otherwise, the mirror images for sells, NEUTRAL iff the score is within [-0.3, 0.3] |
| MlEngine.Fallback | backend/app/services/ml_engine.py:401-413 | NEUTRAL at confidence 0.5, target the price, stop 0.98 and target 1.02 of the price, the single "fallback" score |
| MlEngine.Prediction | backend/app/services/ml_engine.py:208-257 | without features the fallback; otherwise confidence is abs(combined), the signal follows it, a buy expects +2 * confidence percent with a stop 2 ATR below and a target 3 ATR above, anything else the mirror image |
| MlEngine.PredictionNeverStrong | backend/app/services/ml_engine.py:218-222 | the confidence is in [0, 0.54], so no strong signal is ever produced |
| MlEngine.PredictionBrackets | backend/app/services/ml_engine.py:227-236 | with a positive ATR the stop and target bracket the price, on the side of the signal |
| MlEngine.MLTradingEngine.constructor | backend/app/services/ml_engine.py:74-82 | the prediction cache starts empty |
| MlEngine.MLTradingEngine.Predict | backend/app/services/ml_engine.py:208-257 | the prediction; a computed one is cached under its symbol, the fallback is not |
| NeuralEngine.Heuristic | backend/app/services/neural_engine.py:102-125 | fewer than ten prices stay flat at confidence 0.3; otherwise the 20-price slope times the horizon moves the last price, at confidence 0.5 |
| NeuralEngine.LSTMPredictor.constructor | backend/app/services/neural_engine.py:18-23 | the given lookback and horizon, untrained |
| NeuralEngine.LSTMPredictor.SequenceCount | backend/app/services/neural_engine.py:29 | no window iff the data is shorter than lookback + horizon; otherwise n - lookback - horizon + 1 windows |
| NeuralEngine.LSTMPredictor.PrepareSequences | backend/app/services/neural_engine.py:25-33 | window i is data[i .. i + lookback) and its target the price horizon - 1 steps after it |
| NeuralEngine.LSTMPredictor.Train | backend/app/services/neural_engine.py:35-62 | succeeds iff there are at least 100 windows, and then marks the predictor trained with the prices' mean; otherwise nothing changes |
| NeuralEngine.LSTMPredictor.Forecast | backend/app/services/neural_engine.py:64-100 | the heuristic unless trained with a full window, else the window forecast; confidence always in [0.3, 0.95] |
| NeuralEngine.PercentOf | backend/app/services/neural_engine.py:92 | a percentage change times its base is 100 times the change |
| NeuralEngine.WindowForecast | backend/app/services/neural_engine.py:71-96 | slope * horizon moves the last price, confidence is 1 - relative volatility clipped to [0.3, 0.95], trend strength is abs(slope) / std or 0 |
| NeuralEngine.RawAttention | backend/app/services/neural_engine.py:177-194 | each raw attention weight is clipped to [0.3, 1] |
| NeuralEngine.ThirdsOfTotal | backend/app/services/neural_engine.py:196-199 | positive weights divided by their total sum to 1 |
| NeuralEngine.Transformer | backend/app/services/neural_engine.py:140-175 | the fallback iff fewer than 20 closes or no volume column; otherwise price, volume and trend weights summing to 1, confidence 1/3, and the move is the weighted price and volume trends in percent |
| NeuralEngine.MeanOfThree | backend/app/services/neural_engine.py:159 | the mean of three is their sum over three |
| NeuralEngine.DetermineSignal | backend/app/services/neural_engine.py:276-287 | STRONG_BUY iff change > 1 with confidence > 0.7, BUY iff change > 0.5 otherwise, the mirror images for sells, NEUTRAL iff the change is within [-0.5, 0.5] |
| NeuralEngine.Ensemble | backend/app/services/neural_engine.py:217-274 | an error iff there is no close; otherwise the mean confidence, the 0.4/0.3/0.3 weighted change and price, and the signal of that change and confidence |
| NeuralEngine.EnsembleOfAgreement | backend/app/services/neural_engine.py:238-248 | three models that agree on a change give that change and that price |
| NeuralEngine.TransformerConfidence | backend/app/services/neural_engine.py:159-175 | the transformer's confidence is 0.3 or 1/3 |
| NeuralEngine.NeuralTradingEngine.constructor | backend/app/services/neural_engine.py:209-215 | a short LSTM of lookback 30 and horizon 3, a long one of 60 and 10, both untrained, and an empty cache |
| NeuralEngine.NeuralTradingEngine.ConfidenceBounds | backend/app/services/neural_engine.py:231-235 | the ensemble confidence lies in [0.3, 0.745] |
| NeuralEngine.NeuralTradingEngine.Predict | backend/app/services/neural_engine.py:217-274 | the prediction of the predictors' current state; a successful one is cached under its symbol |
| NeuralEngine.NeuralTradingEngine.TrainModels | backend/app/services/neural_engine.py:302-316 | reports success, and each LSTM is trained afterwards iff it was before or its own window count reaches 100 |
| AiService.RsiReading | backend/app/services/ai_service.py:47-74 | no value reads NEUTRAL at 0; otherwise BUY iff RSI < 30 and SELL iff RSI > 70, with a confidence in [0, 1] |
| AiService.RsiDeeperIsSurer | backend/app/services/ai_service.py:64-66 | the deeper into the oversold zone, the higher the confidence |
| AiService.MacdReading | backend/app/services/ai_service.py:76-111 | no value reads NEUTRAL at 0; otherwise BUY iff the MACD line is above its signal line and SELL iff below, with a confidence in [0, 1] |
| AiService.MovingAverageReading | backend/app/services/ai_service.py:113-142 | BUY iff SMA20 > SMA50 and the price is above SMA20, SELL iff the mirror image; the confidence is in [0, 1] for a non-negative SMA20 |
| AiService.BollingerReading | backend/app/services/ai_service.py:144-180 | BUY iff the price is below the lower band, SELL iff not and above the upper band, with a confidence in [0, 1] |
| AiService.StochasticReading | backend/app/services/ai_service.py:182-215 | BUY iff %K < 20 and above %D, SELL iff %K > 80 and below %D, with a confidence in [0, 1] |
| AiService.VolumeReading | backend/app/services/ai_service.py:243-272 | BUY iff the volume ratio exceeds 1.5 on a rising price, SELL iff it does on a falling one, NEUTRAL without data; the dictionary has no confidence, so 0.5 is used |
| AiService.Readings | backend/app/services/ai_service.py:308-316 | six readings, one per voting indicator in dictionary order |
| AiService.ReadingSignals | backend/app/services/ai_service.py:308-316 | every indicator votes BUY, SELL or NEUTRAL |
| AiService.Votes | backend/app/services/ai_service.py:323-327 | exactly the non-neutral readings |
| AiService.ConfidencesForCount | backend/app/services/ai_service.py:351-356 | the confidences for a side are one per vote for that side, each in [0, 1] when the votes' are |
| AiService.AggregateRule | backend/app/services/ai_service.py:341-359 | BUY-or-stronger iff buys outnumber sells and are at least 2, STRONG_BUY iff at least 4, the mirror image for sells; the confidence is the mean of the winning side's confidences, and 0.5 on HOLD |
| AiService.CountBound | backend/app/services/ai_service.py:342-343 | a side's count is at most the number of votes, and 0 only when no vote is for it |
| AiService.CollectVotes | backend/app/services/ai_service.py:319-327 | the aggregation loop collects exactly the non-neutral readings, in order |
| AiService.TechnicalAnalysis | backend/app/services/ai_service.py:274-389 | a technical analysis of the symbol; fewer than 50 bars give HOLD at 0; the confidence is in [0, 0.95] |
| AiService.TechnicalReportsAggregate | backend/app/services/ai_service.py:341-372 | with 50 bars and a non-negative SMA20 the agent reports the aggregated signal with its confidence capped at 0.95 |
| AiService.Scores | backend/app/services/ai_service.py:412 | the known sentiment scores, no more than the news items |
| AiService.SentimentVerdict | backend/app/services/ai_service.py:425-444 | STRONG_BUY iff mean > 0.6, BUY iff in (0.2, 0.6], the mirror images for sells, HOLD iff within [-0.2, 0.2]; strong confidences are min(0.85, 0.6 + 0.2 * abs(mean)), others 0.7 and 0.5 |
| AiService.NewsAnalysis | backend/app/services/ai_service.py:398-454 | no news gives HOLD at 0, news without scores HOLD at 0.3, otherwise the verdict on the mean score; confidence at most 0.85 |
| AiService.FundamentalAnalysis | backend/app/services/ai_service.py:462-501 | no fundamentals give HOLD at 0; otherwise BUY, SELL or HOLD from the draw, at most 0.75 confident |
| AiService.RiskAnalysis | backend/app/services/ai_service.py:511-560 | a risk analysis of the symbol carrying risk metadata |
| AiService.RiskRules | backend/app/services/ai_service.py:511-560 | CRITICAL iff the day's loss share exceeds the limit, HIGH iff not and the position share exceeds its limit; BUY at 0.8 iff no concern, STRONG_SELL at 0.95 iff CRITICAL, HOLD at 0.7 iff concerns without CRITICAL |
| AiService.CriticalIsStrongSell | backend/app/services/ai_service.py:522-547 | a breached daily-loss limit gives STRONG_SELL at 0.95 |
| AiService.Tally | backend/app/services/ai_service.py:627-635 | the voting loop computes the weighted score and the total confidence |
| AiService.DecisionRule | backend/app/services/ai_service.py:618-674 | BUY iff the score exceeds 1.5, SELL iff it is below -1.5, otherwise no trade; confidence is min(0.9, mean confidence); the quantity is 5% of the portfolio at the current price, or 0 |
| AiService.GetTradingDecision | backend/app/services/ai_service.py:575-674 | the decision on the four agents' analyses, in order |
| AiService.Quantity | backend/app/services/ai_service.py:651-654 | 5% of the portfolio in units at a positive price, 0 otherwise |
| AiService.Agents | backend/app/services/ai_service.py:566-613 | four analyses, the risk manager's last, with each agent's confidence bound |
| AiService.TermBound | backend/app/services/ai_service.py:629-635 | a vote's term is at most its largest weight times its largest confidence |
| AiService.ScoreOfFour | backend/app/services/ai_service.py:629-635 | the score of four votes is the sum of their terms |
| AiService.VetoBound | backend/app/services/ai_service.py:629-640 | with the risk manager's tripled STRONG_SELL at 0.95, the other three agents' bounds keep the score below 1.5 |
| AiService.CriticalRiskBlocksBuy | backend/app/services/ai_service.py:511-648 | a breached daily-loss limit never yields a BUY decision |
| MainStreams.FloorDiv | backend/app/main.py:154 | Python's floor division: the quotient times the divisor lies within one divisor below the dividend, for either sign of divisor |
| MainStreams.Floor | backend/app/main.py:152-155 | the bucket start is at most the instant, and the instant is less than one width past it |
| MainStreams.FloorConstant | backend/app/main.py:152-155 | every instant of a bucket floors to the bucket's start |
| MainStreams.NestedFloor | backend/app/main.py:156-165 | flooring to whole minutes or hours and then to multiples of the count is flooring to the combined width |
| MainStreams.Decimal | backend/app/main.py:157 | a count written in decimal is all digits |
| MainStreams.ParseInt | backend/app/main.py:157 | `int` accepts exactly digits with an optional sign, and unsigned digits give a non-negative count |
| MainStreams.DecimalValue | backend/app/main.py:157 | decimal digits read back as the count they were written from |
| MainStreams.ParseDecimal | backend/app/main.py:157 | `int` reads back every count written in decimal, with or without a sign |
| MainStreams.NamedSeconds | backend/app/main.py:131-141 | a timeframe names a duration only when it has a count before its unit letter |
| MainStreams.Interval | backend/app/main.py:143 | the table's entry, or 60 s in the chart stream and 1 s in the market stream for any other timeframe; always at least 1 |
| MainStreams.NamedCount | backend/app/main.py:131-141 | a count followed by a unit letter names count times the unit's seconds |
| MainStreams.SmallDecimals | backend/app/main.py:131-141 | the counts 1, 4, 5 and 15 are written as their digits |
| MainStreams.Names | backend/app/main.py:131-141 | a timeframe made of a count and a unit letter names its duration |
| MainStreams.ChartTableMatchesNames | backend/app/main.py:131-141 | every entry of the chart stream's table is the duration its own name spells |
| MainStreams.MarketTableMatchesNames | backend/app/main.py:209-219 | every entry of the market stream's table is the duration its own name spells |
| MainStreams.RuleOf | backend/app/main.py:152-172 | the branch taken: seconds iff the timeframe ends in 's', minutes iff in 'm' but not 's', hours only in the chart stream, the whole hour only for the market stream's "1H"; the exact branch is never "1D" or "1W" |
| MainStreams.CandleStart | backend/app/main.py:152-172 | the candle start, and none iff the counted branch raises; the exact branch starts at the clock itself |
| MainStreams.Width | backend/app/main.py:152-172 | a bucket width, when there is one, is positive and its timeframe does not raise |
| MainStreams.WeekStart | backend/app/main.py:168-170 | the week bucket starts at a Monday midnight on or before the clock and within a week of it, the same in both streams |
| MainStreams.WeekConstant | backend/app/main.py:168-170 | every instant of a week bucket has the same start |
| MainStreams.BucketContainsNow | backend/app/main.py:152-170 | for a timeframe with a width the clock lies in its own candle |
| MainStreams.NestedConstant | backend/app/main.py:156-165 | every instant of a counted bucket floors, in two steps, to the same start |
| MainStreams.BucketConstant | backend/app/main.py:152-174 | every instant of a candle's bucket maps to the same candle start, so a candle is only replaced once its bucket is over |
| MainStreams.ChartTime | backend/app/main.py:176 | the candle's `time` is its start in whole seconds |
| MainStreams.Advance | backend/app/main.py:174-188 | a new bucket opens a candle at the price with a volume in [100000, 1000000]; otherwise high and low widen to the price, close moves to it and volume grows by between 10000 and 100000 |
| MainStreams.AdvanceWellFormed | backend/app/main.py:174-188 | a tick keeps a well-formed candle well formed, whatever the price |
| MainStreams.Run | backend/app/main.py:148-195 | a run of at least one tick leaves a candle |
| MainStreams.RunInOneBucket | backend/app/main.py:174-188 | a candle fed the ticks of one bucket opens at the first price, closes at the last, has its high and low among the prices bounding them all, and has grown volume |
| MainStreams.CandleStreamState.constructor | backend/app/main.py:143-145 | a stream starts with no candle |
| MainStreams.CandleStreamState.Tick | backend/app/main.py:148-200 | a raising timeframe closes the stream and sends nothing; otherwise the candle is advanced at the bucket start and sent |
| MainStreams.ExactTimeframeOpensEveryTick | backend/app/main.py:171-174 | a timeframe with no bucket rule opens a new candle on every later tick |
| MainStreams.SameBucketUpdates | backend/app/main.py:174-188 | while the clock stays in the candle's bucket, ticks update it in place |
| MainStreams.RemoveFirst | backend/app/main.py:79 | removes one occurrence of a present socket and leaves a list without it unchanged |
| MainStreams.RemoveAll | backend/app/main.py:93-98 | removing the dead sockets never lengthens the list |
| MainStreams.Failed | backend/app/main.py:84-90 | the dead sockets are sockets of the list |
| MainStreams.Delivered | backend/app/main.py:85-87 | the sockets sent to are sockets of the list |
| MainStreams.FailedAndDeliveredSplit | backend/app/main.py:84-90 | every socket is either delivered to or failed, never both: each socket occurs as often among the failed and the delivered ones together as in the connection list |
| MainStreams.RemoveFailedKeepsDelivered | backend/app/main.py:82-98 | with each socket listed once, removing the failed ones leaves exactly the delivered ones, in order |
| MainStreams.ConnectionManager.constructor | backend/app/main.py:70-71 | no socket is connected |
| MainStreams.ConnectionManager.Connect | backend/app/main.py:73-76 | an accepted socket joins the end of the list |
| MainStreams.ConnectionManager.Disconnect | backend/app/main.py:78-80 | removes the socket's first entry, raising iff it was not connected |
| MainStreams.ConnectionManager.Broadcast | backend/app/main.py:82-98 | the dead sockets are those whose send failed, in order, and they are removed from the list |
| MainStreams.BroadcastKeepsDelivered | backend/app/main.py:82-98 | after a broadcast over distinct sockets exactly the delivered sockets remain, still distinct |
| MainStreams.DeliveredDistinct | backend/app/main.py:85-87 | the delivered sockets of a distinct list are distinct |
| SettingsRepo.Encrypt | backend/app/db/repos/settings_repository.py:113-121 | an empty value encrypts to nothing; otherwise the result is the cipher's token, or nothing where the cipher fails |
| SettingsRepo.Decrypt | backend/app/db/repos/settings_repository.py:123-131 | an empty value decrypts to nothing; otherwise the result is the cipher's plaintext, or nothing where the cipher fails |
| SettingsRepo.Bullets | backend/app/db/repos/settings_repository.py:142 | the bullet run has the requested length and holds only bullets |
| SettingsRepo.Mask | backend/app/db/repos/settings_repository.py:140-142 | a plaintext under four characters masks to "****"; a longer one keeps its length and its last four characters, with bullets before them |
| SettingsRepo.MaskKey | backend/app/db/repos/settings_repository.py:133-142 | a mask is shown exactly when the stored value is non-empty and decrypts to a non-empty plaintext, and it is the mask of that plaintext |
| SettingsRepo.MaskRecognised | backend/app/db/repos/settings_repository.py:144-148 | the mask of a key is recognised as masked iff the key's length is not four or the key itself already looks masked |
| SettingsRepo.LongMaskStartsWithBullet | backend/app/db/repos/settings_repository.py:140-148 | the mask of a key longer than four characters starts with a bullet |
| SettingsRepo.FourCharacterMask | backend/app/db/repos/settings_repository.py:140-142 | a four-character key masks to itself, with no bullet at all |
| SettingsRepo.EncodeApiKey | backend/app/db/repos/settings_repository.py:183-187 | an empty or masked key encodes to nothing; any other key is encrypted |
| SettingsRepo.EncodeThenMask | backend/app/db/repos/settings_repository.py:133-187 | under a cipher whose tokens decrypt to their plaintext, a new key stored through encode_api_key is shown as the mask of that key |
| SettingsRepo.ColumnNamed | backend/app/models/database_models.py:86-117 | a keyword that hasattr accepts names a column whose attribute name is that keyword |
| SettingsRepo.NameRoundTrip | backend/app/models/database_models.py:86-117 | every column's attribute name is accepted and names that column |
| SettingsRepo.NameDeterminesColumn | backend/app/models/database_models.py:86-117 | no two columns share an attribute name |
| SettingsRepo.Unnamed | backend/app/models/database_models.py:86-117 | a keyword hasattr rejects is the name of no column |
| SettingsRepo.Defaults | backend/app/db/repos/settings_repository.py:68-89 | the inserted row has every column but the id and the timestamps, no API key, the user id, paper trading on and auto-trading off |
| SettingsRepo.Assign | backend/app/db/repos/settings_repository.py:104-106 | a column whose name was passed takes the passed value; every other column keeps its value; no other column appears |
| SettingsRepo.AssignIgnoresUnknown | backend/app/db/repos/settings_repository.py:104-106 | keywords that name no attribute leave the row unchanged |
| SettingsRepo.AssignUnpassed | backend/app/db/repos/settings_repository.py:104-106 | a column whose name was never passed is present and valued as before |
| SettingsRepo.AssignPassedOnce | backend/app/db/repos/settings_repository.py:104-106 | a column whose name was passed once takes that value |
| SettingsRepo.SetAttr | backend/app/db/repos/settings_repository.py:105-106 | a keyword that names no attribute leaves the row as it was; one that does sets exactly that column |
| SettingsRepo.KwargsMapValues | backend/app/db/repos/settings_repository.py:104 | a keyword is in the argument dictionary iff it was passed, and then it holds the last value passed with it |
| SettingsRepo.SetAttrAssign | backend/app/db/repos/settings_repository.py:104-106 | setting one more attribute extends the declarative assignment by that keyword |
| SettingsRepo.SetAllAssigns | backend/app/db/repos/settings_repository.py:104-106 | setting the attributes one keyword at a time, in order, gives the declarative assignment of the argument dictionary |
| SettingsRepo.SetAttributes | backend/app/db/repos/settings_repository.py:104-106 | the loop's row is the one-at-a-time assignment of the keywords, hence (by SetAllAssigns) the assignment of the argument dictionary |
| SettingsRepo.SettingsStore.constructor | backend/app/db/repos/settings_repository.py:59-65 | the table starts with no rows |
| SettingsRepo.SettingsStore.GetOrCreate | backend/app/db/repos/settings_repository.py:67-94 | an existing row is returned and the table is unchanged; for a new user the default row is inserted and returned |
| SettingsRepo.SettingsStore.UpdateSettings | backend/app/db/repos/settings_repository.py:96-111 | the user's row becomes the assignment of the keyword arguments to the existing row, or to the default row for a new user, and no other user's row changes |
| SettingsEndpoint.HasKey | backend/app/api/endpoints/settings.py:35 | `key in v` answers only for a dictionary (key membership), a string or a list, and raises for any other value |
| SettingsEndpoint.Get | backend/app/api/endpoints/settings.py:36 | `v[key]` with a string key answers exactly when `v` is a dictionary holding the key |
| SettingsEndpoint.IsMaskedJson | backend/app/api/endpoints/settings.py:40 | `_is_masked_key` raises exactly on a truthy non-string value, and is true exactly for a string that looks masked |
| SettingsEndpoint.EncodeJson | backend/app/api/endpoints/settings.py:41 | the encoded key is NULL or a string; a falsy value is stored as NULL; a new key is stored as its ciphertext |
| SettingsEndpoint.FieldOrder | backend/app/api/endpoints/settings.py:33-81 | the eighteen blocks write the settings columns in the table's declaration order, starting at the third column |
| SettingsEndpoint.FieldsWriteDistinctColumns | backend/app/api/endpoints/settings.py:33-81 | no two blocks write the same column |
| SettingsEndpoint.KeyColumnsAreApiKeys | backend/app/api/endpoints/settings.py:40-51 | every block that writes an API key column goes through the masked-key check and encode_api_key |
| SettingsEndpoint.FieldUpdate | backend/app/api/endpoints/settings.py:35-51 | a block adds at most one keyword, under its column's name, and nothing when its key is missing from a dictionary section |
| SettingsEndpoint.UpdatesValues | backend/app/api/endpoints/settings.py:31-81 | when the whole update succeeds, the values under a keyword are those of the first block followed by those of the remaining blocks |
| SettingsEndpoint.HeadOtherColumn | backend/app/api/endpoints/settings.py:31-81 | a block adds nothing under the name of a column it does not write |
| SettingsEndpoint.UpdatesNameColumns | backend/app/api/endpoints/settings.py:31-83 | every keyword passed to update_settings names a settings column |
| SettingsEndpoint.UpdatesFor | backend/app/api/endpoints/settings.py:31-81 | over blocks writing distinct columns, a column's values in update_data are exactly what its block produced, and none when its section is absent |
| SettingsEndpoint.UpdatesUnlisted | backend/app/api/endpoints/settings.py:31-81 | a column no block writes never appears in update_data |
| SettingsEndpoint.FieldOnDictionary | backend/app/api/endpoints/settings.py:35-51 | on a dictionary section holding the block's key: a plain field is copied as sent; a masked key adds nothing; a falsy key adds NULL; a new key adds its encoding; a truthy non-string key raises |
| SettingsEndpoint.FieldOnNonDictionary | backend/app/api/endpoints/settings.py:33-36 | on a section that is not a dictionary, the block raises unless it is a string or list not containing the key, and then it adds nothing |
| SettingsEndpoint.BlockValues | backend/app/api/endpoints/settings.py:31-81 | a block's column receives in update_data exactly the value its block produced, or nothing when its section is absent |
| SettingsEndpoint.UnlistedColumnsKept | backend/app/api/endpoints/settings.py:31-83 | the id, the user id and the timestamps keep their stored values |
| SettingsEndpoint.AbsentSectionKept | backend/app/api/endpoints/settings.py:33-81 | the columns of a section missing from the request keep their stored values |
| SettingsEndpoint.MaskedKeyKept | backend/app/api/endpoints/settings.py:40-51 | an API key sent back in masked form leaves the stored key unchanged |
| SettingsEndpoint.EmptyKeyCleared | backend/app/api/endpoints/settings.py:40-51 | an API key sent as a falsy value clears the stored key to NULL |
| SettingsEndpoint.NewKeyEncrypted | backend/app/api/endpoints/settings.py:40-51 | a new API key is stored as its ciphertext, or as NULL when the cipher fails |
| SettingsEndpoint.PlainFieldStored | backend/app/api/endpoints/settings.py:35-81 | any other field present in its section is stored as sent |
| SettingsEndpoint.PutSettings | backend/app/api/endpoints/settings.py:25-97 | the default user's row becomes the update of its stored row (or of the defaults) by the request; when a block raises, no row changes |
| Sorting.InsertDesc | backend/app/services/trading_service.py:175 | inserting into a list in decreasing key order keeps it in that order, adds exactly the one element and puts it first or keeps the old first |
| Sorting.SortDesc | backend/app/services/trading_service.py:175 | the result is in decreasing key order and is a permutation of the input |
| Sorting.SortDescMembers | backend/app/services/trading_service.py:175 | an element is in the sorted list iff it is in the input |
| Sorting.Largest | backend/app/services/trading_service.py:175-176 | sort then `[:n]`: exactly n elements in decreasing key order, a sub-multiset of the input (all of it when n covers it), no left-out element with a larger key than a kept one |
| Watchlists.Filter | backend/app/db/repos/watchlist_repository.py:55-57 | the rows kept are exactly the input's rows that pass the filter, and every kept row passes it |
| Watchlists.FirstEntry | backend/app/db/repos/watchlist_repository.py:19-22 | `.first()` finds the earliest row for the user and symbol, and finds none exactly when no row matches |
| Watchlists.WatchlistTable.constructor | backend/app/db/repos/watchlist_repository.py:10 | the table starts empty with the first id 1 |
| Watchlists.WatchlistTable.AddSymbol | backend/app/db/repos/watchlist_repository.py:13-36 | an existing row for the user and symbol is returned with the table unchanged; otherwise a new row under the next id is appended and returned; one row per user and symbol is kept |
| Watchlists.WatchlistTable.RemoveSymbol | backend/app/db/repos/watchlist_repository.py:38-51 | every row for the user and symbol is deleted, the others keep their order, and the result is true iff some row was deleted |
| Watchlists.WatchlistTable.Watchlist | backend/app/db/repos/watchlist_repository.py:53-57 | exactly the user's rows, newest first |
| Watchlists.AddedRowFound | backend/app/db/repos/watchlist_repository.py:19-36 | after add_symbol appends a row, the next call for the same user and symbol finds that row |
| Watchlists.ShouldTriggerConditions | backend/app/db/repos/watchlist_repository.py:151-158 | ABOVE fires iff the price exceeds the threshold, BELOW iff it is under it, EQUALS iff it is within 0.01 of it, and any other condition never fires |
| Watchlists.Triggered | backend/app/db/repos/watchlist_repository.py:127-128 | a triggered alert is inactive and stamped with the trigger time, and keeps its id, user and symbol |
| Watchlists.FindAlert | backend/app/db/repos/watchlist_repository.py:125 | the alert found carries the id, and none is found exactly when no alert carries it |
| Watchlists.Fire | backend/app/db/repos/watchlist_repository.py:150-162 | after firing a set of ids, exactly the alerts with those ids are triggered and every other row is unchanged |
| Watchlists.Fired | backend/app/db/repos/watchlist_repository.py:148-164 | check_alerts returns at most as many alerts as it examined |
| Watchlists.FiredIds | backend/app/db/repos/watchlist_repository.py:150-161 | every fired id belongs to an examined alert whose condition held |
| Watchlists.AlertTable.constructor | backend/app/db/repos/watchlist_repository.py:71 | the table starts empty with the first id 1 |
| Watchlists.AlertTable.CreateAlert | backend/app/db/repos/watchlist_repository.py:73-97 | a new active, untriggered alert with the given fields and the next id is appended |
| Watchlists.AlertTable.ActiveAlerts | backend/app/db/repos/watchlist_repository.py:99-111 | exactly the user's active alerts, for the symbol when one is given, newest first |
| Watchlists.AlertTable.TriggeredAlerts | backend/app/db/repos/watchlist_repository.py:113-121 | exactly the user's alerts that were triggered, most recently triggered first |
| Watchlists.AlertTable.TriggerAlert | backend/app/db/repos/watchlist_repository.py:123-132 | an unknown id changes nothing and returns nothing; otherwise that one row is triggered and returned |
| Watchlists.AlertTable.DeleteAlert | backend/app/db/repos/watchlist_repository.py:134-138 | the alert with that id is deleted, the others keep their order, and the result is true iff it existed |
| Watchlists.AlertTable.CheckAlerts | backend/app/db/repos/watchlist_repository.py:140-164 | the returned alerts are the firing ones among the user's active alerts for the symbol, in that order, and exactly their rows are triggered |
| Watchlists.AlertTable.FireAll | backend/app/db/repos/watchlist_repository.py:150-162 | triggering the firing alerts of a snapshot one at a time leaves the table with exactly their ids fired |
| Watchlists.AlertTable.CheckCandidate | backend/app/db/repos/watchlist_repository.py:150-162 | one round of the loop fires the candidate, and appends it triggered to the result, exactly when its condition holds |
| Watchlists.FiredPrefix | backend/app/db/repos/watchlist_repository.py:150-162 | one more examined alert extends the returned list and the fired ids by it exactly when its condition holds |
| Watchlists.FireStep | backend/app/db/repos/watchlist_repository.py:161 | triggering one more row of a partly fired table, found by its id, fires that id |
| Watchlists.FiredFromCandidates | backend/app/db/repos/watchlist_repository.py:148-164 | every returned alert is inactive and stamped now, and is the triggered form of an examined alert whose condition held |
| Watchlists.CheckedBelongToUser | backend/app/db/repos/watchlist_repository.py:147 | every returned alert belongs to the user and, for a non-empty symbol, to that symbol |
| Watchlists.FiredNoLongerActive | backend/app/db/repos/watchlist_repository.py:124-132 | fired alerts are inactive and stamped, so a later get_active_alerts never selects them again |
| Watchlists.FireKeepsOthers | backend/app/db/repos/watchlist_repository.py:150-162 | every alert whose id did not fire stays in the table unchanged |
| DataEndpoint.LastBars | backend/app/api/endpoints/data.py:18 | `data[-limit:]` keeps a suffix: the last `limit` bars (all of them when fewer) for a positive limit, every bar for zero, and all bars after the first `-limit` for a negative limit |
| DataEndpoint.EpochSeconds | backend/app/api/endpoints/data.py:77 | `int(...timestamp())` is the whole number of seconds, truncated toward zero on either side of the epoch |
| DataEndpoint.CandleOf | backend/app/api/endpoints/data.py:76-83 | a candle carries the bar's prices and its time in epoch seconds |
| DataEndpoint.ChartData | backend/app/api/endpoints/data.py:64-94 | an empty history gives the empty payload and only then; otherwise one candle and one volume per bar of the window, in order, with the request's symbol and timeframe |
| DataEndpoint.EpochSecondsMonotone | backend/app/api/endpoints/data.py:77 | converting to epoch seconds keeps time order |
| DataEndpoint.ChartTimesOrdered | backend/app/api/endpoints/data.py:64-94 | when the history is in time order, so are the chart's candles |
| DataEndpoint.Matching | backend/app/api/endpoints/data.py:111-112 | a symbol is kept iff it is in the list and contains the query |
| DataEndpoint.MatchingAppend | backend/app/api/endpoints/data.py:111-112 | the comprehension keeps the list's order: filtering a concatenation concatenates the filtered parts |
| DataEndpoint.SearchSymbols | backend/app/api/endpoints/data.py:97-116 | an empty query gives the first twelve built-in symbols; any other gives exactly the first min(20, n) of the n built-in symbols that contain the upper-cased query, in list order |
| DataEndpoint.UpperIdempotent | backend/app/api/endpoints/data.py:111 | upper-casing twice is upper-casing once |
| DataEndpoint.SearchIgnoresCase | backend/app/api/endpoints/data.py:97-116 | upper-casing the query first gives the same search result |
| SystemEndpoint.Classify | backend/app/api/endpoints/system.py:38 | healthy iff some provider is active; degraded iff none is active but some is available; critical iff none is either |
| SystemEndpoint.ProviderSummary | backend/app/api/endpoints/system.py:27-54 | the counts are the number of providers, and of the available and the active ones, none above the total; nothing counts as working; the health is classified from the counts |
| SystemEndpoint.StatusSummary | backend/app/api/endpoints/system.py:27-54 | on the data service's own status every vendor is counted, the active count never exceeds the available one, the health is healthy iff some vendor is active and critical iff no vendor client exists |
| SystemEndpoint.ViewOf | backend/app/api/endpoints/system.py:109-119 | the configuration body reports the five live settings |
| SystemEndpoint.ConfigAfter | backend/app/api/endpoints/system.py:122-134 | only auto_trading and max_position_size can change, each to the sent value when present; with the model's typed settings the update is accepted iff each present value has the setting's type |
| SystemEndpoint.UpdateConfig | backend/app/api/endpoints/system.py:122-134 | the live settings become the configuration after the update, the response carries the new configuration body, and the credentials are untouched |
| SystemEndpoint.UpdateWithCurrentIsIdentity | backend/app/api/endpoints/system.py:109-134 | posting the configuration just read back changes nothing |

## Left out

**Platform and I/O**
- Network calls to the data vendors (Alpaca, Polygon, Alpha Vantage, Coinbase, yfinance) are an oracle that returns a value, nothing, or an error. HTTP and authentication are not modelled.
- The Fernet cipher is an oracle (`SettingsRepo.Cipher`), and key generation and the `.env` file are left out. `EncodeThenMask` assumes the cipher's tokens decrypt to their plaintext, which Fernet guarantees.
- `random` and `np.random` draws are oracle functions of a draw index. The clock is a parameter.
- `datetime.utcnow().timestamp()` reads a naive datetime in the host's local zone. The model assumes the host runs in UTC.
- Database sessions, `commit` and `refresh` are left out, and tables are in-memory sequences.
  - `.first()` is the first row in insertion order.
  - Autoincrement ids are an explicit counter that never reuses an id. SQLite may reuse the largest id after a delete.
- Keyword arguments are an ordered list, in dictionary insertion order.
- Floating point is modelled as exact `real` arithmetic: rounding, `inf` and `nan` are not modelled. Where numpy would divide by zero and give `inf`/`nan`, the members require a non-zero denominator (positive closes or prices).
- Logging, response timestamps, reasoning and explanation strings, and `round()` applied to reported values are left out. `AiEngineCore.Top` is listed below for the one place where rounding affects an order.
- WebSocket send and receive, `asyncio` tasks, `sleep`, the streaming loops, `continuous_analysis`, the AI scheduler and the signals stream are left out. The model keeps only the per-tick candle update and the connection manager's bookkeeping.
- `int()` parsing of timeframe counts ignores Python's acceptance of surrounding whitespace and digit underscores.
- `MainStreams.ConnectionManager`: `disconnect` of a socket that is not connected raises in Python. The model reports a `raised` flag instead.

**Numerics and data sources treated as inputs**
- The indicator library and the pandas feature computations (RSI, MACD, Bollinger bands, ATR, moving averages, `calculate_technical_features`, `_calculate_atr`) are left out. Their latest scalar outputs are inputs.
- The slope (`np.polyfit`) and the standard deviation of a price window in the neural engine are oracles (`NeuralEngine.Stat`). Attention weights enter only through their stated bounds.
- NeuralEngine.Stat: one `stdev` oracle stands for both numpy's population deviation (`prices.std()`, ddof 0, neural_engine.py line 82) and pandas' sample deviation (`Series.std()`, ddof 1, neural_engine.py line 183). The model does not tell the two apart.
- The Sharpe ratios in the backtesting engine and the performance endpoint (`sqrt`/`std`) are left out. `BacktestEndpoint` takes each run's Sharpe ratio as part of the engine's answer.
- `Backtest`: `_get_historical_data` and `_generate_synthetic_data` are left out (network and random data). The bars are an input.
- `Backtest`: the mean hold time and the average win and loss are modelled only as far as the metric contracts state.
- `pnl_pct`, `FundamentalAnalystAgent`'s random scores and `_generate_demo_data` are used only as inputs.
- The scikit-learn models that `MLTradingEngine` builds are never consulted by `predict`, so they are left out.
- `AiService`: persisting the decision through `AnalysisRepository.create_analysis` in `get_trading_decision` is left out (database write).
- `AiService`: ATR reports a volatility and casts no vote, so it is not among the voting readings.

**Endpoints and operations not in the model**
- `SettingsRepository.get_settings_dict` and `update_env_from_settings` are left out. The first only formats the row through `_mask_key`, which is modelled; the second writes `os.environ`.
- `decode_api_key` is `Decrypt` under another name and has no member of its own.
- `GET /settings` only wraps `get_settings_dict` and is left out.
- The refresh of `updated_at` on update and the id column's assignment are left out of the settings row.
- `get_current_price`, `get_indicators` and `get_news` in the data endpoints are thin wrappers over the data service or random demo data. They are left out.
- The snapshot endpoint's `split(',')`/`strip()` of the symbol list is left out. `DataServices.GetMarketSnapshot` takes the list.
- The float fraction of a second in `timestamp()` is truncated away together with the microseconds. Sub-microsecond precision does not exist in the model.
- `health_check`, `get_metrics` (psutil) and `get_alerts` (fixed demo alerts) in the system endpoints are left out.
- `GET /system/providers` is registered twice (system.py lines 27 and 137). Starlette serves the first registered route, so the model follows the first handler, and the second is left out.
- The analyses listing endpoint and the database queries of the performance endpoint are left out. The model replays the trades of the window.
- The backtest preset descriptions are left out; only the preset table's values are modelled.
- `BacktestRequest.initial_capital` is never passed to the engine in the source, and the model keeps it unused.
- `is_symbol_in_watchlist` is modelled as the predicate `Watchlists.WatchlistTable.Contains` without a contract of its own.

**Contracts stated weaker than the source, or deliberately different**
- MultiSource.MultiSourceDataService.GetMarketSnapshot: states only that every entry is a requested symbol with a non-zero price. The entry values come from successive runs of the price chain, whose own contracts state them.
- BacktestEndpoint.RunEndpoint: the start and end dates arrive as instants. A date string that `datetime.fromisoformat` rejects (backtesting.py lines 57-58) raises a ValueError inside the handler's `try`, which lines 138-140 turn into a 500 with the error text. That path is not modelled.
- SystemEndpoint.ConfigAfter: its acceptance rule (every present value has the setting's type) belongs to the model's typed settings. Pydantic stores a value of the wrong JSON type as-is, so the source would accept such an update.
- Common.Upper: upper-cases ASCII letters only. Python's `str.upper` also maps other characters, some to other letters or to two letters ('ſ' to 'S', 'ı' to 'I', 'ﬆ' to 'ST'). `DataEndpoint.SearchSymbols` therefore follows the source only for queries whose upper-casing stays within ASCII.
- MultiSource.MultiSourceDataService.TryClient: one `now` stamps the last success or last error of each attempt. The source calls `datetime.utcnow()` afresh for each success and each error (multi_source_data.py lines 175-186 and the like).
- MultiSource.MultiSourceDataService.GetStockPrice: every attempt of the chain is stamped with the same `now`, as for `TryClient`.
- MultiSource.MultiSourceDataService.GetCryptoPrice: every attempt of the chain is stamped with the same `now`, as for `TryClient`.
- MultiSource.RunChain: the specification of the chains stamps every attempt with the one `now` it is given, as for `TryClient`.
- AiEngineCore.Top: ranks by the unrounded confidence times predicted change. The source sorts the `to_dict()` values, which are rounded to 3 and 2 places (ai_engine_core.py lines 61, 64 and 399-402). Two signals whose rounded products tie or swap order can therefore be ordered differently. The same holds for `AiEngineCore.AIEngineCore.TopSignals`.
- DataServices.DataService.PersistRows: the rows are returned as a map keyed by symbol, so the order of the bulk insert is not modelled.
- SystemEndpoint.UpdateConfig: pydantic settings accept an assignment of a value of the wrong JSON type as-is. The model's settings fields are typed, so such a value stops the update and is reported as an error naming the key.
- Sorting.SortDesc: the insertion sort is stable like Python's sort, but stability is not stated. The contracts state order and permutation.
- Watchlists.AlertTable.CheckAlerts: one `now` stamps every alert triggered in one call. The source reads the clock once per trigger.
- The order in which several failing blocks of `PUT /settings` would raise is not distinguished: any raising block makes the whole request fail with no row changed.

**Observations kept as written**
- The chart stream's timeframe table has no `15s` entry, so `15s` buckets by the 60-second default. In the market stream, `1h` and `4h` are not matched by the hour branch's `H` test and fall to the exact-time branch.
- The `asset_types` table of `ai_engine_core.py` uses the keys `stocks` and `indices`, while `_detect_asset_type` returns `stock` and `index`. The model follows `_detect_asset_type`.
- The ML engine's confidence is at most 0.54 (`MlEngine.PredictionNeverStrong`). The unified engine's confidence therefore never exceeds 0.75, and it never emits a strong signal (`AiEngineCore.AIEngineCore.OutcomeNeverStrong`).
- An empty close series makes the neural engine's fallback path raise again (`NeuralEngine.Ensemble`), so that fallback never returns.
