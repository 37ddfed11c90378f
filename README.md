# Trading simulator core, in Dafny

This project models the server-side engine of a paper-trading simulator: a NestJS service in
which users trade crypto pairs against virtual USD wallets, with broker fees, risk limits,
conditional orders and a strategy backtester. The model covers:

- **Broker fees** (`broker.dfy`): the fixed catalogue of four brokers and `calculateFee`.
- **Ledger** (`wallet.dfy`): the `(user, currency) → {balance, locked}` wallets. It covers
  deposit, withdraw, lock, unlock, deduct, add, account reset and the portfolio summary.
  The invariant is `0 ≤ locked ≤ balance`.
- **Risk gate** (`risk.dfy`): per-user settings created on first use, the position-size check
  against portfolio value, and the daily-loss budget that restarts on a new calendar day.
- **Paper execution** (`paper.dfy`): settlement of a BUY or SELL against the ledger. It applies
  a slipped execution price and the taker fee, and releases locks on cancel.
- **Order engine** (`orders.dfy`, `trade_rules.dfy`, `trade_service.dfy`): placement
  validation, risk checks and fund locking, then MARKET, IOC, GTC and GTD handling. It also
  covers execution, cancel, OCO pairs, open positions and limit matching on price events.
- **Read-only reports** (`trade_reports.dfy`): the performance dashboard and the leaderboard.
- **Trigger monitor** (`trade_monitor.dfy`): trailing stop, stop-loss and take-profit on open
  positions, in that order of priority. It also covers the cancellation of an OCO sibling and
  the expiry of GTD orders.
- **Price alerts** (`alerts.dfy`): one-shot ABOVE/BELOW alerts.
- **Strategies** (`signals.dfy`, `sma_cross.dfy`, `rsi.dfy`, `macd.dfy`, `multi_confirm.dfy`,
  `strategy_registry.dfy`): signal rules over precomputed indicator series, and the registry.
- **Backtester** (`backtest.dfy`, `backtest_metrics.dfy`): the candle loop over a virtual
  `{balance, position}` account, the final report, the broker comparison, and the metrics.
  The metrics are drawdown, period returns, round trips, the win/loss statistics and streaks.
- **Roles** (`roles.dfy`): the bitmask route guard, and the user presenter with its role names and the profile view it exposes.

Modelling conventions:

- Amounts and prices are `real`. `Math.round(x * 100) / 100` is written out exactly as
  `RoundCents` (`money.dfy`).
- JavaScript's "falsy" (`undefined`, `null` or `0`) is written out as well: `Truthy` and `At`
  in `wrappers.dfy` and `signals.dfy`.
- The order table is a sequence indexed by order id.
- Services that update state in place are classes with `modifies` clauses. Each method is
  proved equal to a pure rule over the old state, and the properties are proved about the rules.
- The parts of the environment become parameters:
  - market prices are a snapshot map;
  - the calendar day and the current time are integers;
  - the random slippage factor is a function from order id to a factor in [0.999, 1.001);
  - indicator series, which an external library computes, are inputs to `prepare`.
- RSI and MACD follow the versions at `src/contexts/backtest/strategies/`. The versions the
  registry imports from `src/contexts/backtest/domain/strategies/` are not part of this model.

Behaviour of the source that the model keeps as written:

- A failed execution leaves the order's funds locked.
- `placeOCO` locks nothing.
- A triggered exit SELL goes through the same risk checks and lock as any MARKET SELL.
- A round trip pairs a SELL with the latest BUY, not the earliest.
- The GTD expiry sweep is skipped on a tick that finds no open position, and an expired
  order's lock is not released.
- An open position whose symbol has no quote makes `getPrice` throw
  (`src/contexts/market/domain/services/market.service.ts:110-113`). `checkOrders` does not
  catch it, so the tick ends there: later positions are not checked and the expiry sweep does
  not run.
- `MULTI_CONFIRM` is not registered, so the backtester never reaches `getParsedIndicators`.
- OCO legs are LIMIT SELL orders, so `handlePriceUpdate` fills the stop-loss leg at the first
  price at or above the stop.

## Model

| member | source | states |
|---|---|---|
| Broker.GetBrokers | src/contexts/trade/domain/services/broker.service.ts:6-39 | the catalogue has four brokers, none with a negative maker or taker rate |
| Broker.GetBroker | src/contexts/trade/domain/services/broker.service.ts:41-43 | a broker returned by `getBroker` has the id asked for |
| Broker.FindById | src/contexts/trade/domain/services/broker.service.ts:41-43 | `find` by id: a broker is found iff some catalogue entry has that id, and the one found has it |
| Broker.GetBrokerIsCatalogSearch | src/contexts/trade/domain/services/broker.service.ts:41-43 | `getBroker` is the search of the catalogue; it finds exactly the four catalogue ids |
| Broker.CatalogContents | src/contexts/trade/domain/services/broker.service.ts:6-35 | the catalogue ids are exactly binance, kraken, coinbase and fixed_example, with no id repeated |
| Broker.ChosenBrokerId | src/contexts/trade/infrastructure/adapters/paper-trading.adapter.ts:19 | `brokerId \|\| 'binance'`: the order's broker, or binance when it has none or an empty one |
| Broker.CalculateFee | src/contexts/trade/domain/services/broker.service.ts:45-59 | an unknown broker charges nothing |
| Broker.UnknownBrokerFree | src/contexts/trade/domain/services/broker.service.ts:46-47 | any id outside the catalogue gives fee 0 for every amount, price and role |
| Broker.FeeOfKnownBroker | src/contexts/trade/domain/services/broker.service.ts:49-58 | MAKER uses the maker rate and TAKER the taker rate; a FIXED broker charges the rate itself, a PERCENTAGE broker amount × price × rate |
| Broker.FeeNonNegative | src/contexts/trade/domain/services/broker.service.ts:45-59 | the fee is never negative when amount and price are not |
| Broker.DefaultBrokerTakerFee | src/contexts/trade/domain/services/broker.service.ts:8-12 | with no broker given the taker fee is binance's 0.1% of the notional (1 on 1000) |
| Wallets.OperationsKeepWellFormed | src/contexts/wallet/domain/services/wallet.service.ts:28-210 | every ledger operation (deposit of a positive amount, add, withdraw, lock, unlock, deduct, reset) keeps 0 ≤ locked ≤ balance in every wallet |
| Wallets.DeductThenAdd | src/contexts/wallet/domain/services/wallet.service.ts:147-175 | a deduction followed by an addition keeps the ledger invariant and touches no third wallet |
| Wallets.LockEffect | src/contexts/wallet/domain/services/wallet.service.ts:118-132 | `lockFunds` fails with WalletNotFound exactly for a missing wallet and with InsufficientFunds exactly when balance − locked < amount; otherwise locked rises by the amount and nothing else changes |
| Wallets.LockThenUnlock | src/contexts/wallet/domain/services/wallet.service.ts:118-144 | unlocking what was just locked restores the ledger exactly |
| Wallets.UnlockEffect | src/contexts/wallet/domain/services/wallet.service.ts:136-144 | `unlockFunds` sets locked to max(0, locked − amount), changes no balance and no wallet set, and is silent for a missing wallet |
| Wallets.DeductEffect | src/contexts/wallet/domain/services/wallet.service.ts:147-161 | `deductFunds` fails exactly when balance < amount (locked funds count); otherwise balance falls by the amount and locked by min(locked, amount) |
| Wallets.DepositEffect | src/contexts/wallet/domain/services/wallet.service.ts:28-36 | `deposit`/`addFunds` create a zero wallet when absent and raise only its balance |
| Wallets.WithdrawEffect | src/contexts/wallet/domain/services/wallet.service.ts:50-62 | `withdraw` succeeds exactly when balance − locked ≥ amount and then lowers only the balance |
| Wallets.ResetEffect | src/contexts/wallet/domain/services/wallet.service.ts:196-210 | after a reset the user owns exactly one wallet, USD 10000 with nothing locked, and no other user's wallet changed |
| Wallets.SumValuesRemove | src/contexts/wallet/domain/services/wallet.service.ts:82-97 | the portfolio total does not depend on the order in which wallets are visited |
| Wallets.PortfolioValueNonNegative | src/contexts/wallet/domain/services/wallet.service.ts:76-110 | with non-negative prices the portfolio value is never negative |
| Wallets.EmptyPortfolio | src/contexts/wallet/domain/services/wallet.service.ts:76-110 | a user without wallets is worth 0 |
| Wallets.Ledger.constructor | src/contexts/wallet/domain/services/wallet.service.ts:10-18 | the ledger starts empty and well formed |
| Wallets.Ledger.GetWallet | src/contexts/wallet/domain/services/wallet.service.ts:20-22 | finds the user's wallet in a currency exactly when it exists |
| Wallets.Ledger.Deposit | src/contexts/wallet/domain/services/wallet.service.ts:28-48 | the new table is the deposit of the old one; the returned wallet is the one stored |
| Wallets.Ledger.Withdraw | src/contexts/wallet/domain/services/wallet.service.ts:50-74 | on error the table is unchanged and the error is that of the rule; otherwise the table is the withdrawal of the old one |
| Wallets.Ledger.LockFunds | src/contexts/wallet/domain/services/wallet.service.ts:118-133 | on error the table is unchanged; otherwise it is the lock of the old one |
| Wallets.Ledger.UnlockFunds | src/contexts/wallet/domain/services/wallet.service.ts:136-144 | the table is the unlock of the old one |
| Wallets.Ledger.DeductFunds | src/contexts/wallet/domain/services/wallet.service.ts:147-162 | on error the table is unchanged; otherwise it is the deduction from the old one |
| Wallets.Ledger.AddFunds | src/contexts/wallet/domain/services/wallet.service.ts:165-175 | the table is the addition to the old one |
| Wallets.Ledger.ResetAccount | src/contexts/wallet/domain/services/wallet.service.ts:196-222 | the removal loop ends with exactly the table of the reset rule and returns the fresh USD 10000 wallet |
| Wallets.Ledger.GetPortfolioSummary | src/contexts/wallet/domain/services/wallet.service.ts:76-111 | one detail per wallet of the user, each currency once, with balance, locked, available and the cent-rounded USD value; the total is the cent-rounded sum of the values |
| Risk.DefaultSettings | src/contexts/trade/domain/services/risk.service.ts:23-29 | fresh settings: 25% position cap, 1000 daily loss limit, nothing used, stamped today |
| Risk.WithSettings | src/contexts/trade/domain/services/risk.service.ts:20-33 | `getSettings`: the stored settings when present, otherwise the defaults are created; no other user changes |
| Risk.PositionAllowedMeans | src/contexts/trade/domain/services/risk.service.ts:51-64 | a portfolio worth 0 or less never rejects; otherwise an order passes exactly when orderValue × 100 ≤ cap × total, equality passing |
| Risk.DailyResetEffect | src/contexts/trade/domain/services/risk.service.ts:67-77 | the first check of a new day zeroes the used budget and restamps the day; on the same day nothing changes; other users are untouched |
| Risk.NewDayRestoresBudget | src/contexts/trade/domain/services/risk.service.ts:67-83 | after a new-day reset the check passes exactly when the limit is positive |
| Risk.RecordLossNeverLowers | src/contexts/trade/domain/services/risk.service.ts:87-93 | a non-negative result records nothing; a loss adds its absolute value; no user's used budget ever decreases |
| Risk.UpdateTouchesOnlySuppliedFields | src/contexts/trade/domain/services/risk.service.ts:36-48 | only the supplied cap and limit change; the used budget and the reset day stay as they were |
| Risk.AfterResetAll | src/contexts/trade/domain/services/risk.service.ts:96-100 | the midnight reset zeroes every user's used budget and restamps the day, keeping every cap and limit |
| Risk.RiskGate.constructor | src/contexts/trade/domain/services/risk.service.ts:13-17 | the gate starts with no settings, over the given ledger |
| Risk.RiskGate.GetSettings | src/contexts/trade/domain/services/risk.service.ts:20-33 | the table becomes the get-or-create rule of the old one and the returned settings are the stored ones |
| Risk.RiskGate.UpdateSettings | src/contexts/trade/domain/services/risk.service.ts:36-48 | the table becomes the update rule of the old one |
| Risk.RiskGate.CheckPositionSize | src/contexts/trade/domain/services/risk.service.ts:51-64 | passes exactly when the position rule allows the order against the ledger's portfolio value; the only failure is the position limit |
| Risk.RiskGate.CheckDailyLoss | src/contexts/trade/domain/services/risk.service.ts:67-84 | the table becomes the new-day reset of the old one, and the check passes exactly when used < limit after it |
| Risk.RiskGate.RecordLoss | src/contexts/trade/domain/services/risk.service.ts:87-93 | the table becomes the record-loss rule of the old one |
| Risk.RiskGate.ResetDailyCounters | src/contexts/trade/domain/services/risk.service.ts:96-100 | the table becomes the midnight reset of the old one |
| Paper.ExecutionPrice | src/contexts/trade/infrastructure/adapters/paper-trading.adapter.ts:15-17 | the slipped price rounded to cents stays at least one cent for any quoted price of at least one cent |
| Paper.ExecutionPriceNearPrice | src/contexts/trade/infrastructure/adapters/paper-trading.adapter.ts:15-17 | with the slippage factor in [0.999, 1.001) the execution price is within 0.1% and half a cent of the quoted price |
| Paper.SettleBuy | src/contexts/trade/infrastructure/adapters/paper-trading.adapter.ts:18-39 | a BUY fails exactly when the USD balance is below amount × executionPrice; otherwise that much USD is deducted (locked falls by at most as much) and the asset received, valued at the execution price, plus the fee equals the USD paid (nothing is received when the fee exceeds it) |
| Paper.SettleSell | src/contexts/trade/infrastructure/adapters/paper-trading.adapter.ts:40-55 | a SELL fails exactly when the asset balance is below the amount; otherwise the amount of asset is deducted and USD rises by max(0, total − fee), its lock untouched |
| Paper.SettleFills | src/contexts/trade/infrastructure/adapters/paper-trading.adapter.ts:19-58 | a successful settlement returns the order FILLED with the TAKER fee of its broker recorded in USD, keeps the ledger invariant and changes only the user's USD and asset wallets |
| Paper.ReleaseEffect | src/contexts/trade/infrastructure/adapters/paper-trading.adapter.ts:61-70 | cancelling releases amount × price USD for a BUY or amount of the asset for a SELL, changes no balance and touches no other wallet |
| Paper.PaperAdapter.constructor | src/contexts/trade/infrastructure/adapters/paper-trading.adapter.ts:9-12 | the adapter works on the given ledger |
| Paper.PaperAdapter.ExecuteOrder | src/contexts/trade/infrastructure/adapters/paper-trading.adapter.ts:14-59 | the ledger after the call is the settlement of the old one at the execution price; a failed deduction changes nothing and returns its error |
| Paper.PaperAdapter.CancelOrder | src/contexts/trade/infrastructure/adapters/paper-trading.adapter.ts:61-70 | the ledger becomes the release of the order's lock, and the call answers true |
| TradeRules.CheckRequestMeans | src/contexts/trade/domain/services/trade.service.ts:34-62 | a request passes validation exactly when its reference price (the limit for LIMIT, the market price otherwise) is positive, a present stop-loss and take-profit lie on the right side of it for the order side, and a GTD order has an expiry; the time in force defaults to GTC |
| TradeRules.ExecSpec | src/contexts/trade/domain/services/trade.service.ts:122-141 | a successful execution stores the order FILLED in full at the execution price, with the adapter's TAKER fee in USD |
| TradeRules.ExecuteStep | src/contexts/trade/domain/services/trade.service.ts:122-157 | an execution never adds or removes an order |
| TradeRules.ExecutionFailureKeepsState | src/contexts/trade/domain/services/trade.service.ts:126-157 | a failed execution raises TradeExecutionError and changes nothing: the lock taken at placement stays |
| TradeRules.LimitBuyReleasesExcess | src/contexts/trade/domain/services/trade.service.ts:129-137 | a LIMIT BUY filled below its limit gets amount × (limit − execution price) USD unlocked after settlement |
| TradeRules.PlaceSpec | src/contexts/trade/domain/services/trade.service.ts:29-119 | placement adds at most one order and never changes an existing one |
| TradeRules.UnpricedMarketOrderRefused | src/contexts/trade/domain/services/trade.service.ts:30-38 | a MARKET order on a symbol still quoted at 0 (seeded, not yet polled) is refused as not having a positive price, and nothing changes |
| TradeRules.SubmitSpec | src/contexts/trade/domain/services/trade.service.ts:76-118 | after the lock exactly one order is added and the existing ones are kept |
| TradeRules.PlaceChecksBeforeLocking | src/contexts/trade/domain/services/trade.service.ts:29-74 | an invalid request changes nothing; a request refused by a risk check or by the lock changes neither the ledger nor the orders |
| TradeRules.RestingLimitOrder | src/contexts/trade/domain/services/trade.service.ts:69-118 | a placed GTC/GTD LIMIT order rests OPEN at its limit with exactly its lock taken (cost in USD for a BUY, the amount of the asset for a SELL), and has a peak price iff it has a trailing stop |
| TradeRules.MarketFailureLeavesLock | src/contexts/trade/domain/services/trade.service.ts:83-99 | a MARKET order whose execution fails stays recorded as FILLED, with its funds still locked |
| TradeRules.IocUnfillableRestoresLedger | src/contexts/trade/domain/services/trade.service.ts:102-115 | an IOC order that cannot fill at the market price ends CANCELLED with the ledger exactly as before placement |
| TradeRules.IocFillableExecutes | src/contexts/trade/domain/services/trade.service.ts:102-110 | an IOC order that can fill (BUY at or below, SELL at or above its limit) is filled in full at the market price |
| TradeRules.CancelMeans | src/contexts/trade/domain/services/trade.service.ts:166-182 | OrderNotFound exactly for an unknown id or another user's order; success exactly for the owner's OPEN order, which alone becomes CANCELLED, its lock released and no balance changed; errors change nothing |
| TradeRules.OcoMeans | src/contexts/trade/domain/services/trade.service.ts:191-243 | an OCO pair is accepted exactly when stop-loss < market < take-profit; its two legs are OPEN LIMIT SELL GTC orders at those prices linked to each other; nothing is locked |
| TradeRules.OpenPositions | src/contexts/trade/domain/services/trade.service.ts:184-188 | `getOpenPositions`: exactly the user's FILLED BUY orders without a close reason |
| TradeRules.OpenLimitOrders | src/contexts/trade/domain/services/trade.service.ts:313 | the query of `handlePriceUpdate`: exactly the OPEN LIMIT orders of the symbol |
| TradeRules.SweepSpec | src/contexts/trade/domain/services/trade.service.ts:315-321 | the sweep never adds or removes an order |
| TradeRules.ExecuteStepFills | src/contexts/trade/domain/services/trade.service.ts:122-141 | a successful execution fills its own order at the given price and touches no other order |
| TradeRules.SweepFillsCrossing | src/contexts/trade/domain/services/trade.service.ts:315-321 | after a sweep without failure, every order of the batch the price crosses is FILLED at the event price and every other order is unchanged |
| TradeRules.OpenLimitOrdersIncreasing | src/contexts/trade/domain/services/trade.service.ts:313 | the orders the query returns come in increasing table order, so none appears twice |
| TradeRules.PriceUpdateFillsCrossing | src/contexts/trade/domain/services/trade.service.ts:310-322 | when no execution fails, exactly the OPEN LIMIT orders of the symbol that the price crosses (BUY at or below, SELL at or above the limit) end FILLED at the event price; every other order is unchanged |
| TradeEngine.TradeService.constructor | src/contexts/trade/domain/services/trade.service.ts:16-27 | the service starts with no orders over a valid ledger |
| TradeEngine.TradeService.Save | src/contexts/trade/domain/services/trade.service.ts:141 | the repository's save replaces the stored order with that id |
| TradeEngine.TradeService.ExecuteOrder | src/contexts/trade/domain/services/trade.service.ts:122-158 | the new state and result are those of the execution rule |
| TradeEngine.TradeService.PlaceOrder | src/contexts/trade/domain/services/trade.service.ts:29-119 | the new state and result are those of the placement rule |
| TradeEngine.TradeService.Submit | src/contexts/trade/domain/services/trade.service.ts:76-118 | the new state and result are those of the submission rule |
| TradeEngine.TradeService.CancelOrder | src/contexts/trade/domain/services/trade.service.ts:166-182 | the new state and result are those of the cancel rule |
| TradeEngine.TradeService.PlaceOco | src/contexts/trade/domain/services/trade.service.ts:191-243 | the new state and result are those of the OCO rule |
| TradeEngine.TradeService.SweepOrder | src/contexts/trade/domain/services/trade.service.ts:316-320 | one turn of the loop leaves the rest of the sweep to do, or ends it with the execution's error |
| TradeEngine.TradeService.HandlePriceUpdate | src/contexts/trade/domain/services/trade.service.ts:309-322 | the new state and outcome are those of the sweep over the OPEN LIMIT orders of the symbol |
| TradeEngine.TradeService.Sweep | src/contexts/trade/domain/services/trade.service.ts:315-321 | the loop's final state and outcome are those of the sweep over the batch |
| TradeReports.OrdersOf | src/contexts/trade/domain/services/trade.service.ts:246 | the user's orders come from the table and belong to the user |
| TradeReports.ClosedPnls | src/contexts/trade/domain/services/trade.service.ts:247 | there is at most one profit per order |
| TradeReports.GetPerformance | src/contexts/trade/domain/services/trade.service.ts:245-282 | the order count is the user's; wins <= closed trades <= orders; the win rate is a percentage; without closed trades every other figure is 0; the average lies between the worst and best trade |
| TradeReports.PerformanceFigures | src/contexts/trade/domain/services/trade.service.ts:263-278 | with closed trades, their count and total profit are the leaderboard's for that user, the win rate is the winning share in percent, and the total and average profit are rounded to cents |
| TradeReports.ClosedTradesTallied | src/contexts/trade/domain/services/trade.service.ts:247-265 | the closed trades among a user's orders are those the leaderboard counts for the user, and their profits sum to the leaderboard's total |
| TradeReports.BestAndWorstBoundEveryTrade | src/contexts/trade/domain/services/trade.service.ts:276-279 | the best and worst trade are the rounded largest and smallest profits of closed trades, and bound every closed trade's rounded profit |
| TradeReports.Traders | src/contexts/trade/domain/services/trade.service.ts:289-295 | the traders are the users with at least one closed trade, each listed once |
| TradeReports.NoTradesNoPnl | src/contexts/trade/domain/services/trade.service.ts:289-295 | a user without closed trades has zero profit |
| TradeReports.Standings | src/contexts/trade/domain/services/trade.service.ts:297-302 | one standing per trader, in trader order |
| TradeReports.StandingsMeans | src/contexts/trade/domain/services/trade.service.ts:286-302 | every user with a closed trade has exactly one standing, holding the summed profit rounded to cents and the number of closed trades, and no one else has one |
| TradeReports.InsertionPoint | src/contexts/trade/domain/services/trade.service.ts:305 | the insertion point is after every standing strictly above the new one and before the first one not above it |
| TradeReports.Insert | src/contexts/trade/domain/services/trade.service.ts:305 | inserting into a non-increasing list keeps it non-increasing and adds exactly the new standing |
| TradeReports.SortByPnl | src/contexts/trade/domain/services/trade.service.ts:305 | the sort is a permutation in non-increasing profit order |
| TradeReports.InsertFirstAmongEqual | src/contexts/trade/domain/services/trade.service.ts:305 | an inserted standing goes ahead of the standings of equal profit already in the list, and adds no other standing of any profit |
| TradeReports.SortByPnlStable | src/contexts/trade/domain/services/trade.service.ts:305 | the sort is stable: for every profit, the standings with that profit appear in their original order |
| TradeReports.TallyClosedTrades | src/contexts/trade/domain/services/trade.service.ts:286-295 | the tally loop records exactly the traders, each with their summed profit and closed-trade count |
| TradeReports.CutOfStandings | src/contexts/trade/domain/services/trade.service.ts:303-304 | the first n of a non-increasing permutation are non-increasing, come from the standings, and no standing left out is above any kept |
| TradeReports.TalliesAreStandings | src/contexts/trade/domain/services/trade.service.ts:297-302 | the entries built from the tallies are exactly the standings |
| TradeReports.GetLeaderboard | src/contexts/trade/domain/services/trade.service.ts:285-306 | the board has min(50, number of traders) entries, is in non-increasing profit order, holds only real standings, and no standing left out is above any kept |
| TriggerMonitor.TrailingTrigger | src/contexts/trade/domain/services/trade-monitor.service.ts:50-51 | the trailing-stop level of a percentage in [0, 100] lies between 0 and the peak, and strictly below a positive peak for a positive percentage |
| TriggerMonitor.RatchetIsRunningMaximum | src/contexts/trade/domain/services/trade-monitor.service.ts:43-48 | the peak of a trailing-stop position becomes the maximum of the previous peak (the entry price when none is recorded) and the current price, so it never decreases; nothing else changes, and a position without a trailing stop is untouched |
| TriggerMonitor.TriggerPriority | src/contexts/trade/domain/services/trade-monitor.service.ts:42-69 | the trailing stop fires iff the price is at or below the trailing level; otherwise the stop-loss iff the price is at or below it; otherwise the take-profit iff the price is at or above it; absent or zero levels are skipped; no other close reason is produced |
| TriggerMonitor.NewPeakDoesNotTrail | src/contexts/trade/domain/services/trade-monitor.service.ts:43-56 | a price that has just set a new peak never fires a trailing stop of 0 < p <= 100 percent |
| TriggerMonitor.Closed | src/contexts/trade/domain/services/trade-monitor.service.ts:81-94 | the closed position carries the close reason and a profit, non-negative when the exit price is at or above the entry price; identifier, status and amount are kept |
| TriggerMonitor.CancelLinked | src/contexts/trade/domain/services/trade-monitor.service.ts:122-134 | cancelling a linked order leaves the ledger, the risk state and the number of orders unchanged |
| TriggerMonitor.TriggerSpec | src/contexts/trade/domain/services/trade-monitor.service.ts:72-119 | a trigger never removes orders |
| TriggerMonitor.CheckSingleSpec | src/contexts/trade/domain/services/trade-monitor.service.ts:34-70 | checking one position never removes orders; it fails exactly for an open position whose symbol has no quote, and then fails with that symbol and changes nothing |
| TriggerMonitor.TriggerOutcome | src/contexts/trade/domain/services/trade-monitor.service.ts:79-118 | when the MARKET SELL of the whole position succeeds, the position is stored closed with the reason and its profit (exit − entry) × amount rounded to cents; when it fails the stored position keeps no close reason |
| TriggerMonitor.CancelLinkedMeans | src/contexts/trade/domain/services/trade-monitor.service.ts:122-134 | the linked order becomes CANCELLED with reason OCO_CANCELLED only if it exists and has no close reason; no other order changes |
| TriggerMonitor.AllOpenPositions | src/contexts/trade/infrastructure/repositories/trade.repository.ts:27-35 | `findOpenPositions` returns exactly the stored FILLED BUY orders without a close reason |
| TriggerMonitor.PositionsSpec | src/contexts/trade/domain/services/trade-monitor.service.ts:26-28 | the positions loop never removes orders |
| TriggerMonitor.LoopFailsIffUnpriced | src/contexts/trade/domain/services/trade-monitor.service.ts:26-28 | the positions loop fails exactly when one of the positions is open and has no quote |
| TriggerMonitor.StopsAtFirstUnpriced | src/contexts/trade/domain/services/trade-monitor.service.ts:26-28 | the positions loop stops at the first open position without a quote: its state is that of the positions before it, and it fails with that symbol |
| TriggerMonitor.ExpireAll | src/contexts/trade/domain/services/trade-monitor.service.ts:137-157 | the expiry sweep keeps the number of orders |
| TriggerMonitor.ExpiryMeans | src/contexts/trade/domain/services/trade-monitor.service.ts:137-157 | exactly the OPEN GTD orders with an expiry at or before now become EXPIRED with reason EXPIRED; every other order is unchanged, no due order stays OPEN, and no lock is released |
| TriggerMonitor.QuietTickSkipsExpiry | src/contexts/trade/domain/services/trade-monitor.service.ts:22-31 | a tick that finds no open position returns at once, succeeds and changes nothing, not even due GTD orders |
| TriggerMonitor.TickFailsIffUnpriced | src/contexts/trade/domain/services/trade-monitor.service.ts:21-38 | a tick fails exactly when some stored order is an open position whose symbol has no quote |
| TriggerMonitor.TickStopsAtFirstUnpriced | src/contexts/trade/domain/services/trade-monitor.service.ts:21-38 | a tick that reaches an open position without a quote ends there: the state is that of the positions checked before it, no expiry sweep runs, and it fails with that symbol |
| TriggerMonitor.TradeMonitor.constructor | src/contexts/trade/domain/services/trade-monitor.service.ts:13-19 | the monitor works on the given order engine |
| TriggerMonitor.TradeMonitor.CheckOrders | src/contexts/trade/domain/services/trade-monitor.service.ts:21-32 | the new engine state and the outcome are those of the tick rule: positions checked in turn, then expiry when any position was found and none lacked a quote |
| TriggerMonitor.TradeMonitor.CheckPositions | src/contexts/trade/domain/services/trade-monitor.service.ts:26-28 | the new engine state and the outcome are those of checking each position in turn, stopping at the first failure |
| TriggerMonitor.TradeMonitor.CheckSingleOrder | src/contexts/trade/domain/services/trade-monitor.service.ts:34-70 | the new engine state and the outcome are those of the single-position rule |
| TriggerMonitor.TradeMonitor.ExecuteTrigger | src/contexts/trade/domain/services/trade-monitor.service.ts:72-119 | the new engine state is that of the trigger rule |
| TriggerMonitor.TradeMonitor.CancelLinkedOrder | src/contexts/trade/domain/services/trade-monitor.service.ts:122-134 | the new engine state is that of the linked-cancel rule |
| TriggerMonitor.TradeMonitor.CheckExpiredOrders | src/contexts/trade/domain/services/trade-monitor.service.ts:137-157 | the new order table is that of the expiry sweep |
| PriceAlerts.AfterPriceUpdate | src/contexts/market/domain/services/alert.service.ts:41-71 | a price event keeps the set of alerts |
| PriceAlerts.PriceUpdateEffect | src/contexts/market/domain/services/alert.service.ts:43-54 | exactly the untriggered alerts of the symbol whose condition the price meets (ABOVE: price >= target; BELOW: price <= target) become triggered; nothing else about any alert changes |
| PriceAlerts.FiresAtMostOnce | src/contexts/market/domain/services/alert.service.ts:43-54 | an alert that fired is never fired by the next event |
| PriceAlerts.TriggeredIsFinal | src/contexts/market/domain/services/alert.service.ts:43-54 | a triggered alert stays as it is through any later sequence of events |
| PriceAlerts.Replay | src/contexts/market/domain/services/alert.service.ts:41-71 | a sequence of events keeps the set of alerts |
| PriceAlerts.AlertService.constructor | src/contexts/market/domain/services/alert.service.ts:12-16 | the service starts with no alerts |
| PriceAlerts.AlertService.CreateAlert | src/contexts/market/domain/services/alert.service.ts:18-27 | a new untriggered alert with the given owner, symbol, condition and target is stored under a fresh identifier; no other alert changes |
| PriceAlerts.AlertService.DeleteAlert | src/contexts/market/domain/services/alert.service.ts:36-38 | the alert is removed iff both its identifier and its owner match; otherwise nothing changes |
| PriceAlerts.AlertService.OnPriceUpdate | src/contexts/market/domain/services/alert.service.ts:41-71 | the new alert table is that of the price-event rule |
| Signals.Lookup | src/contexts/backtest/domain/strategies/sma-cross.strategy.ts:31 | reading a key of a parameter object is defined exactly when the key is present, and then gives its value |
| Signals.Param | src/contexts/backtest/strategies/rsi.strategy.ts:28-30 | `params?.key` is defined exactly when the object exists and holds the key, and then gives its value |
| Signals.At | src/contexts/backtest/domain/strategies/sma-cross.strategy.ts:37-40 | an array read `s[k]` is defined exactly when k is a whole number within the array, and then gives that element |
| Signals.Aligned | src/contexts/backtest/domain/strategies/sma-cross.strategy.ts:37-40 | the aligned read `s[index - period + shift]` is undefined when the period is missing, and is the array read at that position otherwise |
| Signals.AtPrefix | src/contexts/backtest/domain/strategies/sma-cross.strategy.ts:37-40 | a read below the length of a cut-off series equals the read of the whole series |
| Signals.Setting | src/contexts/backtest/strategies/rsi.strategy.ts:28-30 | `params?.key \|\| fallback` is the value of the key when it is present and non-zero, the fallback otherwise |
| Signals.WithDefault | src/contexts/backtest/strategies/rsi.strategy.ts:16-18 | writing a default sets the key to its setting and keeps every other key and value |
| Signals.WithDefaultKeepsSettings | src/contexts/backtest/strategies/rsi.strategy.ts:16-31 | writing a default changes neither the setting of that key nor of any other key as `prepare` reads them |
| SmaCross.ValidateParameters | src/contexts/backtest/domain/strategies/sma-cross.strategy.ts:13-20 | the parameters pass exactly when both periods are present and non-zero and the short period is strictly below the long one; otherwise the failure names the rule broken |
| SmaCross.SmaCrossStrategy.constructor | src/contexts/backtest/domain/strategies/sma-cross.strategy.ts:9-11 | a new strategy has no parameters and empty series |
| SmaCross.SmaCrossStrategy.Prepare | src/contexts/backtest/domain/strategies/sma-cross.strategy.ts:22-28 | `prepare` keeps the parameter object and the two SMA series |
| SmaCross.SmaCrossStrategy.OnCandle | src/contexts/backtest/domain/strategies/sma-cross.strategy.ts:30-57 | BUY exactly when all four aligned averages are present and non-zero and the short average crosses from at-or-below the long one to above it; SELL exactly when they are readable and it crosses from at-or-above to below; HOLD otherwise |
| SmaCross.NoRepeatedSignal | src/contexts/backtest/domain/strategies/sma-cross.strategy.ts:46-54 | a BUY is never followed by a BUY on the next candle, nor a SELL by a SELL |
| SmaCross.NoLookAhead | src/contexts/backtest/domain/strategies/sma-cross.strategy.ts:37-40 | the signal at a candle does not depend on series entries after that candle |
| Rsi.Settings | src/contexts/backtest/strategies/rsi.strategy.ts:27-31 | each setting is the parameter when present and non-zero, else 14, 70 or 30; none is zero |
| Rsi.ValidateParameters | src/contexts/backtest/strategies/rsi.strategy.ts:12-23 | a missing object is rejected; otherwise the parameters pass exactly when the defaulted oversold level is below the defaulted overbought level, and the filled-in object keeps every key and yields the same settings |
| Rsi.RsiStrategy.constructor | src/contexts/backtest/strategies/rsi.strategy.ts:9-10 | a new strategy has no settings and an empty RSI series |
| Rsi.RsiStrategy.Prepare | src/contexts/backtest/strategies/rsi.strategy.ts:25-35 | `prepare` fixes the defaulted settings and keeps the RSI series |
| Rsi.RsiStrategy.OnCandle | src/contexts/backtest/strategies/rsi.strategy.ts:37-70 | BUY exactly when this and the previous RSI value are present and non-zero and the RSI crosses from at-or-below oversold to above it; SELL exactly when it crosses from at-or-above overbought to below it and that is not a BUY; HOLD otherwise |
| Rsi.SellIsCrossDown | src/contexts/backtest/strategies/rsi.strategy.ts:60-67 | with oversold below overbought, SELL is exactly the readable cross down through overbought |
| Rsi.NoRepeatedSignal | src/contexts/backtest/strategies/rsi.strategy.ts:60-67 | a BUY is never followed by a BUY on the next candle, nor a SELL by a SELL |
| Rsi.ValidateThenPrepare | src/contexts/backtest/strategies/rsi.strategy.ts:12-31 | validating before preparing gives the same settings as preparing alone |
| Rsi.NoLookAhead | src/contexts/backtest/strategies/rsi.strategy.ts:44-48 | the signal at a candle does not depend on RSI entries after that candle |
| Macd.Settings | src/contexts/backtest/strategies/macd.strategy.ts:27-31 | each setting is the parameter when present and non-zero, else 12, 26 or 9; none is zero |
| Macd.ValidateParameters | src/contexts/backtest/strategies/macd.strategy.ts:13-24 | a missing object is rejected; otherwise the parameters pass exactly when the defaulted fast period is below the defaulted slow period, and the filled-in object keeps every key and yields the same settings |
| Macd.MacdStrategy.constructor | src/contexts/backtest/strategies/macd.strategy.ts:9-11 | a new strategy has no settings, an empty series and offset 0 |
| Macd.MacdStrategy.Prepare | src/contexts/backtest/strategies/macd.strategy.ts:26-48 | `prepare` fixes the defaulted settings and keeps the MACD series, aligned so that offset plus its length is the number of closes |
| Macd.MacdStrategy.OnCandle | src/contexts/backtest/strategies/macd.strategy.ts:50-76 | BUY exactly when this and the previous MACD entry exist and the histogram turns from at-or-below zero to above it; SELL exactly when it turns from at-or-above zero to below it; HOLD for every candle up to the offset |
| Macd.NoRepeatedSignal | src/contexts/backtest/strategies/macd.strategy.ts:66-73 | a BUY is never followed by a BUY on the next candle, nor a SELL by a SELL |
| Macd.ValidateThenPrepare | src/contexts/backtest/strategies/macd.strategy.ts:13-31 | validating before preparing gives the same settings as preparing alone |
| Macd.NoLookAhead | src/contexts/backtest/strategies/macd.strategy.ts:52-57 | the signal at a candle does not depend on MACD entries after that candle |
| MultiConfirm.Settings | src/contexts/backtest/domain/strategies/multi-confirm.strategy.ts:36-45 | each of the eight settings is the parameter when present and non-zero, else its default (10, 50, 14, 70, 30, 12, 26, 9) |
| MultiConfirm.ValidateParameters | src/contexts/backtest/domain/strategies/multi-confirm.strategy.ts:29-33 | the parameters pass exactly when the object exists |
| MultiConfirm.Seconds | src/contexts/backtest/domain/strategies/multi-confirm.strategy.ts:129 | the chart time is the timestamp in milliseconds floored to whole seconds |
| MultiConfirm.Plot | src/contexts/backtest/domain/strategies/multi-confirm.strategy.ts:127-157 | a line has at most one point per candle |
| MultiConfirm.PlotSources | src/contexts/backtest/domain/strategies/multi-confirm.strategy.ts:127-157 | every point of a line comes from a distinct candle, in candle order, and carries that candle's time and defined value |
| MultiConfirm.PlotInTimeOrder | src/contexts/backtest/domain/strategies/multi-confirm.strategy.ts:127-157 | with non-decreasing candle timestamps every line is in non-decreasing time order |
| MultiConfirm.MultiConfirmStrategy.constructor | src/contexts/backtest/domain/strategies/multi-confirm.strategy.ts:9-16 | a new strategy has no settings, empty series and zero offsets |
| MultiConfirm.MultiConfirmStrategy.Prepare | src/contexts/backtest/domain/strategies/multi-confirm.strategy.ts:35-65 | `prepare` fixes the defaulted settings, keeps the four series and aligns the RSI and MACD series to the end of the candle list |
| MultiConfirm.MultiConfirmStrategy.OnCandle | src/contexts/backtest/domain/strategies/multi-confirm.strategy.ts:67-117 | HOLD without one earlier long-SMA, RSI and MACD entry or without readable values; BUY exactly when the short SMA is above the long one, the MACD histogram turns positive and the RSI is below overbought; SELL exactly when, failing that, the short SMA crosses below the long one or the histogram turns negative |
| MultiConfirm.MultiConfirmStrategy.PlotCandle | src/contexts/backtest/domain/strategies/multi-confirm.strategy.ts:131-156 | one candle appends to each of the six lines exactly the point of its defined aligned value |
| MultiConfirm.MultiConfirmStrategy.GetParsedIndicators | src/contexts/backtest/domain/strategies/multi-confirm.strategy.ts:119-167 | each of the six lines returned is the plot of its indicator over all candles |
| MultiConfirm.ConfirmedBuyIsMacdBuy | src/contexts/backtest/domain/strategies/multi-confirm.strategy.ts:99-105 | a confirmed BUY is also a BUY of the MACD strategy on the same series |
| MultiConfirm.MacdSellIsSell | src/contexts/backtest/domain/strategies/multi-confirm.strategy.ts:109-114 | once the values are readable, a MACD-strategy SELL on the same series is a SELL here |
| StrategyRegistry.Registered | src/contexts/backtest/domain/strategies/strategy.registry.ts:17-19 | `set` on a JavaScript Map adds the name if new, at the end, keeps every earlier key in place, and keeps keys distinct |
| StrategyRegistry.Resolve | src/contexts/backtest/domain/strategies/strategy.registry.ts:21-42 | `get` builds a strategy only for a registered name and only of the class declaring that name; it fails with "not found" exactly for an unregistered name; it never yields the multi-criteria strategy |
| StrategyRegistry.MultiConfirmIsUnavailable | src/contexts/backtest/domain/strategies/strategy.registry.ts:11-42 | the multi-criteria strategy is not registered, so `get` reports it not found; even once registered the factory does not build it |
| StrategyRegistry.RegisterKeepsStrategies | src/contexts/backtest/domain/strategies/strategy.registry.ts:17-42 | registering a strategy never stops `get` from building one it built before |
| StrategyRegistry.BuiltInsResolve | src/contexts/backtest/domain/strategies/strategy.registry.ts:11-42 | after construction exactly SMA_CROSS, RSI and MACD resolve, each to its own class |
| StrategyRegistry.Registry.constructor | src/contexts/backtest/domain/strategies/strategy.registry.ts:11-15 | the registry starts with exactly SMA_CROSS, RSI and MACD, in that order |
| StrategyRegistry.Registry.Register | src/contexts/backtest/domain/strategies/strategy.registry.ts:17-19 | the new key list is that of `set` under the strategy's name |
| StrategyRegistry.Registry.Get | src/contexts/backtest/domain/strategies/strategy.registry.ts:21-42 | the outcome is that of the resolution rule; a strategy returned is a fresh, unprepared instance and never the multi-criteria one |
| StrategyRegistry.Registry.GetAvailableStrategies | src/contexts/backtest/domain/strategies/strategy.registry.ts:44-46 | the registered names in insertion order, each once |
| Backtest.MissingParametersRejected | src/contexts/backtest/domain/services/backtest.service.ts:49-51 | every strategy's `validateParameters` rejects a missing parameter object, so no backtest runs without one |
| Backtest.SignalsUpTo | src/contexts/backtest/domain/services/backtest.service.ts:64-70 | the signal list holds the strategy's signal for each candle index, in order |
| Backtest.Load | src/contexts/backtest/domain/services/backtest.service.ts:48-52 | the outcome is the selected strategy's validation; a rejection leaves the strategy untouched; a pass prepares it with the parameters (defaults filled in) and the indicator series it needs, the MACD series aligned to the end of the closes |
| Backtest.ParsedIndicators | src/contexts/backtest/domain/services/backtest.service.ts:125-128 | chart lines are produced exactly for a strategy that has `getParsedIndicators` (the multi-criteria one), and are its plot over all candles |
| Backtest.AppendTrade | src/contexts/backtest/domain/services/backtest.service.ts:87-102 | appending the trade of the right kind keeps the trades alternating BUY, SELL, … and adds its fee to the fee total |
| Backtest.ExtendsTransitive | src/contexts/backtest/domain/services/backtest.service.ts:64-107 | a run that continues a continuation of an earlier run continues that run |
| Backtest.TradeRecordsAtMostOne | src/contexts/backtest/domain/services/backtest.service.ts:72-104 | a signal adds at most one trade, at the end, and no equity point |
| Backtest.BuyKeepsConsistent | src/contexts/backtest/domain/services/backtest.service.ts:72-89 | a BUY turns all the cash into a positive position, keeping the account all-cash-or-all-asset, the trades alternating and the fee total equal to the recorded fees |
| Backtest.SellKeepsConsistent | src/contexts/backtest/domain/services/backtest.service.ts:90-104 | a SELL turns the whole position into non-negative cash, keeping the account consistent |
| Backtest.TradeKeepsConsistent | src/contexts/backtest/domain/services/backtest.service.ts:72-104 | any signal keeps the account consistent |
| Backtest.StepExtends | src/contexts/backtest/domain/services/backtest.service.ts:64-107 | one candle adds exactly one equity point, the candle's time and the account's value at its close after the trade, and keeps every earlier point and trade |
| Backtest.StepKeepsConsistent | src/contexts/backtest/domain/services/backtest.service.ts:64-107 | one candle keeps the account consistent |
| Backtest.BuyCostsItsFee | src/contexts/backtest/domain/services/backtest.service.ts:76-85 | a BUY keeps the value at the close plus the fees paid unchanged: the value drops by exactly its fee |
| Backtest.SellCostsAtMostItsFee | src/contexts/backtest/domain/services/backtest.service.ts:93-100 | a SELL lowers the value at the close by at most its fee (less when the fee exceeds the proceeds, which are floored at 0) |
| Backtest.TradeCostsOnlyItsFee | src/contexts/backtest/domain/services/backtest.service.ts:72-104 | a trade changes value plus fees paid by nothing, except that a SELL may only raise it |
| Backtest.SimulatePrefixStep | src/contexts/backtest/domain/services/backtest.service.ts:64-107 | the run over n + 1 candles is one more step of the run over n |
| Backtest.SimulateConsistent | src/contexts/backtest/domain/services/backtest.service.ts:54-107 | the whole run keeps the account consistent and records one equity point per candle |
| Backtest.SimulateExtends | src/contexts/backtest/domain/services/backtest.service.ts:64-107 | the run over a prefix of the history is the beginning of the run over all of it |
| Backtest.EquityCurveTracksAccount | src/contexts/backtest/domain/services/backtest.service.ts:106 | equity point k is candle k's time and the value, at candle k's close, of the account after candle k |
| Backtest.CopiesTheAccount | src/contexts/backtest/domain/services/backtest.service.ts:110-140 | a report built from an account's fields and its value at the last close copies that account |
| Backtest.ReportsTheAccount | src/contexts/backtest/domain/services/backtest.service.ts:109-140 | a report carrying the run's trades, curve, fees, trade count and value at the last close reports that run |
| Backtest.LastPointIsFinal | src/contexts/backtest/domain/services/backtest.service.ts:106-110 | the last equity point is the final equity |
| Backtest.ConsistentEquityNonNegative | src/contexts/backtest/domain/services/backtest.service.ts:96-110 | with a non-negative initial capital a consistent account is never worth less than 0 |
| Backtest.ReportIsConsistent | src/contexts/backtest/domain/services/backtest.service.ts:106-140 | every report has one equity point per candle ending at the final equity, alternating trades whose fees sum to the total fees, one round trip per BUY/SELL pair, and a non-negative final equity for a non-negative capital |
| Backtest.DescribedReport | src/contexts/backtest/domain/services/backtest.service.ts:109-144 | a report carrying the run's account, its value at the last close, the name, broker and capital, the return, metrics of that account, their drawdown curve and the chart candles is a described backtest of that run |
| Backtest.DescribedFigures | src/contexts/backtest/domain/services/backtest.service.ts:109-144 | a described backtest has one round trip per BUY/SELL pair, each a win or a loss, one drawdown point and one chart candle per candle, and metrics whose return is the report's |
| Backtest.LoadedSignalsAgree | src/contexts/backtest/domain/services/backtest.service.ts:47-70 | a strategy validated and prepared with some parameters and series gives, candle by candle, exactly the signals of its kind for them, so every fresh instance replays alike |
| Backtest.ComparisonRows | src/contexts/backtest/domain/services/backtest.service.ts:22-35 | no row when the backtest cannot run, otherwise one row per catalog broker in catalog order, naming it |
| Backtest.WithEquityAppend | src/contexts/backtest/domain/services/backtest.service.ts:36 | the results of one final equity in a concatenation are those of each part, in order |
| Backtest.InsertedStable | src/contexts/backtest/domain/services/backtest.service.ts:36 | inserting a row after those at least as good puts it last among rows of its equity and reorders no rows of equal equity |
| Backtest.ChartCandles | src/contexts/backtest/domain/services/backtest.service.ts:117-123 | one chart candle per candle, with the same prices and the time in whole seconds |
| Backtest.Times | src/contexts/backtest/domain/services/backtest.service.ts:67 | the timestamps of the candles, in order |
| Backtest.Insert | src/contexts/backtest/domain/services/backtest.service.ts:36 | inserting into a list ranked by non-increasing final equity keeps it ranked, adds exactly the new row, and puts it after every row of equal equity |
| Backtest.SameBrokers | src/contexts/backtest/domain/services/backtest.service.ts:22-36 | sorting neither adds nor loses a broker's row: every row belongs to a catalog broker, and when every run succeeded every broker has a row |
| Backtest.ConcatRanked | src/contexts/backtest/domain/services/backtest.service.ts:36 | two ranked lists, the first nowhere below the second, concatenate to a ranked list |
| Backtest.InsertedRanked | src/contexts/backtest/domain/services/backtest.service.ts:36 | a row placed after those at least as good and before the first worse one keeps the list ranked |
| Backtest.SortByEquity | src/contexts/backtest/domain/services/backtest.service.ts:36 | the sort is a permutation in non-increasing final-equity order, and stable: rows of equal final equity keep their original order |
| Backtest.BacktestService.constructor | src/contexts/backtest/domain/services/backtest.service.ts:12-16 | the service works with the given strategy registry |
| Backtest.BacktestService.BuyAll | src/contexts/backtest/domain/services/backtest.service.ts:72-89 | the account after a BUY signal is that of the BUY rule: the cash net of the taker fee buys the asset when it stays positive |
| Backtest.BacktestService.SellAll | src/contexts/backtest/domain/services/backtest.service.ts:90-104 | the account after a SELL signal is that of the SELL rule: the whole position is sold, the proceeds net of the taker fee floored at 0 |
| Backtest.BacktestService.ExecuteCandle | src/contexts/backtest/domain/services/backtest.service.ts:65-106 | the account after one candle is that of the step rule |
| Backtest.BacktestService.ExecuteNext | src/contexts/backtest/domain/services/backtest.service.ts:64-107 | one loop turn extends the run over the first i candles to the run over the first i + 1 |
| Backtest.BacktestService.Execute | src/contexts/backtest/domain/services/backtest.service.ts:55-107 | the loop's final account is the run of the strategy's signals over all candles |
| Backtest.BacktestService.Replay | src/contexts/backtest/domain/services/backtest.service.ts:55-144 | given the signals the prepared strategy emits candle by candle, the report is a described backtest of the run of exactly those signals: its account, value at the last close, metrics and chart candles |
| Backtest.ReportOn | src/contexts/backtest/domain/services/backtest.service.ts:109-144 | the report built from a finished run's account is a described backtest of that run: final equity at the last close, return relative to the capital, metrics of its trades and equity curve, their drawdown curve, the chart candles and no indicator lines |
| Backtest.BacktestService.ReplayLoaded | src/contexts/backtest/domain/services/backtest.service.ts:52-144 | once the strategy passed validation and was prepared, the report is a described backtest of the planned signals for that strategy name, parameters and series |
| Backtest.BacktestService.RunBacktest | src/contexts/backtest/domain/services/backtest.service.ts:39-145 | the backtest fails exactly when the history has fewer than 10 candles, the strategy is unavailable or its parameters are rejected, checked in that order, with that error; otherwise the report is a described backtest of the named strategy's signals for those parameters and series, under the broker id, binance when none is given |
| Backtest.BacktestService.RunForBroker | src/contexts/backtest/domain/services/backtest.service.ts:23-34 | one broker's turn yields no row exactly when the backtest throws, and otherwise the broker's name with the final equity, return and trade count of the run of the planned signals with that broker's fees |
| Backtest.BacktestService.CollectRuns | src/contexts/backtest/domain/services/backtest.service.ts:22-35 | the rows are exactly the comparison rows: for catalog broker k, its name with the final equity, return and trade count of the run of the planned signals with that broker's fees; none when the backtest fails (success does not depend on the broker) |
| Backtest.BacktestService.CompareBrokers | src/contexts/backtest/domain/services/backtest.service.ts:18-37 | the result is the comparison rows ranked by non-increasing final equity, rows of equal equity in catalog order: the same rows, one per catalog broker when the backtest succeeds and none otherwise |
| BacktestMetrics.Peak | src/contexts/backtest/utils/backtest-metrics.ts:162-173 | the running peak is never negative |
| BacktestMetrics.PeakIsRunningMaximum | src/contexts/backtest/utils/backtest-metrics.ts:162-173 | the peak is at least every equity value seen, and unless it is 0 it equals one of them |
| BacktestMetrics.PeakStep | src/contexts/backtest/utils/backtest-metrics.ts:171-173 | one more point raises the peak to the larger of the old peak and its value |
| BacktestMetrics.DrawdownAt | src/contexts/backtest/utils/backtest-metrics.ts:174 | a drawdown below the running peak is never negative |
| BacktestMetrics.DrawdownStep | src/contexts/backtest/utils/backtest-metrics.ts:170-175 | one loop turn yields the peak after the point and the point's drawdown, absolute and in percent |
| BacktestMetrics.CurveOfStep | src/contexts/backtest/utils/backtest-metrics.ts:177 | pushing the point's percentage extends the drawdown curve by that point |
| BacktestMetrics.DrawdownsAtMostStep | src/contexts/backtest/utils/backtest-metrics.ts:179-184 | a bound on the earlier drawdowns that the new one respects bounds them all |
| BacktestMetrics.NewMaximum | src/contexts/backtest/utils/backtest-metrics.ts:179-184 | a drawdown above every earlier one is strictly above each of them |
| BacktestMetrics.CalculateDrawdown | src/contexts/backtest/utils/backtest-metrics.ts:161-194 | the drawdown report of the curve: one curve point per equity point with its time and drawdown percentage; the maximum drawdown is non-negative and at least every drawdown; when positive it is the first largest one, with the peak and trough it runs between; when 0 so are its percentage, peak and trough |
| BacktestMetrics.PercentBounds | src/contexts/backtest/utils/backtest-metrics.ts:175 | with no negative equity every drawdown percentage lies between 0 and 100 |
| BacktestMetrics.PeriodReturns | src/contexts/backtest/utils/backtest-metrics.ts:196-205 | there is at most one return per step between consecutive points |
| BacktestMetrics.CalculatePeriodReturns | src/contexts/backtest/utils/backtest-metrics.ts:196-205 | the loop returns the relative change of each point from its predecessor, skipping zero predecessors |
| BacktestMetrics.ReturnsWithoutZeros | src/contexts/backtest/utils/backtest-metrics.ts:198-202 | with no zero value before the last point, there is exactly one return per step |
| BacktestMetrics.ReturnsAtLeastMinusOne | src/contexts/backtest/utils/backtest-metrics.ts:198-202 | with no negative equity every period return is at least −1 |
| BacktestMetrics.ExtractRoundTrips | src/contexts/backtest/utils/backtest-metrics.ts:216-242 | the loop returns the round trips of the pairing rule: a BUY replaces the waiting one, a SELL closes the waiting BUY, a SELL with none waiting is ignored |
| BacktestMetrics.RoundTripsBounded | src/contexts/backtest/utils/backtest-metrics.ts:216-242 | there are no more round trips than SELLs, nor than BUYs |
| BacktestMetrics.LatestBuyIsClosed | src/contexts/backtest/utils/backtest-metrics.ts:221-237 | of two BUYs in a row only the second is paired with the next SELL |
| BacktestMetrics.AlternatingRoundTrips | src/contexts/backtest/utils/backtest-metrics.ts:216-242 | on alternating trades round trip k is trades 2k and 2k + 1, and there are half as many round trips as trades |
| BacktestMetrics.RunAtEnd | src/contexts/backtest/utils/backtest-metrics.ts:248-258 | the current streak is no longer than the profit list |
| BacktestMetrics.LongestRun | src/contexts/backtest/utils/backtest-metrics.ts:248-258 | the longest streak is no longer than the profit list |
| BacktestMetrics.CalculateStreaks | src/contexts/backtest/utils/backtest-metrics.ts:244-261 | the loop returns the longest win streak and the longest loss streak, where a win is a positive profit |
| BacktestMetrics.RunAtEndIsMaximal | src/contexts/backtest/utils/backtest-metrics.ts:248-258 | no streak ending the list is longer than the current streak |
| BacktestMetrics.NoRunLonger | src/contexts/backtest/utils/backtest-metrics.ts:244-261 | no run of wins (losses) is longer than the longest streak |
| BacktestMetrics.LongestRunExists | src/contexts/backtest/utils/backtest-metrics.ts:244-261 | a run of wins (losses) exactly as long as the longest streak exists |
| BacktestMetrics.LongestRunIsLongest | src/contexts/backtest/utils/backtest-metrics.ts:244-261 | the longest streak is the length of a longest run of consecutive wins (losses) |
| BacktestMetrics.RunAtEndIsSuffix | src/contexts/backtest/utils/backtest-metrics.ts:248-258 | the last entries, as many as the current streak, are all wins (losses) |
| BacktestMetrics.SquaredDeviations | src/contexts/backtest/utils/backtest-metrics.ts:266 | one squared distance from the mean per value, none negative |
| BacktestMetrics.Variance | src/contexts/backtest/utils/backtest-metrics.ts:263-268 | the variance under the square root of `standardDeviation` is never negative |
| BacktestMetrics.ConstantMean | src/contexts/backtest/utils/backtest-metrics.ts:265 | the mean of a constant series is that constant |
| BacktestMetrics.ConstantSquaresVanish | src/contexts/backtest/utils/backtest-metrics.ts:266 | the squared deviations of a constant series from it sum to 0 |
| BacktestMetrics.ConstantHasNoVariance | src/contexts/backtest/utils/backtest-metrics.ts:263-268 | a series that never moves has variance 0 |
| BacktestMetrics.Pnls | src/contexts/backtest/utils/backtest-metrics.ts:108 | the profit of each round trip, in order |
| BacktestMetrics.ExpectancyIsMeanProfit | src/contexts/backtest/utils/backtest-metrics.ts:129-131 | win rate times average win minus loss rate times average loss is the mean profit per round trip |
| BacktestMetrics.ShareTimesAverage | src/contexts/backtest/utils/backtest-metrics.ts:122-131 | a share of the trades times their average is their total over all trades |
| BacktestMetrics.AnalyzeTrades | src/contexts/backtest/utils/backtest-metrics.ts:106-134 | every statistic exactly: wins are the positive profits and losses the others; the win rate is wins over trades in percent; the profit factor is gross profit over gross loss, infinite with profit and no loss, 0 with neither; the averages are the mean win and the mean loss size; best and worst are the largest and smallest profit; average profit and expectancy are the mean profit; the streaks are the longest runs; all 0 without trades |
| BacktestMetrics.StatsBounds | src/contexts/backtest/utils/backtest-metrics.ts:106-134 | the statistics keep their bounds: every trade wins or loses, the win rate is a percentage, profit factor and averages are non-negative, best and worst bound every profit and the mean, no streak exceeds the trade count |
| BacktestMetrics.WinLossFigures | src/contexts/backtest/utils/backtest-metrics.ts:116-131 | the win rate is wins over trades in percent, the averages are the gross figures over their counts, the profit factor follows the three cases, and the expectancy formula (win rate times average win less loss rate times average loss) comes to the net gross profit over the trades, 0 without trades |
| BacktestMetrics.ReturnPct | src/contexts/backtest/utils/backtest-metrics.ts:74 | the total return is defined exactly for a non-zero capital, is 100 × (final − initial) / initial, and for a positive capital is non-negative exactly when the final equity is at least the capital |
| BacktestMetrics.CalculateMetrics | src/contexts/backtest/utils/backtest-metrics.ts:67-157 | the metrics report: the total return, the drawdown report of the equity curve, the variance of the period returns and every trade statistic of the round trips of the trades |
| Roles.OpenRoute | src/contexts/auth/infrastructure/guards/roles.guard.ts:15-17 | a route without role metadata (absent or 0) admits every user |
| Roles.NoRoleDenied | src/contexts/auth/infrastructure/guards/roles.guard.ts:21 | a user with role 0 is refused by every route requiring roles |
| Roles.GrantingKeepsAccess | src/contexts/auth/infrastructure/guards/roles.guard.ts:21 | adding role bits to a user never revokes access |
| Roles.RoleScenarios | test-roles-logic.ts:13-30 | Classic and Premium pass a route requiring Classic, Admin or Premium and role 0 does not; Classic fails an Admin-only route which Admin and Admin with Premium pass |
| Roles.RoleNames | src/contexts/users/application/presenters/user.presenter.ts:34-38 | the list holds admin, classic and premium exactly when the corresponding bit is set, in that order, each at most once; role 0 gives an empty list |
| Roles.PresentUser | src/contexts/users/application/presenters/user.presenter.ts:28-44 | identifier, email, names and creation time are copied unchanged, the roles are the role names of the bitmask, and a profile is present exactly when the user has one, as the profile presenter's view of it |
| Roles.PresentedProfilesAgree | src/contexts/users/application/presenters/user-profile.presenter.ts:20-26 | the profile view keeps bio, avatar, location, website and social links and drops the profile's id, owner id and creation and update times: two profiles present alike exactly when they differ at most in those four fields |
| Roles.PresentUserHidesSecrets | src/contexts/users/application/presenters/user.presenter.ts:28-44 | the user view carries neither the refresh-token hash nor the update time: users differing only in those present alike |
| Money.RoundCents | src/contexts/trade/domain/services/trade.service.ts:277-280 | `Math.round(x * 100) / 100` lies within half a cent of x |
| Money.RoundCentsNonNegative | src/contexts/trade/domain/services/trade.service.ts:277 | rounding a non-negative amount to cents never gives a negative one |
| Money.RoundCentsMonotone | src/contexts/trade/domain/services/trade.service.ts:279-280 | rounding to cents preserves order |
| Series.MaxOf | src/contexts/trade/domain/services/trade.service.ts:279 | `Math.max(...s)` is an element of s at least every element |
| Series.MinOf | src/contexts/trade/domain/services/trade.service.ts:280 | `Math.min(...s)` is an element of s at most every element |
| Series.MeanBetweenExtremes | src/contexts/trade/domain/services/trade.service.ts:264-265 | the mean of a non-empty series lies between its minimum and its maximum |
| Series.CountPositive | src/contexts/backtest/utils/backtest-metrics.ts:110 | no more positive entries than entries |
| Series.Positives | src/contexts/backtest/utils/backtest-metrics.ts:110 | `filter(p => p > 0)` keeps only positive entries, as many as there are |
| Series.NonPositives | src/contexts/backtest/utils/backtest-metrics.ts:111 | `filter(p => p <= 0)` keeps only non-positive entries |
| Series.Partition | src/contexts/backtest/utils/backtest-metrics.ts:110-119 | the two filters split the series, its length and its sum; gross profit is non-negative and gross loss non-positive, and an empty filter sums to 0 |

## Left out

- Floating point: every amount is an exact `real`, so binary rounding, `NaN`, `Infinity` (other than the profit factor's) and overflow are not modelled.
- `BacktestMetrics.CalculateMetrics`: Sharpe ratio, Sortino ratio, volatility and annualized return are left out, because they need `Math.sqrt`/`Math.pow`; the variance of the period returns stands in for them.
- `BacktestMetrics.CalculateMetrics`: its figures are not rounded with `toFixed(2)`; the model reports the exact values.
- `BacktestMetrics.CalculateDrawdown`: its maximum drawdown, percentages, peak and trough are likewise left unrounded.
- `TradeReports.GetPerformance`: the Sharpe ratio is left out (square root). The win rate is the exact percentage rather than the `toFixed(1)` string with a `%` sign.
- `Backtest.BacktestService.RunBacktest`: `totalReturn` is the exact percentage rather than the `toFixed(2)` string. It is absent for a zero initial capital, where the source divides by zero.
- `Backtest.BacktestService.RunBacktest`: requires every close to be positive, since the loop divides by the close. Non-positive prices from a provider are not modelled.
- `Wallets.Ledger.Deposit`: requires a positive amount, which is what the deposit request validation admits (`src/contexts/wallet/dto/deposit.dto.ts:7`).
- `TradeEngine.TradeService.ExecuteOrder`: requires an execution price of at least one cent, as do `HandlePriceUpdate`, `Sweep` and `SweepOrder` for their prices. A positive quote below one cent makes the slipped price round to 0, and the source then divides by it.
- `Paper.PaperAdapter.ExecuteOrder`: requires `o.price >= 0.01` for the same reason; prices of 0 and below one cent are not modelled there.
- `TradeEngine.TradeService.PlaceOrder` and `TradeEngine.TradeService.Submit`: the order's own quote must be 0 or at least one cent. A 0 quote (a seeded asset before the first poll) is modelled: MARKET orders are refused. An IOC LIMIT BUY against a 0 quote is excluded, because the source would execute it at price 0 and divide by it. Positive sub-cent quotes are excluded as above.
- `TriggerMonitor.TradeMonitor.CheckOrders`: requires every quote of the snapshot to be 0 or at least one cent, not only the quotes of the positions it checks. Positive sub-cent quotes are not modelled.
- `Backtest.BacktestService.CollectRuns`: the source fetches the candles again in each broker's run (`src/contexts/backtest/domain/services/backtest.service.ts:43`) and skips a broker whose run throws, for instance `MarketDataUnavailableError` from that fetch (the `catch` at lines 32-34). The model fetches once, so every broker sees the same history and no broker is skipped for a failed fetch.
- Randomness: `Math.random()` slippage is a parameter bounded to [0.999, 1.001).
- Clocks: `new Date()` and `toDateString()` become integer times and day numbers.
- Market data: prices come from a snapshot map and candles from an input sequence. The providers, their polling and candle fetching are not modelled.
- Indicators: the `technicalindicators` library is not modelled. The SMA, RSI and MACD series are inputs to `prepare`.
- `SmaCross.SmaCrossStrategy.OnCandle`, `Rsi.RsiStrategy.OnCandle`, `Macd.MacdStrategy.OnCandle` and `MultiConfirm.MultiConfirmStrategy.OnCandle` take only the candle index. The source's candle, position and balance arguments are unused.
- `onCandle` of the SMA-cross, RSI and multi-criteria strategies before `prepare` is excluded by a precondition. In the source it would read undefined settings.
- `StrategyRegistry.Registry`: the map's values are not kept, only its keys in insertion order. `get` builds a fresh instance anyway.
- `Backtest.SortByEquity` and `TradeReports.SortByPnl`: the comparator sorts are modelled as stable insertion sorts over sequences. `Array.prototype.sort` is stable too.
- Persistence, transactions, logging and WebSocket notifications are left out. This covers TypeORM repositories and the `emitTradeAlert` calls.
- `@Interval`, `@Cron` and `@OnEvent` handlers are modelled as atomic sequential methods. Races between the timer path and the price-event path are out of scope.
- Order identifiers are table positions rather than UUIDs. `createdAt` ordering of query results is not modelled, since no modelled result depends on it.
- `getAlerts` is a plain repository query and is not modelled.
