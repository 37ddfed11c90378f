/** The order record of the trading engine (order.model.ts) and the errors the engine raises. */
module Orders {
  import opened Wrappers
  import Wallets

  datatype Side = Buy | Sell
  datatype OrderType = Market | Limit
  datatype Status = Open | Filled | Cancelled | PartiallyFilled | Expired
  datatype CloseReason = StopLoss | TakeProfit | TrailingStop | OcoCancelled | ExpiredReason
  datatype TimeInForce = GTC | GTD | IOC

  /** An order as stored. Identifiers are positions in the order table;
      timestamps are integers (milliseconds) supplied by the caller. */
  datatype Order = Order(
    id: nat,
    userId: string,
    symbol: string,
    amount: real,
    filledAmount: real,
    price: real,
    side: Side,
    orderType: OrderType,
    status: Status,
    stopLoss: Option<real>,
    takeProfit: Option<real>,
    closeReason: Option<CloseReason>,
    trailingStopPercent: Option<real>,
    highestPrice: Option<real>,
    linkedOrderId: Option<nat>,
    brokerId: Option<string>,
    fee: real,
    feeAsset: Option<string>,
    pnl: Option<real>,
    timeInForce: TimeInForce,
    expiresAt: Option<int>,
    createdAt: int)

  /** The repository's open-position query: a filled BUY that no trigger has closed yet. */
  predicate IsOpenPosition(o: Order)
  {
    o.status == Filled && o.side == Buy && o.closeReason.None?
  }

  /** Identifiers are positions in the order table. */
  predicate Indexed(orders: seq<Order>)
  {
    forall i | 0 <= i < |orders| :: orders[i].id == i
  }

  datatype InvalidReason =
    | PriceNotPositive
    | StopLossWrongSide
    | TakeProfitWrongSide
    | MissingExpiry
    | PositionTooLarge
    | DailyLossLimitReached
    | OcoStopLossNotBelowMarket
    | OcoTakeProfitNotAboveMarket

  datatype TradeError =
    | InvalidOrder(reason: InvalidReason)
    | PriceUnavailable(symbol: string)
    | Funds(walletError: Wallets.WalletError)
    | ExecutionFailed(cause: Wallets.WalletError)
    | OrderNotFound(orderId: nat)
    | OrderNotCancellable(orderId: nat, status: Status)

  /** The market as seen by one call: last prices by symbol, the calendar day and the time. */
  datatype MarketSnapshot = MarketSnapshot(prices: map<string, real>, today: int, now: int)

  /** A quote as the market poll leaves it: 0 for a seeded asset no poll has priced yet, otherwise
      at least one cent. */
  predicate Quote(p: real)
  {
    p == 0.0 || p >= 0.01
  }

  /** Every quote of the snapshot is unpriced or at least one cent. */
  predicate ValidMarket(m: MarketSnapshot)
  {
    forall s | s in m.prices :: Quote(m.prices[s])
  }
}
