/** The order engine's rules (trade.service.ts) as functions of the engine's state: the wallet
    ledger, the risk table and the order table. The `TradeEngine` methods are proved equal to them. */
module TradeRules {
  import opened Wrappers
  import opened Money
  import opened Wallets
  import opened Broker
  import opened Orders
  import opened Risk
  import opened Paper

  /** `CreateOrderDto`; its validation guarantees a positive amount. */
  datatype OrderRequest = OrderRequest(
    symbol: string,
    amount: real,
    side: Side,
    orderType: Option<OrderType>,
    price: Option<real>,
    stopLoss: Option<real>,
    takeProfit: Option<real>,
    brokerId: Option<string>,
    timeInForce: Option<TimeInForce>,
    expiresAt: Option<int>,
    trailingStopPercent: Option<real>)

  /** `CreateOcoDto`. */
  datatype OcoRequest = OcoRequest(symbol: string, amount: real, stopLossPrice: real, takeProfitPrice: real, brokerId: Option<string>)

  datatype World = World(wallets: WalletMap, risk: RiskTable, orders: seq<Order>)

  /** The state after an operation and what it returned. */
  datatype Step<T> = Step(world: World, result: Result<T, TradeError>)

  /** The state after a sweep and whether it stopped on an error. */
  datatype Run = Run(world: World, outcome: Outcome<TradeError>)

  // ---------------------------------------------------------------------------
  // Placement

  /** A LIMIT order is placed at its own price, any other at the market price. */
  function ReferencePrice(req: OrderRequest, current: real): Option<real>
  {
    if req.orderType == Some(Limit) then req.price else Some(current)
  }

  predicate StopLossOnWrongSide(side: Side, stopLoss: real, price: real)
  {
    (side == Buy && stopLoss >= price) || (side == Sell && stopLoss <= price)
  }

  predicate TakeProfitOnWrongSide(side: Side, takeProfit: real, price: real)
  {
    (side == Buy && takeProfit <= price) || (side == Sell && takeProfit >= price)
  }

  /** The input validation of `placeOrder`: the reference price and time in force, or why the
      request is refused. Stop-loss and take-profit are checked only when present and non-zero. */
  function CheckRequest(req: OrderRequest, current: real): Result<(real, TimeInForce), InvalidReason>
  {
    var p := ReferencePrice(req, current);
    if !Truthy(p) || p.value <= 0.0 then Err(PriceNotPositive)
    else if Truthy(req.stopLoss) && StopLossOnWrongSide(req.side, req.stopLoss.value, p.value) then Err(StopLossWrongSide)
    else if Truthy(req.takeProfit) && TakeProfitOnWrongSide(req.side, req.takeProfit.value, p.value) then Err(TakeProfitWrongSide)
    else
      var tif := req.timeInForce.GetOr(GTC);
      if tif == GTD && req.expiresAt.None? then Err(MissingExpiry)
      else Ok((p.value, tif))
  }

  /** A request passes validation exactly when its reference price is positive, a BUY's stop-loss
      is below and take-profit above that price (the reverse for a SELL), and a GTD order has an
      expiry; the price used is then the reference price and GTC is the default time in force. */
  lemma CheckRequestMeans(req: OrderRequest, current: real)
    ensures var p := ReferencePrice(req, current);
      CheckRequest(req, current).Ok? <==>
        p.Some? && p.value > 0.0 &&
        (Truthy(req.stopLoss) && req.side == Buy ==> req.stopLoss.value < p.value) &&
        (Truthy(req.stopLoss) && req.side == Sell ==> req.stopLoss.value > p.value) &&
        (Truthy(req.takeProfit) && req.side == Buy ==> req.takeProfit.value > p.value) &&
        (Truthy(req.takeProfit) && req.side == Sell ==> req.takeProfit.value < p.value) &&
        (req.timeInForce == Some(GTD) ==> req.expiresAt.Some?)
    ensures CheckRequest(req, current).Ok? ==>
      CheckRequest(req, current).value == (ReferencePrice(req, current).value, req.timeInForce.GetOr(GTC))
  {
  }

  /** What placement locks: the order's cost in USD for a BUY, the amount of the asset for a SELL. */
  function LockOf(req: OrderRequest, price: real): (string, real)
  {
    if req.side == Buy then (Usd, Notional(req.amount, price)) else (req.symbol, req.amount)
  }

  /** The order `placeOrder` creates: OPEN for LIMIT and FILLED otherwise, with the peak price of a
      trailing stop starting at the order price. */
  function NewOrder(id: nat, user: string, req: OrderRequest, price: real, tif: TimeInForce, now: int): Order
  {
    Order(
      id := id, userId := user, symbol := req.symbol, amount := req.amount, filledAmount := 0.0,
      price := price, side := req.side, orderType := req.orderType.GetOr(Market),
      status := if req.orderType == Some(Limit) then Open else Filled,
      stopLoss := req.stopLoss, takeProfit := req.takeProfit, closeReason := None,
      trailingStopPercent := req.trailingStopPercent,
      highestPrice := if Truthy(req.trailingStopPercent) then Some(price) else None,
      linkedOrderId := None, brokerId := Some(ChosenBrokerId(req.brokerId)),
      fee := 0.0, feeAsset := None, pnl := None, timeInForce := tif,
      expiresAt := req.expiresAt, createdAt := now)
  }

  /** Whether a LIMIT order can fill at the market price right now. */
  predicate CanFill(side: Side, current: real, limit: real)
  {
    (side == Buy && current <= limit) || (side == Sell && current >= limit)
  }

  // ---------------------------------------------------------------------------
  // Execution

  /** `executeOrder(order, executionPrice)`: the order is settled at `executionPrice` (slipped by
      the adapter); a LIMIT BUY gets back the part of its lock its better price did not use. */
  function ExecSpec(ws: WalletMap, o: Order, execPrice: real, slip: real): (r: Result<(WalletMap, Order), WalletError>)
    requires execPrice >= 0.01 && ValidSlippage(slip)
    ensures r.Ok? ==>
      var o' := r.value.1;
      o' == o.(price := execPrice, status := Filled, filledAmount := o.amount, feeAsset := Some(Usd),
               fee := TakerFee(o', ExecutionPrice(execPrice, slip)))
  {
    var o1 := o.(price := execPrice);
    match Settle(ws, o1, ExecutionPrice(execPrice, slip))
    case Err(e) => Err(e)
    case Ok((ws1, o2)) =>
      var excess := Notional(o.amount, o.price) - Notional(o.amount, execPrice);
      var ws2 := if o.orderType == Limit && o.side == Buy && excess > 0.0 then AfterUnlock(ws1, o.userId, Usd, excess) else ws1;
      Ok((ws2, o2.(filledAmount := o2.amount)))
  }

  function ExecuteStep(w: World, o: Order, execPrice: real, slip: real): (s: Step<Order>)
    requires execPrice >= 0.01 && ValidSlippage(slip) && o.id < |w.orders|
    ensures |s.world.orders| == |w.orders|
  {
    match ExecSpec(w.wallets, o, execPrice, slip)
    case Err(e) => Step(w, Err(ExecutionFailed(e)))
    case Ok((ws, o')) => Step(w.(wallets := ws, orders := w.orders[o.id := o']), Ok(o'))
  }

  /** A failed execution changes nothing: in particular the lock taken at placement stays. */
  lemma ExecutionFailureKeepsState(w: World, o: Order, execPrice: real, slip: real)
    requires execPrice >= 0.01 && ValidSlippage(slip) && o.id < |w.orders|
    requires ExecuteStep(w, o, execPrice, slip).result.Err?
    ensures ExecuteStep(w, o, execPrice, slip).world == w
    ensures ExecuteStep(w, o, execPrice, slip).result.error.ExecutionFailed?
  {
  }

  /** A LIMIT BUY filled below its limit ends with the USD lock of `amount * executionPrice`
      settled and the rest, `amount * (limit - executionPrice)`, released. */
  lemma LimitBuyReleasesExcess(ws: WalletMap, o: Order, execPrice: real, slip: real)
    requires execPrice >= 0.01 && ValidSlippage(slip)
    requires o.orderType == Limit && o.side == Buy && execPrice < o.price && o.amount > 0.0
    requires ExecSpec(ws, o, execPrice, slip).Ok?
    ensures var ws1 := Settle(ws, o.(price := execPrice), ExecutionPrice(execPrice, slip)).value.0;
      ExecSpec(ws, o, execPrice, slip).value.0 == AfterUnlock(ws1, o.userId, Usd, Notional(o.amount, o.price) - Notional(o.amount, execPrice))
  {
    assert Notional(o.amount, o.price) - Notional(o.amount, execPrice) == o.amount * (o.price - execPrice);
    assert o.amount * (o.price - execPrice) > 0.0 by { PositiveProduct(o.amount, o.price - execPrice); }
  }

  // ---------------------------------------------------------------------------
  // placeOrder

  /** What placement needs of the market: the order's own quote is unpriced (0) or at least one
      cent, and an IOC LIMIT BUY is not sent against an unpriced symbol, which would fill it at 0. */
  predicate Placeable(req: OrderRequest, m: MarketSnapshot)
  {
    req.symbol in m.prices ==>
      Quote(m.prices[req.symbol]) &&
      (m.prices[req.symbol] == 0.0 ==> !(req.orderType == Some(Limit) && req.timeInForce == Some(IOC) && req.side == Buy))
  }

  /** Whether a newly saved order is executed at once at the market price `current`. */
  predicate ExecutesAtOnce(o: Order, current: real, price: real, tif: TimeInForce)
  {
    o.orderType == Market || (tif == IOC && CanFill(o.side, current, price))
  }

  /** `placeOrder(userId, dto)` against the market `m`, with the slippage `slip` of its execution. */
  ghost function PlaceSpec(w: World, user: string, req: OrderRequest, m: MarketSnapshot, slip: real): (s: Step<Order>)
    requires Placeable(req, m) && ValidSlippage(slip)
    ensures |w.orders| <= |s.world.orders| <= |w.orders| + 1
    ensures s.world.orders[..|w.orders|] == w.orders
  {
    if req.symbol !in m.prices then Step(w, Err(PriceUnavailable(req.symbol)))
    else
      var current := m.prices[req.symbol];
      match CheckRequest(req, current)
      case Err(reason) => Step(w, Err(InvalidOrder(reason)))
      case Ok((price, tif)) =>
        var risk1 := WithSettings(w.risk, user, m.today);
        if !PositionAllowed(risk1[user].maxPositionSizePercent, PortfolioValue(w.wallets, user, m.prices), Notional(req.amount, price)) then
          Step(w.(risk := risk1), Err(InvalidOrder(PositionTooLarge)))
        else
          var risk2 := AfterDailyReset(risk1, user, m.today);
          if !DailyLossAllowed(risk2[user]) then Step(w.(risk := risk2), Err(InvalidOrder(DailyLossLimitReached)))
          else
            var (currency, quantity) := LockOf(req, price);
            match AfterLock(w.wallets, user, currency, quantity)
            case Err(e) => Step(w.(risk := risk2), Err(Funds(e)))
            case Ok(ws1) =>
              SubmitSpec(World(ws1, risk2, w.orders), NewOrder(|w.orders|, user, req, price, tif, m.now), current, price, tif, slip)
  }

  /** The rest of `placeOrder` once the funds are locked in `w`: the order is saved, then a MARKET
      order or a fillable IOC order is executed at the market price `current`, an unfillable IOC
      order is cancelled with its lock released, and any other LIMIT order rests. */
  function SubmitSpec(w: World, o: Order, current: real, price: real, tif: TimeInForce, slip: real): (s: Step<Order>)
    requires (ExecutesAtOnce(o, current, price, tif) ==> current >= 0.01) && ValidSlippage(slip) && o.id == |w.orders|
    ensures |s.world.orders| == |w.orders| + 1
    ensures s.world.orders[..|w.orders|] == w.orders
  {
    var w1 := w.(orders := w.orders + [o]);
    assert w1.orders[..|w.orders|] == w.orders;
    if o.orderType == Market then ExecuteStep(w1, o, current, slip)
    else if tif == IOC then
      if CanFill(o.side, current, price) then ExecuteStep(w1, o, current, slip)
      else
        var c := o.(status := Cancelled);
        assert (w.orders + [c])[..|w.orders|] == w.orders;
        Step(World(Release(w.wallets, o), w.risk, w.orders + [c]), Ok(c))
    else Step(w1, Ok(o))
  }

  /** Nothing but the risk table changes before the lock: an invalid request changes nothing at all,
      and a request refused by a risk check changes neither the ledger nor the orders. */
  lemma PlaceChecksBeforeLocking(w: World, user: string, req: OrderRequest, m: MarketSnapshot, slip: real)
    requires Placeable(req, m) && ValidSlippage(slip)
    ensures var s := PlaceSpec(w, user, req, m, slip);
      (req.symbol !in m.prices || CheckRequest(req, m.prices[req.symbol]).Err? ==> s.world == w) &&
      (s.result.Err? && s.result.error.InvalidOrder? ==> s.world.wallets == w.wallets && s.world.orders == w.orders) &&
      (s.result.Err? && s.result.error.Funds? ==> s.world.wallets == w.wallets && s.world.orders == w.orders)
  {
  }

  /** Against an asset no market poll has priced yet (quote 0), a MARKET order is refused for its
      price before anything changes. */
  lemma UnpricedMarketOrderRefused(w: World, user: string, req: OrderRequest, m: MarketSnapshot, slip: real)
    requires Placeable(req, m) && ValidSlippage(slip)
    requires req.orderType != Some(Limit) && req.symbol in m.prices && m.prices[req.symbol] == 0.0
    ensures PlaceSpec(w, user, req, m, slip) == Step(w, Err(InvalidOrder(PriceNotPositive)))
  {
  }

  /** A placed LIMIT GTC or GTD order rests OPEN with exactly its lock taken: the cost in USD for a
      BUY, the amount of the asset for a SELL. */
  lemma RestingLimitOrder(w: World, user: string, req: OrderRequest, m: MarketSnapshot, slip: real)
    requires Placeable(req, m) && ValidSlippage(slip)
    requires req.orderType == Some(Limit) && req.timeInForce != Some(IOC)
    requires PlaceSpec(w, user, req, m, slip).result.Ok?
    ensures var s := PlaceSpec(w, user, req, m, slip);
      var o := s.result.value;
      var price := req.price.value;
      o.status == Open && o.orderType == Limit && o.price == price && o.id == |w.orders| &&
      s.world.orders == w.orders + [o] &&
      (req.side == Buy ==> Ok(s.world.wallets) == AfterLock(w.wallets, user, Usd, Notional(req.amount, price))) &&
      (req.side == Sell ==> Ok(s.world.wallets) == AfterLock(w.wallets, user, req.symbol, req.amount)) &&
      (o.highestPrice == Some(price) <==> Truthy(req.trailingStopPercent))
  {
  }

  /** A MARKET order whose execution fails stays recorded as FILLED with its funds still locked. */
  lemma MarketFailureLeavesLock(w: World, user: string, req: OrderRequest, m: MarketSnapshot, slip: real)
    requires Placeable(req, m) && ValidSlippage(slip)
    requires req.orderType != Some(Limit) && req.symbol in m.prices
    requires CheckRequest(req, m.prices[req.symbol]).Ok?
    requires PlaceSpec(w, user, req, m, slip).result.Err? && PlaceSpec(w, user, req, m, slip).result.error.ExecutionFailed?
    ensures var s := PlaceSpec(w, user, req, m, slip);
      var price := m.prices[req.symbol];
      var (currency, quantity) := LockOf(req, price);
      Ok(s.world.wallets) == AfterLock(w.wallets, user, currency, quantity) &&
      |s.world.orders| == |w.orders| + 1 && s.world.orders[|w.orders|].status == Filled &&
      s.world.orders[..|w.orders|] == w.orders
  {
    var s := PlaceSpec(w, user, req, m, slip);
    var (price, tif) := CheckRequest(req, m.prices[req.symbol]).value;
    var o := NewOrder(|w.orders|, user, req, price, tif, m.now);
    assert (w.orders + [o])[..|w.orders|] == w.orders;
  }

  /** An IOC order that cannot fill at the market price ends CANCELLED and, when the user's
      ledger was consistent, leaves it exactly as it was. */
  lemma IocUnfillableRestoresLedger(w: World, user: string, req: OrderRequest, m: MarketSnapshot, slip: real)
    requires Placeable(req, m) && ValidSlippage(slip) && WellFormed(w.wallets)
    requires req.orderType == Some(Limit) && req.timeInForce == Some(IOC) && req.symbol in m.prices
    requires CheckRequest(req, m.prices[req.symbol]).Ok?
    requires !CanFill(req.side, m.prices[req.symbol], CheckRequest(req, m.prices[req.symbol]).value.0)
    requires PlaceSpec(w, user, req, m, slip).result.Ok?
    ensures var s := PlaceSpec(w, user, req, m, slip);
      s.result.value.status == Cancelled && s.world.wallets == w.wallets &&
      s.world.orders == w.orders + [s.result.value]
  {
    var (price, tif) := CheckRequest(req, m.prices[req.symbol]).value;
    var (currency, quantity) := LockOf(req, price);
    LockThenUnlock(w.wallets, user, currency, quantity);
  }

  /** An IOC order that can fill is executed at the market price, like a MARKET order. */
  lemma IocFillableExecutes(w: World, user: string, req: OrderRequest, m: MarketSnapshot, slip: real)
    requires Placeable(req, m) && ValidSlippage(slip)
    requires req.orderType == Some(Limit) && req.timeInForce == Some(IOC) && req.symbol in m.prices
    requires CheckRequest(req, m.prices[req.symbol]).Ok?
    requires CanFill(req.side, m.prices[req.symbol], CheckRequest(req, m.prices[req.symbol]).value.0)
    requires PlaceSpec(w, user, req, m, slip).result.Ok?
    ensures var o := PlaceSpec(w, user, req, m, slip).result.value;
      o.status == Filled && o.price == m.prices[req.symbol] && o.filledAmount == o.amount && o.id == |w.orders|
  {
  }

  // ---------------------------------------------------------------------------
  // cancelOrder, placeOCO, getOpenPositions

  function CancelSpec(w: World, user: string, id: nat): Step<Order>
  {
    if id >= |w.orders| || w.orders[id].userId != user then Step(w, Err(OrderNotFound(id)))
    else if w.orders[id].status != Open then Step(w, Err(OrderNotCancellable(id, w.orders[id].status)))
    else
      var c := w.orders[id].(status := Cancelled);
      Step(w.(wallets := Release(w.wallets, w.orders[id]), orders := w.orders[id := c]), Ok(c))
  }

  /** Only the owner's OPEN orders can be cancelled; cancelling changes only that order's status
      and releases its lock, and touches no balance. */
  lemma CancelMeans(w: World, user: string, id: nat)
    requires WellFormed(w.wallets)
    ensures var s := CancelSpec(w, user, id);
      (s.result == Err(OrderNotFound(id)) <==> id >= |w.orders| || w.orders[id].userId != user) &&
      (s.result.Err? ==> s.world == w) &&
      (s.result.Ok? <==> id < |w.orders| && w.orders[id].userId == user && w.orders[id].status == Open) &&
      (s.result.Ok? ==>
        s.world.orders == w.orders[id := w.orders[id].(status := Cancelled)] &&
        WellFormed(s.world.wallets) &&
        forall k | k in w.wallets :: k in s.world.wallets && s.world.wallets[k].balance == w.wallets[k].balance)
  {
    if id < |w.orders| {
      ReleaseEffect(w.wallets, w.orders[id]);
    }
  }

  /** One leg of an OCO pair as first saved: a LIMIT SELL at `price`, GTC, OPEN, not yet linked. */
  function OcoLeg(id: nat, user: string, req: OcoRequest, price: real, now: int): Order
  {
    Order(
      id := id, userId := user, symbol := req.symbol, amount := req.amount, filledAmount := 0.0,
      price := price, side := Sell, orderType := Limit, status := Open,
      stopLoss := None, takeProfit := None, closeReason := None, trailingStopPercent := None,
      highestPrice := None, linkedOrderId := None, brokerId := Some(ChosenBrokerId(req.brokerId)),
      fee := 0.0, feeAsset := None, pnl := None, timeInForce := GTC, expiresAt := None, createdAt := now)
  }

  /** The two legs of an OCO pair, each pointing at the other. */
  function OcoLegs(n: nat, user: string, req: OcoRequest, now: int): (Order, Order)
  {
    (OcoLeg(n, user, req, req.stopLossPrice, now).(stopLoss := Some(req.stopLossPrice), linkedOrderId := Some(n + 1)),
     OcoLeg(n + 1, user, req, req.takeProfitPrice, now).(takeProfit := Some(req.takeProfitPrice), linkedOrderId := Some(n)))
  }

  function OcoSpec(w: World, user: string, req: OcoRequest, m: MarketSnapshot): Step<(Order, Order)>
  {
    if req.symbol !in m.prices then Step(w, Err(PriceUnavailable(req.symbol)))
    else if req.stopLossPrice >= m.prices[req.symbol] then Step(w, Err(InvalidOrder(OcoStopLossNotBelowMarket)))
    else if req.takeProfitPrice <= m.prices[req.symbol] then Step(w, Err(InvalidOrder(OcoTakeProfitNotAboveMarket)))
    else
      var (sl, tp) := OcoLegs(|w.orders|, user, req, m.now);
      Step(w.(orders := w.orders + [sl, tp]), Ok((sl, tp)))
  }

  /** An accepted OCO pair brackets the market, links its two legs both ways and locks nothing. */
  lemma OcoMeans(w: World, user: string, req: OcoRequest, m: MarketSnapshot)
    requires Indexed(w.orders)
    ensures var s := OcoSpec(w, user, req, m);
      s.world.wallets == w.wallets && s.world.risk == w.risk && Indexed(s.world.orders) &&
      (s.result.Ok? <==> req.symbol in m.prices && req.stopLossPrice < m.prices[req.symbol] < req.takeProfitPrice) &&
      (s.result.Err? ==> s.world == w) &&
      (s.result.Ok? ==>
        var (sl, tp) := s.result.value;
        |s.world.orders| == |w.orders| + 2 &&
        s.world.orders[sl.id] == sl && s.world.orders[tp.id] == tp &&
        sl.linkedOrderId == Some(tp.id) && tp.linkedOrderId == Some(sl.id) &&
        sl.status == Open && tp.status == Open && sl.side == Sell && tp.side == Sell &&
        sl.orderType == Limit && tp.orderType == Limit && sl.timeInForce == GTC && tp.timeInForce == GTC &&
        sl.price == req.stopLossPrice && tp.price == req.takeProfitPrice)
  {
  }

  /** `getOpenPositions(userId)`: the user's open positions in table order. */
  function OpenPositions(orders: seq<Order>, user: string): (r: seq<Order>)
    ensures forall o | o in r :: IsOpenPosition(o) && o.userId == user && o in orders
    ensures forall o | o in orders && IsOpenPosition(o) && o.userId == user :: o in r
    ensures |r| <= |orders|
  {
    if orders == [] then []
    else
      var rest := OpenPositions(orders[1..], user);
      assert forall o | o in orders[1..] :: o in orders;
      if IsOpenPosition(orders[0]) && orders[0].userId == user then [orders[0]] + rest else rest
  }

  // ---------------------------------------------------------------------------
  // handlePriceUpdate

  /** The repository query of `handlePriceUpdate`: OPEN LIMIT orders of the symbol, in table order. */
  function OpenLimitOrders(orders: seq<Order>, symbol: string): (r: seq<Order>)
    ensures forall o | o in r :: o in orders && o.status == Open && o.orderType == Limit && o.symbol == symbol
    ensures forall o | o in orders && o.status == Open && o.orderType == Limit && o.symbol == symbol :: o in r
    ensures |r| <= |orders|
  {
    if orders == [] then []
    else
      var rest := OpenLimitOrders(orders[1..], symbol);
      assert forall o | o in orders[1..] :: o in orders;
      var o := orders[0];
      if o.status == Open && o.orderType == Limit && o.symbol == symbol then [o] + rest else rest
  }

  /** A resting order the event price reaches: a BUY at or below its limit, a SELL at or above. */
  predicate Crosses(o: Order, price: real)
  {
    (o.side == Buy && price <= o.price) || (o.side == Sell && price >= o.price)
  }

  predicate IdsBelow(orders: seq<Order>, n: nat)
  {
    forall o | o in orders :: o.id < n
  }

  /** The loop of `handlePriceUpdate`: each order the price crosses is executed at the event
      price; the first failure ends the sweep. */
  function SweepSpec(w: World, batch: seq<Order>, price: real, slip: nat -> real): (r: Run)
    requires price >= 0.01 && IdsBelow(batch, |w.orders|)
    requires forall id: nat :: ValidSlippage(slip(id))
    ensures |r.world.orders| == |w.orders|
    decreases |batch|
  {
    if batch == [] then Run(w, Pass)
    else
      var o := batch[0];
      assert o in batch;
      assert IdsBelow(batch[1..], |w.orders|) by {
        forall o' | o' in batch[1..] ensures o'.id < |w.orders| { assert o' in batch; }
      }
      if Crosses(o, price) then
        var s := ExecuteStep(w, o, price, slip(o.id));
        if s.result.Err? then Run(s.world, Fail(s.result.error))
        else SweepSpec(s.world, batch[1..], price, slip)
      else SweepSpec(w, batch[1..], price, slip)
  }

  function Ids(batch: seq<Order>): set<nat>
  {
    set o | o in batch :: o.id
  }

  /** `x` is the order `o` FILLED in full at the event price. */
  predicate FilledAt(x: Order, o: Order, price: real)
  {
    x.status == Filled && x.price == price && x.filledAmount == o.amount
  }

  /** A successful execution fills its own order at the given price and touches no other order. */
  lemma ExecuteStepFills(w: World, o: Order, execPrice: real, slip: real)
    requires execPrice >= 0.01 && ValidSlippage(slip) && o.id < |w.orders|
    requires ExecuteStep(w, o, execPrice, slip).result.Ok?
    ensures var w1 := ExecuteStep(w, o, execPrice, slip).world;
      FilledAt(w1.orders[o.id], o, execPrice) &&
      forall i | 0 <= i < |w.orders| && i != o.id :: w1.orders[i] == w.orders[i]
  {
  }

  /** The tail of a batch of distinct ids below `n` is one too, and does not hold its head's id. */
  lemma DistinctTail(batch: seq<Order>, n: nat)
    requires batch != [] && IdsBelow(batch, n)
    requires forall i, j :: 0 <= i < j < |batch| ==> batch[i].id != batch[j].id
    ensures var rest := batch[1..];
      IdsBelow(rest, n) && batch[0].id !in Ids(rest) && batch[0].id < n &&
      (forall i, j :: 0 <= i < j < |rest| ==> rest[i].id != rest[j].id) &&
      (forall o | o in batch :: o == batch[0] || o in rest)
  {
    var rest := batch[1..];
    assert batch[0] in batch;
    assert IdsBelow(rest, n) by {
      forall o' | o' in rest ensures o'.id < n { assert o' in batch; }
    }
    assert batch[0].id !in Ids(rest) by {
      forall o' | o' in rest ensures o'.id != batch[0].id {
        var j :| 0 <= j < |rest| && rest[j] == o';
        assert batch[j + 1] == o';
      }
    }
    forall i, j | 0 <= i < j < |rest| ensures rest[i].id != rest[j].id {
      assert rest[i] == batch[i + 1] && rest[j] == batch[j + 1];
    }
    forall o | o in batch ensures o == batch[0] || o in rest {
      var k :| 0 <= k < |batch| && batch[k] == o;
      if k > 0 { assert rest[k - 1] == o; }
    }
  }

  /** After a sweep that ran to the end, every order of the batch the price crossed is FILLED at the
      event price and every other order is as it was. */
  lemma {:induction false} SweepFillsCrossing(w: World, batch: seq<Order>, price: real, slip: nat -> real)
    requires price >= 0.01 && IdsBelow(batch, |w.orders|)
    requires forall id: nat :: ValidSlippage(slip(id))
    requires forall i, j :: 0 <= i < j < |batch| ==> batch[i].id != batch[j].id
    requires SweepSpec(w, batch, price, slip).outcome.Pass?
    ensures var w' := SweepSpec(w, batch, price, slip).world;
      (forall o | o in batch && Crosses(o, price) :: FilledAt(w'.orders[o.id], o, price)) &&
      (forall i | 0 <= i < |w.orders| && i !in Ids(batch) :: w'.orders[i] == w.orders[i]) &&
      (forall o | o in batch && !Crosses(o, price) :: w'.orders[o.id] == w.orders[o.id])
    decreases |batch|
  {
    if batch != [] {
      var o := batch[0];
      var rest := batch[1..];
      DistinctTail(batch, |w.orders|);
      var w1 := if Crosses(o, price) then ExecuteStep(w, o, price, slip(o.id)).world else w;
      if Crosses(o, price) {
        ExecuteStepFills(w, o, price, slip(o.id));
      }
      SweepFillsCrossing(w1, rest, price, slip);
      var w' := SweepSpec(w1, rest, price, slip).world;
      assert SweepSpec(w, batch, price, slip).world == w';
      forall o' | o' in batch && Crosses(o', price)
        ensures FilledAt(w'.orders[o'.id], o', price)
      {
        if o' != o {
          assert o' in rest;
        }
      }
      forall i | 0 <= i < |w.orders| && i !in Ids(batch)
        ensures w'.orders[i] == w.orders[i]
      {
        assert o in batch;
        assert i != o.id;
        assert i !in Ids(rest) by {
          forall o' | o' in rest ensures o'.id != i { assert o' in batch; }
        }
      }
      forall o' | o' in batch && !Crosses(o', price)
        ensures w'.orders[o'.id] == w.orders[o'.id]
      {
        if o' != o {
          assert o' in rest;
          assert o'.id in Ids(rest);
        }
      }
    }
  }

  /** The entries of `orders` carry the consecutive ids `first`, `first + 1`, … */
  predicate IdsFrom(orders: seq<Order>, first: nat)
  {
    forall i | 0 <= i < |orders| :: orders[i].id == first + i
  }

  /** The ids along `r` increase and none is below `first`. */
  predicate IncreasingFrom(r: seq<Order>, first: nat)
  {
    (forall i | 0 <= i < |r| :: r[i].id >= first) &&
    (forall i, j | 0 <= i < j < |r| :: r[i].id < r[j].id)
  }

  lemma IdsFromTail(orders: seq<Order>, first: nat)
    requires orders != [] && IdsFrom(orders, first)
    ensures orders[0].id == first && IdsFrom(orders[1..], first + 1)
  {
    forall i | 0 <= i < |orders| - 1 ensures orders[1..][i].id == first + 1 + i {
      assert orders[1..][i] == orders[i + 1];
    }
  }

  lemma ConsIncreasing(o: Order, rest: seq<Order>, first: nat)
    requires o.id == first && IncreasingFrom(rest, first + 1)
    ensures IncreasingFrom([o] + rest, first) && IncreasingFrom(rest, first)
  {
    var r := [o] + rest;
    forall i, j | 0 <= i < j < |r| ensures r[i].id < r[j].id {
      assert r[j] == rest[j - 1];
      if i > 0 {
        assert r[i] == rest[i - 1];
      }
    }
  }

  /** The ids of the orders a filter keeps from a run of consecutive table entries are increasing
      and no smaller than the run's first id. */
  lemma {:induction false} OpenLimitOrdersIncreasing(orders: seq<Order>, symbol: string, first: nat)
    requires IdsFrom(orders, first)
    ensures IncreasingFrom(OpenLimitOrders(orders, symbol), first)
    decreases |orders|
  {
    if orders != [] {
      IdsFromTail(orders, first);
      OpenLimitOrdersIncreasing(orders[1..], symbol, first + 1);
      ConsIncreasing(orders[0], OpenLimitOrders(orders[1..], symbol), first);
    }
  }

  /** `handlePriceUpdate` on a consistent order table: when no execution fails, exactly the OPEN
      LIMIT orders of the symbol that the price crosses are FILLED at the event price, and every
      other order is left as it was. */
  lemma PriceUpdateFillsCrossing(w: World, symbol: string, price: real, slip: nat -> real)
    requires Indexed(w.orders) && price >= 0.01
    requires forall id: nat :: ValidSlippage(slip(id))
    requires var batch := OpenLimitOrders(w.orders, symbol);
      IdsBelow(batch, |w.orders|) && SweepSpec(w, batch, price, slip).outcome.Pass?
    ensures var w' := SweepSpec(w, OpenLimitOrders(w.orders, symbol), price, slip).world;
      |w'.orders| == |w.orders| &&
      forall i | 0 <= i < |w.orders| ::
        var o := w.orders[i];
        if o.status == Open && o.orderType == Limit && o.symbol == symbol && Crosses(o, price)
        then w'.orders[i].status == Filled && w'.orders[i].price == price && w'.orders[i].filledAmount == o.amount
        else w'.orders[i] == o
  {
    var batch := OpenLimitOrders(w.orders, symbol);
    assert IdsFrom(w.orders, 0);
    OpenLimitOrdersIncreasing(w.orders, symbol, 0);
    SweepFillsCrossing(w, batch, price, slip);
    var w' := SweepSpec(w, batch, price, slip).world;
    forall i | 0 <= i < |w.orders|
      ensures var o := w.orders[i];
        if o.status == Open && o.orderType == Limit && o.symbol == symbol && Crosses(o, price)
        then w'.orders[i].status == Filled && w'.orders[i].price == price && w'.orders[i].filledAmount == o.amount
        else w'.orders[i] == o
    {
      var o := w.orders[i];
      assert o in w.orders && o.id == i;
      if o.status == Open && o.orderType == Limit && o.symbol == symbol {
        assert o in batch;
      }
    }
  }
}
