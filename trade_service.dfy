/** `TradeService`: the order table is a field the methods reassign; the wallet ledger, the risk
    gate and the paper adapter are the collaborators it calls. */
module TradeEngine {
  import opened Wrappers
  import opened Money
  import opened Wallets
  import opened Broker
  import opened Orders
  import opened Risk
  import opened Paper
  import opened TradeRules

  class TradeService {
    const ledger: Ledger
    const risk: RiskGate
    const adapter: PaperAdapter
    var orders: seq<Order>

    ghost predicate Valid()
      reads this, ledger, risk, adapter
    {
      adapter.ledger == ledger && risk.ledger == ledger && ledger.Valid() && Indexed(orders)
    }

    ghost function State(): World
      reads this, ledger, risk
    {
      World(ledger.wallets, risk.settings, orders)
    }

    constructor (ledger: Ledger, risk: RiskGate, adapter: PaperAdapter)
      requires ledger.Valid() && adapter.ledger == ledger && risk.ledger == ledger
      ensures Valid() && orders == []
      ensures this.ledger == ledger && this.risk == risk && this.adapter == adapter
    {
      this.ledger := ledger;
      this.risk := risk;
      this.adapter := adapter;
      orders := [];
    }

    /** The repository's `save`: the stored copy of the order with this id is replaced. */
    method Save(o: Order)
      requires Valid() && o.id < |orders|
      modifies this
      ensures Valid() && orders == old(orders)[o.id := o]
    {
      orders := orders[o.id := o];
    }

    /** Fills `o` at `execPrice` through the adapter and saves it; nothing is saved when the
        adapter fails. */
    method ExecuteOrder(o: Order, execPrice: real, slip: real) returns (r: Result<Order, TradeError>)
      requires Valid() && execPrice >= 0.01 && ValidSlippage(slip) && o.id < |orders|
      modifies this, ledger
      ensures Valid()
      ensures Step(State(), r) == ExecuteStep(old(State()), o, execPrice, slip)
    {
      var lockedPrice := o.price;
      var order := o.(price := execPrice);
      var executed := adapter.ExecuteOrder(order, slip);
      if executed.Err? {
        return Err(ExecutionFailed(executed.error));
      }
      if order.orderType == Limit && order.side == Buy {
        var excess := Notional(order.amount, lockedPrice) - Notional(order.amount, execPrice);
        if excess > 0.0 {
          ledger.UnlockFunds(order.userId, Usd, excess);
        }
      }
      var saved := executed.value.(filledAmount := executed.value.amount);
      orders := orders[o.id := saved];
      r := Ok(saved);
    }

    method PlaceOrder(user: string, req: OrderRequest, m: MarketSnapshot, slip: real) returns (r: Result<Order, TradeError>)
      requires Valid() && Placeable(req, m) && ValidSlippage(slip)
      modifies this, ledger, risk
      ensures Valid()
      ensures Step(State(), r) == PlaceSpec(old(State()), user, req, m, slip)
    {
      if req.symbol !in m.prices {
        return Err(PriceUnavailable(req.symbol));
      }
      var current := m.prices[req.symbol];
      var checked := CheckRequest(req, current);
      if checked.Err? {
        return Err(InvalidOrder(checked.error));
      }
      var (price, tif) := checked.value;
      var total := Notional(req.amount, price);
      var sized := risk.CheckPositionSize(user, total, m.today, m.prices);
      if sized.Fail? {
        return Err(InvalidOrder(PositionTooLarge));
      }
      var daily := risk.CheckDailyLoss(user, m.today);
      if daily.Fail? {
        return Err(InvalidOrder(DailyLossLimitReached));
      }
      var locked;
      if req.side == Buy {
        locked := ledger.LockFunds(user, Usd, total);
      } else {
        locked := ledger.LockFunds(user, req.symbol, req.amount);
      }
      if locked.Fail? {
        return Err(Funds(locked.error));
      }
      var order := NewOrder(|orders|, user, req, price, tif, m.now);
      r := Submit(order, current, price, tif, slip);
    }

    /** Saves a new order whose funds are locked, then executes, cancels or rests it. */
    method Submit(order: Order, current: real, price: real, tif: TimeInForce, slip: real) returns (r: Result<Order, TradeError>)
      requires Valid() && (ExecutesAtOnce(order, current, price, tif) ==> current >= 0.01)
      requires ValidSlippage(slip) && order.id == |orders|
      modifies this, ledger
      ensures Valid()
      ensures Step(State(), r) == SubmitSpec(old(State()), order, current, price, tif, slip)
    {
      orders := orders + [order];
      if order.orderType == Market {
        r := ExecuteOrder(order, current, slip);
        return;
      }
      if tif == IOC {
        if CanFill(order.side, current, price) {
          r := ExecuteOrder(order, current, slip);
          return;
        }
        var _ := adapter.CancelOrder(order);
        var cancelled := order.(status := Cancelled);
        assert orders[order.id := cancelled] == old(orders) + [cancelled];
        orders := orders[order.id := cancelled];
        return Ok(cancelled);
      }
      r := Ok(order);
    }

    method CancelOrder(user: string, orderId: nat) returns (r: Result<Order, TradeError>)
      requires Valid()
      modifies this, ledger
      ensures Valid()
      ensures Step(State(), r) == CancelSpec(old(State()), user, orderId)
    {
      if orderId >= |orders| || orders[orderId].userId != user {
        return Err(OrderNotFound(orderId));
      }
      var order := orders[orderId];
      if order.status != Open {
        return Err(OrderNotCancellable(orderId, order.status));
      }
      var _ := adapter.CancelOrder(order);
      order := order.(status := Cancelled);
      orders := orders[orderId := order];
      r := Ok(order);
    }

    method PlaceOco(user: string, req: OcoRequest, m: MarketSnapshot) returns (r: Result<(Order, Order), TradeError>)
      requires Valid()
      modifies this
      ensures Valid()
      ensures Step(State(), r) == OcoSpec(old(State()), user, req, m)
    {
      if req.symbol !in m.prices {
        return Err(PriceUnavailable(req.symbol));
      }
      var current := m.prices[req.symbol];
      if req.stopLossPrice >= current {
        return Err(InvalidOrder(OcoStopLossNotBelowMarket));
      }
      if req.takeProfitPrice <= current {
        return Err(InvalidOrder(OcoTakeProfitNotAboveMarket));
      }
      var stopLossOrder := OcoLeg(|orders|, user, req, req.stopLossPrice, m.now).(stopLoss := Some(req.stopLossPrice));
      orders := orders + [stopLossOrder];
      var takeProfitOrder := OcoLeg(|orders|, user, req, req.takeProfitPrice, m.now).(takeProfit := Some(req.takeProfitPrice));
      orders := orders + [takeProfitOrder];
      stopLossOrder := stopLossOrder.(linkedOrderId := Some(takeProfitOrder.id));
      takeProfitOrder := takeProfitOrder.(linkedOrderId := Some(stopLossOrder.id));
      orders := orders[stopLossOrder.id := stopLossOrder][takeProfitOrder.id := takeProfitOrder];
      assert orders == old(orders) + [stopLossOrder, takeProfitOrder];
      r := Ok((stopLossOrder, takeProfitOrder));
    }

    /** One order of the sweep: executed at `price` when the price crosses it. */
    method SweepOrder(order: Order, ghost rest: seq<Order>, price: real, slip: nat -> real)
      returns (r: Outcome<TradeError>)
      requires Valid() && price >= 0.01
      requires forall id: nat :: ValidSlippage(slip(id))
      requires IdsBelow([order] + rest, |orders|)
      modifies this, ledger
      ensures Valid() && |orders| == |old(orders)|
      ensures r.Pass? ==> SweepSpec(old(State()), [order] + rest, price, slip) == SweepSpec(State(), rest, price, slip)
      ensures r.Fail? ==> SweepSpec(old(State()), [order] + rest, price, slip) == Run(State(), r)
    {
      ghost var batch := [order] + rest;
      assert order in batch && batch[0] == order && batch[1..] == rest;
      r := Pass;
      if order.side == Buy && price <= order.price {
        var e := ExecuteOrder(order, price, slip(order.id));
        if e.Err? {
          r := Fail(e.error);
        }
      } else if order.side == Sell && price >= order.price {
        var e := ExecuteOrder(order, price, slip(order.id));
        if e.Err? {
          r := Fail(e.error);
        }
      }
    }

    /** Executes the OPEN LIMIT orders of `symbol` that `price` crosses, in table order, each with
        the slippage drawn for it; an execution failure ends the sweep. */
    method HandlePriceUpdate(symbol: string, price: real, slip: nat -> real) returns (r: Outcome<TradeError>)
      requires Valid() && price >= 0.01
      requires forall id: nat :: ValidSlippage(slip(id))
      modifies this, ledger
      ensures Valid()
      ensures Run(State(), r) == SweepSpec(old(State()), OpenLimitOrders(old(orders), symbol), price, slip)
    {
      var batch := OpenLimitOrders(orders, symbol);
      assert IdsBelow(batch, |orders|) by {
        forall o | o in batch ensures o.id < |orders| {
          var j :| 0 <= j < |orders| && orders[j] == o;
        }
      }
      r := Sweep(batch, price, slip);
    }

    /** The loop of `handlePriceUpdate` over the open limit orders it collected. */
    method Sweep(batch: seq<Order>, price: real, slip: nat -> real) returns (r: Outcome<TradeError>)
      requires Valid() && price >= 0.01
      requires forall id: nat :: ValidSlippage(slip(id))
      requires IdsBelow(batch, |orders|)
      modifies this, ledger
      ensures Valid()
      ensures Run(State(), r) == SweepSpec(old(State()), batch, price, slip)
    {
      var i := 0;
      while i < |batch|
        invariant 0 <= i <= |batch|
        invariant Valid() && |orders| == |old(orders)|
        invariant IdsBelow(batch, |orders|)
        invariant SweepSpec(old(State()), batch, price, slip) == SweepSpec(State(), batch[i..], price, slip)
      {
        assert batch[i..] == [batch[i]] + batch[i + 1..];
        var e := SweepOrder(batch[i], batch[i + 1..], price, slip);
        if e.Fail? {
          return e;
        }
        i := i + 1;
      }
      r := Pass;
    }
  }
}
