/** The trigger monitor (trade-monitor.service.ts): on each tick, every open position is checked
    against its trailing stop, stop-loss and take-profit, and OPEN GTD orders past their expiry
    are expired. The rules are functions of the engine's state; `TradeMonitor` is proved equal to
    them. */
module TriggerMonitor {
  import opened Wrappers
  import opened Money
  import opened Orders
  import opened Paper
  import opened TradeRules
  import opened TradeEngine

  // ---------------------------------------------------------------------------
  // The per-position rule

  /** The peak a trailing stop is measured from: the recorded highest price, or the entry price
      when none is recorded. */
  function PreviousPeak(o: Order): real
  {
    if Truthy(o.highestPrice) then o.highestPrice.value else o.price
  }

  /** The trailing-stop level `percent` below `peak`. */
  function TrailingTrigger(peak: real, percent: real): (r: real)
    ensures 0.0 <= percent <= 100.0 && peak >= 0.0 ==> 0.0 <= r <= peak
    ensures percent > 0.0 && peak > 0.0 ==> r < peak
  {
    TrailingBounds(peak, percent);
    peak * (1.0 - percent / 100.0)
  }

  lemma TrailingBounds(peak: real, percent: real)
    ensures 0.0 <= percent <= 100.0 && peak >= 0.0 ==> 0.0 <= peak * (1.0 - percent / 100.0) <= peak
    ensures percent > 0.0 && peak > 0.0 ==> peak * (1.0 - percent / 100.0) < peak
  {
    var keep := 1.0 - percent / 100.0;
    if 0.0 <= percent <= 100.0 && peak >= 0.0 {
      MultiplyMonotone(peak, keep, 1.0);
      MultiplyMonotone(peak, 0.0, keep);
    }
    if percent > 0.0 && peak > 0.0 {
      StrictlyMonotone(peak, keep, 1.0);
    }
  }

  lemma StrictlyMonotone(x: real, a: real, b: real)
    requires x > 0.0 && a < b
    ensures x * a < x * b
  {
    PositiveProduct(x, b - a);
  }

  /** Whether a trailing-stop position sees a new peak at the current price. */
  predicate Raises(o: Order, current: real)
  {
    Truthy(o.trailingStopPercent) && current > PreviousPeak(o)
  }

  /** The position after the trailing-stop update of its peak. */
  function Ratchet(o: Order, current: real): Order
  {
    if Raises(o, current) then o.(highestPrice := Some(current)) else o
  }

  /** The peak of a trailing stop follows the running maximum of the prices seen and never
      decreases; nothing but the peak changes, and only for a trailing-stop position. */
  lemma RatchetIsRunningMaximum(o: Order, current: real)
    requires current > 0.0
    ensures Truthy(o.trailingStopPercent) ==> PreviousPeak(Ratchet(o, current)) == Max(PreviousPeak(o), current)
    ensures PreviousPeak(Ratchet(o, current)) >= PreviousPeak(o)
    ensures Ratchet(o, current) == o.(highestPrice := Ratchet(o, current).highestPrice)
    ensures !Truthy(o.trailingStopPercent) ==> Ratchet(o, current) == o
  {
  }

  /** Which rule fires for a position (its peak already updated) at the current price, tried in
      the order trailing stop, stop-loss, take-profit; an absent or zero level is not checked. */
  function Trigger(o: Order, current: real): Option<CloseReason>
  {
    if Truthy(o.trailingStopPercent) && current <= TrailingTrigger(PreviousPeak(o), o.trailingStopPercent.value) then
      Some(TrailingStop)
    else if Truthy(o.stopLoss) && current <= o.stopLoss.value then Some(StopLoss)
    else if Truthy(o.takeProfit) && current >= o.takeProfit.value then Some(TakeProfit)
    else None
  }

  predicate TrailingHit(o: Order, current: real)
  {
    Truthy(o.trailingStopPercent) && current <= TrailingTrigger(PreviousPeak(o), o.trailingStopPercent.value)
  }

  predicate StopLossHit(o: Order, current: real)
  {
    Truthy(o.stopLoss) && current <= o.stopLoss.value
  }

  predicate TakeProfitHit(o: Order, current: real)
  {
    Truthy(o.takeProfit) && current >= o.takeProfit.value
  }

  /** The trailing stop takes precedence over the stop-loss, which takes precedence over the
      take-profit; a rule fires only when its level is reached, and some rule fires whenever one
      is reached. */
  lemma TriggerPriority(o: Order, current: real)
    ensures Trigger(o, current) == Some(TrailingStop) <==> TrailingHit(o, current)
    ensures Trigger(o, current) == Some(StopLoss) <==> !TrailingHit(o, current) && StopLossHit(o, current)
    ensures Trigger(o, current) == Some(TakeProfit) <==>
      !TrailingHit(o, current) && !StopLossHit(o, current) && TakeProfitHit(o, current)
    ensures Trigger(o, current).None? <==>
      !TrailingHit(o, current) && !StopLossHit(o, current) && !TakeProfitHit(o, current)
    ensures Trigger(o, current) != Some(OcoCancelled) && Trigger(o, current) != Some(ExpiredReason)
  {
  }

  /** A trailing stop of p percent (0 < p <= 100) fires at the new peak only if the price has
      fallen since: a price that just set the peak never triggers it. */
  lemma NewPeakDoesNotTrail(o: Order, current: real)
    requires current > 0.0 && Raises(o, current) && o.trailingStopPercent.value <= 100.0 && o.trailingStopPercent.value > 0.0
    ensures !TrailingHit(Ratchet(o, current), current)
  {
  }

  // ---------------------------------------------------------------------------
  // Closing a position

  /** The MARKET SELL of the whole position, with the position's broker. */
  function ExitRequest(o: Order): OrderRequest
  {
    OrderRequest(
      symbol := o.symbol, amount := o.amount, side := Sell, orderType := Some(Market), price := None,
      stopLoss := None, takeProfit := None, brokerId := o.brokerId, timeInForce := None,
      expiresAt := None, trailingStopPercent := None)
  }

  /** The position closed by `reason` at `price`, with the profit rounded to cents. */
  function Closed(o: Order, price: real, reason: CloseReason): (c: Order)
    ensures c.closeReason == Some(reason) && c.pnl.Some?
    ensures o.amount >= 0.0 && price >= o.price ==> c.pnl.value >= 0.0
    ensures c.id == o.id && c.status == o.status && c.amount == o.amount
  {
    var profit := Notional(o.amount, price - o.price);
    assert o.amount >= 0.0 && price >= o.price ==> RoundCents(profit) >= 0.0 by {
      if o.amount >= 0.0 && price >= o.price {
        MultiplyMonotone(o.amount, 0.0, price - o.price);
        RoundCentsNonNegative(profit);
      }
    }
    o.(closeReason := Some(reason), pnl := Some(RoundCents(profit)))
  }

  /** `cancelLinkedOrder`: the linked order is cancelled as an OCO sibling unless it is already closed. */
  function CancelLinked(w: World, id: nat): (r: World)
    ensures r.wallets == w.wallets && r.risk == w.risk && |r.orders| == |w.orders|
  {
    if id < |w.orders| && w.orders[id].closeReason.None? then
      w.(orders := w.orders[id := w.orders[id].(status := Cancelled, closeReason := Some(OcoCancelled))])
    else w
  }

  /** `executeTrigger`: sell the position at the market; only if the sale goes through is the
      position closed with its profit and its OCO sibling cancelled. A failed sale is swallowed,
      with whatever it had already changed. */
  ghost function TriggerSpec(w: World, o: Order, price: real, reason: CloseReason, m: MarketSnapshot, slip: nat -> real): (r: World)
    requires ValidMarket(m) && (forall id: nat :: ValidSlippage(slip(id))) && o.id < |w.orders|
    ensures |w.orders| <= |r.orders|
  {
    var s := PlaceSpec(w, o.userId, ExitRequest(o), m, slip(|w.orders|));
    if s.result.Err? then s.world
    else
      var closed := Closed(o, price, reason);
      var w1 := s.world.(orders := s.world.orders[o.id := closed]);
      if closed.linkedOrderId.Some? then CancelLinked(w1, closed.linkedOrderId.value) else w1
  }

  /** `checkSingleOrder`: anything but an open position is skipped; a symbol without a quote makes
      `getPrice` throw, which ends the tick; otherwise the peak is updated and saved, and the first
      rule that fires closes the position. */
  ghost function CheckSingleSpec(w: World, o: Order, m: MarketSnapshot, slip: nat -> real): (r: Run)
    requires ValidMarket(m) && (forall id: nat :: ValidSlippage(slip(id))) && o.id < |w.orders|
    ensures |w.orders| <= |r.world.orders|
    ensures r.outcome.Fail? <==> IsOpenPosition(o) && o.symbol !in m.prices
    ensures r.outcome.Fail? ==> r == Run(w, Fail(PriceUnavailable(o.symbol)))
  {
    if !IsOpenPosition(o) then Run(w, Pass)
    else if o.symbol !in m.prices then Run(w, Fail(PriceUnavailable(o.symbol)))
    else
      var current := m.prices[o.symbol];
      var o1 := Ratchet(o, current);
      var w1 := if Raises(o, current) then w.(orders := w.orders[o.id := o1]) else w;
      match Trigger(o1, current)
      case None => Run(w1, Pass)
      case Some(reason) => Run(TriggerSpec(w1, o1, current, reason, m, slip), Pass)
  }

  /** A triggered position whose sale succeeds is closed with the rule that fired and its profit
      at the trigger price; when the sale fails the stored position keeps no close reason. */
  lemma TriggerOutcome(w: World, o: Order, price: real, reason: CloseReason, m: MarketSnapshot, slip: nat -> real)
    requires ValidMarket(m) && (forall id: nat :: ValidSlippage(slip(id))) && o.id < |w.orders|
    requires IsOpenPosition(o) && w.orders[o.id] == o
    ensures var s := PlaceSpec(w, o.userId, ExitRequest(o), m, slip(|w.orders|));
      var r := TriggerSpec(w, o, price, reason, m, slip);
      (s.result.Ok? ==> r.orders[o.id] == Closed(o, price, reason)) &&
      (s.result.Err? ==> r.orders[o.id] == o && r.orders[o.id].closeReason.None?)
  {
    var s := PlaceSpec(w, o.userId, ExitRequest(o), m, slip(|w.orders|));
    if s.result.Err? {
      assert s.world.orders[o.id] == s.world.orders[..|w.orders|][o.id];
    } else {
      var closed := Closed(o, price, reason);
      var w1 := s.world.(orders := s.world.orders[o.id := closed]);
      if closed.linkedOrderId.Some? {
        CancelLinkedMeans(w1, closed.linkedOrderId.value);
      }
    }
  }

  /** Cancelling a linked order never reopens or overwrites a closed one, and changes no other order. */
  lemma CancelLinkedMeans(w: World, id: nat)
    ensures var r := CancelLinked(w, id);
      (forall i | 0 <= i < |w.orders| && i != id :: r.orders[i] == w.orders[i]) &&
      (id < |w.orders| && w.orders[id].closeReason.Some? ==> r == w) &&
      (id < |w.orders| && w.orders[id].closeReason.None? ==>
        r.orders[id].status == Cancelled && r.orders[id].closeReason == Some(OcoCancelled))
  {
  }

  // ---------------------------------------------------------------------------
  // The tick

  /** The repository's `findOpenPositions`: every user's open positions, in table order. */
  function AllOpenPositions(orders: seq<Order>): (r: seq<Order>)
    ensures forall o | o in r :: IsOpenPosition(o) && o in orders
    ensures forall o | o in orders && IsOpenPosition(o) :: o in r
  {
    if orders == [] then []
    else
      var rest := AllOpenPositions(orders[1..]);
      assert forall o | o in orders[1..] :: o in orders;
      if IsOpenPosition(orders[0]) then [orders[0]] + rest else rest
  }

  /** The positions loop of `checkOrders`, each position checked as it was when the tick began;
      the first position without a quote throws out of the loop. */
  ghost function PositionsSpec(w: World, positions: seq<Order>, m: MarketSnapshot, slip: nat -> real): (r: Run)
    requires ValidMarket(m) && (forall id: nat :: ValidSlippage(slip(id))) && IdsBelow(positions, |w.orders|)
    ensures |w.orders| <= |r.world.orders|
    decreases |positions|
  {
    if positions == [] then Run(w, Pass)
    else
      var r1 := CheckSingleSpec(w, positions[0], m, slip);
      if r1.outcome.Fail? then r1
      else
        assert IdsBelow(positions[1..], |r1.world.orders|) by {
          forall o | o in positions[1..] ensures o.id < |r1.world.orders| { assert o in positions; }
        }
        PositionsSpec(r1.world, positions[1..], m, slip)
  }

  /** An open position whose symbol has no quote. */
  predicate Unpriced(o: Order, m: MarketSnapshot)
  {
    IsOpenPosition(o) && o.symbol !in m.prices
  }

  /** The positions loop throws exactly when some position has no quote. */
  lemma {:induction false} LoopFailsIffUnpriced(w: World, positions: seq<Order>, m: MarketSnapshot, slip: nat -> real)
    requires ValidMarket(m) && (forall id: nat :: ValidSlippage(slip(id))) && IdsBelow(positions, |w.orders|)
    ensures PositionsSpec(w, positions, m, slip).outcome.Fail? <==> exists o | o in positions :: Unpriced(o, m)
    decreases |positions|
  {
    if positions != [] {
      var r1 := CheckSingleSpec(w, positions[0], m, slip);
      var rest := positions[1..];
      assert positions[0] in positions;
      if r1.outcome.Pass? {
        assert IdsBelow(rest, |r1.world.orders|) by {
          forall o | o in rest ensures o.id < |r1.world.orders| { assert o in positions; }
        }
        LoopFailsIffUnpriced(r1.world, rest, m, slip);
        UnpricedInTail(positions, m);
      }
    }
  }

  /** A list holds a position without a quote exactly when its head is one or its tail holds one. */
  lemma UnpricedInTail(positions: seq<Order>, m: MarketSnapshot)
    requires positions != []
    ensures (exists o | o in positions :: Unpriced(o, m)) <==>
      Unpriced(positions[0], m) || exists o | o in positions[1..] :: Unpriced(o, m)
  {
    assert positions == [positions[0]] + positions[1..];
  }

  /** When the k-th position is the first without a quote, the loop throws there: the positions
      before it have been checked and the ones after it are never looked at. */
  lemma {:induction false} StopsAtFirstUnpriced(w: World, positions: seq<Order>, m: MarketSnapshot, slip: nat -> real, k: nat)
    requires ValidMarket(m) && (forall id: nat :: ValidSlippage(slip(id))) && IdsBelow(positions, |w.orders|)
    requires k < |positions| && Unpriced(positions[k], m) && forall j | 0 <= j < k :: !Unpriced(positions[j], m)
    ensures IdsBelow(positions[..k], |w.orders|)
    ensures PositionsSpec(w, positions, m, slip) ==
      Run(PositionsSpec(w, positions[..k], m, slip).world, Fail(PriceUnavailable(positions[k].symbol)))
    decreases k
  {
    assert IdsBelow(positions[..k], |w.orders|) by {
      forall o | o in positions[..k] ensures o.id < |w.orders| { assert o in positions; }
    }
    if k > 0 {
      var r1 := CheckSingleSpec(w, positions[0], m, slip);
      var rest := positions[1..];
      assert IdsBelow(rest, |r1.world.orders|) by {
        forall o | o in rest ensures o.id < |r1.world.orders| { assert o in positions; }
      }
      assert rest[k - 1] == positions[k];
      forall j | 0 <= j < k - 1 ensures !Unpriced(rest[j], m) {
        assert rest[j] == positions[j + 1];
      }
      StopsAtFirstUnpriced(r1.world, rest, m, slip, k - 1);
      assert positions[..k][0] == positions[0] && positions[..k][1..] == rest[..k - 1];
    }
  }

  /** An OPEN GTD order whose expiry time has been reached. */
  predicate ShouldExpire(o: Order, now: int)
  {
    o.status == Open && o.timeInForce == GTD && o.expiresAt.Some? && o.expiresAt.value <= now
  }

  function Expire(o: Order): Order
  {
    o.(status := Expired, closeReason := Some(ExpiredReason))
  }

  /** `checkExpiredOrders`: the order table after the expiry sweep. */
  function ExpireAll(orders: seq<Order>, now: int): (r: seq<Order>)
    ensures |r| == |orders|
  {
    seq(|orders|, i requires 0 <= i < |orders| => if ShouldExpire(orders[i], now) then Expire(orders[i]) else orders[i])
  }

  /** The expiry sweep expires exactly the OPEN GTD orders due by `now`, keeps every identifier,
      leaves no order it should have expired OPEN, and changes nothing else. */
  lemma ExpiryMeans(orders: seq<Order>, now: int)
    ensures var r := ExpireAll(orders, now);
      (Indexed(orders) ==> Indexed(r)) &&
      (forall i | 0 <= i < |orders| ::
        (ShouldExpire(orders[i], now) ==> r[i].status == Expired && r[i].closeReason == Some(ExpiredReason)) &&
        (!ShouldExpire(orders[i], now) ==> r[i] == orders[i]) &&
        !ShouldExpire(r[i], now))
  {
  }

  /** `checkOrders`: check every open position, then expire due GTD orders, but only on a tick
      that found at least one open position and checked them all without throwing. */
  ghost function CheckOrdersSpec(w: World, m: MarketSnapshot, slip: nat -> real): Run
    requires ValidMarket(m) && (forall id: nat :: ValidSlippage(slip(id))) && Indexed(w.orders)
  {
    var positions := AllOpenPositions(w.orders);
    if positions == [] then Run(w, Pass)
    else
      assert IdsBelow(positions, |w.orders|) by {
        forall o | o in positions ensures o.id < |w.orders| {
          var i :| 0 <= i < |w.orders| && w.orders[i] == o;
        }
      }
      var r1 := PositionsSpec(w, positions, m, slip);
      if r1.outcome.Fail? then r1
      else Run(r1.world.(orders := ExpireAll(r1.world.orders, m.now)), Pass)
  }

  /** A tick with no open position changes nothing, not even orders that are due to expire. */
  lemma QuietTickSkipsExpiry(w: World, m: MarketSnapshot, slip: nat -> real)
    requires ValidMarket(m) && (forall id: nat :: ValidSlippage(slip(id))) && Indexed(w.orders)
    requires forall o | o in w.orders :: !IsOpenPosition(o)
    ensures CheckOrdersSpec(w, m, slip) == Run(w, Pass)
  {
  }

  /** A tick throws exactly when some open position's symbol has no quote. */
  lemma TickFailsIffUnpriced(w: World, m: MarketSnapshot, slip: nat -> real)
    requires ValidMarket(m) && (forall id: nat :: ValidSlippage(slip(id))) && Indexed(w.orders)
    ensures CheckOrdersSpec(w, m, slip).outcome.Fail? <==> exists i | 0 <= i < |w.orders| :: Unpriced(w.orders[i], m)
  {
    var positions := AllOpenPositions(w.orders);
    if positions != [] {
      assert IdsBelow(positions, |w.orders|) by {
        forall o | o in positions ensures o.id < |w.orders| {
          var i :| 0 <= i < |w.orders| && w.orders[i] == o;
        }
      }
      LoopFailsIffUnpriced(w, positions, m, slip);
    }
    if exists i | 0 <= i < |w.orders| :: Unpriced(w.orders[i], m) {
      var i :| 0 <= i < |w.orders| && Unpriced(w.orders[i], m);
      assert w.orders[i] in positions;
    }
  }

  /** A tick that meets an open position without a quote, the k-th in table order and the first
      such, ends there with the state the earlier positions left: no GTD order is expired. */
  lemma TickStopsAtFirstUnpriced(w: World, m: MarketSnapshot, slip: nat -> real, k: nat)
    requires ValidMarket(m) && (forall id: nat :: ValidSlippage(slip(id))) && Indexed(w.orders)
    requires var positions := AllOpenPositions(w.orders);
      k < |positions| && Unpriced(positions[k], m) && forall j | 0 <= j < k :: !Unpriced(positions[j], m)
    ensures var positions := AllOpenPositions(w.orders);
      IdsBelow(positions[..k], |w.orders|) &&
      CheckOrdersSpec(w, m, slip) ==
        Run(PositionsSpec(w, positions[..k], m, slip).world, Fail(PriceUnavailable(positions[k].symbol)))
  {
    var positions := AllOpenPositions(w.orders);
    assert IdsBelow(positions, |w.orders|) by {
      forall o | o in positions ensures o.id < |w.orders| {
        var i :| 0 <= i < |w.orders| && w.orders[i] == o;
      }
    }
    StopsAtFirstUnpriced(w, positions, m, slip, k);
  }

  // ---------------------------------------------------------------------------
  // The service

  class TradeMonitor {
    const engine: TradeService

    constructor (engine: TradeService)
      ensures this.engine == engine
    {
      this.engine := engine;
    }

    /** The `@Interval(1000)` tick; `Fail` is the error that escapes it. */
    method CheckOrders(m: MarketSnapshot, slip: nat -> real) returns (r: Outcome<TradeError>)
      requires engine.Valid() && ValidMarket(m) && forall id: nat :: ValidSlippage(slip(id))
      modifies engine, engine.ledger, engine.risk
      ensures engine.Valid()
      ensures Run(engine.State(), r) == CheckOrdersSpec(old(engine.State()), m, slip)
    {
      var positions := AllOpenPositions(engine.orders);
      if positions == [] {
        return Pass;
      }
      assert IdsBelow(positions, |engine.orders|) by {
        forall o | o in positions ensures o.id < |engine.orders| {
          var i :| 0 <= i < |engine.orders| && engine.orders[i] == o;
        }
      }
      r := CheckPositions(positions, m, slip);
      if r.Fail? {
        return;
      }
      CheckExpiredOrders(m.now);
    }

    /** The positions loop of `checkOrders`. */
    method CheckPositions(positions: seq<Order>, m: MarketSnapshot, slip: nat -> real) returns (r: Outcome<TradeError>)
      requires engine.Valid() && ValidMarket(m) && (forall id: nat :: ValidSlippage(slip(id)))
      requires IdsBelow(positions, |engine.orders|)
      modifies engine, engine.ledger, engine.risk
      ensures engine.Valid()
      ensures Run(engine.State(), r) == PositionsSpec(old(engine.State()), positions, m, slip)
    {
      var i := 0;
      while i < |positions|
        invariant 0 <= i <= |positions|
        invariant engine.Valid() && IdsBelow(positions, |engine.orders|)
        invariant PositionsSpec(old(engine.State()), positions, m, slip) == PositionsSpec(engine.State(), positions[i..], m, slip)
      {
        assert positions[i..][0] == positions[i] && positions[i..][1..] == positions[i + 1..];
        assert positions[i] in positions;
        assert IdsBelow(positions[i..], |engine.orders|) by {
          forall o | o in positions[i..] ensures o.id < |engine.orders| { assert o in positions; }
        }
        r := CheckSingleOrder(positions[i], m, slip);
        if r.Fail? {
          return;
        }
        i := i + 1;
      }
      r := Pass;
    }

    method CheckSingleOrder(o: Order, m: MarketSnapshot, slip: nat -> real) returns (r: Outcome<TradeError>)
      requires engine.Valid() && ValidMarket(m) && (forall id: nat :: ValidSlippage(slip(id))) && o.id < |engine.orders|
      modifies engine, engine.ledger, engine.risk
      ensures engine.Valid()
      ensures Run(engine.State(), r) == CheckSingleSpec(old(engine.State()), o, m, slip)
    {
      if o.status != Filled || o.side != Buy || o.closeReason.Some? {
        return Pass;
      }
      if o.symbol !in m.prices {
        return Fail(PriceUnavailable(o.symbol));
      }
      r := Pass;
      var current := m.prices[o.symbol];
      var order := o;
      if Truthy(order.trailingStopPercent) {
        var prev := PreviousPeak(order);
        if current > prev {
          order := order.(highestPrice := Some(current));
          engine.Save(order);
        }
        var peak := PreviousPeak(order);
        if current <= TrailingTrigger(peak, order.trailingStopPercent.value) {
          ExecuteTrigger(order, current, TrailingStop, m, slip);
          return;
        }
      }
      if Truthy(order.stopLoss) && current <= order.stopLoss.value {
        ExecuteTrigger(order, current, StopLoss, m, slip);
        return;
      }
      if Truthy(order.takeProfit) && current >= order.takeProfit.value {
        ExecuteTrigger(order, current, TakeProfit, m, slip);
        return;
      }
    }

    method ExecuteTrigger(order: Order, price: real, reason: CloseReason, m: MarketSnapshot, slip: nat -> real)
      requires engine.Valid() && ValidMarket(m) && (forall id: nat :: ValidSlippage(slip(id))) && order.id < |engine.orders|
      modifies engine, engine.ledger, engine.risk
      ensures engine.Valid()
      ensures engine.State() == TriggerSpec(old(engine.State()), order, price, reason, m, slip)
    {
      var placed := engine.PlaceOrder(order.userId, ExitRequest(order), m, slip(|engine.orders|));
      if placed.Err? {
        return;
      }
      var closed := Closed(order, price, reason);
      engine.Save(closed);
      if closed.linkedOrderId.Some? {
        CancelLinkedOrder(closed.linkedOrderId.value);
      }
    }

    method CancelLinkedOrder(linkedOrderId: nat)
      requires engine.Valid()
      modifies engine
      ensures engine.Valid()
      ensures engine.State() == CancelLinked(old(engine.State()), linkedOrderId)
    {
      if linkedOrderId < |engine.orders| && engine.orders[linkedOrderId].closeReason.None? {
        var linked := engine.orders[linkedOrderId].(status := Cancelled, closeReason := Some(OcoCancelled));
        engine.Save(linked);
      }
    }

    method CheckExpiredOrders(now: int)
      requires engine.Valid()
      modifies engine
      ensures engine.Valid()
      ensures engine.orders == ExpireAll(old(engine.orders), now)
    {
      ghost var expired := ExpireAll(engine.orders, now);
      var i := 0;
      while i < |engine.orders|
        invariant 0 <= i <= |engine.orders| == |expired|
        invariant engine.Valid()
        invariant forall k | 0 <= k < i :: engine.orders[k] == expired[k]
        invariant forall k | i <= k < |engine.orders| :: engine.orders[k] == old(engine.orders)[k]
      {
        var order := engine.orders[i];
        if order.status == Open && order.timeInForce == GTD && order.expiresAt.Some? && order.expiresAt.value <= now {
          engine.Save(Expire(order));
        }
        i := i + 1;
      }
    }
  }
}
