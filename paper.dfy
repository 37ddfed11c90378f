/** Simulated execution against the wallet ledger (paper-trading.adapter.ts). */
module Paper {
  import opened Wrappers
  import opened Money
  import opened Wallets
  import opened Broker
  import opened Orders

  /** `1 + (Math.random() * 0.002 - 0.001)` with `Math.random()` in [0, 1). */
  predicate ValidSlippage(f: real)
  {
    0.999 <= f < 1.001
  }

  /** The slipped price, rounded to cents; a quoted price stays at least one cent. */
  function ExecutionPrice(price: real, slip: real): (r: real)
    ensures price >= 0.01 && ValidSlippage(slip) ==> r >= 0.01
  {
    SlippedPriceAtLeastACent(price, slip);
    RoundCents(price * slip)
  }

  lemma SlippedPriceAtLeastACent(price: real, slip: real)
    ensures price >= 0.01 && ValidSlippage(slip) ==> RoundCents(price * slip) >= 0.01
  {
    if price >= 0.01 && ValidSlippage(slip) {
      assert price * slip >= price * 0.999 by { MultiplyMonotone(price, 0.999, slip); }
      assert price * 0.999 >= 0.00999;
      RoundCentsMonotone(0.00999, price * slip);
      assert RoundCents(0.00999) == 0.01 by {
        assert 0.00999 * 100.0 + 0.5 == 1.499;
        assert (1.499).Floor == 1;
      }
    }
  }

  /** The execution price is within 0.1% and half a cent of the quoted price. */
  lemma ExecutionPriceNearPrice(price: real, slip: real)
    requires price >= 0.0 && ValidSlippage(slip)
    ensures price * 0.999 - 0.005 < ExecutionPrice(price, slip) < price * 1.001 + 0.005
  {
    assert price * slip >= price * 0.999 by { MultiplyMonotone(price, 0.999, slip); }
    assert price * slip <= price * 1.001 by { MultiplyMonotone(price, slip, 1.001); }
  }

  lemma MultiplyMonotone(p: real, a: real, b: real)
    requires p >= 0.0 && a <= b
    ensures p * a <= p * b
  {
  }

  /** The fee is the TAKER fee of the order's broker, `binance` when it has none. */
  function TakerFee(o: Order, execPrice: real): real
  {
    CalculateFee(o.amount, execPrice, Taker, Some(ChosenBrokerId(o.brokerId)))
  }

  /** `executeOrder` once the execution price is drawn: the ledger after settling `o` at
      `execPrice`, and the order as the adapter returns it; a failed deduction changes nothing. */
  function Settle(ws: WalletMap, o: Order, execPrice: real): Result<(WalletMap, Order), WalletError>
    requires execPrice > 0.0
  {
    var total := Notional(o.amount, execPrice);
    var fee := TakerFee(o, execPrice);
    var filled := o.(fee := fee, feeAsset := Some(Usd), status := Filled);
    if o.side == Buy then
      match AfterDeduct(ws, o.userId, Usd, total)
      case Err(e) => Err(e)
      case Ok(ws1) => Ok((AfterAdd(ws1, o.userId, o.symbol, Max(0.0, Per(total - fee, execPrice))), filled))
    else
      match AfterDeduct(ws, o.userId, o.symbol, o.amount)
      case Err(e) => Err(e)
      case Ok(ws1) => Ok((AfterAdd(ws1, o.userId, Usd, Max(0.0, total - fee)), filled))
  }

  /** A filled BUY pays `amount * execPrice` USD and receives, in the asset, what that money
      buys after the fee: asset received times price plus the fee is exactly the USD paid
      (when the fee does not exceed the total). */
  lemma SettleBuy(ws: WalletMap, o: Order, execPrice: real)
    requires execPrice > 0.0 && o.side == Buy && o.amount > 0.0
    requires o.symbol != Usd && (o.userId, Usd) in ws
    ensures var total := Notional(o.amount, execPrice);
      var fee := TakerFee(o, execPrice);
      var paid := ws[(o.userId, Usd)];
      var held := WalletOrEmpty(ws, o.userId, o.symbol);
      (Settle(ws, o, execPrice).Err? <==> paid.balance < total) &&
      (Settle(ws, o, execPrice).Ok? ==>
        var ws' := Settle(ws, o, execPrice).value.0;
        ws'[(o.userId, Usd)].balance == paid.balance - total &&
        ws'[(o.userId, Usd)].locked == paid.locked - Min(paid.locked, total) &&
        (fee <= total ==> (WalletOrEmpty(ws', o.userId, o.symbol).balance - held.balance) * execPrice + fee == total) &&
        (fee >= total ==> WalletOrEmpty(ws', o.userId, o.symbol) == held))
  {
    var total := Notional(o.amount, execPrice);
    assert total > 0.0 by { PositiveProduct(o.amount, execPrice); }
    var fee := TakerFee(o, execPrice);
    if Settle(ws, o, execPrice).Ok? {
      var ws1 := AfterDeduct(ws, o.userId, Usd, total).value;
      DeductEffect(ws, o.userId, Usd, total);
      var net := Max(0.0, Per(total - fee, execPrice));
      assert Settle(ws, o, execPrice).value.0 == AfterAdd(ws1, o.userId, o.symbol, net);
      assert WalletOrEmpty(ws1, o.userId, o.symbol) == WalletOrEmpty(ws, o.userId, o.symbol);
      if fee <= total {
        assert Per(total - fee, execPrice) * execPrice == total - fee;
        if net > 0.0 {
          DepositEffect(ws1, o.userId, o.symbol, net);
        }
      }
    }
  }

  lemma PositiveProduct(a: real, b: real)
    requires a > 0.0 && b > 0.0
    ensures a * b > 0.0
  {
  }

  /** A filled SELL gives up `amount` of the asset (checked against its whole balance) and
      receives the proceeds net of the fee, never a negative amount. */
  lemma SettleSell(ws: WalletMap, o: Order, execPrice: real)
    requires execPrice > 0.0 && o.side == Sell && o.amount > 0.0
    requires o.symbol != Usd && (o.userId, o.symbol) in ws
    ensures var proceeds := Max(0.0, Notional(o.amount, execPrice) - TakerFee(o, execPrice));
      var sold := ws[(o.userId, o.symbol)];
      var cash := WalletOrEmpty(ws, o.userId, Usd);
      (Settle(ws, o, execPrice).Err? <==> sold.balance < o.amount) &&
      (Settle(ws, o, execPrice).Ok? ==>
        var ws' := Settle(ws, o, execPrice).value.0;
        ws'[(o.userId, o.symbol)].balance == sold.balance - o.amount &&
        WalletOrEmpty(ws', o.userId, Usd).balance == cash.balance + proceeds &&
        WalletOrEmpty(ws', o.userId, Usd).locked == cash.locked)
  {
  }

  /** A successful settlement fills the order, records the TAKER fee in USD and keeps the
      ledger invariant; nothing but the user's USD wallet and asset wallet changes. */
  lemma SettleFills(ws: WalletMap, o: Order, execPrice: real)
    requires execPrice > 0.0 && WellFormed(ws)
    requires Settle(ws, o, execPrice).Ok?
    ensures var (ws', o') := Settle(ws, o, execPrice).value;
      o' == o.(fee := TakerFee(o, execPrice), feeAsset := Some(Usd), status := Filled) &&
      WellFormed(ws') &&
      forall k | k in ws && k != (o.userId, Usd) && k != (o.userId, o.symbol) :: k in ws' && ws'[k] == ws[k]
  {
    var total := Notional(o.amount, execPrice);
    var fee := TakerFee(o, execPrice);
    if o.side == Buy {
      DeductThenAdd(ws, o.userId, Usd, total, o.symbol, Max(0.0, Per(total - fee, execPrice)));
    } else {
      DeductThenAdd(ws, o.userId, o.symbol, o.amount, Usd, Max(0.0, total - fee));
    }
  }

  /** `cancelOrder`: the lock the order took at placement is released. */
  function Release(ws: WalletMap, o: Order): WalletMap
  {
    if o.side == Buy then AfterUnlock(ws, o.userId, Usd, Notional(o.amount, o.price))
    else AfterUnlock(ws, o.userId, o.symbol, o.amount)
  }

  /** Releasing never changes a balance and only lowers the `locked` of the order's wallet. */
  lemma ReleaseEffect(ws: WalletMap, o: Order)
    requires WellFormed(ws)
    ensures var ws' := Release(ws, o);
      var k := if o.side == Buy then (o.userId, Usd) else (o.userId, o.symbol);
      WellFormed(ws') && ws'.Keys == ws.Keys &&
      (forall k' | k' in ws :: ws'[k'].balance == ws[k'].balance) &&
      (forall k' | k' in ws && k' != k :: ws'[k'] == ws[k'])
  {
    if o.side == Buy {
      UnlockEffect(ws, o.userId, Usd, Notional(o.amount, o.price));
      OperationsKeepWellFormed(ws, o.userId, Usd, Notional(o.amount, o.price));
    } else {
      UnlockEffect(ws, o.userId, o.symbol, o.amount);
      OperationsKeepWellFormed(ws, o.userId, o.symbol, o.amount);
    }
  }

  /** The paper adapter: it works on the shared wallet ledger. */
  class PaperAdapter {
    const ledger: Ledger

    constructor (ledger: Ledger)
      ensures this.ledger == ledger
    {
      this.ledger := ledger;
    }

    method ExecuteOrder(o: Order, slip: real) returns (r: Result<Order, WalletError>)
      requires ledger.Valid()
      requires o.price >= 0.01 && ValidSlippage(slip)
      modifies ledger
      ensures ledger.Valid()
      ensures var execPrice := ExecutionPrice(o.price, slip);
        execPrice > 0.0 &&
        (Settle(old(ledger.wallets), o, execPrice).Err? ==>
          r == Err(Settle(old(ledger.wallets), o, execPrice).error) && ledger.wallets == old(ledger.wallets)) &&
        (Settle(old(ledger.wallets), o, execPrice).Ok? ==>
          r == Ok(Settle(old(ledger.wallets), o, execPrice).value.1) && ledger.wallets == Settle(old(ledger.wallets), o, execPrice).value.0)
    {
      var execPrice := ExecutionPrice(o.price, slip);
      var total := Notional(o.amount, execPrice);
      var brokerId := ChosenBrokerId(o.brokerId);
      var fee;
      if o.side == Buy {
        var d := ledger.DeductFunds(o.userId, Usd, total);
        if d.Fail? {
          return Err(d.error);
        }
        fee := CalculateFee(o.amount, execPrice, Taker, Some(brokerId));
        var netAmount := Per(total - fee, execPrice);
        if netAmount < 0.0 {
          netAmount := 0.0;
        }
        ledger.AddFunds(o.userId, o.symbol, netAmount);
      } else {
        var d := ledger.DeductFunds(o.userId, o.symbol, o.amount);
        if d.Fail? {
          return Err(d.error);
        }
        fee := CalculateFee(o.amount, execPrice, Taker, Some(brokerId));
        var netTotal := total - fee;
        ledger.AddFunds(o.userId, Usd, if netTotal > 0.0 then netTotal else 0.0);
      }
      r := Ok(o.(fee := fee, feeAsset := Some(Usd), status := Filled));
    }

    method CancelOrder(o: Order) returns (released: bool)
      requires ledger.Valid()
      modifies ledger
      ensures ledger.Valid()
      ensures ledger.wallets == Release(old(ledger.wallets), o)
      ensures released
    {
      if o.side == Buy {
        ledger.UnlockFunds(o.userId, Usd, Notional(o.amount, o.price));
      } else {
        ledger.UnlockFunds(o.userId, o.symbol, o.amount);
      }
      released := true;
    }
  }
}
