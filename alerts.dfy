/** Price alerts (alert.service.ts): one-shot ABOVE/BELOW triggers checked on every price event.
    The alert table is a map from identifier to alert; identifiers are handed out in sequence. */
module PriceAlerts {
  datatype Condition = Above | Below

  datatype Alert = Alert(id: nat, userId: string, symbol: string, condition: Condition, targetPrice: real, triggered: bool)

  type AlertTable = map<nat, Alert>

  /** Whether the price meets an alert's condition. */
  predicate ConditionMet(condition: Condition, price: real, target: real)
  {
    (condition == Above && price >= target) || (condition == Below && price <= target)
  }

  /** An alert that a price event for `symbol` at `price` fires: untriggered, on that symbol, with
      its condition met. */
  predicate Fires(a: Alert, symbol: string, price: real)
  {
    a.symbol == symbol && !a.triggered && ConditionMet(a.condition, price, a.targetPrice)
  }

  /** The alert table after `onPriceUpdate(symbol, price)`. */
  function AfterPriceUpdate(alerts: AlertTable, symbol: string, price: real): (r: AlertTable)
    ensures r.Keys == alerts.Keys
  {
    map id | id in alerts :: if Fires(alerts[id], symbol, price) then alerts[id].(triggered := true) else alerts[id]
  }

  /** A price event marks exactly the alerts it fires as triggered, changes nothing else about
      them, and leaves every other alert as it was. */
  lemma PriceUpdateEffect(alerts: AlertTable, symbol: string, price: real)
    ensures var r := AfterPriceUpdate(alerts, symbol, price);
      forall id | id in alerts ::
        (Fires(alerts[id], symbol, price) ==> r[id] == alerts[id].(triggered := true)) &&
        (!Fires(alerts[id], symbol, price) ==> r[id] == alerts[id]) &&
        (r[id].triggered <==> alerts[id].triggered || Fires(alerts[id], symbol, price))
  {
  }

  /** Alerts fire at most once: no alert fires on two price events in a row, nor on any later one. */
  lemma FiresAtMostOnce(alerts: AlertTable, s1: string, p1: real, s2: string, p2: real)
    ensures var r := AfterPriceUpdate(alerts, s1, p1);
      forall id | id in alerts && Fires(alerts[id], s1, p1) :: !Fires(r[id], s2, p2)
  {
  }

  /** Once triggered, an alert stays triggered whatever events follow. */
  lemma {:induction false} TriggeredIsFinal(alerts: AlertTable, events: seq<(string, real)>, id: nat)
    requires id in alerts && alerts[id].triggered
    ensures var r := Replay(alerts, events); id in r && r[id] == alerts[id]
    decreases |events|
  {
    if events != [] {
      TriggeredIsFinal(AfterPriceUpdate(alerts, events[0].0, events[0].1), events[1..], id);
    }
  }

  /** A sequence of price events applied in order. */
  function Replay(alerts: AlertTable, events: seq<(string, real)>): (r: AlertTable)
    ensures r.Keys == alerts.Keys
    decreases |events|
  {
    if events == [] then alerts else Replay(AfterPriceUpdate(alerts, events[0].0, events[0].1), events[1..])
  }

  class AlertService {
    var alerts: AlertTable
    var nextId: nat

    ghost predicate Valid()
      reads this
    {
      forall id | id in alerts :: id < nextId && alerts[id].id == id
    }

    constructor ()
      ensures Valid() && alerts == map[]
    {
      alerts := map[];
      nextId := 0;
    }

    /** `createAlert`: a new untriggered alert under a fresh identifier. */
    method CreateAlert(userId: string, symbol: string, condition: Condition, targetPrice: real) returns (a: Alert)
      requires Valid()
      modifies this
      ensures Valid()
      ensures a == Alert(old(nextId), userId, symbol, condition, targetPrice, false)
      ensures old(nextId) !in old(alerts) && alerts == old(alerts)[a.id := a]
    {
      a := Alert(nextId, userId, symbol, condition, targetPrice, false);
      alerts := alerts[a.id := a];
      nextId := nextId + 1;
    }

    /** `deleteAlert`: removes the alert only when both its identifier and its owner match. */
    method DeleteAlert(userId: string, alertId: nat)
      requires Valid()
      modifies this
      ensures Valid() && nextId == old(nextId)
      ensures if alertId in old(alerts) && old(alerts)[alertId].userId == userId
        then alerts == old(alerts) - {alertId}
        else alerts == old(alerts)
    {
      if alertId in alerts && alerts[alertId].userId == userId {
        alerts := alerts - {alertId};
      }
    }

    /** `onPriceUpdate`: the untriggered alerts of the symbol are checked one by one, and those whose
        condition the price meets are marked triggered. */
    method OnPriceUpdate(symbol: string, price: real)
      requires Valid()
      modifies this
      ensures Valid() && nextId == old(nextId)
      ensures alerts == AfterPriceUpdate(old(alerts), symbol, price)
    {
      ghost var target := AfterPriceUpdate(alerts, symbol, price);
      var pending := set id | id in alerts && alerts[id].symbol == symbol && !alerts[id].triggered;
      while pending != {}
        invariant pending <= alerts.Keys && alerts.Keys == old(alerts).Keys
        invariant Valid() && nextId == old(nextId)
        invariant forall id | id in pending :: alerts[id] == old(alerts)[id]
        invariant forall id | id in alerts && id !in pending :: alerts[id] == target[id]
        decreases pending
      {
        var id :| id in pending;
        var alert := alerts[id];
        var shouldTrigger := (alert.condition == Above && price >= alert.targetPrice) ||
                             (alert.condition == Below && price <= alert.targetPrice);
        if shouldTrigger {
          alerts := alerts[id := alert.(triggered := true)];
        }
        pending := pending - {id};
      }
    }
  }
}
