/** Per-user risk limits (risk.service.ts): a position-size cap relative to the
    portfolio, and a daily loss budget that resets when the calendar day changes. */
module Risk {
  import opened Wrappers
  import opened Wallets

  /** The calendar day of the last reset stands for `lastResetDate.toDateString()`. */
  datatype RiskSettings = RiskSettings(maxPositionSizePercent: real, dailyLossLimit: real, dailyLossUsed: real, lastResetDay: int)

  type RiskTable = map<string, RiskSettings>

  datatype RiskError = OverPositionLimit | OverDailyLossLimit

  function DefaultSettings(today: int): (s: RiskSettings)
    ensures s.maxPositionSizePercent == 25.0 && s.dailyLossLimit == 1000.0 && s.dailyLossUsed == 0.0
    ensures s.lastResetDay == today
  {
    RiskSettings(25.0, 1000.0, 0.0, today)
  }

  /** `getSettings`: the stored settings, created with the defaults on first use. */
  function WithSettings(t: RiskTable, user: string, today: int): (t': RiskTable)
    ensures user in t'
    ensures user in t ==> t' == t
    ensures user !in t ==> t' == t[user := DefaultSettings(today)]
  {
    if user in t then t else t[user := DefaultSettings(today)]
  }

  /** `checkPositionSize`'s rule: an empty (or negative) portfolio never rejects; otherwise the
      order may use up to `maxPercent` of the portfolio, the boundary included. */
  predicate PositionAllowed(maxPercent: real, totalValue: real, orderValue: real)
  {
    totalValue <= 0.0 || orderValue / totalValue * 100.0 <= maxPercent
  }

  lemma PositionAllowedMeans(maxPercent: real, totalValue: real, orderValue: real)
    ensures totalValue <= 0.0 ==> PositionAllowed(maxPercent, totalValue, orderValue)
    ensures totalValue > 0.0 ==>
      (PositionAllowed(maxPercent, totalValue, orderValue) <==> orderValue * 100.0 <= maxPercent * totalValue)
  {
    if totalValue > 0.0 {
      var q := orderValue / totalValue;
      assert q * totalValue == orderValue;
      assert q * 100.0 <= maxPercent <==> q * 100.0 * totalValue <= maxPercent * totalValue by {
        ScaleByPositive(q * 100.0, maxPercent, totalValue);
      }
    }
  }

  lemma ScaleByPositive(a: real, b: real, c: real)
    requires c > 0.0
    ensures a <= b <==> a * c <= b * c
  {
  }

  /** The reset half of `checkDailyLoss`: a new calendar day clears the used budget. */
  function AfterDailyReset(t: RiskTable, user: string, today: int): RiskTable
  {
    var t1 := WithSettings(t, user, today);
    if t1[user].lastResetDay != today then t1[user := t1[user].(dailyLossUsed := 0.0, lastResetDay := today)]
    else t1
  }

  /** `checkDailyLoss` after its reset: the budget is exhausted once used reaches the limit. */
  predicate DailyLossAllowed(s: RiskSettings)
  {
    s.dailyLossUsed < s.dailyLossLimit
  }

  lemma DailyResetEffect(t: RiskTable, user: string, today: int)
    ensures var t' := AfterDailyReset(t, user, today);
      user in t' && t'[user].lastResetDay == today &&
      (user in t && t[user].lastResetDay != today ==> t'[user] == t[user].(dailyLossUsed := 0.0, lastResetDay := today)) &&
      (user in t && t[user].lastResetDay == today ==> t' == t) &&
      (user !in t ==> t'[user] == DefaultSettings(today)) &&
      (forall u | u in t && u != user :: u in t' && t'[u] == t[u])
  {
  }

  /** On a fresh day the default budget is available again unless the limit is 0 or less. */
  lemma NewDayRestoresBudget(t: RiskTable, user: string, today: int)
    requires user in t && t[user].lastResetDay != today
    ensures DailyLossAllowed(AfterDailyReset(t, user, today)[user]) <==> t[user].dailyLossLimit > 0.0
  {
  }

  /** `recordLoss`. */
  function AfterRecordLoss(t: RiskTable, user: string, loss: real, today: int): RiskTable
  {
    if loss >= 0.0 then t
    else
      var t1 := WithSettings(t, user, today);
      t1[user := t1[user].(dailyLossUsed := t1[user].dailyLossUsed - loss)]
  }

  lemma RecordLossNeverLowers(t: RiskTable, user: string, loss: real, today: int)
    ensures var t' := AfterRecordLoss(t, user, loss, today);
      (loss >= 0.0 ==> t' == t) &&
      (loss < 0.0 ==> user in t' && t'[user].dailyLossUsed == WithSettings(t, user, today)[user].dailyLossUsed + (-loss)) &&
      (forall u | u in t :: u in t' && t'[u].dailyLossUsed >= t[u].dailyLossUsed)
  {
  }

  /** `updateSettings`: only the supplied fields change. */
  function AfterUpdate(t: RiskTable, user: string, maxPercent: Option<real>, lossLimit: Option<real>, today: int): RiskTable
  {
    var s := WithSettings(t, user, today)[user];
    var s1 := if maxPercent.Some? then s.(maxPositionSizePercent := maxPercent.value) else s;
    var s2 := if lossLimit.Some? then s1.(dailyLossLimit := lossLimit.value) else s1;
    WithSettings(t, user, today)[user := s2]
  }

  lemma UpdateTouchesOnlySuppliedFields(t: RiskTable, user: string, maxPercent: Option<real>, lossLimit: Option<real>, today: int)
    ensures var s := WithSettings(t, user, today)[user];
      var t' := AfterUpdate(t, user, maxPercent, lossLimit, today);
      user in t' &&
      t'[user].maxPositionSizePercent == maxPercent.GetOr(s.maxPositionSizePercent) &&
      t'[user].dailyLossLimit == lossLimit.GetOr(s.dailyLossLimit) &&
      t'[user].dailyLossUsed == s.dailyLossUsed && t'[user].lastResetDay == s.lastResetDay &&
      forall u | u in t && u != user :: u in t' && t'[u] == t[u]
  {
  }

  /** `resetDailyCounters`: one bulk update of every stored row. */
  function AfterResetAll(t: RiskTable, today: int): (t': RiskTable)
    ensures t'.Keys == t.Keys
    ensures forall u | u in t' :: t'[u].dailyLossUsed == 0.0 && t'[u].lastResetDay == today
    ensures forall u | u in t' :: t'[u].maxPositionSizePercent == t[u].maxPositionSizePercent && t'[u].dailyLossLimit == t[u].dailyLossLimit
  {
    map u | u in t :: t[u].(dailyLossUsed := 0.0, lastResetDay := today)
  }

  /** `RiskService`: the settings table is a field the methods reassign; the wallet ledger
      supplies the portfolio value. */
  class RiskGate {
    var settings: RiskTable
    const ledger: Ledger

    constructor (ledger: Ledger)
      ensures this.ledger == ledger && settings == map[]
    {
      this.ledger := ledger;
      settings := map[];
    }

    method GetSettings(user: string, today: int) returns (s: RiskSettings)
      modifies this
      ensures settings == WithSettings(old(settings), user, today)
      ensures s == settings[user]
    {
      if user !in settings {
        settings := settings[user := DefaultSettings(today)];
      }
      s := settings[user];
    }

    method UpdateSettings(user: string, maxPercent: Option<real>, lossLimit: Option<real>, today: int) returns (s: RiskSettings)
      modifies this
      ensures settings == AfterUpdate(old(settings), user, maxPercent, lossLimit, today)
      ensures s == settings[user]
    {
      s := GetSettings(user, today);
      if maxPercent.Some? {
        s := s.(maxPositionSizePercent := maxPercent.value);
      }
      if lossLimit.Some? {
        s := s.(dailyLossLimit := lossLimit.value);
      }
      settings := settings[user := s];
    }

    method CheckPositionSize(user: string, orderValue: real, today: int, prices: map<string, real>) returns (r: Outcome<RiskError>)
      modifies this
      ensures settings == WithSettings(old(settings), user, today)
      ensures r.Pass? <==> PositionAllowed(settings[user].maxPositionSizePercent, PortfolioValue(ledger.wallets, user, prices), orderValue)
      ensures r.Fail? ==> r.error == OverPositionLimit
    {
      var s := GetSettings(user, today);
      var _, total := ledger.GetPortfolioSummary(user, prices);
      if total <= 0.0 {
        return Pass;
      }
      var percent := orderValue / total * 100.0;
      if percent > s.maxPositionSizePercent {
        return Fail(OverPositionLimit);
      }
      r := Pass;
    }

    method CheckDailyLoss(user: string, today: int) returns (r: Outcome<RiskError>)
      modifies this
      ensures settings == AfterDailyReset(old(settings), user, today)
      ensures r.Pass? <==> DailyLossAllowed(settings[user])
      ensures r.Fail? ==> r.error == OverDailyLossLimit
    {
      var s := GetSettings(user, today);
      if s.lastResetDay != today {
        s := s.(dailyLossUsed := 0.0, lastResetDay := today);
        settings := settings[user := s];
      }
      if s.dailyLossUsed >= s.dailyLossLimit {
        return Fail(OverDailyLossLimit);
      }
      r := Pass;
    }

    method RecordLoss(user: string, loss: real, today: int)
      modifies this
      ensures settings == AfterRecordLoss(old(settings), user, loss, today)
    {
      if loss >= 0.0 {
        return;
      }
      var s := GetSettings(user, today);
      settings := settings[user := s.(dailyLossUsed := s.dailyLossUsed + (-loss))];
    }

    method ResetDailyCounters(today: int)
      modifies this
      ensures settings == AfterResetAll(old(settings), today)
    {
      settings := map u | u in settings :: settings[u].(dailyLossUsed := 0.0, lastResetDay := today);
    }
  }
}
