/** The ledger: one wallet per (user, currency) holding a balance and the part of it
    locked by open orders (wallet.service.ts). */
module Wallets {
  import opened Wrappers
  import opened Money

  datatype WalletError = WalletNotFound(userId: string, currency: string) | InsufficientFunds

  datatype Wallet = Wallet(balance: real, locked: real) {
    function Available(): real { balance - locked }
  }

  /** The wallet table, keyed by (userId, currency). */
  type WalletMap = map<(string, string), Wallet>

  const Usd: string := "USD"

  /** The balance a reset account starts again with. */
  const ResetBalance: real := 10000.0

  /** The ledger's central invariant: no wallet locks more than it holds, nor a negative amount. */
  predicate WellFormed(ws: WalletMap)
  {
    forall k | k in ws :: 0.0 <= ws[k].locked <= ws[k].balance
  }

  /** The wallet `repository.create({ userId, currency, balance: 0 })` makes. */
  const EmptyWallet: Wallet := Wallet(0.0, 0.0)

  function WalletOrEmpty(ws: WalletMap, user: string, currency: string): Wallet
  {
    if (user, currency) in ws then ws[(user, currency)] else EmptyWallet
  }

  // ---------------------------------------------------------------------------
  // The operations as functions of the wallet table

  /** `deposit`: creates the wallet if needed and raises its balance. */
  function AfterDeposit(ws: WalletMap, user: string, currency: string, amount: real): WalletMap
  {
    var w := WalletOrEmpty(ws, user, currency);
    ws[(user, currency) := w.(balance := w.balance + amount)]
  }

  /** `addFunds`: a deposit of a positive amount; otherwise nothing happens. */
  function AfterAdd(ws: WalletMap, user: string, currency: string, amount: real): WalletMap
  {
    if amount <= 0.0 then ws else AfterDeposit(ws, user, currency, amount)
  }

  /** `withdraw`: only from the available (unlocked) part of an existing wallet. */
  function AfterWithdraw(ws: WalletMap, user: string, currency: string, amount: real): Result<WalletMap, WalletError>
  {
    if (user, currency) !in ws then Err(WalletNotFound(user, currency))
    else
      var w := ws[(user, currency)];
      if w.Available() < amount then Err(InsufficientFunds)
      else Ok(ws[(user, currency) := w.(balance := w.balance - amount)])
  }

  /** `lockFunds`. */
  function AfterLock(ws: WalletMap, user: string, currency: string, amount: real): Result<WalletMap, WalletError>
  {
    if amount <= 0.0 then Ok(ws)
    else if (user, currency) !in ws then Err(WalletNotFound(user, currency))
    else
      var w := ws[(user, currency)];
      if w.Available() < amount then Err(InsufficientFunds)
      else Ok(ws[(user, currency) := w.(locked := w.locked + amount)])
  }

  /** `unlockFunds`: never drives `locked` below zero, silent for a missing wallet. */
  function AfterUnlock(ws: WalletMap, user: string, currency: string, amount: real): WalletMap
  {
    if amount <= 0.0 || (user, currency) !in ws then ws
    else
      var w := ws[(user, currency)];
      ws[(user, currency) := w.(locked := Max(0.0, w.locked - amount))]
  }

  /** `deductFunds`: checked against the whole balance, not the available part. */
  function AfterDeduct(ws: WalletMap, user: string, currency: string, amount: real): Result<WalletMap, WalletError>
  {
    if amount <= 0.0 then Ok(ws)
    else if (user, currency) !in ws then Err(WalletNotFound(user, currency))
    else
      var w := ws[(user, currency)];
      if w.balance < amount then Err(InsufficientFunds)
      else Ok(ws[(user, currency) := Wallet(w.balance - amount, Max(0.0, w.locked - amount))])
  }

  /** `resetAccount`: every wallet of the user is removed and a fresh USD wallet created. */
  function AfterReset(ws: WalletMap, user: string): WalletMap
  {
    (map k | k in ws && k.0 != user :: ws[k])[(user, Usd) := Wallet(ResetBalance, 0.0)]
  }

  // ---------------------------------------------------------------------------
  // Properties of the operations

  /** Every operation keeps the ledger invariant (deposits are positive, as the request validation demands). */
  lemma {:induction false} OperationsKeepWellFormed(ws: WalletMap, user: string, currency: string, amount: real)
    requires WellFormed(ws)
    ensures amount > 0.0 ==> WellFormed(AfterDeposit(ws, user, currency, amount))
    ensures WellFormed(AfterAdd(ws, user, currency, amount))
    ensures AfterWithdraw(ws, user, currency, amount).Ok? ==> WellFormed(AfterWithdraw(ws, user, currency, amount).value)
    ensures AfterLock(ws, user, currency, amount).Ok? ==> WellFormed(AfterLock(ws, user, currency, amount).value)
    ensures WellFormed(AfterUnlock(ws, user, currency, amount))
    ensures AfterDeduct(ws, user, currency, amount).Ok? ==> WellFormed(AfterDeduct(ws, user, currency, amount).value)
    ensures WellFormed(AfterReset(ws, user))
  {
  }

  /** A deduction from one wallet followed by an addition to another keeps the ledger invariant
      and leaves every other wallet as it was. */
  lemma DeductThenAdd(ws: WalletMap, user: string, from: string, out: real, to: string, into: real)
    requires WellFormed(ws) && AfterDeduct(ws, user, from, out).Ok?
    ensures var ws' := AfterAdd(AfterDeduct(ws, user, from, out).value, user, to, into);
      WellFormed(ws') &&
      forall k | k in ws && k != (user, from) && k != (user, to) :: k in ws' && ws'[k] == ws[k]
  {
    OperationsKeepWellFormed(ws, user, from, out);
    OperationsKeepWellFormed(AfterDeduct(ws, user, from, out).value, user, to, into);
  }

  /** `lockFunds` rejects exactly a missing wallet or too little available balance, and
      otherwise raises `locked` by the amount, touching nothing else. */
  lemma LockEffect(ws: WalletMap, user: string, currency: string, amount: real)
    requires amount > 0.0
    ensures (user, currency) !in ws <==> AfterLock(ws, user, currency, amount) == Err(WalletNotFound(user, currency))
    ensures AfterLock(ws, user, currency, amount) == Err(InsufficientFunds) <==>
      (user, currency) in ws && ws[(user, currency)].balance - ws[(user, currency)].locked < amount
    ensures AfterLock(ws, user, currency, amount).Ok? ==>
      var ws' := AfterLock(ws, user, currency, amount).value;
      ws'.Keys == ws.Keys &&
      ws'[(user, currency)].locked == ws[(user, currency)].locked + amount &&
      ws'[(user, currency)].balance == ws[(user, currency)].balance &&
      forall k | k in ws && k != (user, currency) :: ws'[k] == ws[k]
  {
  }

  /** Unlocking what was just locked restores the ledger exactly. */
  lemma LockThenUnlock(ws: WalletMap, user: string, currency: string, amount: real)
    requires WellFormed(ws)
    requires AfterLock(ws, user, currency, amount).Ok?
    ensures AfterUnlock(AfterLock(ws, user, currency, amount).value, user, currency, amount) == ws
  {
    if amount > 0.0 {
      var k := (user, currency);
      var w := ws[k];
      var ws' := AfterLock(ws, user, currency, amount).value;
      assert ws'[k] == w.(locked := w.locked + amount);
      assert Max(0.0, w.locked + amount - amount) == w.locked;
      assert ws'[k := w] == ws;
    }
  }

  /** `unlockFunds` lowers `locked` by the amount but never below zero and never touches a balance. */
  lemma UnlockEffect(ws: WalletMap, user: string, currency: string, amount: real)
    requires WellFormed(ws)
    ensures var ws' := AfterUnlock(ws, user, currency, amount);
      ws'.Keys == ws.Keys &&
      (forall k | k in ws :: ws'[k].balance == ws[k].balance && 0.0 <= ws'[k].locked <= ws[k].locked) &&
      (amount > 0.0 && (user, currency) in ws ==> ws'[(user, currency)].locked == Max(0.0, ws[(user, currency)].locked - amount))
  {
  }

  /** `deductFunds` rejects a balance below the amount, even when part of it is locked;
      otherwise it lowers the balance by the amount and `locked` by at most the amount. */
  lemma DeductEffect(ws: WalletMap, user: string, currency: string, amount: real)
    requires amount > 0.0 && (user, currency) in ws
    ensures AfterDeduct(ws, user, currency, amount).Err? <==> ws[(user, currency)].balance < amount
    ensures AfterDeduct(ws, user, currency, amount).Ok? ==>
      var w := ws[(user, currency)];
      var w' := AfterDeduct(ws, user, currency, amount).value[(user, currency)];
      w'.balance == w.balance - amount && w'.locked == w.locked - Min(w.locked, amount)
  {
  }

  /** A deposit (or `addFunds` of a positive amount) raises the balance and leaves `locked` alone. */
  lemma DepositEffect(ws: WalletMap, user: string, currency: string, amount: real)
    requires amount > 0.0
    ensures var w := WalletOrEmpty(ws, user, currency);
      var ws' := AfterAdd(ws, user, currency, amount);
      ws' == AfterDeposit(ws, user, currency, amount) &&
      ws'.Keys == ws.Keys + {(user, currency)} &&
      ws'[(user, currency)].balance == w.balance + amount && ws'[(user, currency)].locked == w.locked
  {
  }

  /** A withdrawal needs `balance - locked >= amount` and then lowers only the balance. */
  lemma WithdrawEffect(ws: WalletMap, user: string, currency: string, amount: real)
    requires (user, currency) in ws
    ensures AfterWithdraw(ws, user, currency, amount).Ok? <==> ws[(user, currency)].balance - ws[(user, currency)].locked >= amount
    ensures AfterWithdraw(ws, user, currency, amount).Ok? ==>
      var w' := AfterWithdraw(ws, user, currency, amount).value[(user, currency)];
      w'.balance == ws[(user, currency)].balance - amount && w'.locked == ws[(user, currency)].locked
  {
  }

  /** After a reset the user owns exactly one wallet, USD with 10000 and nothing locked,
      and no other user's wallet changed. */
  lemma ResetEffect(ws: WalletMap, user: string)
    ensures var ws' := AfterReset(ws, user);
      (forall k | k in ws' && k.0 == user :: k == (user, Usd)) &&
      (user, Usd) in ws' && ws'[(user, Usd)] == Wallet(ResetBalance, 0.0) &&
      (forall k | k in ws && k.0 != user :: k in ws' && ws'[k] == ws[k]) &&
      (forall k | k in ws' && k.0 != user :: k in ws)
  {
  }

  // ---------------------------------------------------------------------------
  // Portfolio valuation

  datatype WalletDetail = WalletDetail(currency: string, balance: real, locked: real, available: real, valueUSD: real)

  /** A wallet's USD value: its balance for USD, balance times the asset price otherwise,
      and 0 when no price is available. */
  function ValueUSD(w: Wallet, currency: string, prices: map<string, real>): real
  {
    if currency == Usd then w.balance
    else if currency in prices then w.balance * prices[currency]
    else 0.0
  }

  /** A line of the portfolio summary describes the user's wallet in its currency. */
  predicate Describes(d: WalletDetail, ws: WalletMap, user: string, prices: map<string, real>)
  {
    (user, d.currency) in ws &&
    var w := ws[(user, d.currency)];
    d.balance == w.balance && d.locked == w.locked &&
    d.available == w.balance - w.locked && d.valueUSD == RoundCents(ValueUSD(w, d.currency, prices))
  }

  function DetailCurrencies(details: seq<WalletDetail>): set<string>
  {
    set d | d in details :: d.currency
  }

  function UserCurrencies(ws: WalletMap, user: string): set<string>
  {
    set k | k in ws && k.0 == user :: k.1
  }

  function WalletValue(ws: WalletMap, user: string, currency: string, prices: map<string, real>): real
  {
    if (user, currency) in ws then ValueUSD(ws[(user, currency)], currency, prices) else 0.0
  }

  ghost function Pick(cs: set<string>): string
    requires cs != {}
  {
    var c :| c in cs; c
  }

  /** The sum of the USD values of the user's wallets in `cs`. */
  ghost function SumValues(ws: WalletMap, user: string, prices: map<string, real>, cs: set<string>): real
    decreases cs
  {
    if cs == {} then 0.0
    else
      var c := Pick(cs);
      WalletValue(ws, user, c, prices) + SumValues(ws, user, prices, cs - {c})
  }

  /** The sum does not depend on the order in which currencies are taken out. */
  lemma {:induction false} SumValuesRemove(ws: WalletMap, user: string, prices: map<string, real>, cs: set<string>, c: string)
    requires c in cs
    ensures SumValues(ws, user, prices, cs) == WalletValue(ws, user, c, prices) + SumValues(ws, user, prices, cs - {c})
    decreases cs
  {
    var p := Pick(cs);
    if p != c {
      SumValuesRemove(ws, user, prices, cs - {p}, c);
      SumValuesRemove(ws, user, prices, cs - {c}, p);
      assert cs - {p} - {c} == cs - {c} - {p};
    }
  }

  /** `totalValueUSD` of `getPortfolioSummary`: the cent-rounded sum over the user's wallets. */
  ghost function PortfolioValue(ws: WalletMap, user: string, prices: map<string, real>): real
  {
    RoundCents(SumValues(ws, user, prices, UserCurrencies(ws, user)))
  }

  /** With non-negative balances and prices, the portfolio is worth at least nothing. */
  lemma {:induction false} SumValuesNonNegative(ws: WalletMap, user: string, prices: map<string, real>, cs: set<string>)
    requires WellFormed(ws)
    requires forall c | c in prices :: prices[c] >= 0.0
    ensures SumValues(ws, user, prices, cs) >= 0.0
    decreases cs
  {
    if cs != {} {
      var c := Pick(cs);
      SumValuesNonNegative(ws, user, prices, cs - {c});
      if (user, c) in ws && c != Usd && c in prices {
        var b := ws[(user, c)].balance;
        assert b >= 0.0;
        assert b * prices[c] >= 0.0;
      }
    }
  }

  lemma PortfolioValueNonNegative(ws: WalletMap, user: string, prices: map<string, real>)
    requires WellFormed(ws)
    requires forall c | c in prices :: prices[c] >= 0.0
    ensures PortfolioValue(ws, user, prices) >= 0.0
  {
    SumValuesNonNegative(ws, user, prices, UserCurrencies(ws, user));
    RoundCentsNonNegative(SumValues(ws, user, prices, UserCurrencies(ws, user)));
  }

  /** A user without wallets has a portfolio worth 0. */
  lemma EmptyPortfolio(ws: WalletMap, user: string, prices: map<string, real>)
    requires forall k | k in ws :: k.0 != user
    ensures PortfolioValue(ws, user, prices) == 0.0
  {
    assert UserCurrencies(ws, user) == {};
  }

  // ---------------------------------------------------------------------------
  // The service

  /** `WalletService` over its repository: the wallet table is a field the methods reassign. */
  class Ledger {
    var wallets: WalletMap

    ghost predicate Valid()
      reads this
    {
      WellFormed(wallets)
    }

    constructor ()
      ensures Valid() && wallets == map[]
    {
      wallets := map[];
    }

    method GetWallet(user: string, currency: string) returns (w: Option<Wallet>)
      ensures w.Some? <==> (user, currency) in wallets
      ensures w.Some? ==> w.value == wallets[(user, currency)]
    {
      w := if (user, currency) in wallets then Some(wallets[(user, currency)]) else None;
    }

    method Deposit(user: string, amount: real, currency: string) returns (w: Wallet)
      requires Valid()
      requires amount > 0.0
      modifies this
      ensures Valid()
      ensures wallets == AfterDeposit(old(wallets), user, currency, amount)
      ensures w == wallets[(user, currency)]
    {
      var existing := GetWallet(user, currency);
      w := if existing.Some? then existing.value else EmptyWallet;
      w := w.(balance := w.balance + amount);
      wallets := wallets[(user, currency) := w];
    }

    method Withdraw(user: string, amount: real, currency: string) returns (r: Result<Wallet, WalletError>)
      requires Valid()
      modifies this
      ensures Valid()
      ensures AfterWithdraw(old(wallets), user, currency, amount).Err? ==>
        r == Err(AfterWithdraw(old(wallets), user, currency, amount).error) && wallets == old(wallets)
      ensures AfterWithdraw(old(wallets), user, currency, amount).Ok? ==>
        wallets == AfterWithdraw(old(wallets), user, currency, amount).value && r == Ok(wallets[(user, currency)])
    {
      var existing := GetWallet(user, currency);
      if existing.None? {
        return Err(WalletNotFound(user, currency));
      }
      var w := existing.value;
      if w.balance - w.locked < amount {
        return Err(InsufficientFunds);
      }
      w := w.(balance := w.balance - amount);
      wallets := wallets[(user, currency) := w];
      r := Ok(w);
    }

    method LockFunds(user: string, currency: string, amount: real) returns (r: Outcome<WalletError>)
      requires Valid()
      modifies this
      ensures Valid()
      ensures AfterLock(old(wallets), user, currency, amount).Err? ==>
        r == Fail(AfterLock(old(wallets), user, currency, amount).error) && wallets == old(wallets)
      ensures AfterLock(old(wallets), user, currency, amount).Ok? ==>
        r == Pass && wallets == AfterLock(old(wallets), user, currency, amount).value
    {
      if amount <= 0.0 {
        return Pass;
      }
      var existing := GetWallet(user, currency);
      if existing.None? {
        return Fail(WalletNotFound(user, currency));
      }
      var w := existing.value;
      if w.balance - w.locked < amount {
        return Fail(InsufficientFunds);
      }
      wallets := wallets[(user, currency) := w.(locked := w.locked + amount)];
      r := Pass;
    }

    method UnlockFunds(user: string, currency: string, amount: real)
      requires Valid()
      modifies this
      ensures Valid()
      ensures wallets == AfterUnlock(old(wallets), user, currency, amount)
    {
      if amount <= 0.0 {
        return;
      }
      var existing := GetWallet(user, currency);
      if existing.Some? {
        var w := existing.value;
        wallets := wallets[(user, currency) := w.(locked := Max(0.0, w.locked - amount))];
      }
    }

    method DeductFunds(user: string, currency: string, amount: real) returns (r: Outcome<WalletError>)
      requires Valid()
      modifies this
      ensures Valid()
      ensures AfterDeduct(old(wallets), user, currency, amount).Err? ==>
        r == Fail(AfterDeduct(old(wallets), user, currency, amount).error) && wallets == old(wallets)
      ensures AfterDeduct(old(wallets), user, currency, amount).Ok? ==>
        r == Pass && wallets == AfterDeduct(old(wallets), user, currency, amount).value
    {
      if amount <= 0.0 {
        return Pass;
      }
      var existing := GetWallet(user, currency);
      if existing.None? {
        return Fail(WalletNotFound(user, currency));
      }
      var w := existing.value;
      if w.balance < amount {
        return Fail(InsufficientFunds);
      }
      wallets := wallets[(user, currency) := Wallet(w.balance - amount, Max(0.0, w.locked - amount))];
      r := Pass;
    }

    method AddFunds(user: string, currency: string, amount: real)
      requires Valid()
      modifies this
      ensures Valid()
      ensures wallets == AfterAdd(old(wallets), user, currency, amount)
    {
      if amount <= 0.0 {
        return;
      }
      var existing := GetWallet(user, currency);
      var w := if existing.Some? then existing.value else EmptyWallet;
      wallets := wallets[(user, currency) := w.(balance := w.balance + amount)];
    }

    /** Removes the user's wallets one by one, then creates the fresh USD wallet. */
    method ResetAccount(user: string) returns (w: Wallet)
      requires Valid()
      modifies this
      ensures Valid()
      ensures wallets == AfterReset(old(wallets), user)
      ensures w == Wallet(ResetBalance, 0.0)
    {
      var owned := set k | k in wallets && k.0 == user;
      while owned != {}
        invariant Valid()
        invariant owned <= wallets.Keys
        invariant forall k | k in wallets && k.0 == user :: k in owned
        invariant forall k | k in owned :: k.0 == user
        invariant forall k | k in old(wallets) && k.0 != user :: k in wallets && wallets[k] == old(wallets)[k]
        invariant forall k | k in wallets :: k in old(wallets) && wallets[k] == old(wallets)[k]
        decreases owned
      {
        var k :| k in owned;
        wallets := map k' | k' in wallets && k' != k :: wallets[k'];
        owned := owned - {k};
      }
      w := Wallet(ResetBalance, 0.0);
      wallets := wallets[(user, Usd) := w];
    }

    /** Values each of the user's wallets and sums the values; prices come from the market. */
    method GetPortfolioSummary(user: string, prices: map<string, real>) returns (details: seq<WalletDetail>, total: real)
      ensures total == PortfolioValue(wallets, user, prices)
      // one detail per wallet of the user, each currency once
      ensures forall i, j :: 0 <= i < j < |details| ==> details[i].currency != details[j].currency
      ensures DetailCurrencies(details) == UserCurrencies(wallets, user)
      ensures forall d | d in details :: Describes(d, wallets, user, prices)
    {
      var all := UserCurrencies(wallets, user);
      var remaining := all;
      var sum := 0.0;
      details := [];
      while remaining != {}
        invariant remaining <= all
        invariant sum + SumValues(wallets, user, prices, remaining) == SumValues(wallets, user, prices, all)
        invariant forall i, j :: 0 <= i < j < |details| ==> details[i].currency != details[j].currency
        invariant DetailCurrencies(details) == all - remaining
        invariant forall d | d in details :: Describes(d, wallets, user, prices)
        decreases remaining
      {
        var c :| c in remaining;
        assert (user, c) in wallets;
        forall i | 0 <= i < |details|
          ensures details[i].currency != c
        {
          assert details[i] in details;
        }
        var w := wallets[(user, c)];
        var value := ValueUSD(w, c, prices);
        SumValuesRemove(wallets, user, prices, remaining, c);
        sum := sum + value;
        ghost var before := details;
        details := details + [WalletDetail(c, w.balance, w.locked, w.balance - w.locked, RoundCents(value))];
        assert DetailCurrencies(details) == DetailCurrencies(before) + {c};
        remaining := remaining - {c};
      }
      assert all - remaining == all;
      total := RoundCents(sum);
    }
  }
}
