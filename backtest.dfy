/** The backtest simulator: replays a strategy's signals over a candle history with a virtual
    account that is either all cash or all asset, records the trades and the equity curve, and
    reports them with their metrics; and the broker comparison, which runs the same backtest once
    per catalog broker and ranks the runs by final equity. The candle history, the fetching of
    which is not part of this model, is a parameter; so are the indicator series the strategies'
    `prepare` obtains from the indicator library. */
module Backtest {
  import opened Wrappers
  import opened Money
  import opened Signals
  import opened Broker
  import opened BacktestMetrics
  import opened StrategyRegistry
  import SmaCross
  import Rsi
  import Macd
  import MultiConfirm

  /** One candle of the history; `timestamp` is in milliseconds. */
  datatype Candle = Candle(timestamp: int, open: real, high: real, low: real, close: real)

  /** A candle as the chart receives it, with its time in seconds. */
  datatype ChartCandle = ChartCandle(time: int, open: real, high: real, low: real, close: real)

  /** The series the indicator library computes from the closes for the strategy's settings. */
  datatype IndicatorSeries = IndicatorSeries(
    smaShort: seq<real>, smaLong: seq<real>, rsi: seq<real>, macd: seq<Macd.MacdPoint>)

  /** Why a backtest throws. */
  datatype BacktestError =
    | NotEnoughData
    | StrategyUnavailable(reason: RegistryError)
    | InvalidParameters(message: string)

  const NotEnoughDataMessage: string := "Not enough data for backtest"

  /** The smallest candle history a backtest accepts. */
  const MinCandles: nat := 10

  /** The virtual account after some candles: cash, asset held, fees paid, the trades and the
      equity curve recorded so far. */
  datatype Account = Account(
    balance: real, position: real, totalFees: real,
    trades: seq<BacktestTrade>, equityCurve: seq<EquityPoint>)

  /** The report of a successful run. `totalReturnPct` is absent when the initial capital is 0,
      where the source divides by zero. */
  datatype Report = Report(
    strategy: string, broker: string, initialCapital: real, finalEquity: real, totalFees: real,
    totalReturnPct: Option<real>, tradesCount: nat, metrics: Metrics,
    trades: seq<BacktestTrade>, equityCurve: seq<EquityPoint>, drawdownCurve: seq<DrawdownPoint>,
    chartCandles: seq<ChartCandle>, indicators: Option<MultiConfirm.Indicators>)

  /** One row of the broker comparison. */
  datatype BrokerResult = BrokerResult(
    broker: string, finalEquity: real, totalReturnPct: Option<real>, tradesCount: nat)

  // ------------------------------------------------------------ strategies

  /** What the selected strategy's `validateParameters` decides; every strategy has one. */
  function Validate(kind: StrategyKind, params: Option<Params>): Outcome<string>
  {
    match kind
    case SmaCrossKind => SmaCross.ValidateParameters(params)
    case RsiKind => (match Rsi.ValidateParameters(params) case Err(m) => Fail(m) case Ok(_) => Pass)
    case MacdKind => (match Macd.ValidateParameters(params) case Err(m) => Fail(m) case Ok(_) => Pass)
    case MultiConfirmKind => MultiConfirm.ValidateParameters(params)
  }

  /** Every strategy refuses to run without a parameter object. */
  lemma MissingParametersRejected(kind: StrategyKind)
    ensures Validate(kind, None).Fail?
  {
  }

  /** The strategy has been prepared as far as `onCandle` needs. */
  predicate Prepared(s: Strategy)
    reads s.Instance()
  {
    match s
    case SmaCrossInstance(x) => x.params.Some?
    case RsiInstance(x) => x.params.Some?
    case MacdInstance(_) => true
    case MultiConfirmInstance(x) => x.params.Some?
  }

  /** The signal the strategy gives for candle `i`. */
  function SignalAt(s: Strategy, i: nat): Signal
    reads s.Instance()
    requires Prepared(s)
  {
    match s
    case SmaCrossInstance(x) => x.OnCandle(i)
    case RsiInstance(x) => x.OnCandle(i)
    case MacdInstance(x) => x.OnCandle(i)
    case MultiConfirmInstance(x) => x.OnCandle(i)
  }

  /** The signals for the first `n` candles. */
  function SignalsUpTo(s: Strategy, n: nat): (r: seq<Signal>)
    reads s.Instance()
    requires Prepared(s)
    ensures |r| == n && forall i :: 0 <= i < n ==> r[i] == SignalAt(s, i)
  {
    if n == 0 then [] else SignalsUpTo(s, n - 1) + [SignalAt(s, n - 1)]
  }

  /** What `prepare` leaves in the strategy: the parameters (with the defaults validation filled
      in) and the indicator series it needs, the MACD series aligned to the end of the closes. */
  predicate Loaded(s: Strategy, params: Option<Params>, closesCount: nat, series: IndicatorSeries)
    reads s.Instance()
  {
    match s
    case SmaCrossInstance(x) =>
      x.params == params && x.smaShort == series.smaShort && x.smaLong == series.smaLong
    case RsiInstance(x) =>
      x.params == Some(Rsi.Settings(params)) && x.rsiValues == series.rsi
    case MacdInstance(x) =>
      x.params == Some(Macd.Settings(params)) && x.macdValues == series.macd &&
      x.offset + |series.macd| == closesCount
    case MultiConfirmInstance(x) =>
      x.params == Some(MultiConfirm.Settings(params)) && x.rsiValues == series.rsi &&
      x.macdValues == series.macd
  }

  /** The signal at candle `i` of a strategy of kind `kind` once it is validated and prepared
      with `params` for `closesCount` closes and `series`; it depends on nothing else. */
  function LoadedSignal(kind: StrategyKind, params: Option<Params>, closesCount: nat, series: IndicatorSeries,
                        i: nat): Signal
    requires kind != MultiConfirmKind && Validate(kind, params).Pass?
  {
    match kind
    case SmaCrossKind => SmaCross.SignalFor(params.value, series.smaShort, series.smaLong, i)
    case RsiKind => Rsi.SignalFor(Rsi.Settings(params), series.rsi, i)
    case MacdKind => Macd.SignalFor(series.macd, closesCount - |series.macd|, i)
  }

  function LoadedSignals(kind: StrategyKind, params: Option<Params>, closesCount: nat, series: IndicatorSeries,
                         n: nat): (r: seq<Signal>)
    requires kind != MultiConfirmKind && Validate(kind, params).Pass?
    ensures |r| == n
  {
    seq(n, i requires 0 <= i < n => LoadedSignal(kind, params, closesCount, series, i))
  }

  /** A strategy that has been validated and prepared gives, candle by candle, the signals its
      kind gives for those parameters and series: every fresh instance replays alike. */
  lemma {:induction false} LoadedSignalsAgree(s: Strategy, params: Option<Params>, closesCount: nat,
                                              series: IndicatorSeries, n: nat)
    requires Loaded(s, params, closesCount, series) && !s.MultiConfirmInstance?
    requires Validate(s.Kind(), params).Pass?
    ensures Prepared(s)
    ensures SignalsUpTo(s, n) == LoadedSignals(s.Kind(), params, closesCount, series, n)
  {
    var kind := s.Kind();
    forall i | 0 <= i < n
      ensures SignalAt(s, i) == LoadedSignal(kind, params, closesCount, series, i)
    {
    }
  }

  /** Runs the strategy's `validateParameters` and, when it passes, `prepare`, which receives the
      parameter object as validation left it. A failed validation prepares nothing. */
  method Load(s: Strategy, params: Option<Params>, closesCount: nat, series: IndicatorSeries)
    returns (v: Outcome<string>)
    modifies s.Instance()
    ensures v == Validate(s.Kind(), params)
    ensures v.Fail? ==> unchanged(s.Instance())
    ensures v.Pass? ==> Prepared(s)
    ensures v.Pass? ==> Loaded(s, params, closesCount, series)
  {
    match s
    case SmaCrossInstance(x) =>
      v := SmaCross.ValidateParameters(params);
      if v.Pass? {
        x.Prepare(params, series.smaShort, series.smaLong);
      }
    case RsiInstance(x) =>
      var checked := Rsi.ValidateParameters(params);
      if checked.Err? {
        v := Fail(checked.error);
      } else {
        v := Pass;
        x.Prepare(Some(checked.value), series.rsi);
      }
    case MacdInstance(x) =>
      var checked := Macd.ValidateParameters(params);
      if checked.Err? {
        v := Fail(checked.error);
      } else {
        v := Pass;
        x.Prepare(Some(checked.value), closesCount, series.macd);
      }
    case MultiConfirmInstance(x) =>
      v := MultiConfirm.ValidateParameters(params);
      if v.Pass? {
        x.Prepare(params, closesCount, series.smaShort, series.smaLong, series.rsi, series.macd);
      }
  }

  /** The chart lines of a strategy that has `getParsedIndicators`, which only the multi-criteria
      strategy has. */
  method ParsedIndicators(s: Strategy, times: seq<int>) returns (ind: Option<MultiConfirm.Indicators>)
    requires Prepared(s)
    ensures ind.Some? <==> s.MultiConfirmInstance?
    ensures s.MultiConfirmInstance? ==> ind == Some(s.multi.Chart(times, |times|))
  {
    if s.MultiConfirmInstance? {
      var lines := s.multi.GetParsedIndicators(times);
      assert times[..|times|] == times;
      ind := Some(lines);
    } else {
      ind := None;
    }
  }

  // ------------------------------------------------------------ the account

  /** Every close is positive; the simulator divides by it. */
  predicate Priced(candles: seq<Candle>)
  {
    forall k :: 0 <= k < |candles| ==> candles[k].close > 0.0
  }

  /** Cash plus the asset valued at `price`. */
  function Equity(a: Account, price: real): real
  {
    a.balance + a.position * price
  }

  /** The sum of the fees of the recorded trades. */
  function FeeTotal(trades: seq<BacktestTrade>): real
  {
    if trades == [] then 0.0 else FeeTotal(trades[..|trades| - 1]) + trades[|trades| - 1].fee
  }

  function TakerFee(amount: real, price: real, brokerId: string): real
  {
    CalculateFee(amount, price, Taker, Some(brokerId))
  }

  /** A BUY signal buys when there is cash left after the fee on buying all of it. */
  predicate Buys(a: Account, signal: Signal, price: real, brokerId: string)
    requires price > 0.0
  {
    signal == BuySignal && a.balance > 0.0 && a.balance - TakerFee(a.balance / price, price, brokerId) > 0.0
  }

  /** A SELL signal sells when some asset is held. */
  predicate Sells(a: Account, signal: Signal)
  {
    signal == SellSignal && a.position > 0.0
  }

  /** The trade, if any, a signal makes at a candle's close: buy with all the cash net of the fee,
      or sell the whole position, the proceeds net of the fee but never below 0. */
  function Trade(a: Account, signal: Signal, candle: Candle, brokerId: string): Account
    requires candle.close > 0.0
  {
    if signal == BuySignal then Bought(a, candle, brokerId)
    else if signal == SellSignal then Sold(a, candle, brokerId)
    else a
  }

  /** A BUY at the candle's close. */
  function Bought(a: Account, candle: Candle, brokerId: string): Account
    requires candle.close > 0.0
  {
    var price := candle.close;
    if Buys(a, BuySignal, price, brokerId) then
      var fee := TakerFee(a.balance / price, price, brokerId);
      var amount := (a.balance - fee) / price;
      a.(balance := 0.0, position := amount, totalFees := a.totalFees + fee,
         trades := a.trades + [BacktestTrade(BuyTrade, price, Some(amount), fee, candle.timestamp, 0.0 + amount * price)])
    else a
  }

  /** A SELL at the candle's close. */
  function Sold(a: Account, candle: Candle, brokerId: string): Account
    requires candle.close > 0.0
  {
    var price := candle.close;
    if Sells(a, SellSignal) then
      var fee := TakerFee(a.position, price, brokerId);
      var balance := Max(a.position * price - fee, 0.0);
      a.(balance := balance, position := 0.0, totalFees := a.totalFees + fee,
         trades := a.trades + [BacktestTrade(SellTrade, price, None, fee, candle.timestamp, balance)])
    else a
  }

  /** One candle of the simulation: the trade, then the equity point at the close. */
  function Step(a: Account, signal: Signal, candle: Candle, brokerId: string): Account
    requires candle.close > 0.0
  {
    var t := Trade(a, signal, candle, brokerId);
    t.(equityCurve := t.equityCurve + [EquityPoint(candle.timestamp, Equity(t, candle.close))])
  }

  function Opening(initialCapital: real): Account
  {
    Account(initialCapital, 0.0, 0.0, [], [])
  }

  /** The account after the candles, candle `k` acting on `signals[k]`. */
  function Simulate(initialCapital: real, signals: seq<Signal>, candles: seq<Candle>, brokerId: string): Account
    requires |signals| == |candles| && Priced(candles)
    decreases |candles|
  {
    if candles == [] then Opening(initialCapital)
    else
      Step(Simulate(initialCapital, signals[..|signals| - 1], candles[..|candles| - 1], brokerId),
        signals[|signals| - 1], candles[|candles| - 1], brokerId)
  }

  /** What the simulation keeps true: the account is all cash or all asset, neither is negative
      (cash only when the initial capital is not), trades alternate BUY, SELL, … and an asset is
      held exactly after a BUY, and the fees paid are those of the recorded trades. */
  predicate Consistent(a: Account, initialCapital: real)
  {
    && a.position >= 0.0
    && (a.position == 0.0 || a.balance == 0.0)
    && (initialCapital >= 0.0 ==> a.balance >= 0.0)
    && Alternating(a.trades)
    && (a.position > 0.0 <==> |a.trades| % 2 == 1)
    && a.totalFees == FeeTotal(a.trades)
  }

  lemma AppendTrade(trades: seq<BacktestTrade>, t: BacktestTrade)
    requires Alternating(trades)
    requires t.kind == (if |trades| % 2 == 0 then BuyTrade else SellTrade)
    ensures Alternating(trades + [t])
    ensures FeeTotal(trades + [t]) == FeeTotal(trades) + t.fee
  {
    var s := trades + [t];
    assert s[..|s| - 1] == trades;
    forall i | 0 <= i < |s|
      ensures s[i].kind == (if i % 2 == 0 then BuyTrade else SellTrade)
    {
      if i < |trades| {
        assert s[i] == trades[i];
      }
    }
  }

  /** `all` continues `pre`: its equity curve and trade list begin with those of `pre`. */
  predicate Extends(all: Account, pre: Account)
  {
    && |pre.equityCurve| <= |all.equityCurve| && all.equityCurve[..|pre.equityCurve|] == pre.equityCurve
    && |pre.trades| <= |all.trades| && all.trades[..|pre.trades|] == pre.trades
  }

  lemma ExtendsTransitive(a: Account, b: Account, c: Account)
    requires Extends(b, a) && Extends(c, b)
    ensures Extends(c, a)
  {
    assert c.equityCurve[..|b.equityCurve|][..|a.equityCurve|] == c.equityCurve[..|a.equityCurve|];
    assert c.trades[..|b.trades|][..|a.trades|] == c.trades[..|a.trades|];
  }

  /** A trade leaves the equity curve alone and adds at most one trade to the list. */
  lemma TradeRecordsAtMostOne(a: Account, signal: Signal, candle: Candle, brokerId: string)
    requires candle.close > 0.0
    ensures var t := Trade(a, signal, candle, brokerId);
      && t.equityCurve == a.equityCurve
      && |a.trades| <= |t.trades| <= |a.trades| + 1 && t.trades[..|a.trades|] == a.trades
  {
    var t := Trade(a, signal, candle, brokerId);
    if |t.trades| != |a.trades| {
      assert t.trades == a.trades + [t.trades[|a.trades|]];
      assert (a.trades + [t.trades[|a.trades|]])[..|a.trades|] == a.trades;
    }
  }

  /** A purchase keeps the account consistent: all the cash becomes a positive position. */
  lemma BuyKeepsConsistent(a: Account, initialCapital: real, signal: Signal, candle: Candle, brokerId: string)
    requires candle.close > 0.0 && Consistent(a, initialCapital)
    requires Buys(a, signal, candle.close, brokerId)
    ensures Consistent(Trade(a, signal, candle, brokerId), initialCapital)
  {
    var price := candle.close;
    var fee := TakerFee(a.balance / price, price, brokerId);
    var amount := (a.balance - fee) / price;
    assert amount > 0.0;
    assert a.position == 0.0;
    AppendTrade(a.trades, BacktestTrade(BuyTrade, price, Some(amount), fee, candle.timestamp, 0.0 + amount * price));
  }

  /** A sale keeps the account consistent: the whole position becomes cash, never negative. */
  lemma SellKeepsConsistent(a: Account, initialCapital: real, signal: Signal, candle: Candle, brokerId: string)
    requires candle.close > 0.0 && Consistent(a, initialCapital)
    requires Sells(a, signal)
    ensures Consistent(Trade(a, signal, candle, brokerId), initialCapital)
  {
    var price := candle.close;
    var fee := TakerFee(a.position, price, brokerId);
    var balance := Max(a.position * price - fee, 0.0);
    assert !Buys(a, signal, price, brokerId);
    AppendTrade(a.trades, BacktestTrade(SellTrade, price, None, fee, candle.timestamp, balance));
  }

  /** A trade keeps the account consistent. */
  lemma TradeKeepsConsistent(a: Account, initialCapital: real, signal: Signal, candle: Candle, brokerId: string)
    requires candle.close > 0.0 && Consistent(a, initialCapital)
    ensures Consistent(Trade(a, signal, candle, brokerId), initialCapital)
  {
    if Buys(a, signal, candle.close, brokerId) {
      BuyKeepsConsistent(a, initialCapital, signal, candle, brokerId);
    } else if Sells(a, signal) {
      SellKeepsConsistent(a, initialCapital, signal, candle, brokerId);
    }
  }

  /** One candle continues the account by one equity point, the value at the close after the
      candle's trade. */
  lemma StepExtends(a: Account, signal: Signal, candle: Candle, brokerId: string)
    requires candle.close > 0.0
    ensures var r := Step(a, signal, candle, brokerId);
      && Extends(r, a) && |r.equityCurve| == |a.equityCurve| + 1
      && r.equityCurve[|a.equityCurve|] == EquityPoint(candle.timestamp, Equity(r, candle.close))
  {
    TradeRecordsAtMostOne(a, signal, candle, brokerId);
    var t := Trade(a, signal, candle, brokerId);
    var r := Step(a, signal, candle, brokerId);
    assert r.equityCurve == a.equityCurve + [EquityPoint(candle.timestamp, Equity(t, candle.close))];
    assert r.equityCurve[..|a.equityCurve|] == a.equityCurve;
  }

  /** One candle keeps the account consistent. */
  lemma StepKeepsConsistent(a: Account, initialCapital: real, signal: Signal, candle: Candle, brokerId: string)
    requires candle.close > 0.0 && Consistent(a, initialCapital)
    ensures Consistent(Step(a, signal, candle, brokerId), initialCapital)
  {
    TradeKeepsConsistent(a, initialCapital, signal, candle, brokerId);
  }

  /** A purchase moves the value at the close by exactly its fee. */
  lemma BuyCostsItsFee(a: Account, signal: Signal, candle: Candle, brokerId: string)
    requires candle.close > 0.0 && Buys(a, signal, candle.close, brokerId)
    requires a.position == 0.0 || a.balance == 0.0
    ensures var r := Trade(a, signal, candle, brokerId);
      Equity(r, candle.close) + r.totalFees == Equity(a, candle.close) + a.totalFees
  {
    var price := candle.close;
    var fee := TakerFee(a.balance / price, price, brokerId);
    var amount := (a.balance - fee) / price;
    assert amount * price == a.balance - fee;
    assert a.position == 0.0;
  }

  /** A sale moves the value at the close by its fee, or by less when the fee exceeds the
      proceeds. */
  lemma SellCostsAtMostItsFee(a: Account, signal: Signal, candle: Candle, brokerId: string)
    requires candle.close > 0.0 && Sells(a, signal) && !Buys(a, signal, candle.close, brokerId)
    requires a.position == 0.0 || a.balance == 0.0
    ensures var r := Trade(a, signal, candle, brokerId);
      Equity(r, candle.close) + r.totalFees >= Equity(a, candle.close) + a.totalFees
  {
    assert a.balance == 0.0;
  }

  /** A trade at a candle's close moves the account's value at that close by exactly the fee it
      pays, except that a sale whose fee exceeds its proceeds leaves 0 rather than a debt. */
  lemma TradeCostsOnlyItsFee(a: Account, signal: Signal, candle: Candle, brokerId: string)
    requires candle.close > 0.0
    requires a.position == 0.0 || a.balance == 0.0
    ensures var r := Trade(a, signal, candle, brokerId);
      Equity(r, candle.close) + r.totalFees >= Equity(a, candle.close) + a.totalFees
    ensures var r := Trade(a, signal, candle, brokerId);
      !Sells(a, signal) ==> Equity(r, candle.close) + r.totalFees == Equity(a, candle.close) + a.totalFees
  {
    if Buys(a, signal, candle.close, brokerId) {
      BuyCostsItsFee(a, signal, candle, brokerId);
    } else if Sells(a, signal) {
      SellCostsAtMostItsFee(a, signal, candle, brokerId);
    }
  }

  /** The run over the first `n + 1` candles is one more step of the run over the first `n`. */
  lemma SimulatePrefixStep(initialCapital: real, signals: seq<Signal>, candles: seq<Candle>, brokerId: string, n: nat)
    requires |signals| == |candles| && Priced(candles) && n < |candles|
    ensures Simulate(initialCapital, signals[..n + 1], candles[..n + 1], brokerId) ==
      Step(Simulate(initialCapital, signals[..n], candles[..n], brokerId), signals[n], candles[n], brokerId)
  {
    assert signals[..n + 1][..n] == signals[..n] && candles[..n + 1][..n] == candles[..n];
  }

  /** The simulation keeps the account consistent and records one equity point per candle. */
  lemma {:induction false} SimulateConsistent(initialCapital: real, signals: seq<Signal>, candles: seq<Candle>, brokerId: string)
    requires |signals| == |candles| && Priced(candles)
    ensures Consistent(Simulate(initialCapital, signals, candles, brokerId), initialCapital)
    ensures |Simulate(initialCapital, signals, candles, brokerId).equityCurve| == |candles|
    decreases |candles|
  {
    if candles != [] {
      var n := |candles| - 1;
      SimulateConsistent(initialCapital, signals[..n], candles[..n], brokerId);
      var before := Simulate(initialCapital, signals[..n], candles[..n], brokerId);
      StepKeepsConsistent(before, initialCapital, signals[n], candles[n], brokerId);
      StepExtends(before, signals[n], candles[n], brokerId);
    }
  }

  /** A run over a prefix of the history is the beginning of the run over all of it: what has
      been recorded is never revised. */
  lemma {:induction false} SimulateExtends(initialCapital: real, signals: seq<Signal>, candles: seq<Candle>,
                                           brokerId: string, n: nat)
    requires |signals| == |candles| && Priced(candles) && n <= |candles|
    ensures Extends(Simulate(initialCapital, signals, candles, brokerId),
                    Simulate(initialCapital, signals[..n], candles[..n], brokerId))
    decreases |candles| - n
  {
    if n == |candles| {
      assert signals[..n] == signals && candles[..n] == candles;
    } else {
      SimulateExtends(initialCapital, signals, candles, brokerId, n + 1);
      SimulatePrefixStep(initialCapital, signals, candles, brokerId, n);
      var pre := Simulate(initialCapital, signals[..n], candles[..n], brokerId);
      StepExtends(pre, signals[n], candles[n], brokerId);
      ExtendsTransitive(pre, Simulate(initialCapital, signals[..n + 1], candles[..n + 1], brokerId),
        Simulate(initialCapital, signals, candles, brokerId));
    }
  }

  /** Equity point `k` is the time of candle `k` and the account's value at its close, once the
      candle's trade is made. */
  lemma EquityCurveTracksAccount(initialCapital: real, signals: seq<Signal>, candles: seq<Candle>,
                                 brokerId: string, k: nat)
    requires |signals| == |candles| && Priced(candles) && k < |candles|
    ensures |Simulate(initialCapital, signals, candles, brokerId).equityCurve| == |candles|
    ensures Simulate(initialCapital, signals, candles, brokerId).equityCurve[k] ==
      EquityPoint(candles[k].timestamp,
        Equity(Simulate(initialCapital, signals[..k + 1], candles[..k + 1], brokerId), candles[k].close))
  {
    SimulateConsistent(initialCapital, signals, candles, brokerId);
    SimulateExtends(initialCapital, signals, candles, brokerId, k + 1);
    SimulatePrefixStep(initialCapital, signals, candles, brokerId, k);
    var pre := Simulate(initialCapital, signals[..k], candles[..k], brokerId);
    SimulateConsistent(initialCapital, signals[..k], candles[..k], brokerId);
    StepExtends(pre, signals[k], candles[k], brokerId);
    var all := Simulate(initialCapital, signals, candles, brokerId);
    var next := Simulate(initialCapital, signals[..k + 1], candles[..k + 1], brokerId);
    assert all.equityCurve[k] == all.equityCurve[..k + 1][k] == next.equityCurve[k];
  }

  /** The report of a run on these signals: the account's trades, equity curve and fees, and
      the final equity valued at the last close. */
  predicate Reports(report: Report, initialCapital: real, signals: seq<Signal>, candles: seq<Candle>, brokerId: string)
  {
    && |signals| == |candles| && Priced(candles) && candles != []
    && Copies(report, Simulate(initialCapital, signals, candles, brokerId), candles[|candles| - 1].close)
  }

  /** The report carries the account's trades, curve and fees, and its value at the last price. */
  predicate Copies(report: Report, a: Account, lastClose: real)
  {
    && report.trades == a.trades && report.equityCurve == a.equityCurve
    && report.totalFees == a.totalFees && report.tradesCount == |a.trades|
    && report.finalEquity == Equity(a, lastClose)
  }

  /** A report built from an account's fields, valued at the last close, copies that account. */
  lemma CopiesTheAccount(report: Report, a: Account, lastClose: real)
    requires report.trades == a.trades && report.equityCurve == a.equityCurve
    requires report.totalFees == a.totalFees && report.tradesCount == |a.trades|
    requires report.finalEquity == a.balance + a.position * lastClose
    ensures Copies(report, a, lastClose)
  {
  }

  /** A report that copies the account of the run on `signals` reports that run. */
  lemma ReportsTheAccount(report: Report, initialCapital: real, signals: seq<Signal>, candles: seq<Candle>,
                          brokerId: string, a: Account)
    requires |signals| == |candles| && Priced(candles) && candles != []
    requires a == Simulate(initialCapital, signals, candles, brokerId)
    requires report.trades == a.trades && report.equityCurve == a.equityCurve
    requires report.totalFees == a.totalFees && report.tradesCount == |a.trades|
    requires report.finalEquity == a.balance + a.position * candles[|candles| - 1].close
    ensures Reports(report, initialCapital, signals, candles, brokerId)
  {
    CopiesTheAccount(report, a, candles[|candles| - 1].close);
  }

  /** The last equity point of a run is its final value at the last close. */
  lemma LastPointIsFinal(initialCapital: real, signals: seq<Signal>, candles: seq<Candle>, brokerId: string)
    requires |signals| == |candles| && Priced(candles) && candles != []
    ensures var a := Simulate(initialCapital, signals, candles, brokerId);
      |a.equityCurve| == |candles| &&
      a.equityCurve[|candles| - 1].value == Equity(a, candles[|candles| - 1].close)
  {
    var n := |candles|;
    EquityCurveTracksAccount(initialCapital, signals, candles, brokerId, n - 1);
    assert signals[..n] == signals && candles[..n] == candles;
  }

  /** A consistent account is worth nothing negative at a positive price when its capital was not
      negative. */
  lemma ConsistentEquityNonNegative(a: Account, initialCapital: real, price: real)
    requires Consistent(a, initialCapital) && price > 0.0 && initialCapital >= 0.0
    ensures Equity(a, price) >= 0.0
  {
    assert a.position * price >= 0.0;
  }

  /** What every report states about itself: one equity point per candle ending at the final
      equity, alternating trades whose fees add up to the total, half as many round trips as
      trades, and no negative final equity from a non-negative capital. */
  lemma ReportIsConsistent(report: Report, initialCapital: real, signals: seq<Signal>, candles: seq<Candle>, brokerId: string)
    requires Reports(report, initialCapital, signals, candles, brokerId)
    ensures |report.equityCurve| == |candles|
    ensures report.equityCurve[|candles| - 1].value == report.finalEquity
    ensures Alternating(report.trades) && report.totalFees == FeeTotal(report.trades)
    ensures |RoundTrips(report.trades)| == |report.trades| / 2
    ensures initialCapital >= 0.0 ==> report.finalEquity >= 0.0
  {
    var a := Simulate(initialCapital, signals, candles, brokerId);
    SimulateConsistent(initialCapital, signals, candles, brokerId);
    LastPointIsFinal(initialCapital, signals, candles, brokerId);
    AlternatingRoundTrips(report.trades);
    if initialCapital >= 0.0 {
      ConsistentEquityNonNegative(a, initialCapital, candles[|candles| - 1].close);
    }
  }

  /** What a successful backtest reports: the run of `signals` over the history (see
      `Reports`), under the strategy's name and the broker id used, with the return relative to
      the initial capital, the metrics of that run's trades and equity curve, their drawdown
      curve, the history as chart candles, and no indicator lines (no strategy the registry
      builds has `getParsedIndicators`). */
  predicate Describes(report: Report, name: string, initialCapital: real, signals: seq<Signal>,
                      candles: seq<Candle>, brokerId: string)
  {
    && Reports(report, initialCapital, signals, candles, brokerId)
    && report.strategy == name && report.broker == brokerId && report.initialCapital == initialCapital
    && report.totalReturnPct == ReturnPct(initialCapital, report.finalEquity)
    && MetricsOf(report.metrics, initialCapital, report.finalEquity, report.trades, report.equityCurve)
    && report.drawdownCurve == report.metrics.maxDrawdown.drawdownCurve
    && report.chartCandles == ChartCandles(candles)
    && report.indicators.None?
  }

  /** A report of the run on `signals` with the service's remaining fields filled in as
      `runBacktest` fills them is described by `Describes`. */
  lemma DescribedReport(report: Report, name: string, initialCapital: real, signals: seq<Signal>,
                        candles: seq<Candle>, brokerId: string, a: Account)
    requires |signals| == |candles| && Priced(candles) && candles != []
    requires a == Simulate(initialCapital, signals, candles, brokerId)
    requires report.trades == a.trades && report.equityCurve == a.equityCurve
    requires report.totalFees == a.totalFees && report.tradesCount == |a.trades|
    requires report.finalEquity == a.balance + a.position * candles[|candles| - 1].close
    requires report.strategy == name && report.broker == brokerId && report.initialCapital == initialCapital
    requires report.totalReturnPct == ReturnPct(initialCapital, report.finalEquity)
    requires MetricsOf(report.metrics, initialCapital, report.finalEquity, a.trades, a.equityCurve)
    requires report.drawdownCurve == report.metrics.maxDrawdown.drawdownCurve
    requires report.chartCandles == ChartCandles(candles) && report.indicators.None?
    ensures Describes(report, name, initialCapital, signals, candles, brokerId)
  {
    ReportsTheAccount(report, initialCapital, signals, candles, brokerId, a);
  }

  /** Figures a described report shows of itself: one round trip per BUY/SELL pair, one drawdown
      point and one chart candle per candle, the metrics' return equal to the report's, and the
      trade statistics over the profits of those round trips. */
  lemma DescribedFigures(report: Report, name: string, initialCapital: real, signals: seq<Signal>,
                         candles: seq<Candle>, brokerId: string)
    requires Describes(report, name, initialCapital, signals, candles, brokerId)
    ensures report.metrics.trades.totalTrades == |report.trades| / 2
    ensures |report.drawdownCurve| == |candles| && |report.chartCandles| == |candles|
    ensures report.metrics.totalReturnPct == report.totalReturnPct
    ensures report.metrics.trades.winningTrades + report.metrics.trades.losingTrades == |report.trades| / 2
  {
    ReportIsConsistent(report, initialCapital, signals, candles, brokerId);
    StatsBounds(report.metrics.trades, Pnls(RoundTrips(report.trades)));
  }

  /** `candles.map(...)` for the chart: the same prices, the time in whole seconds. */
  function ChartCandles(candles: seq<Candle>): (r: seq<ChartCandle>)
    ensures |r| == |candles|
    ensures forall k :: 0 <= k < |candles| ==>
      r[k].time * 1000 <= candles[k].timestamp < r[k].time * 1000 + 1000 &&
      r[k].open == candles[k].open && r[k].high == candles[k].high &&
      r[k].low == candles[k].low && r[k].close == candles[k].close
  {
    seq(|candles|, k requires 0 <= k < |candles| =>
      ChartCandle(MultiConfirm.Seconds(candles[k].timestamp), candles[k].open, candles[k].high, candles[k].low, candles[k].close))
  }

  function Times(candles: seq<Candle>): (r: seq<int>)
    ensures |r| == |candles| && forall k :: 0 <= k < |candles| ==> r[k] == candles[k].timestamp
  {
    seq(|candles|, k requires 0 <= k < |candles| => candles[k].timestamp)
  }

  // ------------------------------------------------------------ the service

  /** Why `runBacktest` throws, if it does: too short a history, an unavailable strategy, or
      parameters the strategy rejects, checked in that order. None of it depends on the broker. */
  function Precheck(names: seq<string>, name: string, params: Option<Params>, candleCount: nat): Option<BacktestError>
  {
    if candleCount < MinCandles then Some(NotEnoughData)
    else match Resolve(names, name)
      case Err(e) => Some(StrategyUnavailable(e))
      case Ok(kind) => (match Validate(kind, params) case Fail(m) => Some(InvalidParameters(m)) case Pass => None)
  }

  /** Non-increasing final equity. */
  predicate Ranked(results: seq<BrokerResult>)
  {
    forall i, j :: 0 <= i < j < |results| ==> results[i].finalEquity >= results[j].finalEquity
  }

  /** The results whose final equity is `e`, in their order. */
  function WithEquity(results: seq<BrokerResult>, e: real): seq<BrokerResult>
    decreases |results|
  {
    if results == [] then []
    else
      var last := results[|results| - 1];
      WithEquity(results[..|results| - 1], e) + (if last.finalEquity == e then [last] else [])
  }

  lemma {:induction false} WithEquityAppend(a: seq<BrokerResult>, b: seq<BrokerResult>, e: real)
    ensures WithEquity(a + b, e) == WithEquity(a, e) + WithEquity(b, e)
    decreases |b|
  {
    if b != [] {
      assert (a + b)[..|a + b| - 1] == a + b[..|b| - 1];
      WithEquityAppend(a, b[..|b| - 1], e);
    } else {
      assert a + b == a;
    }
  }

  lemma {:induction false} WithEquityNone(results: seq<BrokerResult>, e: real)
    requires forall k :: 0 <= k < |results| ==> results[k].finalEquity != e
    ensures WithEquity(results, e) == []
    decreases |results|
  {
    if results != [] {
      WithEquityNone(results[..|results| - 1], e);
    }
  }

  /** Inserting `x` at `j`, after every result at least as good and before the first worse one,
      puts it last among the results of its own equity and moves no other result past one of
      equal equity. */
  lemma InsertedStable(sorted: seq<BrokerResult>, x: BrokerResult, j: nat, e: real)
    requires Ranked(sorted) && j <= |sorted|
    requires j < |sorted| ==> sorted[j].finalEquity < x.finalEquity
    ensures WithEquity(sorted[..j] + [x] + sorted[j..], e) ==
      WithEquity(sorted, e) + (if x.finalEquity == e then [x] else [])
  {
    InsertedParts(sorted[..j], x, sorted[j..], e);
    WithEquitySplit(sorted, j, e);
    if x.finalEquity == e {
      WorseAfter(sorted, j, e);
    }
  }

  lemma WithEquitySplit(results: seq<BrokerResult>, j: nat, e: real)
    requires j <= |results|
    ensures WithEquity(results, e) == WithEquity(results[..j], e) + WithEquity(results[j..], e)
  {
    assert results == results[..j] + results[j..];
    WithEquityAppend(results[..j], results[j..], e);
  }

  /** The results of equity `e` around an inserted `x`: those before it, then `x` if it has that
      equity, then those after it. */
  lemma InsertedParts(front: seq<BrokerResult>, x: BrokerResult, back: seq<BrokerResult>, e: real)
    ensures WithEquity(front + [x] + back, e) ==
      WithEquity(front, e) + (if x.finalEquity == e then [x] else []) + WithEquity(back, e)
  {
    WithEquityAppend(front + [x], back, e);
    WithEquityAppend(front, [x], e);
    assert [x][..0] == [];
  }

  /** In a ranked list whose entry `j` is below `e`, no entry from `j` on has equity `e`. */
  lemma WorseAfter(sorted: seq<BrokerResult>, j: nat, e: real)
    requires Ranked(sorted) && j <= |sorted|
    requires j < |sorted| ==> sorted[j].finalEquity < e
    ensures WithEquity(sorted[j..], e) == []
  {
    var back := sorted[j..];
    forall k | 0 <= k < |back| ensures back[k].finalEquity != e {
      assert back[k] == sorted[j + k];
    }
    WithEquityNone(back, e);
  }

  /** Inserts `x` after every result whose final equity is at least its own. */
  method Insert(sorted: seq<BrokerResult>, x: BrokerResult) returns (r: seq<BrokerResult>)
    requires Ranked(sorted)
    ensures Ranked(r) && multiset(r) == multiset(sorted) + multiset{x}
    ensures forall e :: WithEquity(r, e) == WithEquity(sorted, e) + (if x.finalEquity == e then [x] else [])
  {
    var j := 0;
    while j < |sorted| && sorted[j].finalEquity >= x.finalEquity
      invariant j <= |sorted|
      invariant forall k :: 0 <= k < j ==> sorted[k].finalEquity >= x.finalEquity
    {
      j := j + 1;
    }
    InsertedRanked(sorted, x, j);
    r := sorted[..j] + [x] + sorted[j..];
    assert sorted == sorted[..j] + sorted[j..];
    forall e ensures WithEquity(r, e) == WithEquity(sorted, e) + (if x.finalEquity == e then [x] else []) {
      InsertedStable(sorted, x, j, e);
    }
  }

  /** Reordering the runs neither adds nor loses a broker: every result belongs to a broker of the
      catalogue and, when every broker ran, every broker has a result. */
  lemma SameBrokers(collected: seq<BrokerResult>, results: seq<BrokerResult>, brokers: seq<BrokerConfig>)
    requires multiset(results) == multiset(collected) && |collected| <= |brokers|
    requires forall k :: 0 <= k < |collected| ==> collected[k].broker == brokers[k].name
    ensures |results| == |collected|
    ensures forall x | x in results :: exists b | b in brokers :: x.broker == b.name
    ensures |collected| == |brokers| ==> forall b | b in brokers :: exists x | x in results :: x.broker == b.name
  {
    assert |results| == |multiset(results)| == |multiset(collected)| == |collected|;
    forall x | x in results
      ensures exists b | b in brokers :: x.broker == b.name
    {
      assert x in multiset(collected);
      var k :| 0 <= k < |collected| && collected[k] == x;
      assert brokers[k] in brokers;
    }
    if |collected| == |brokers| {
      forall b | b in brokers
        ensures exists x | x in results :: x.broker == b.name
      {
        var k :| 0 <= k < |brokers| && brokers[k] == b;
        assert collected[k] in multiset(results);
      }
    }
  }

  /** Two ranked lists, the first nowhere below the second, make a ranked list. */
  lemma ConcatRanked(a: seq<BrokerResult>, b: seq<BrokerResult>)
    requires Ranked(a) && Ranked(b)
    requires forall i, j :: 0 <= i < |a| && 0 <= j < |b| ==> a[i].finalEquity >= b[j].finalEquity
    ensures Ranked(a + b)
  {
    var r := a + b;
    forall i, j | 0 <= i < j < |r| ensures r[i].finalEquity >= r[j].finalEquity {
      if j < |a| {
        assert r[i] == a[i] && r[j] == a[j];
      } else if i < |a| {
        assert r[i] == a[i] && r[j] == b[j - |a|];
      } else {
        assert r[i] == b[i - |a|] && r[j] == b[j - |a|];
      }
    }
  }

  /** `x` placed after the results at least as good as it, and before the first worse one, keeps
      a ranked list ranked. */
  lemma InsertedRanked(sorted: seq<BrokerResult>, x: BrokerResult, j: nat)
    requires Ranked(sorted) && j <= |sorted|
    requires forall k :: 0 <= k < j ==> sorted[k].finalEquity >= x.finalEquity
    requires j < |sorted| ==> sorted[j].finalEquity < x.finalEquity
    ensures Ranked(sorted[..j] + [x] + sorted[j..])
  {
    var front, back := sorted[..j], sorted[j..];
    assert Ranked(front) by {
      forall a, b | 0 <= a < b < |front| ensures front[a].finalEquity >= front[b].finalEquity {
        assert front[a] == sorted[a] && front[b] == sorted[b];
      }
    }
    assert Ranked(back) by {
      forall a, b | 0 <= a < b < |back| ensures back[a].finalEquity >= back[b].finalEquity {
        assert back[a] == sorted[j + a] && back[b] == sorted[j + b];
      }
    }
    forall k | 0 <= k < |back| ensures x.finalEquity >= back[k].finalEquity {
      assert back[k] == sorted[j + k] && back[0] == sorted[j];
    }
    ConcatRanked([x], back);
    forall a, b | 0 <= a < |front| && 0 <= b < |[x] + back| ensures front[a].finalEquity >= ([x] + back)[b].finalEquity {
      assert front[a] == sorted[a];
      if b > 0 {
        assert ([x] + back)[b] == sorted[j + b - 1];
      }
    }
    ConcatRanked(front, [x] + back);
    assert sorted[..j] + [x] + sorted[j..] == front + ([x] + back);
  }

  /** `sort((a, b) => b.finalEquity - a.finalEquity)`, a stable sort: the same results, by
      non-increasing final equity, the results of equal equity in their original order. */
  method SortByEquity(results: seq<BrokerResult>) returns (r: seq<BrokerResult>)
    ensures Ranked(r) && multiset(r) == multiset(results)
    ensures forall e :: WithEquity(r, e) == WithEquity(results, e)
  {
    r := [];
    for i := 0 to |results|
      invariant Ranked(r) && multiset(r) == multiset(results[..i])
      invariant forall e :: WithEquity(r, e) == WithEquity(results[..i], e)
    {
      assert results[..i + 1] == results[..i] + [results[i]];
      assert results[..i + 1][..i] == results[..i];
      r := Insert(r, results[i]);
    }
    assert results[..|results|] == results;
  }

  /** The signals the backtest of the strategy registered as `name` replays over `n` candles,
      once `Precheck` lets it run. */
  function PlannedSignals(names: seq<string>, name: string, params: Option<Params>, series: IndicatorSeries,
                          n: nat): (r: seq<Signal>)
    requires Precheck(names, name, params, n).None?
    ensures |r| == n
  {
    LoadedSignals(Resolve(names, name).value, params, n, series, n)
  }

  /** The comparison row of the run of `signals` with `broker`: its final equity valued at the
      last close, the return on the initial capital, and the number of trades. */
  function BrokerRow(broker: BrokerConfig, initialCapital: real, signals: seq<Signal>, candles: seq<Candle>): BrokerResult
    requires |signals| == |candles| && Priced(candles) && candles != []
  {
    var a := Simulate(initialCapital, signals, candles, broker.id);
    var finalEquity := Equity(a, candles[|candles| - 1].close);
    BrokerResult(broker.name, finalEquity, ReturnPct(initialCapital, finalEquity), |a.trades|)
  }

  /** The rows of `compareBrokers` before ranking: none when the backtest cannot run, else one
      per catalog broker, in catalog order, each from the same signals. */
  function ComparisonRows(names: seq<string>, name: string, params: Option<Params>, candles: seq<Candle>,
                          initialCapital: real, series: IndicatorSeries): (r: seq<BrokerResult>)
    requires Priced(candles)
    ensures Precheck(names, name, params, |candles|).Some? ==> r == []
    ensures Precheck(names, name, params, |candles|).None? ==> |r| == |GetBrokers()|
    ensures forall k :: 0 <= k < |r| ==> r[k].broker == GetBrokers()[k].name
  {
    if Precheck(names, name, params, |candles|).Some? then []
    else
      var signals := PlannedSignals(names, name, params, series, |candles|);
      seq(|GetBrokers()|, k requires 0 <= k < |GetBrokers()| =>
        BrokerRow(GetBrokers()[k], initialCapital, signals, candles))
  }

  /** A described run with a broker yields that broker's comparison row. */
  lemma RowOfRun(report: Report, name: string, initialCapital: real, signals: seq<Signal>, candles: seq<Candle>,
                 broker: BrokerConfig)
    requires Describes(report, name, initialCapital, signals, candles, broker.id)
    ensures BrokerResult(broker.name, report.finalEquity, report.totalReturnPct, report.tradesCount) ==
      BrokerRow(broker, initialCapital, signals, candles)
  {
  }

  /** The end of `runBacktest`: the final value at the last close, the return, the metrics and
      the chart candles of the finished run, put together into the report. */
  method ReportOn(name: string, initialCapital: real, ghost signals: seq<Signal>, candles: seq<Candle>,
                  brokerId: string, account: Account, indicators: Option<MultiConfirm.Indicators>)
    returns (report: Report)
    requires |signals| == |candles| && Priced(candles) && candles != []
    requires account == Simulate(initialCapital, signals, candles, brokerId) && indicators.None?
    ensures Describes(report, name, initialCapital, signals, candles, brokerId)
  {
    var finalEquity := account.balance + account.position * candles[|candles| - 1].close;
    var totalReturnPct := ReturnPct(initialCapital, finalEquity);
    var metrics := CalculateMetrics(initialCapital, finalEquity, account.trades, account.equityCurve);
    report := Report(name, brokerId, initialCapital, finalEquity, account.totalFees, totalReturnPct,
      |account.trades|, metrics, account.trades, account.equityCurve, metrics.maxDrawdown.drawdownCurve,
      ChartCandles(candles), indicators);
    DescribedReport(report, name, initialCapital, signals, candles, brokerId, account);
  }

  /** One more entry of a list extends its prefix by that entry; the full prefix is the list. */
  lemma PrefixGrows(rows: seq<BrokerResult>, i: nat)
    requires i <= |rows|
    ensures i < |rows| ==> rows[..i + 1] == rows[..i] + [rows[i]]
    ensures i == |rows| ==> rows[..i] == rows
  {
  }

  class BacktestService {
    const registry: Registry

    constructor(registry: Registry)
      ensures this.registry == registry
    {
      this.registry := registry;
    }

    /** A BUY signal: all the cash, net of the taker fee on it, buys the asset at the close; with
        no cash, or none left after the fee, nothing happens. */
    method BuyAll(a: Account, candle: Candle, brokerId: string) returns (r: Account)
      requires candle.close > 0.0
      ensures r == Bought(a, candle, brokerId)
    {
      r := a;
      var price := candle.close;
      if a.balance > 0.0 {
        var roughAmount := a.balance / price;
        var feeValue := CalculateFee(roughAmount, price, Taker, Some(brokerId));
        var netBalance := a.balance - feeValue;
        if netBalance > 0.0 {
          var amount := netBalance / price;
          var balance := 0.0;
          r := a.(balance := balance, position := amount, totalFees := a.totalFees + feeValue,
                  trades := a.trades + [BacktestTrade(BuyTrade, price, Some(amount), feeValue, candle.timestamp, balance + amount * price)]);
          assert Bought(a, candle, brokerId).trades[|a.trades|].equity == balance + amount * price;
        }
      }
    }

    /** A SELL signal: the whole position is sold at the close, the proceeds net of the taker fee
        but never below 0; with nothing held, nothing happens. */
    method SellAll(a: Account, candle: Candle, brokerId: string) returns (r: Account)
      requires candle.close > 0.0
      ensures r == Sold(a, candle, brokerId)
    {
      r := a;
      var price := candle.close;
      if a.position > 0.0 {
        var earnings := a.position * price;
        var feeValue := CalculateFee(a.position, price, Taker, Some(brokerId));
        var balance := earnings - feeValue;
        if balance < 0.0 {
          balance := 0.0;
        }
        r := a.(balance := balance, position := 0.0, totalFees := a.totalFees + feeValue,
                trades := a.trades + [BacktestTrade(SellTrade, price, None, feeValue, candle.timestamp, balance)]);
        ghost var sold := Sold(a, candle, brokerId);
        assert sold.totalFees == a.totalFees + feeValue;
        assert sold.balance == balance;
        assert sold.trades == r.trades;
      }
    }

    /** The body of the execution loop for one candle: trade on the signal, then record the
        equity at the close. */
    method ExecuteCandle(a: Account, signal: Signal, candle: Candle, brokerId: string) returns (r: Account)
      requires candle.close > 0.0
      ensures r == Step(a, signal, candle, brokerId)
    {
      var t := a;
      if signal == BuySignal {
        t := BuyAll(a, candle, brokerId);
      } else if signal == SellSignal {
        t := SellAll(a, candle, brokerId);
      }
      var price := candle.close;
      assert t == Trade(a, signal, candle, brokerId);
      assert Equity(t, price) == t.balance + t.position * price;
      r := t.(equityCurve := t.equityCurve + [EquityPoint(candle.timestamp, t.balance + t.position * price)]);
    }

    /** One turn of the execution loop: the strategy's signal at candle `i`, traded on. */
    method ExecuteNext(s: Strategy, candles: seq<Candle>, i: nat, initialCapital: real, brokerId: string,
                       ghost signals: seq<Signal>, account: Account)
      returns (next: Account)
      requires Prepared(s) && Priced(candles) && i < |candles|
      requires signals == SignalsUpTo(s, |candles|)
      requires account == Simulate(initialCapital, signals[..i], candles[..i], brokerId)
      ensures next == Simulate(initialCapital, signals[..i + 1], candles[..i + 1], brokerId)
    {
      SimulatePrefixStep(initialCapital, signals, candles, brokerId, i);
      var signal := SignalAt(s, i);
      next := ExecuteCandle(account, signal, candles[i], brokerId);
    }

    /** The execution loop: at each candle asks the strategy for its signal and trades on it. */
    method Execute(s: Strategy, candles: seq<Candle>, initialCapital: real, brokerId: string)
      returns (account: Account)
      requires Prepared(s) && Priced(candles)
      ensures account == Simulate(initialCapital, SignalsUpTo(s, |candles|), candles, brokerId)
    {
      account := Opening(initialCapital);
      ghost var signals := SignalsUpTo(s, |candles|);
      for i := 0 to |candles|
        invariant account == Simulate(initialCapital, signals[..i], candles[..i], brokerId)
      {
        account := ExecuteNext(s, candles, i, initialCapital, brokerId, signals, account);
      }
      assert signals[..|candles|] == signals && candles[..|candles|] == candles;
      assert account == Simulate(initialCapital, signals, candles, brokerId);
      assert signals == SignalsUpTo(s, |candles|);
    }

    /** The replay and final report of a strategy that has been validated and prepared. */
    method Replay(strategy: Strategy, name: string, candles: seq<Candle>, initialCapital: real, brokerId: string,
                  ghost signals: seq<Signal>)
      returns (report: Report)
      requires Prepared(strategy) && !strategy.MultiConfirmInstance?
      requires Priced(candles) && candles != [] && signals == SignalsUpTo(strategy, |candles|)
      ensures Describes(report, name, initialCapital, signals, candles, brokerId)
    {
      var account := Execute(strategy, candles, initialCapital, brokerId);
      assert signals == SignalsUpTo(strategy, |candles|);
      var indicators := ParsedIndicators(strategy, Times(candles));
      report := ReportOn(name, initialCapital, signals, candles, brokerId, account, indicators);
    }

    /** `runBacktest` on a fetched history: the checks of `Precheck`, then a fresh strategy is
        validated, prepared and replayed, and its account reported with the metrics. */
    method RunBacktest(name: string, params: Option<Params>, candles: seq<Candle>, initialCapital: real,
                       brokerId: Option<string>, series: IndicatorSeries)
      returns (r: Result<Report, BacktestError>)
      requires Priced(candles)
      ensures r.Err? <==> Precheck(registry.names, name, params, |candles|).Some?
      ensures r.Err? ==> r.error == Precheck(registry.names, name, params, |candles|).value
      ensures r.Ok? ==> Describes(r.value, name, initialCapital,
        PlannedSignals(registry.names, name, params, series, |candles|), candles, ChosenBrokerId(brokerId))
    {
      if |candles| < MinCandles {
        return Err(NotEnoughData);
      }
      var got := registry.Get(name);
      if got.Err? {
        return Err(StrategyUnavailable(got.error));
      }
      var strategy := got.value;
      ghost var names := registry.names;
      var validation := Load(strategy, params, |candles|, series);
      assert registry.names == names;
      if validation.Fail? {
        return Err(InvalidParameters(validation.error));
      }
      var report := ReplayLoaded(strategy, name, params, candles, initialCapital, ChosenBrokerId(brokerId), series);
      r := Ok(report);
    }

    /** The end of `runBacktest` once the checks pass: the loaded strategy's signals are the
        planned ones, and its replay is reported. */
    method ReplayLoaded(strategy: Strategy, name: string, params: Option<Params>, candles: seq<Candle>,
                        initialCapital: real, brokerId: string, series: IndicatorSeries)
      returns (report: Report)
      requires Priced(candles) && Precheck(registry.names, name, params, |candles|).None?
      requires Resolve(registry.names, name) == Ok(strategy.Kind()) && !strategy.MultiConfirmInstance?
      requires Loaded(strategy, params, |candles|, series)
      ensures Describes(report, name, initialCapital,
        PlannedSignals(registry.names, name, params, series, |candles|), candles, brokerId)
    {
      LoadedSignalsAgree(strategy, params, |candles|, series, |candles|);
      ghost var planned := PlannedSignals(registry.names, name, params, series, |candles|);
      report := Replay(strategy, name, candles, initialCapital, brokerId, planned);
    }

    /** One turn of the loop of `compareBrokers`: the backtest with `broker`, and its row when it
        succeeds. */
    method RunForBroker(name: string, params: Option<Params>, candles: seq<Candle>, initialCapital: real,
                        series: IndicatorSeries, broker: BrokerConfig)
      returns (row: Option<BrokerResult>)
      requires Priced(candles) && broker.id != ""
      ensures row.None? <==> Precheck(registry.names, name, params, |candles|).Some?
      ensures row.Some? ==>
        row.value == BrokerRow(broker, initialCapital, PlannedSignals(registry.names, name, params, series, |candles|), candles)
    {
      var run := RunBacktest(name, params, candles, initialCapital, Some(broker.id), series);
      if run.Err? {
        return None;
      }
      RowOfRun(run.value, name, initialCapital, PlannedSignals(registry.names, name, params, series, |candles|),
        candles, broker);
      row := Some(BrokerResult(broker.name, run.value.finalEquity, run.value.totalReturnPct, run.value.tradesCount));
    }

    /** The loop of `compareBrokers`: one row per catalog broker whose backtest succeeds, in
        catalog order. */
    method CollectRuns(name: string, params: Option<Params>, candles: seq<Candle>, initialCapital: real,
                       series: IndicatorSeries)
      returns (collected: seq<BrokerResult>)
      requires Priced(candles)
      ensures collected == ComparisonRows(registry.names, name, params, candles, initialCapital, series)
    {
      var brokers := GetBrokers();
      ghost var rows := ComparisonRows(registry.names, name, params, candles, initialCapital, series);
      collected := [];
      for i := 0 to |brokers|
        invariant collected == if rows == [] then [] else rows[..i]
      {
        var row := RunForBroker(name, params, candles, initialCapital, series, brokers[i]);
        if row.Some? {
          collected := collected + [row.value];
          PrefixGrows(rows, i);
        }
      }
      if rows != [] {
        PrefixGrows(rows, |brokers|);
      }
    }

    /** `compareBrokers`: the backtest once per catalog broker, keeping the runs that succeed,
        best final equity first, brokers of equal final equity in catalog order. A run fails for
        one broker exactly when it fails for all. */
    method CompareBrokers(name: string, params: Option<Params>, candles: seq<Candle>, initialCapital: real,
                          series: IndicatorSeries)
      returns (results: seq<BrokerResult>)
      requires Priced(candles)
      ensures Ranked(results)
      ensures multiset(results) == multiset(ComparisonRows(registry.names, name, params, candles, initialCapital, series))
      ensures var rows := ComparisonRows(registry.names, name, params, candles, initialCapital, series);
        forall e :: WithEquity(results, e) == WithEquity(rows, e)
      ensures |results| == if Precheck(registry.names, name, params, |candles|).Some? then 0 else |GetBrokers()|
      ensures forall x | x in results :: exists b | b in GetBrokers() :: x.broker == b.name
      ensures Precheck(registry.names, name, params, |candles|).None? ==>
        forall b | b in GetBrokers() :: exists x | x in results :: x.broker == b.name
    {
      var collected := CollectRuns(name, params, candles, initialCapital, series);
      results := SortByEquity(collected);
      SameBrokers(collected, results, GetBrokers());
    }
  }
}
