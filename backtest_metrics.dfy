/** Performance metrics of a backtest run: drawdown over the equity curve, period returns,
    round trips paired from the trade list, and the win/loss statistics built on them. The
    source rounds every reported number to two decimals with `toFixed`; this model reports the
    unrounded values. */
module BacktestMetrics {
  import opened Wrappers
  import opened Money
  import opened Series

  datatype TradeKind = BuyTrade | SellTrade

  /** A trade the simulator records; only BUY trades carry an amount. */
  datatype BacktestTrade = BacktestTrade(
    kind: TradeKind, price: real, amount: Option<real>, fee: real, timestamp: int, equity: real)

  datatype EquityPoint = EquityPoint(time: int, value: real)

  datatype DrawdownPoint = DrawdownPoint(time: int, drawdownPct: real)

  datatype DrawdownInfo = DrawdownInfo(
    maxDrawdown: real, maxDrawdownPct: real, peakEquity: real, troughEquity: real,
    drawdownCurve: seq<DrawdownPoint>)

  // ---------------------------------------------------------------- drawdown

  /** The running peak after the points of `curve`, starting from 0. */
  function Peak(curve: seq<EquityPoint>): (r: real)
    ensures r >= 0.0
    decreases |curve|
  {
    if curve == [] then 0.0 else Max(Peak(curve[..|curve| - 1]), curve[|curve| - 1].value)
  }

  /** The peak is the largest value seen (or 0, when larger): no point lies above it, and unless
      it is 0 some point lies exactly on it. */
  lemma {:induction false} PeakIsRunningMaximum(curve: seq<EquityPoint>)
    ensures forall i :: 0 <= i < |curve| ==> curve[i].value <= Peak(curve)
    ensures Peak(curve) == 0.0 || exists i :: 0 <= i < |curve| && Peak(curve) == curve[i].value
    decreases |curve|
  {
    if curve != [] {
      var init := curve[..|curve| - 1];
      PeakIsRunningMaximum(init);
      assert forall i :: 0 <= i < |init| ==> init[i] == curve[i];
    }
  }

  lemma PeakStep(curve: seq<EquityPoint>, n: nat)
    requires n < |curve|
    ensures Peak(curve[..n + 1]) == Max(Peak(curve[..n]), curve[n].value)
  {
    assert curve[..n + 1][..n] == curve[..n];
  }

  /** How far point `i` lies below the peak reached up to and including it. */
  function DrawdownAt(curve: seq<EquityPoint>, i: nat): (r: real)
    requires i < |curve|
    ensures r >= 0.0
  {
    assert curve[i].value <= Peak(curve[..i + 1]) by {
      PeakIsRunningMaximum(curve[..i + 1]);
      assert curve[..i + 1][i] == curve[i];
    }
    Peak(curve[..i + 1]) - curve[i].value
  }

  /** A drawdown as a percentage of its peak; 0 while the peak is 0. */
  function Percent(dd: real, peak: real): real
  {
    if peak > 0.0 then dd / peak * 100.0 else 0.0
  }

  function PercentAt(curve: seq<EquityPoint>, i: nat): real
    requires i < |curve|
  {
    Percent(DrawdownAt(curve, i), Peak(curve[..i + 1]))
  }

  /** One point of the drawdown loop: the peak raised to the point's value if it is higher, and
      the point's drawdown below it, absolute and in percent. */
  method DrawdownStep(curve: seq<EquityPoint>, n: nat, peak: real) returns (peak': real, dd: real, ddPct: real)
    requires n < |curve| && peak == Peak(curve[..n])
    ensures peak' == Peak(curve[..n + 1])
    ensures dd == DrawdownAt(curve, n) && ddPct == PercentAt(curve, n)
  {
    var point := curve[n];
    PeakStep(curve, n);
    peak' := peak;
    if point.value > peak' {
      peak' := point.value;
    }
    dd := peak' - point.value;
    ddPct := if peak' > 0.0 then (dd / peak') * 100.0 else 0.0;
  }

  /** `points` is the drawdown curve of the first `n` equity points. */
  predicate CurveOf(curve: seq<EquityPoint>, points: seq<DrawdownPoint>, n: nat)
    requires n <= |curve|
  {
    |points| == n && forall i :: 0 <= i < n ==> points[i] == DrawdownPoint(curve[i].time, PercentAt(curve, i))
  }

  /** No drawdown among the first `n` points exceeds `bound`. */
  predicate DrawdownsAtMost(curve: seq<EquityPoint>, n: nat, bound: real)
    requires n <= |curve|
  {
    forall i :: 0 <= i < n ==> DrawdownAt(curve, i) <= bound
  }

  /** Every drawdown among the first `n` points is below `bound`. */
  predicate DrawdownsBelow(curve: seq<EquityPoint>, n: nat, bound: real)
    requires n <= |curve|
  {
    forall i :: 0 <= i < n ==> DrawdownAt(curve, i) < bound
  }

  lemma CurveOfStep(curve: seq<EquityPoint>, points: seq<DrawdownPoint>, n: nat)
    requires n < |curve| && CurveOf(curve, points, n)
    ensures CurveOf(curve, points + [DrawdownPoint(curve[n].time, PercentAt(curve, n))], n + 1)
  {
    var next := points + [DrawdownPoint(curve[n].time, PercentAt(curve, n))];
    forall i | 0 <= i < n + 1 ensures next[i] == DrawdownPoint(curve[i].time, PercentAt(curve, i)) {
      if i < n {
        assert next[i] == points[i];
      }
    }
  }

  lemma DrawdownsAtMostStep(curve: seq<EquityPoint>, n: nat, bound: real, bound': real)
    requires n < |curve| && DrawdownsAtMost(curve, n, bound)
    requires bound <= bound' && DrawdownAt(curve, n) <= bound'
    ensures DrawdownsAtMost(curve, n + 1, bound')
  {
  }

  lemma NewMaximum(curve: seq<EquityPoint>, n: nat, bound: real, dd: real)
    requires n < |curve| && DrawdownsAtMost(curve, n, bound) && bound < dd
    ensures DrawdownsBelow(curve, n, dd)
  {
  }

  /** What the drawdown report says about `curve`: one point per equity point, and the largest
      drawdown with the peak and trough it runs between (the first one, on ties). */
  predicate DrawdownOf(info: DrawdownInfo, curve: seq<EquityPoint>)
  {
    && |info.drawdownCurve| == |curve|
    && (forall i :: 0 <= i < |curve| ==>
          info.drawdownCurve[i] == DrawdownPoint(curve[i].time, PercentAt(curve, i)))
    && info.maxDrawdown >= 0.0
    && (forall i :: 0 <= i < |curve| ==> DrawdownAt(curve, i) <= info.maxDrawdown)
    && (info.maxDrawdown == 0.0 ==>
          info.maxDrawdownPct == 0.0 && info.peakEquity == 0.0 && info.troughEquity == 0.0)
    && (info.maxDrawdown > 0.0 ==>
          exists i :: 0 <= i < |curve| && info.maxDrawdown == DrawdownAt(curve, i) &&
            info.maxDrawdownPct == PercentAt(curve, i) &&
            info.peakEquity == Peak(curve[..i + 1]) && info.troughEquity == curve[i].value &&
            forall j :: 0 <= j < i ==> DrawdownAt(curve, j) < info.maxDrawdown)
  }

  /** `calculateDrawdown`. */
  method CalculateDrawdown(curve: seq<EquityPoint>) returns (info: DrawdownInfo)
    ensures DrawdownOf(info, curve)
  {
    var peak, maxDD, maxDDPct, peakEquity, troughEquity := 0.0, 0.0, 0.0, 0.0, 0.0;
    var drawdownCurve: seq<DrawdownPoint> := [];
    ghost var at := 0;
    for n := 0 to |curve|
      invariant peak == Peak(curve[..n])
      invariant CurveOf(curve, drawdownCurve, n)
      invariant maxDD >= 0.0
      invariant DrawdownsAtMost(curve, n, maxDD)
      invariant maxDD == 0.0 ==> maxDDPct == 0.0 && peakEquity == 0.0 && troughEquity == 0.0
      invariant maxDD > 0.0 ==>
        0 <= at < n &&
        maxDD == DrawdownAt(curve, at) && maxDDPct == PercentAt(curve, at) &&
        peakEquity == Peak(curve[..at + 1]) && troughEquity == curve[at].value &&
        DrawdownsBelow(curve, at, maxDD)
    {
      var point := curve[n];
      var dd, ddPct;
      peak, dd, ddPct := DrawdownStep(curve, n, peak);
      CurveOfStep(curve, drawdownCurve, n);
      drawdownCurve := drawdownCurve + [DrawdownPoint(point.time, ddPct)];
      ghost var previous := maxDD;
      if dd > maxDD {
        NewMaximum(curve, n, maxDD, dd);
        maxDD := dd;
        maxDDPct := ddPct;
        peakEquity := peak;
        troughEquity := point.value;
        at := n;
      }
      DrawdownsAtMostStep(curve, n, previous, maxDD);
    }
    info := DrawdownInfo(maxDD, maxDDPct, peakEquity, troughEquity, drawdownCurve);
  }

  /** With no negative equity, every drawdown percentage lies between 0 and 100. */
  lemma PercentBounds(curve: seq<EquityPoint>, i: nat)
    requires i < |curve|
    requires forall k :: 0 <= k < |curve| ==> curve[k].value >= 0.0
    ensures 0.0 <= PercentAt(curve, i) <= 100.0
  {
    var peak, dd := Peak(curve[..i + 1]), DrawdownAt(curve, i);
    if peak > 0.0 {
      PeakIsRunningMaximum(curve[..i + 1]);
      assert curve[..i + 1][i] == curve[i];
      QuotientBetween(dd, peak, 0.0, 1.0);
    }
  }

  // ---------------------------------------------------------------- period returns

  /** The relative change of each point from its predecessor, skipping zero predecessors. */
  function PeriodReturns(curve: seq<EquityPoint>): (r: seq<real>)
    ensures |r| <= if curve == [] then 0 else |curve| - 1
    decreases |curve|
  {
    if |curve| < 2 then []
    else
      var prev := curve[|curve| - 2].value;
      PeriodReturns(curve[..|curve| - 1]) +
        (if prev != 0.0 then [(curve[|curve| - 1].value - prev) / prev] else [])
  }

  /** `calculatePeriodReturns`. */
  method CalculatePeriodReturns(curve: seq<EquityPoint>) returns (periodReturns: seq<real>)
    ensures periodReturns == PeriodReturns(curve)
  {
    periodReturns := [];
    if |curve| < 2 {
      return;
    }
    for i := 1 to |curve|
      invariant periodReturns == PeriodReturns(curve[..i])
    {
      assert curve[..i + 1][..i] == curve[..i];
      var prev := curve[i - 1].value;
      if prev != 0.0 {
        periodReturns := periodReturns + [(curve[i].value - prev) / prev];
      }
    }
    assert curve[..|curve|] == curve;
  }

  /** Without a zero value (the last one aside) no point is skipped: one return per step. */
  lemma {:induction false} ReturnsWithoutZeros(curve: seq<EquityPoint>)
    requires curve != []
    requires forall i :: 0 <= i < |curve| - 1 ==> curve[i].value != 0.0
    ensures |PeriodReturns(curve)| == |curve| - 1
    decreases |curve|
  {
    if |curve| >= 2 {
      var init := curve[..|curve| - 1];
      assert forall i :: 0 <= i < |init| - 1 ==> init[i] == curve[i];
      ReturnsWithoutZeros(init);
    }
  }

  /** With no negative equity no period loses more than everything: each return is at least -1. */
  lemma {:induction false} ReturnsAtLeastMinusOne(curve: seq<EquityPoint>)
    requires forall i :: 0 <= i < |curve| ==> curve[i].value >= 0.0
    ensures forall x | x in PeriodReturns(curve) :: x >= -1.0
    decreases |curve|
  {
    if |curve| >= 2 {
      var init := curve[..|curve| - 1];
      assert forall i :: 0 <= i < |init| ==> init[i] == curve[i];
      ReturnsAtLeastMinusOne(init);
      var prev, cur := curve[|curve| - 2].value, curve[|curve| - 1].value;
      if prev != 0.0 {
        QuotientBetween(cur - prev, prev, -1.0, cur / prev);
      }
    }
  }

  // ---------------------------------------------------------------- round trips

  datatype RoundTrip = RoundTrip(
    buyPrice: real, sellPrice: real, amount: real, buyFee: real, sellFee: real, pnl: real)

  /** The round trip of a BUY closed by a SELL. The amount is the BUY's (0 when it has none);
      the profit is what the sale brought in minus what the purchase cost, fees included. */
  function Close(buy: BacktestTrade, sell: BacktestTrade): RoundTrip
  {
    var amount := OrElse(buy.amount, 0.0);
    var buyCost := Notional(buy.price, amount) + buy.fee;
    var sellRevenue := Notional(sell.price, amount) - sell.fee;
    RoundTrip(buy.price, sell.price, amount, buy.fee, sell.fee, sellRevenue - buyCost)
  }

  /** The round trips of `trades` when `lastBuy` is the BUY still waiting for its SELL: a BUY
      replaces the waiting one, a SELL closes it, and a SELL with nothing waiting is ignored. */
  function PairFrom(trades: seq<BacktestTrade>, lastBuy: Option<BacktestTrade>): seq<RoundTrip>
    decreases |trades|
  {
    if trades == [] then []
    else if trades[0].kind == BuyTrade then PairFrom(trades[1..], Some(trades[0]))
    else if lastBuy.Some? then [Close(lastBuy.value, trades[0])] + PairFrom(trades[1..], None)
    else PairFrom(trades[1..], None)
  }

  function RoundTrips(trades: seq<BacktestTrade>): seq<RoundTrip>
  {
    PairFrom(trades, None)
  }

  /** `extractRoundTrips`. */
  method ExtractRoundTrips(trades: seq<BacktestTrade>) returns (roundTrips: seq<RoundTrip>)
    ensures roundTrips == RoundTrips(trades)
  {
    roundTrips := [];
    var lastBuy: Option<BacktestTrade> := None;
    for i := 0 to |trades|
      invariant roundTrips + PairFrom(trades[i..], lastBuy) == RoundTrips(trades)
    {
      var trade := trades[i];
      assert trades[i..][0] == trade && trades[i..][1..] == trades[i + 1..];
      if trade.kind == BuyTrade {
        lastBuy := Some(trade);
      } else if lastBuy.Some? {
        roundTrips := roundTrips + [Close(lastBuy.value, trade)];
        lastBuy := None;
      }
    }
  }

  function CountKind(trades: seq<BacktestTrade>, kind: TradeKind): nat
    decreases |trades|
  {
    if trades == [] then 0 else (if trades[0].kind == kind then 1 else 0) + CountKind(trades[1..], kind)
  }

  /** Each round trip uses up one SELL and one BUY, so there are no more round trips than SELLs,
      nor than BUYs (counting the one already waiting). */
  lemma {:induction false} RoundTripsBounded(trades: seq<BacktestTrade>, lastBuy: Option<BacktestTrade>)
    ensures |PairFrom(trades, lastBuy)| <= CountKind(trades, SellTrade)
    ensures |PairFrom(trades, lastBuy)| <= CountKind(trades, BuyTrade) + (if lastBuy.Some? then 1 else 0)
    decreases |trades|
  {
    if trades != [] {
      RoundTripsBounded(trades[1..], if trades[0].kind == BuyTrade then Some(trades[0]) else None);
    }
  }

  /** A SELL closes the latest BUY, not the earliest: of two BUYs in a row only the second is
      ever paired. */
  lemma {:induction false} LatestBuyIsClosed(b1: BacktestTrade, b2: BacktestTrade, sell: BacktestTrade,
                                             rest: seq<BacktestTrade>, lastBuy: Option<BacktestTrade>)
    requires b1.kind == BuyTrade && b2.kind == BuyTrade && sell.kind == SellTrade
    ensures PairFrom([b1, b2, sell] + rest, lastBuy) == [Close(b2, sell)] + PairFrom(rest, None)
  {
    var ts := [b1, b2, sell] + rest;
    assert ts[1..] == [b2, sell] + rest;
    assert ts[1..][1..] == [sell] + rest;
    assert ts[1..][1..][1..] == rest;
    assert PairFrom(ts, lastBuy) == PairFrom([b2, sell] + rest, Some(b1));
    assert PairFrom([b2, sell] + rest, Some(b1)) == PairFrom([sell] + rest, Some(b2));
  }

  /** The trades alternate BUY, SELL, BUY, … from the first one. */
  predicate Alternating(trades: seq<BacktestTrade>)
  {
    forall i :: 0 <= i < |trades| ==> trades[i].kind == (if i % 2 == 0 then BuyTrade else SellTrade)
  }

  /** On alternating trades every SELL closes the BUY just before it: round trip `k` is made of
      trades `2k` and `2k + 1`, and a trailing BUY stays open. */
  lemma {:induction false} AlternatingRoundTrips(trades: seq<BacktestTrade>)
    requires Alternating(trades)
    ensures |RoundTrips(trades)| == |trades| / 2
    ensures forall k :: 0 <= k < |trades| / 2 ==> RoundTrips(trades)[k] == Close(trades[2 * k], trades[2 * k + 1])
    decreases |trades|
  {
    if |trades| == 1 {
      assert trades[0].kind == BuyTrade;
      assert RoundTrips(trades) == PairFrom(trades[1..], Some(trades[0]));
    } else if |trades| >= 2 {
      var rest := trades[2..];
      assert Alternating(rest) by {
        forall i | 0 <= i < |rest|
          ensures rest[i].kind == (if i % 2 == 0 then BuyTrade else SellTrade)
        {
          assert rest[i] == trades[i + 2];
        }
      }
      AlternatingRoundTrips(rest);
      assert trades[1..][1..] == rest;
      assert trades[0].kind == BuyTrade && trades[1].kind == SellTrade;
      assert RoundTrips(trades) == PairFrom(trades[1..], Some(trades[0]));
      assert trades[1..][0] == trades[1];
      assert RoundTrips(trades) == [Close(trades[0], trades[1])] + RoundTrips(rest);
      forall k | 1 <= k < |trades| / 2
        ensures RoundTrips(trades)[k] == Close(trades[2 * k], trades[2 * k + 1])
      {
        assert rest[2 * (k - 1)] == trades[2 * k] && rest[2 * (k - 1) + 1] == trades[2 * k + 1];
      }
    }
  }

  // ---------------------------------------------------------------- streaks

  /** A win is a round trip with positive profit; anything else is a loss. */
  predicate Hit(pnl: real, wins: bool)
  {
    if wins then pnl > 0.0 else pnl <= 0.0
  }

  /** Length of the run of wins (or losses) that ends the series. */
  function RunAtEnd(pnls: seq<real>, wins: bool): (r: nat)
    ensures r <= |pnls|
    decreases |pnls|
  {
    if pnls == [] || !Hit(pnls[|pnls| - 1], wins) then 0 else RunAtEnd(pnls[..|pnls| - 1], wins) + 1
  }

  /** Length of the longest run of wins (or losses) seen so far. */
  function LongestRun(pnls: seq<real>, wins: bool): (r: nat)
    ensures r <= |pnls|
    decreases |pnls|
  {
    if pnls == [] then 0
    else
      var before := LongestRun(pnls[..|pnls| - 1], wins);
      var current := RunAtEnd(pnls, wins);
      if current > before then current else before
  }

  /** `calculateStreaks`. */
  method CalculateStreaks(pnls: seq<real>) returns (longestWinStreak: nat, longestLoseStreak: nat)
    ensures longestWinStreak == LongestRun(pnls, true)
    ensures longestLoseStreak == LongestRun(pnls, false)
  {
    var winStreak, loseStreak := 0, 0;
    var maxWin, maxLose := 0, 0;
    for i := 0 to |pnls|
      invariant winStreak == RunAtEnd(pnls[..i], true) && loseStreak == RunAtEnd(pnls[..i], false)
      invariant maxWin == LongestRun(pnls[..i], true) && maxLose == LongestRun(pnls[..i], false)
    {
      assert pnls[..i + 1][..i] == pnls[..i];
      var pnl := pnls[i];
      if pnl > 0.0 {
        winStreak := winStreak + 1;
        loseStreak := 0;
        maxWin := if maxWin >= winStreak then maxWin else winStreak;
      } else {
        loseStreak := loseStreak + 1;
        winStreak := 0;
        maxLose := if maxLose >= loseStreak then maxLose else loseStreak;
      }
    }
    assert pnls[..|pnls|] == pnls;
    longestWinStreak, longestLoseStreak := maxWin, maxLose;
  }

  /** Every entry of `s` is a win (or every one a loss). */
  predicate AllHit(s: seq<real>, wins: bool)
  {
    forall k :: 0 <= k < |s| ==> Hit(s[k], wins)
  }

  /** No run that ends the series is longer than `RunAtEnd`. */
  lemma {:induction false} RunAtEndIsMaximal(pnls: seq<real>, wins: bool, start: nat)
    requires start <= |pnls| && AllHit(pnls[start..], wins)
    ensures |pnls| - start <= RunAtEnd(pnls, wins)
    decreases |pnls|
  {
    if start < |pnls| {
      var init := pnls[..|pnls| - 1];
      assert pnls[start..][|pnls| - 1 - start] == pnls[|pnls| - 1];
      assert AllHit(init[start..], wins) by {
        forall k | 0 <= k < |init[start..]|
          ensures Hit(init[start..][k], wins)
        {
          assert init[start..][k] == pnls[start..][k];
        }
      }
      RunAtEndIsMaximal(init, wins, start);
    }
  }

  /** No run of wins (losses) is longer than `LongestRun`. */
  lemma {:induction false} NoRunLonger(pnls: seq<real>, wins: bool)
    ensures forall i, j :: 0 <= i <= j <= |pnls| && AllHit(pnls[i..j], wins) ==> j - i <= LongestRun(pnls, wins)
    decreases |pnls|
  {
    if pnls != [] {
      var n := |pnls|;
      var init := pnls[..n - 1];
      NoRunLonger(init, wins);
      forall i, j | 0 <= i <= j <= n && AllHit(pnls[i..j], wins)
        ensures j - i <= LongestRun(pnls, wins)
      {
        if j == n {
          assert pnls[i..j] == pnls[i..];
          RunAtEndIsMaximal(pnls, wins, i);
        } else {
          assert init[i..j] == pnls[i..j];
        }
      }
    }
  }

  /** A run of wins (losses) exactly `LongestRun` long exists, starting at `start`. */
  lemma {:induction false} LongestRunExists(pnls: seq<real>, wins: bool) returns (start: nat)
    ensures start + LongestRun(pnls, wins) <= |pnls| && AllHit(pnls[start..start + LongestRun(pnls, wins)], wins)
    decreases |pnls|
  {
    if pnls == [] {
      return 0;
    }
    var n := |pnls|;
    var init := pnls[..n - 1];
    var before := LongestRunExists(init, wins);
    var current := RunAtEnd(pnls, wins);
    assert init == pnls[..|pnls| - 1];
    if current > LongestRun(init, wins) {
      assert LongestRun(pnls, wins) == current;
      start := n - current;
      RunAtEndIsSuffix(pnls, wins);
    } else {
      assert LongestRun(pnls, wins) == LongestRun(init, wins);
      start := before;
      SliceOfPrefix(pnls, n - 1, start, start + LongestRun(init, wins));
    }
  }

  lemma SliceOfPrefix(s: seq<real>, n: nat, i: nat, j: nat)
    requires i <= j <= n <= |s|
    ensures s[..n][i..j] == s[i..j]
  {
  }

  /** `LongestRun` is the length of the longest run: no run of wins (losses) is longer, and one
      of exactly that length exists, starting at `start`. */
  lemma LongestRunIsLongest(pnls: seq<real>, wins: bool) returns (start: nat)
    ensures forall i, j :: 0 <= i <= j <= |pnls| && AllHit(pnls[i..j], wins) ==> j - i <= LongestRun(pnls, wins)
    ensures start + LongestRun(pnls, wins) <= |pnls| && AllHit(pnls[start..start + LongestRun(pnls, wins)], wins)
  {
    NoRunLonger(pnls, wins);
    start := LongestRunExists(pnls, wins);
  }

  /** The last `RunAtEnd` entries are all wins (losses). */
  lemma {:induction false} RunAtEndIsSuffix(pnls: seq<real>, wins: bool)
    ensures AllHit(pnls[|pnls| - RunAtEnd(pnls, wins)..], wins)
    decreases |pnls|
  {
    var r := RunAtEnd(pnls, wins);
    if r > 0 {
      var init := pnls[..|pnls| - 1];
      RunAtEndIsSuffix(init, wins);
      var suffix := pnls[|pnls| - r..];
      forall k | 0 <= k < |suffix|
        ensures Hit(suffix[k], wins)
      {
        if k < |suffix| - 1 {
          assert suffix[k] == init[|init| - RunAtEnd(init, wins)..][k];
        }
      }
    }
  }

  // ---------------------------------------------------------------- dispersion

  function Mean(values: seq<real>): real
  {
    if values == [] then 0.0 else Sum(values) / |values| as real
  }

  /** The squared distance of each value from `mean`. */
  function SquaredDeviations(values: seq<real>, mean: real): (r: seq<real>)
    ensures |r| == |values|
    ensures forall i :: 0 <= i < |values| ==> r[i] == (values[i] - mean) * (values[i] - mean)
    ensures forall x | x in r :: x >= 0.0
    decreases |values|
  {
    if values == [] then []
    else
      var d := values[|values| - 1] - mean;
      SquaredDeviations(values[..|values| - 1], mean) + [d * d]
  }

  /** The population variance, the square of what `standardDeviation` returns. */
  function Variance(values: seq<real>): (r: real)
    ensures r >= 0.0
  {
    if values == [] then 0.0
    else
      var squares := SquaredDeviations(values, Mean(values));
      SumNonNegative(squares);
      QuotientBetween(Sum(squares), |values| as real, 0.0, Sum(squares));
      Sum(squares) / |values| as real
  }

  lemma ConstantMean(values: seq<real>, c: real)
    requires values != [] && forall x | x in values :: x == c
    ensures Mean(values) == c
  {
    SumBounds(values, c, c);
    assert Sum(values) == |values| as real * c;
  }

  lemma ConstantSquaresVanish(values: seq<real>, c: real)
    requires forall x | x in values :: x == c
    ensures Sum(SquaredDeviations(values, c)) == 0.0
  {
    var squares := SquaredDeviations(values, c);
    forall i | 0 <= i < |squares| ensures squares[i] == 0.0 {
      assert values[i] in values;
      ZeroSquared(values[i] - c);
    }
    SumOfZeros(squares);
  }

  lemma ZeroSquared(d: real)
    requires d == 0.0
    ensures d * d == 0.0
  {
  }

  /** A series that never moves has no dispersion. */
  lemma ConstantHasNoVariance(values: seq<real>, c: real)
    requires values != [] && forall x | x in values :: x == c
    ensures Mean(values) == c && Variance(values) == 0.0
  {
    ConstantMean(values, c);
    ConstantSquaresVanish(values, c);
  }

  // ---------------------------------------------------------------- the report

  /** Gross profit over gross loss; JavaScript's `Infinity` when there is profit and no loss. */
  datatype ProfitFactor = Finite(value: real) | Infinite

  /** The trade statistics of the report, all over the profits of the round trips. */
  datatype TradeStats = TradeStats(
    totalTrades: nat, winningTrades: nat, losingTrades: nat,
    winRate: real, profitFactor: ProfitFactor,
    averageWin: real, averageLoss: real, bestTrade: real, worstTrade: real,
    longestWinStreak: nat, longestLoseStreak: nat,
    averageTradePnl: real, expectancy: real)

  datatype Metrics = Metrics(
    totalReturnPct: Option<real>,
    maxDrawdown: DrawdownInfo,
    periodReturnVariance: real,
    trades: TradeStats)

  function Pnls(trips: seq<RoundTrip>): (r: seq<real>)
    ensures |r| == |trips| && forall i :: 0 <= i < |trips| ==> r[i] == trips[i].pnl
  {
    seq(|trips|, i requires 0 <= i < |trips| => trips[i].pnl)
  }

  /** The expectancy formula, win rate times average win minus loss rate times average loss,
      is just the mean profit per trade: `w` wins adding up to `gp`, `l` losses to `-gl`. */
  lemma ExpectancyIsMeanProfit(w: nat, l: nat, n: nat, gp: real, gl: real,
                               winRate: real, averageWin: real, lossRate: real, averageLoss: real)
    requires n == w + l && n > 0
    requires w == 0 ==> gp == 0.0
    requires l == 0 ==> gl == 0.0
    requires winRate == w as real / n as real * 100.0 && lossRate == l as real / n as real
    requires averageWin == (if w > 0 then gp / w as real else 0.0)
    requires averageLoss == (if l > 0 then gl / l as real else 0.0)
    ensures winRate / 100.0 * averageWin - lossRate * averageLoss == (gp - gl) / n as real
  {
    if w > 0 {
      ShareTimesAverage(w as real, n as real, gp);
    }
    assert winRate / 100.0 * averageWin == gp / n as real;
    if l > 0 {
      ShareTimesAverage(l as real, n as real, gl);
    }
    assert lossRate * averageLoss == gl / n as real;
    assert gp / n as real - gl / n as real == (gp - gl) / n as real;
  }

  lemma ShareTimesAverage(k: real, n: real, total: real)
    requires k > 0.0 && n > 0.0
    ensures (k / n * 100.0) / 100.0 * (total / k) == total / n
    ensures k / n * (total / k) == total / n
  {
    assert k / n * (total / k) == (k * total) / (n * k);
    assert (k / n * 100.0) / 100.0 == k / n;
  }

  /** What each trade statistic is, over the profits of the round trips: a round trip wins when
      its profit is positive and loses otherwise; the gross loss is the size of the losses'
      total; the expectancy is the mean profit per round trip. */
  predicate StatsOf(t: TradeStats, pnls: seq<real>)
  {
    var wins, losses := Positives(pnls), NonPositives(pnls);
    var grossProfit, grossLoss := Sum(wins), -Sum(losses);
    && t.totalTrades == |pnls| && t.winningTrades == |wins| && t.losingTrades == |losses|
    && t.winRate == (if pnls != [] then |wins| as real / |pnls| as real * 100.0 else 0.0)
    && t.profitFactor == (if grossLoss != 0.0 then Finite(grossProfit / grossLoss)
                          else if grossProfit > 0.0 then Infinite else Finite(0.0))
    && t.averageWin == Mean(wins)
    && t.averageLoss == (if losses != [] then grossLoss / |losses| as real else 0.0)
    && t.bestTrade == (if pnls != [] then MaxOf(pnls) else 0.0)
    && t.worstTrade == (if pnls != [] then MinOf(pnls) else 0.0)
    && t.averageTradePnl == Mean(pnls)
    && t.expectancy == Mean(pnls)
    && t.longestWinStreak == LongestRun(pnls, true)
    && t.longestLoseStreak == LongestRun(pnls, false)
  }

  /** The bounds the statistics keep: every round trip wins or loses, the rates and averages are
      never negative, the best and worst trades bracket every profit and their mean, and no
      streak is longer than the trade list. */
  lemma StatsBounds(t: TradeStats, pnls: seq<real>)
    requires StatsOf(t, pnls)
    ensures t.winningTrades + t.losingTrades == t.totalTrades
    ensures 0.0 <= t.winRate <= 100.0
    ensures t.profitFactor.Finite? ==> t.profitFactor.value >= 0.0
    ensures t.averageWin >= 0.0 && t.averageLoss >= 0.0
    ensures forall p | p in pnls :: t.worstTrade <= p <= t.bestTrade
    ensures t.worstTrade <= t.averageTradePnl <= t.bestTrade
    ensures t.longestWinStreak <= t.totalTrades && t.longestLoseStreak <= t.totalTrades
  {
    Partition(pnls);
    RateBetween(|Positives(pnls)|, |pnls|);
    AverageNonNegative(Sum(Positives(pnls)), |Positives(pnls)|);
    AverageNonNegative(-Sum(NonPositives(pnls)), |NonPositives(pnls)|);
    if pnls != [] {
      MeanBetweenExtremes(pnls);
    }
  }

  lemma RateBetween(k: nat, n: nat)
    requires k <= n
    ensures 0.0 <= (if n > 0 then k as real / n as real * 100.0 else 0.0) <= 100.0
  {
    if n > 0 {
      QuotientBetween(k as real, n as real, 0.0, 1.0);
    }
  }

  lemma AverageNonNegative(total: real, k: nat)
    requires total >= 0.0
    ensures (if k > 0 then total / k as real else 0.0) >= 0.0
  {
  }

  /** The total of a non-empty list, divided by its length, is the list's mean. */
  lemma MeanOfTotal(values: seq<real>, total: real, count: nat, quotient: real)
    requires values != [] && count == |values|
    requires total == Sum(values) && quotient == total / count as real
    ensures quotient == Mean(values)
  {
  }

  /** The trade part of `calculateMetrics`, over the profits of the round trips. */
  method AnalyzeTrades(pnls: seq<real>) returns (t: TradeStats)
    ensures StatsOf(t, pnls)
  {
    var winningPnls, losingPnls := Positives(pnls), NonPositives(pnls);
    Partition(pnls);

    var totalTrades := |pnls|;
    var winningTrades, losingTrades := |winningPnls|, |losingPnls|;
    var grossProfit := Sum(winningPnls);
    var lossSum := Sum(losingPnls);
    var grossLoss := if lossSum < 0.0 then -lossSum else lossSum;
    assert grossLoss == -lossSum;
    var winRate, profitFactor, averageWin, averageLoss, expectancy :=
      WinLossFigures(winningTrades, losingTrades, grossProfit, grossLoss);
    if totalTrades > 0 {
      MeanOfTotal(pnls, grossProfit - grossLoss, winningTrades + losingTrades, expectancy);
    }

    var bestTrade := if totalTrades > 0 then MaxOf(pnls) else 0.0;
    var worstTrade := if totalTrades > 0 then MinOf(pnls) else 0.0;
    var averageTradePnl := if totalTrades > 0 then Sum(pnls) / totalTrades as real else 0.0;

    var longestWinStreak, longestLoseStreak := CalculateStreaks(pnls);

    t := TradeStats(totalTrades, winningTrades, losingTrades, winRate, profitFactor,
      averageWin, averageLoss, bestTrade, worstTrade,
      longestWinStreak, longestLoseStreak, averageTradePnl, expectancy);
  }

  /** The figures of `calculateMetrics` derived from `w` wins adding up to `grossProfit` and
      `l` losses adding up to `-grossLoss`. */
  method WinLossFigures(w: nat, l: nat, grossProfit: real, grossLoss: real)
    returns (winRate: real, profitFactor: ProfitFactor, averageWin: real, averageLoss: real, expectancy: real)
    requires grossProfit >= 0.0 && grossLoss >= 0.0
    requires w == 0 ==> grossProfit == 0.0
    requires l == 0 ==> grossLoss == 0.0
    ensures winRate == if w + l > 0 then w as real / (w + l) as real * 100.0 else 0.0
    ensures averageWin == (if w > 0 then grossProfit / w as real else 0.0)
    ensures averageLoss == (if l > 0 then grossLoss / l as real else 0.0)
    ensures w + l == 0 ==> expectancy == 0.0
    ensures profitFactor == if grossLoss != 0.0 then Finite(grossProfit / grossLoss)
                            else if grossProfit > 0.0 then Infinite else Finite(0.0)
    ensures w + l > 0 ==> expectancy == (grossProfit - grossLoss) / (w + l) as real
  {
    var totalTrades := w + l;
    winRate := if totalTrades > 0 then w as real / totalTrades as real * 100.0 else 0.0;
    profitFactor := if grossLoss != 0.0 then Finite(grossProfit / grossLoss)
                    else if grossProfit > 0.0 then Infinite else Finite(0.0);
    averageWin := if w > 0 then grossProfit / w as real else 0.0;
    averageLoss := if l > 0 then grossLoss / l as real else 0.0;
    var lossRate := if totalTrades > 0 then l as real / totalTrades as real else 0.0;
    expectancy := (winRate / 100.0 * averageWin) - (lossRate * averageLoss);
    if totalTrades > 0 {
      ExpectancyIsMeanProfit(w, l, totalTrades, grossProfit, grossLoss, winRate, averageWin, lossRate, averageLoss);
    }
  }

  /** The total return in percent of the initial capital. It is absent for a zero capital, where
      the source divides by zero. */
  function ReturnPct(initialCapital: real, finalEquity: real): (r: Option<real>)
    ensures r.Some? <==> initialCapital != 0.0
    ensures r.Some? ==> r.value * initialCapital == (finalEquity - initialCapital) * 100.0
    ensures r.Some? && initialCapital > 0.0 ==> (r.value >= 0.0 <==> finalEquity >= initialCapital)
  {
    if initialCapital != 0.0 then Some((finalEquity - initialCapital) / initialCapital * 100.0) else None
  }

  /** What the metrics report says: the total return, the drawdown over the equity curve, the
      variance of its period returns, and the statistics of the round trips of the trade list. */
  predicate MetricsOf(m: Metrics, initialCapital: real, finalEquity: real, trades: seq<BacktestTrade>,
                      equityCurve: seq<EquityPoint>)
  {
    && m.totalReturnPct == ReturnPct(initialCapital, finalEquity)
    && DrawdownOf(m.maxDrawdown, equityCurve)
    && m.periodReturnVariance == Variance(PeriodReturns(equityCurve))
    && StatsOf(m.trades, Pnls(RoundTrips(trades)))
  }

  /** `calculateMetrics`, for the figures that need no square root or power: total return,
      drawdown, the variance of the period returns, and the trade statistics over the round
      trips. A zero initial capital makes the source's return percentage infinite or NaN. */
  method CalculateMetrics(initialCapital: real, finalEquity: real, trades: seq<BacktestTrade>,
                          equityCurve: seq<EquityPoint>) returns (m: Metrics)
    ensures MetricsOf(m, initialCapital, finalEquity, trades, equityCurve)
  {
    var totalReturnPct := ReturnPct(initialCapital, finalEquity);
    var drawdownInfo := CalculateDrawdown(equityCurve);
    var periodReturns := CalculatePeriodReturns(equityCurve);
    var roundTrips := ExtractRoundTrips(trades);
    var stats := AnalyzeTrades(Pnls(roundTrips));
    m := Metrics(totalReturnPct, drawdownInfo, Variance(periodReturns), stats);
  }
}
