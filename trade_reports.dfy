/** The read-only aggregations of the order engine (trade.service.ts): the per-user performance
    dashboard and the public leaderboard. The order table is passed in. */
module TradeReports {
  import opened Wrappers
  import opened Money
  import opened Series
  import opened Orders

  /** A trade that a trigger has closed: it has a close reason and a recorded profit. */
  predicate ClosesTrade(o: Order)
  {
    o.closeReason.Some? && o.pnl.Some?
  }

  /** The orders of one user, in table order. */
  function OrdersOf(orders: seq<Order>, user: string): (r: seq<Order>)
    ensures |r| <= |orders|
    ensures forall o | o in r :: o in orders && o.userId == user
    decreases |orders|
  {
    if orders == [] then []
    else
      var init := OrdersOf(orders[..|orders| - 1], user);
      assert forall o | o in init :: o in orders;
      var last := orders[|orders| - 1];
      if last.userId == user then init + [last] else init
  }

  /** The profits of the closed trades among `orders`, in order. */
  function ClosedPnls(orders: seq<Order>): (r: seq<real>)
    ensures |r| <= |orders|
    decreases |orders|
  {
    if orders == [] then []
    else
      var init := ClosedPnls(orders[..|orders| - 1]);
      var last := orders[|orders| - 1];
      if ClosesTrade(last) then init + [last.pnl.value] else init
  }

  // ---------------------------------------------------------------------------
  // getPerformance

  /** The dashboard; `winRate` is the percentage of closed trades with a positive profit. */
  datatype Performance = Performance(
    totalTrades: nat,
    closedTrades: nat,
    winningTrades: nat,
    winRate: real,
    totalPnl: real,
    avgPnl: real,
    bestTrade: real,
    worstTrade: real)

  /** `getPerformance(userId)`. With no closed trade every figure but the order count is 0; the
      money figures are rounded to cents; the average lies between the worst and the best trade. */
  function GetPerformance(orders: seq<Order>, user: string): (p: Performance)
    ensures p.totalTrades == |OrdersOf(orders, user)|
    ensures p.winningTrades <= p.closedTrades <= p.totalTrades
    ensures 0.0 <= p.winRate <= 100.0
    ensures p.closedTrades == 0 ==>
      p.winningTrades == 0 && p.winRate == 0.0 && p.totalPnl == 0.0 && p.avgPnl == 0.0 &&
      p.bestTrade == 0.0 && p.worstTrade == 0.0
    ensures p.worstTrade <= p.avgPnl <= p.bestTrade
  {
    var mine := OrdersOf(orders, user);
    var pnls := ClosedPnls(mine);
    if pnls == [] then Performance(|mine|, 0, 0, 0.0, 0.0, 0.0, 0.0, 0.0)
    else
      var wins := CountPositive(pnls);
      var total := Sum(pnls);
      var avg := total / |pnls| as real;
      MeanBetweenExtremes(pnls);
      RoundCentsMonotone(MinOf(pnls), avg);
      RoundCentsMonotone(avg, MaxOf(pnls));
      QuotientBetween(wins as real, |pnls| as real, 0.0, 1.0);
      Performance(
        |mine|, |pnls|, wins, wins as real / |pnls| as real * 100.0,
        RoundCents(total), RoundCents(avg), RoundCents(MaxOf(pnls)), RoundCents(MinOf(pnls)))
  }

  /** The best and worst trades are the largest and smallest profits of the user's closed trades,
      rounded to cents, and bound every one of them once rounded. */
  lemma BestAndWorstBoundEveryTrade(orders: seq<Order>, user: string)
    requires ClosedPnls(OrdersOf(orders, user)) != []
    ensures var p := GetPerformance(orders, user);
      var pnls := ClosedPnls(OrdersOf(orders, user));
      p.closedTrades == |pnls| &&
      (exists x | x in pnls :: p.bestTrade == RoundCents(x)) &&
      (exists x | x in pnls :: p.worstTrade == RoundCents(x)) &&
      forall x | x in pnls :: p.worstTrade <= RoundCents(x) <= p.bestTrade
  {
    var pnls := ClosedPnls(OrdersOf(orders, user));
    forall x | x in pnls ensures RoundCents(MinOf(pnls)) <= RoundCents(x) <= RoundCents(MaxOf(pnls)) {
      RoundCentsMonotone(MinOf(pnls), x);
      RoundCentsMonotone(x, MaxOf(pnls));
    }
  }

  /** The figures of a user with closed trades: the closed-trade count and total profit are the
      ones the leaderboard tallies for that user, the win rate is the share of them with a
      positive profit in percent, and the average is the total over the count, rounded to cents. */
  lemma PerformanceFigures(orders: seq<Order>, user: string)
    requires ClosedPnls(OrdersOf(orders, user)) != []
    ensures var p := GetPerformance(orders, user);
      var pnls := ClosedPnls(OrdersOf(orders, user));
      && p.closedTrades == |pnls| == TradesOf(orders, user)
      && p.winningTrades == CountPositive(pnls)
      && p.winRate == p.winningTrades as real / p.closedTrades as real * 100.0
      && p.totalPnl == RoundCents(PnlOf(orders, user))
      && p.avgPnl == RoundCents(PnlOf(orders, user) / TradesOf(orders, user) as real)
  {
    var mine := OrdersOf(orders, user);
    var pnls := ClosedPnls(mine);
    var wins, total, n := CountPositive(pnls), Sum(pnls), |pnls| as real;
    var p := GetPerformance(orders, user);
    assert p.closedTrades == |pnls| && p.winningTrades == wins;
    assert p.winRate == wins as real / n * 100.0;
    assert p.totalPnl == RoundCents(total);
    assert p.avgPnl == RoundCents(total / n);
    ClosedTradesTallied(orders, user);
  }

  /** The closed trades among a user's orders are those the leaderboard counts for the user, and
      their profits add up to the user's total. */
  lemma {:induction false} ClosedTradesTallied(orders: seq<Order>, user: string)
    ensures |ClosedPnls(OrdersOf(orders, user))| == TradesOf(orders, user)
    ensures Sum(ClosedPnls(OrdersOf(orders, user))) == PnlOf(orders, user)
    decreases |orders|
  {
    if orders != [] {
      var init, last := orders[..|orders| - 1], orders[|orders| - 1];
      ClosedTradesTallied(init, user);
      var mine := OrdersOf(init, user);
      if last.userId == user {
        var all := mine + [last];
        assert all[..|all| - 1] == mine;
        if ClosesTrade(last) {
          var pnls := ClosedPnls(mine) + [last.pnl.value];
          assert pnls[..|pnls| - 1] == ClosedPnls(mine);
        }
      }
    }
  }

  // ---------------------------------------------------------------------------
  // getLeaderboard

  datatype Standing = Standing(userId: string, totalPnl: real, trades: nat)

  /** The summed profit of a user's closed trades. */
  function PnlOf(orders: seq<Order>, user: string): real
    decreases |orders|
  {
    if orders == [] then 0.0
    else
      var last := orders[|orders| - 1];
      PnlOf(orders[..|orders| - 1], user) + (if ClosesTrade(last) && last.userId == user then last.pnl.value else 0.0)
  }

  /** The number of a user's closed trades. */
  function TradesOf(orders: seq<Order>, user: string): nat
    decreases |orders|
  {
    if orders == [] then 0
    else
      var last := orders[|orders| - 1];
      TradesOf(orders[..|orders| - 1], user) + (if ClosesTrade(last) && last.userId == user then 1 else 0)
  }

  /** The users with a closed trade, each once, in the order of their first closed trade. */
  function Traders(orders: seq<Order>): (r: seq<string>)
    ensures forall i, j | 0 <= i < j < |r| :: r[i] != r[j]
    ensures forall u :: u in r <==> TradesOf(orders, u) > 0
    decreases |orders|
  {
    if orders == [] then []
    else
      var init := Traders(orders[..|orders| - 1]);
      var last := orders[|orders| - 1];
      if ClosesTrade(last) && last.userId !in init then init + [last.userId] else init
  }

  /** A user without closed trades has made no profit or loss. */
  lemma {:induction false} NoTradesNoPnl(orders: seq<Order>, user: string)
    requires TradesOf(orders, user) == 0
    ensures PnlOf(orders, user) == 0.0
    decreases |orders|
  {
    if orders != [] {
      NoTradesNoPnl(orders[..|orders| - 1], user);
    }
  }

  /** One standing per trader, in first-trade order, with the profit rounded to cents. */
  function Standings(orders: seq<Order>): (r: seq<Standing>)
    ensures |r| == |Traders(orders)|
    ensures forall i | 0 <= i < |r| :: r[i].userId == Traders(orders)[i]
  {
    var users := Traders(orders);
    seq(|users|, i requires 0 <= i < |users| => Standing(users[i], RoundCents(PnlOf(orders, users[i])), TradesOf(orders, users[i])))
  }

  /** Every user with a closed trade has exactly one standing, and no one else has one; it
      carries the user's trade count and summed profit rounded to cents. */
  lemma StandingsMeans(orders: seq<Order>, user: string)
    ensures var r := Standings(orders);
      ((exists i | 0 <= i < |r| :: r[i].userId == user) <==> TradesOf(orders, user) > 0) &&
      (forall i, j | 0 <= i < j < |r| :: r[i].userId != r[j].userId) &&
      (forall i | 0 <= i < |r| && r[i].userId == user ::
        r[i].trades == TradesOf(orders, user) && r[i].trades > 0 && r[i].totalPnl == RoundCents(PnlOf(orders, user)))
  {
    var r := Standings(orders);
    if TradesOf(orders, user) > 0 {
      var i :| 0 <= i < |Traders(orders)| && Traders(orders)[i] == user;
      assert r[i].userId == user;
    }
  }

  predicate Descending(s: seq<Standing>)
  {
    forall i, j | 0 <= i < j < |s| :: s[i].totalPnl >= s[j].totalPnl
  }

  /** Where `e` goes in a descending list: in front of the first standing it is not below. */
  function InsertionPoint(e: Standing, s: seq<Standing>): (k: nat)
    ensures k <= |s|
    ensures forall i | 0 <= i < k :: s[i].totalPnl > e.totalPnl
    ensures k < |s| ==> e.totalPnl >= s[k].totalPnl
    decreases |s|
  {
    if s == [] || e.totalPnl >= s[0].totalPnl then 0 else 1 + InsertionPoint(e, s[1..])
  }

  /** Two descending lists, the first nowhere below the second, make a descending list. */
  lemma ConcatDescending(a: seq<Standing>, b: seq<Standing>)
    requires Descending(a) && Descending(b)
    requires forall i, j | 0 <= i < |a| && 0 <= j < |b| :: a[i].totalPnl >= b[j].totalPnl
    ensures Descending(a + b)
  {
    var r := a + b;
    forall i, j | 0 <= i < j < |r| ensures r[i].totalPnl >= r[j].totalPnl {
      if j < |a| {
        assert r[i] == a[i] && r[j] == a[j];
      } else if i < |a| {
        assert r[i] == a[i] && r[j] == b[j - |a|];
      } else {
        assert r[i] == b[i - |a|] && r[j] == b[j - |a|];
      }
    }
  }

  lemma PrefixDescending(s: seq<Standing>, k: nat)
    requires Descending(s) && k <= |s|
    ensures Descending(s[..k])
  {
    var front := s[..k];
    forall i, j | 0 <= i < j < |front| ensures front[i].totalPnl >= front[j].totalPnl {
      assert front[i] == s[i] && front[j] == s[j];
    }
  }

  lemma SuffixDescending(s: seq<Standing>, k: nat)
    requires Descending(s) && k <= |s|
    ensures Descending(s[k..])
  {
    var back := s[k..];
    forall i, j | 0 <= i < j < |back| ensures back[i].totalPnl >= back[j].totalPnl {
      assert back[i] == s[k + i] && back[j] == s[k + j];
    }
  }

  /** A standing not below the head of a descending list can go in front of it. */
  lemma ConsDescending(e: Standing, s: seq<Standing>)
    requires Descending(s) && (s != [] ==> e.totalPnl >= s[0].totalPnl)
    ensures Descending([e] + s)
  {
    forall j | 0 <= j < |s| ensures e.totalPnl >= s[j].totalPnl {
      if j > 0 {
        assert s[0].totalPnl >= s[j].totalPnl;
      }
    }
    ConcatDescending([e], s);
  }

  /** Putting `e` at its insertion point keeps a descending list descending. */
  lemma InsertedDescending(e: Standing, s: seq<Standing>, k: nat)
    requires Descending(s) && k == InsertionPoint(e, s)
    ensures Descending(s[..k] + [e] + s[k..])
  {
    var front, back := s[..k], s[k..];
    PrefixDescending(s, k);
    SuffixDescending(s, k);
    assert back != [] ==> back[0] == s[k];
    ConsDescending(e, back);
    var tail := [e] + back;
    forall i, j | 0 <= i < |front| && 0 <= j < |tail| ensures front[i].totalPnl >= tail[j].totalPnl {
      assert front[i] == s[i] && tail[0] == e;
    }
    ConcatDescending(front, tail);
    assert s[..k] + [e] + s[k..] == front + tail;
  }

  function Insert(e: Standing, s: seq<Standing>): (r: seq<Standing>)
    requires Descending(s)
    ensures Descending(r) && multiset(r) == multiset(s) + multiset{e} && |r| == |s| + 1
  {
    var k := InsertionPoint(e, s);
    InsertedDescending(e, s, k);
    assert multiset(s) == multiset(s[..k]) + multiset(s[k..]) by { assert s == s[..k] + s[k..]; }
    s[..k] + [e] + s[k..]
  }

  /** `sort((a, b) => b.totalPnl - a.totalPnl)`: a stable sort by non-increasing profit. */
  function SortByPnl(s: seq<Standing>): (r: seq<Standing>)
    ensures Descending(r) && multiset(r) == multiset(s) && |r| == |s|
    decreases |s|
  {
    if s == [] then []
    else
      assert s == [s[0]] + s[1..];
      Insert(s[0], SortByPnl(s[1..]))
  }

  /** The standings whose profit is `p`, in their order. */
  function WithPnl(s: seq<Standing>, p: real): seq<Standing>
    decreases |s|
  {
    if s == [] then [] else (if s[0].totalPnl == p then [s[0]] else []) + WithPnl(s[1..], p)
  }

  lemma {:induction false} WithPnlAppend(a: seq<Standing>, b: seq<Standing>, p: real)
    ensures WithPnl(a + b, p) == WithPnl(a, p) + WithPnl(b, p)
    decreases |a|
  {
    if a != [] {
      assert (a + b)[0] == a[0] && (a + b)[1..] == a[1..] + b;
      WithPnlAppend(a[1..], b, p);
    } else {
      assert a + b == b;
    }
  }

  lemma {:induction false} WithPnlAbove(a: seq<Standing>, p: real)
    requires forall i | 0 <= i < |a| :: a[i].totalPnl > p
    ensures WithPnl(a, p) == []
    decreases |a|
  {
    if a != [] {
      WithPnlAbove(a[1..], p);
    }
  }

  lemma WithPnlSingle(e: Standing, p: real)
    ensures WithPnl([e], p) == if e.totalPnl == p then [e] else []
  {
    assert [e][1..] == [];
  }

  /** `Insert` places `e` between the standings above it and the rest. */
  lemma InsertSplits(e: Standing, s: seq<Standing>)
    requires Descending(s)
    ensures var k := InsertionPoint(e, s);
      Insert(e, s) == s[..k] + [e] + s[k..] && s == s[..k] + s[k..]
  {
  }

  /** A standing of another profit, put anywhere, is not among those of profit `p`. */
  lemma WithPnlSkips(front: seq<Standing>, e: Standing, back: seq<Standing>, p: real)
    requires e.totalPnl != p
    ensures WithPnl(front + [e] + back, p) == WithPnl(front + back, p)
  {
    WithPnlAppend(front + [e], back, p);
    WithPnlAppend(front, [e], p);
    WithPnlSingle(e, p);
    WithPnlAppend(front, back, p);
  }

  /** A standing of profit `p` put after standings all above `p` comes first among them. */
  lemma WithPnlLeads(front: seq<Standing>, e: Standing, back: seq<Standing>, p: real)
    requires e.totalPnl == p && forall i | 0 <= i < |front| :: front[i].totalPnl > p
    ensures WithPnl(front + [e] + back, p) == [e] + WithPnl(front + back, p)
  {
    WithPnlAbove(front, p);
    WithPnlAppend(front + [e], back, p);
    WithPnlAppend(front, [e], p);
    WithPnlSingle(e, p);
    WithPnlAppend(front, back, p);
  }

  /** Inserting `e` puts it ahead of the standings of equal profit already in the list. */
  lemma InsertFirstAmongEqual(e: Standing, s: seq<Standing>, p: real)
    requires Descending(s)
    ensures WithPnl(Insert(e, s), p) == (if e.totalPnl == p then [e] else []) + WithPnl(s, p)
  {
    var k := InsertionPoint(e, s);
    InsertSplits(e, s);
    if e.totalPnl == p {
      WithPnlLeads(s[..k], e, s[k..], p);
    } else {
      WithPnlSkips(s[..k], e, s[k..], p);
    }
  }

  /** The sort is stable: the standings of each profit keep their original order. */
  lemma {:induction false} SortByPnlStable(s: seq<Standing>, p: real)
    ensures WithPnl(SortByPnl(s), p) == WithPnl(s, p)
    decreases |s|
  {
    if s != [] {
      SortByPnlStable(s[1..], p);
      InsertFirstAmongEqual(s[0], SortByPnl(s[1..]), p);
    }
  }

  const LeaderboardSize := 50

  /** The first loop of `getLeaderboard`: the summed profit and trade count of each trader, and
      the traders in the order they were first seen. */
  method TallyClosedTrades(orders: seq<Order>) returns (users: seq<string>, totals: map<string, (real, nat)>)
    ensures users == Traders(orders)
    ensures forall u :: u in totals <==> u in users
    ensures forall u | u in totals :: totals[u] == (PnlOf(orders, u), TradesOf(orders, u))
  {
    users := [];
    totals := map[];
    for i := 0 to |orders|
      invariant users == Traders(orders[..i])
      invariant forall u :: u in totals <==> u in users
      invariant forall u | u in totals :: totals[u] == (PnlOf(orders[..i], u), TradesOf(orders[..i], u))
    {
      assert orders[..i + 1][..i] == orders[..i];
      var t := orders[i];
      if t.closeReason.Some? && t.pnl.Some? {
        if t.userId !in totals {
          NoTradesNoPnl(orders[..i], t.userId);
          totals := totals[t.userId := (0.0, 0)];
          users := users + [t.userId];
        }
        var (sum, count) := totals[t.userId];
        totals := totals[t.userId := (sum + t.pnl.value, count + 1)];
      }
    }
    assert orders[..|orders|] == orders;
  }

  /** Cutting a descending list leaves out nothing above what it keeps. */
  lemma CutKeepsTheTop(sorted: seq<Standing>, count: nat)
    requires Descending(sorted) && count <= |sorted|
    ensures Descending(sorted[..count])
    ensures forall e | e in sorted && e !in sorted[..count] :: forall b | b in sorted[..count] :: b.totalPnl >= e.totalPnl
  {
    forall i, j | 0 <= i < j < count ensures sorted[..count][i].totalPnl >= sorted[..count][j].totalPnl {
      assert sorted[..count][i] == sorted[i] && sorted[..count][j] == sorted[j];
    }
    forall e, b | e in sorted && e !in sorted[..count] && b in sorted[..count] ensures b.totalPnl >= e.totalPnl {
      var j :| 0 <= j < |sorted| && sorted[j] == e;
      var k :| 0 <= k < count && sorted[..count][k] == b;
      assert sorted[k] == b;
    }
  }

  /** The standings built from the tallies of `TallyClosedTrades` are `Standings(orders)`. */
  lemma TalliesAreStandings(orders: seq<Order>, users: seq<string>, totals: map<string, (real, nat)>, entries: seq<Standing>)
    requires users == Traders(orders)
    requires forall u :: u in totals <==> u in users
    requires forall u | u in totals :: totals[u] == (PnlOf(orders, u), TradesOf(orders, u))
    requires |entries| == |users|
    requires forall i | 0 <= i < |users| ::
      users[i] in totals && entries[i] == Standing(users[i], RoundCents(totals[users[i]].0), totals[users[i]].1)
    ensures entries == Standings(orders)
  {
    var standings := Standings(orders);
    forall i | 0 <= i < |users| ensures entries[i] == standings[i] {
      assert users[i] in totals;
    }
  }

  /** The first `count` standings of a descending sort of `standings` are descending, come from
      `standings`, and leave out nothing above them. */
  lemma CutOfStandings(standings: seq<Standing>, sorted: seq<Standing>, count: nat)
    requires Descending(sorted) && multiset(sorted) == multiset(standings) && count <= |sorted|
    ensures Descending(sorted[..count])
    ensures multiset(sorted[..count]) <= multiset(standings)
    ensures forall e | e in standings && e !in sorted[..count] :: forall b | b in sorted[..count] :: b.totalPnl >= e.totalPnl
  {
    var board := sorted[..count];
    assert multiset(sorted) == multiset(board) + multiset(sorted[count..]) by {
      assert sorted == board + sorted[count..];
    }
    CutKeepsTheTop(sorted, count);
    forall e | e in standings ensures e in sorted {
      assert e in multiset(standings);
    }
  }

  /** `getLeaderboard()`: the top 50 traders by summed profit. Each entry is a trader's standing,
      no trader is listed twice, every trader left off earned no more than everyone listed, and
      the list is cut only when there are more than 50 traders. */
  method GetLeaderboard(orders: seq<Order>) returns (board: seq<Standing>)
    ensures |board| == if |Traders(orders)| < LeaderboardSize then |Traders(orders)| else LeaderboardSize
    ensures Descending(board)
    ensures multiset(board) <= multiset(Standings(orders))
    ensures forall e | e in Standings(orders) && e !in board :: forall b | b in board :: b.totalPnl >= e.totalPnl
  {
    var users, totals := TallyClosedTrades(orders);
    var entries := seq(|users|, i requires 0 <= i < |users| => Standing(users[i], RoundCents(totals[users[i]].0), totals[users[i]].1));
    TalliesAreStandings(orders, users, totals, entries);
    var sorted := SortByPnl(entries);
    var count := if |sorted| < LeaderboardSize then |sorted| else LeaderboardSize;
    board := sorted[..count];
    CutOfStandings(Standings(orders), sorted, count);
  }
}
