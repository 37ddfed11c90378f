/** Sums and extremes of number series, shared by the performance report and the backtest metrics. */
module Series {
  function Sum(s: seq<real>): real
    decreases |s|
  {
    if s == [] then 0.0 else Sum(s[..|s| - 1]) + s[|s| - 1]
  }

  /** `Math.max(...s)` of a non-empty series. */
  function MaxOf(s: seq<real>): (r: real)
    requires s != []
    ensures r in s && forall x | x in s :: x <= r
    decreases |s|
  {
    if |s| == 1 then s[0]
    else
      var m := MaxOf(s[..|s| - 1]);
      assert forall x | x in s :: x in s[..|s| - 1] || x == s[|s| - 1];
      if s[|s| - 1] > m then s[|s| - 1] else m
  }

  /** `Math.min(...s)` of a non-empty series. */
  function MinOf(s: seq<real>): (r: real)
    requires s != []
    ensures r in s && forall x | x in s :: r <= x
    decreases |s|
  {
    if |s| == 1 then s[0]
    else
      var m := MinOf(s[..|s| - 1]);
      assert forall x | x in s :: x in s[..|s| - 1] || x == s[|s| - 1];
      if s[|s| - 1] < m then s[|s| - 1] else m
  }

  /** A sum of n terms, each between `lo` and `hi`, lies between n * lo and n * hi. */
  lemma {:induction false} SumBounds(s: seq<real>, lo: real, hi: real)
    requires forall x | x in s :: lo <= x <= hi
    ensures |s| as real * lo <= Sum(s) <= |s| as real * hi
    decreases |s|
  {
    if s != [] {
      var init := s[..|s| - 1];
      assert forall x | x in init :: x in s;
      SumBounds(init, lo, hi);
      assert s[|s| - 1] in s;
      assert |s| as real * lo == |init| as real * lo + lo;
      assert |s| as real * hi == |init| as real * hi + hi;
    }
  }

  /** The mean of a non-empty series lies between its minimum and its maximum. */
  lemma MeanBetweenExtremes(s: seq<real>)
    requires s != []
    ensures MinOf(s) <= Sum(s) / |s| as real <= MaxOf(s)
  {
    MeanBounds(s, MinOf(s), MaxOf(s));
  }

  /** The mean of a non-empty series whose terms lie between `lo` and `hi` lies between them too. */
  lemma MeanBounds(s: seq<real>, lo: real, hi: real)
    requires s != [] && forall x | x in s :: lo <= x <= hi
    ensures lo <= Sum(s) / |s| as real <= hi
  {
    SumBounds(s, lo, hi);
    QuotientBetween(Sum(s), |s| as real, lo, hi);
  }

  lemma QuotientBetween(total: real, n: real, lo: real, hi: real)
    requires n > 0.0 && n * lo <= total <= n * hi
    ensures lo <= total / n <= hi
  {
  }

  /** The number of entries of `s` that are positive. */
  function CountPositive(s: seq<real>): (r: nat)
    ensures r <= |s|
    decreases |s|
  {
    if s == [] then 0 else CountPositive(s[..|s| - 1]) + (if s[|s| - 1] > 0.0 then 1 else 0)
  }

  /** `s.filter(p => p > 0)` and `s.filter(p => p <= 0)`. */
  function Positives(s: seq<real>): (r: seq<real>)
    ensures forall x | x in r :: x > 0.0
    ensures |r| == CountPositive(s)
    decreases |s|
  {
    if s == [] then []
    else Positives(s[..|s| - 1]) + (if s[|s| - 1] > 0.0 then [s[|s| - 1]] else [])
  }

  function NonPositives(s: seq<real>): (r: seq<real>)
    ensures forall x | x in r :: x <= 0.0
    decreases |s|
  {
    if s == [] then []
    else NonPositives(s[..|s| - 1]) + (if s[|s| - 1] <= 0.0 then [s[|s| - 1]] else [])
  }

  lemma {:induction false} SumAppend(a: seq<real>, b: seq<real>)
    ensures Sum(a + b) == Sum(a) + Sum(b)
    decreases |b|
  {
    if b == [] {
      assert a + b == a;
    } else {
      assert (a + b)[..|a + b| - 1] == a + b[..|b| - 1];
      SumAppend(a, b[..|b| - 1]);
    }
  }

  /** Every entry is either positive or not: the two filters split the series, its length and
      its sum, and the positive part sums to at least zero, the rest to at most zero. */
  lemma {:induction false} Partition(s: seq<real>)
    ensures |Positives(s)| + |NonPositives(s)| == |s|
    ensures Sum(Positives(s)) + Sum(NonPositives(s)) == Sum(s)
    ensures Sum(Positives(s)) >= 0.0 && Sum(NonPositives(s)) <= 0.0
    ensures Positives(s) == [] ==> Sum(Positives(s)) == 0.0
    ensures NonPositives(s) == [] ==> Sum(NonPositives(s)) == 0.0
    decreases |s|
  {
    if s != [] {
      var init, last := s[..|s| - 1], s[|s| - 1];
      Partition(init);
      SumAppend(Positives(init), if last > 0.0 then [last] else []);
      SumAppend(NonPositives(init), if last <= 0.0 then [last] else []);
      assert Sum([last]) == last;
    }
  }

  lemma {:induction false} SumOfZeros(s: seq<real>)
    requires forall i | 0 <= i < |s| :: s[i] == 0.0
    ensures Sum(s) == 0.0
    decreases |s|
  {
    if s != [] {
      SumOfZeros(s[..|s| - 1]);
    }
  }

  lemma {:induction false} SumNonNegative(s: seq<real>)
    requires forall x | x in s :: x >= 0.0
    ensures Sum(s) >= 0.0
    decreases |s|
  {
    if s != [] {
      var init := s[..|s| - 1];
      assert forall x | x in init :: x in s;
      assert s[|s| - 1] in s;
      SumNonNegative(init);
    }
  }
}
