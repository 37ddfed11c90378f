/** The SMA-cross strategy: BUY when the short moving average crosses above the long one, SELL
    when it crosses below. The two SMA series come from the indicator library; entry `j` of an
    SMA of period `p` averages closes `j .. j + p - 1`, so candle `i` reads entry `i - p + 1`. */
module SmaCross {
  import opened Wrappers
  import opened Signals

  const MissingPeriods: string := "SMA Cross requires shortPeriod and longPeriod parameters"
  const PeriodsOutOfOrder: string := "shortPeriod must be strictly less than longPeriod"

  /** Both periods are present and non-zero. */
  predicate HasPeriods(params: Option<Params>)
  {
    Truthy(Param(params, "shortPeriod")) && Truthy(Param(params, "longPeriod"))
  }

  /** `validateParameters`: both periods required, the short one strictly below the long one. */
  function ValidateParameters(params: Option<Params>): (r: Outcome<string>)
    ensures r.Pass? <==>
      HasPeriods(params) && params.value["shortPeriod"] < params.value["longPeriod"]
    ensures r.Fail? ==>
      r.error == (if HasPeriods(params) then PeriodsOutOfOrder else MissingPeriods)
  {
    if !HasPeriods(params) then Fail(MissingPeriods)
    else if Param(params, "shortPeriod").value >= Param(params, "longPeriod").value then Fail(PeriodsOutOfOrder)
    else Pass
  }

  /** The short average has moved from at-or-below the long one to above it. */
  predicate CrossesUp(prevShort: real, prevLong: real, short: real, long: real)
  {
    prevShort <= prevLong && short > long
  }

  /** The short average has moved from at-or-above the long one to below it. */
  predicate CrossesDown(prevShort: real, prevLong: real, short: real, long: real)
  {
    prevShort >= prevLong && short < long
  }

  /** The signal for candle `index` from the two SMA series under `params`: a crossing between
      the previous candle's averages and this candle's, when all four are present and non-zero. */
  function SignalFor(params: Params, smaShort: seq<real>, smaLong: seq<real>, index: nat): Signal
  {
    var shortPeriod := Lookup(params, "shortPeriod");
    var longPeriod := Lookup(params, "longPeriod");
    var shortVal := Aligned(smaShort, index, shortPeriod, 1.0);
    var longVal := Aligned(smaLong, index, longPeriod, 1.0);
    var prevShort := Aligned(smaShort, index, shortPeriod, 0.0);
    var prevLong := Aligned(smaLong, index, longPeriod, 0.0);
    if !Truthy(shortVal) || !Truthy(longVal) || !Truthy(prevShort) || !Truthy(prevLong) then Hold
    else if prevShort.value <= prevLong.value && shortVal.value > longVal.value then BuySignal
    else if prevShort.value >= prevLong.value && shortVal.value < longVal.value then SellSignal
    else Hold
  }

  class SmaCrossStrategy {
    /** The parameter object given to `prepare`; `None` before it (or when it was null). */
    var params: Option<Params>
    var smaShort: seq<real>
    var smaLong: seq<real>

    constructor()
      ensures params.None? && smaShort == [] && smaLong == []
    {
      params := None;
      smaShort := [];
      smaLong := [];
    }

    /** `prepare`: keeps the parameters and the two precomputed SMA series. */
    method Prepare(params: Option<Params>, smaShort: seq<real>, smaLong: seq<real>)
      modifies this
      ensures this.params == params && this.smaShort == smaShort && this.smaLong == smaLong
    {
      this.params := params;
      this.smaShort := smaShort;
      this.smaLong := smaLong;
    }

    /** The short and long SMA values that belong to candle `candle`, if any. */
    function ShortAt(candle: int): Option<real>
      reads this
      requires params.Some?
    {
      Aligned(smaShort, candle, Lookup(params.value, "shortPeriod"), 1.0)
    }

    function LongAt(candle: int): Option<real>
      reads this
      requires params.Some?
    {
      Aligned(smaLong, candle, Lookup(params.value, "longPeriod"), 1.0)
    }

    /** The four readings a signal at `index` needs are all present and non-zero. */
    predicate Readable(index: int)
      reads this
      requires params.Some?
    {
      Truthy(ShortAt(index)) && Truthy(LongAt(index)) && Truthy(ShortAt(index - 1)) && Truthy(LongAt(index - 1))
    }

    /** `onCandle`: the signal for candle `index`, from this candle's and the previous candle's
        averages. The candle, position and balance arguments of the source are unused. */
    function OnCandle(index: nat): (r: Signal)
      reads this
      requires params.Some?
      ensures r == BuySignal <==>
        Readable(index) && CrossesUp(ShortAt(index - 1).value, LongAt(index - 1).value, ShortAt(index).value, LongAt(index).value)
      ensures r == SellSignal <==>
        Readable(index) && CrossesDown(ShortAt(index - 1).value, LongAt(index - 1).value, ShortAt(index).value, LongAt(index).value)
    {
      SignalFor(params.value, smaShort, smaLong, index)
    }
  }

  /** A crossover cannot repeat on the next candle: a BUY leaves the short average above the
      long one, so the next candle cannot start from at-or-below; likewise for SELL. */
  lemma NoRepeatedSignal(s: SmaCrossStrategy, index: nat)
    requires s.params.Some?
    ensures s.OnCandle(index) == BuySignal ==> s.OnCandle(index + 1) != BuySignal
    ensures s.OnCandle(index) == SellSignal ==> s.OnCandle(index + 1) != SellSignal
  {
  }

  /** No look-ahead: the signal at `index` is the same when both series are cut off just after
      the entries for candle `index`, as they would be if the later candles did not exist. */
  lemma NoLookAhead(s: SmaCrossStrategy, t: SmaCrossStrategy, index: nat)
    requires s.params.Some? && t.params == s.params
    requires |t.smaShort| <= |s.smaShort| && t.smaShort == s.smaShort[..|t.smaShort|]
    requires |t.smaLong| <= |s.smaLong| && t.smaLong == s.smaLong[..|t.smaLong|]
    requires "shortPeriod" in s.params.value ==>
      index as real - s.params.value["shortPeriod"] + 1.0 < |t.smaShort| as real
    requires "longPeriod" in s.params.value ==>
      index as real - s.params.value["longPeriod"] + 1.0 < |t.smaLong| as real
    ensures t.OnCandle(index) == s.OnCandle(index)
  {
    var shortPeriod := Lookup(s.params.value, "shortPeriod");
    var longPeriod := Lookup(s.params.value, "longPeriod");
    if shortPeriod.Some? {
      var k := index as real - shortPeriod.value;
      AtPrefix(s.smaShort, |t.smaShort|, k + 1.0);
      AtPrefix(s.smaShort, |t.smaShort|, k);
    }
    if longPeriod.Some? {
      var k := index as real - longPeriod.value;
      AtPrefix(s.smaLong, |t.smaLong|, k + 1.0);
      AtPrefix(s.smaLong, |t.smaLong|, k);
    }
  }
}
