/** The MACD strategy: BUY when the MACD histogram turns positive, SELL when it turns negative.
    The MACD series comes from the indicator library and is shorter than the candle list; the
    difference is the offset of its first entry. */
module Macd {
  import opened Wrappers
  import opened Signals

  const DefaultFast: real := 12.0
  const DefaultSlow: real := 26.0
  const DefaultSignal: real := 9.0

  const MissingParameters: string := "MACD requires parameters"
  const PeriodsOutOfOrder: string := "Fast period must be lower than Slow period"

  /** One entry of the library's MACD output; early entries lack the signal and histogram. */
  datatype MacdPoint = MacdPoint(macd: Option<real>, signal: Option<real>, histogram: Option<real>)

  datatype MacdParams = MacdParams(fastPeriod: real, slowPeriod: real, signalPeriod: real)

  /** The settings `prepare` derives, each falling back to its default when missing or zero. */
  function Settings(params: Option<Params>): (r: MacdParams)
    ensures r.fastPeriod == Setting(params, "fastPeriod", DefaultFast)
    ensures r.slowPeriod == Setting(params, "slowPeriod", DefaultSlow)
    ensures r.signalPeriod == Setting(params, "signalPeriod", DefaultSignal)
    ensures r.fastPeriod != 0.0 && r.slowPeriod != 0.0 && r.signalPeriod != 0.0
  {
    MacdParams(
      Setting(params, "fastPeriod", DefaultFast),
      Setting(params, "slowPeriod", DefaultSlow),
      Setting(params, "signalPeriod", DefaultSignal))
  }

  /** `validateParameters`: rejects a null object, writes the defaults into it, and rejects a
      fast period at or above the slow one. On success, the object as it is left. */
  function ValidateParameters(params: Option<Params>): (r: Result<Params, string>)
    ensures params.None? ==> r == Err(MissingParameters)
    ensures params.Some? ==> (r.Ok? <==> Settings(params).fastPeriod < Settings(params).slowPeriod)
    ensures params.Some? && r.Err? ==> r.error == PeriodsOutOfOrder
    ensures r.Ok? ==> Settings(Some(r.value)) == Settings(params)
    ensures r.Ok? ==> forall k :: k in params.value ==> k in r.value
  {
    if params.None? then Err(MissingParameters)
    else
      var p := WithDefault(WithDefault(WithDefault(params.value,
        "fastPeriod", DefaultFast), "slowPeriod", DefaultSlow), "signalPeriod", DefaultSignal);
      assert Settings(Some(p)) == Settings(params) by {
        WithDefaultKeepsSettings(params.value, "fastPeriod", DefaultFast, "slowPeriod", DefaultSlow);
        WithDefaultKeepsSettings(params.value, "fastPeriod", DefaultFast, "signalPeriod", DefaultSignal);
        var p1 := WithDefault(params.value, "fastPeriod", DefaultFast);
        WithDefaultKeepsSettings(p1, "slowPeriod", DefaultSlow, "fastPeriod", DefaultFast);
        WithDefaultKeepsSettings(p1, "slowPeriod", DefaultSlow, "signalPeriod", DefaultSignal);
        var p2 := WithDefault(p1, "slowPeriod", DefaultSlow);
        WithDefaultKeepsSettings(p2, "signalPeriod", DefaultSignal, "fastPeriod", DefaultFast);
        WithDefaultKeepsSettings(p2, "signalPeriod", DefaultSignal, "slowPeriod", DefaultSlow);
      }
      if p["fastPeriod"] >= p["slowPeriod"] then Err(PeriodsOutOfOrder) else Ok(p)
  }

  /** The histogram has moved from at-or-below zero to above it. */
  predicate TurnsPositive(prev: MacdPoint, current: MacdPoint)
  {
    AtMost(prev.histogram, 0.0) && Above(current.histogram, 0.0)
  }

  /** The histogram has moved from at-or-above zero to below it. */
  predicate TurnsNegative(prev: MacdPoint, current: MacdPoint)
  {
    AtLeast(prev.histogram, 0.0) && Below(current.histogram, 0.0)
  }

  /** The signal for candle `index` from the MACD series, whose first entry belongs to candle
      `offset`: the histogram turning positive buys, turning negative sells. */
  function SignalFor(macdValues: seq<MacdPoint>, offset: int, index: nat): Signal
  {
    var macdIndex := index - offset;
    if macdIndex < 0 then Hold
    else
      var current := At(macdValues, macdIndex as real);
      var prev := At(macdValues, (macdIndex - 1) as real);
      if current.None? || prev.None? then Hold
      else if AtMost(prev.value.histogram, 0.0) && Above(current.value.histogram, 0.0) then BuySignal
      else if AtLeast(prev.value.histogram, 0.0) && Below(current.value.histogram, 0.0) then SellSignal
      else Hold
  }

  class MacdStrategy {
    var params: Option<MacdParams>
    var macdValues: seq<MacdPoint>
    /** Number of candles before the first MACD entry. */
    var offset: int

    constructor()
      ensures params.None? && macdValues == [] && offset == 0
    {
      params := None;
      macdValues := [];
      offset := 0;
    }

    /** `prepare`: fixes the settings, keeps the MACD series computed from `closesCount` closes,
        and aligns it to the end of the candle list. */
    method Prepare(params: Option<Params>, closesCount: nat, macdValues: seq<MacdPoint>)
      modifies this
      ensures this.params == Some(Settings(params)) && this.macdValues == macdValues
      ensures offset + |macdValues| == closesCount
    {
      this.params := Some(Settings(params));
      this.macdValues := macdValues;
      this.offset := closesCount - |macdValues|;
    }

    /** The MACD entry that belongs to candle `candle`, if any. */
    function MacdAt(candle: int): Option<MacdPoint>
      reads this
    {
      At(macdValues, (candle - offset) as real)
    }

    /** `onCandle`: the signal for candle `index`. It needs this candle's entry and the previous
        one, so the first entry (index `offset`) is always HOLD. */
    function OnCandle(index: nat): (r: Signal)
      reads this
      ensures r == BuySignal <==>
        MacdAt(index).Some? && MacdAt(index - 1).Some? && TurnsPositive(MacdAt(index - 1).value, MacdAt(index).value)
      ensures r == SellSignal <==>
        MacdAt(index).Some? && MacdAt(index - 1).Some? && TurnsNegative(MacdAt(index - 1).value, MacdAt(index).value)
      ensures index <= offset ==> r == Hold
    {
      SignalFor(macdValues, offset, index)
    }
  }

  /** A histogram turn cannot repeat on the next candle. */
  lemma NoRepeatedSignal(s: MacdStrategy, index: nat)
    ensures s.OnCandle(index) == BuySignal ==> s.OnCandle(index + 1) != BuySignal
    ensures s.OnCandle(index) == SellSignal ==> s.OnCandle(index + 1) != SellSignal
  {
  }

  /** Validating first and then preparing gives the settings preparing alone gives. */
  lemma ValidateThenPrepare(params: Option<Params>)
    requires ValidateParameters(params).Ok?
    ensures Settings(Some(ValidateParameters(params).value)) == Settings(params)
  {
  }

  /** No look-ahead: with the candle list and the MACD series both cut off after candle `index`
      (the offset is unchanged), the signal at `index` is the same. */
  lemma NoLookAhead(s: MacdStrategy, t: MacdStrategy, index: nat)
    requires t.offset == s.offset
    requires |t.macdValues| <= |s.macdValues| && t.macdValues == s.macdValues[..|t.macdValues|]
    requires index - s.offset < |t.macdValues|
    ensures t.OnCandle(index) == s.OnCandle(index)
  {
    AtPrefix(s.macdValues, |t.macdValues|, (index - s.offset) as real);
    AtPrefix(s.macdValues, |t.macdValues|, (index - 1 - s.offset) as real);
  }
}
