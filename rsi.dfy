/** The RSI mean-reversion strategy: BUY when the RSI climbs back above the oversold level,
    SELL when it falls back below the overbought level. The RSI series comes from the indicator
    library; its entry `j` belongs to candle `j + period`. */
module Rsi {
  import opened Wrappers
  import opened Signals

  const DefaultPeriod: real := 14.0
  const DefaultOverbought: real := 70.0
  const DefaultOversold: real := 30.0

  const MissingParameters: string := "RSI requires parameters"
  const LevelsOutOfOrder: string := "Oversold level must be lower than Overbought level"

  datatype RsiParams = RsiParams(period: real, overbought: real, oversold: real)

  /** The settings `prepare` derives, each falling back to its default when missing or zero. */
  function Settings(params: Option<Params>): (r: RsiParams)
    ensures r.period == Setting(params, "period", DefaultPeriod)
    ensures r.overbought == Setting(params, "overbought", DefaultOverbought)
    ensures r.oversold == Setting(params, "oversold", DefaultOversold)
    ensures r.period != 0.0 && r.overbought != 0.0 && r.oversold != 0.0
  {
    RsiParams(
      Setting(params, "period", DefaultPeriod),
      Setting(params, "overbought", DefaultOverbought),
      Setting(params, "oversold", DefaultOversold))
  }

  /** `validateParameters`: rejects a null object, writes the defaults into it, and rejects an
      oversold level at or above the overbought one. On success, the object as it is left. */
  function ValidateParameters(params: Option<Params>): (r: Result<Params, string>)
    ensures params.None? ==> r == Err(MissingParameters)
    ensures params.Some? ==> (r.Ok? <==> Settings(params).oversold < Settings(params).overbought)
    ensures params.Some? && r.Err? ==> r.error == LevelsOutOfOrder
    ensures r.Ok? ==> Settings(Some(r.value)) == Settings(params)
    ensures r.Ok? ==> forall k :: k in params.value ==> k in r.value
  {
    if params.None? then Err(MissingParameters)
    else
      var p := WithDefault(WithDefault(WithDefault(params.value,
        "period", DefaultPeriod), "overbought", DefaultOverbought), "oversold", DefaultOversold);
      assert Settings(Some(p)) == Settings(params) by {
        WithDefaultKeepsSettings(params.value, "period", DefaultPeriod, "overbought", DefaultOverbought);
        WithDefaultKeepsSettings(params.value, "period", DefaultPeriod, "oversold", DefaultOversold);
        var p1 := WithDefault(params.value, "period", DefaultPeriod);
        WithDefaultKeepsSettings(p1, "overbought", DefaultOverbought, "period", DefaultPeriod);
        WithDefaultKeepsSettings(p1, "overbought", DefaultOverbought, "oversold", DefaultOversold);
        var p2 := WithDefault(p1, "overbought", DefaultOverbought);
        WithDefaultKeepsSettings(p2, "oversold", DefaultOversold, "period", DefaultPeriod);
        WithDefaultKeepsSettings(p2, "oversold", DefaultOversold, "overbought", DefaultOverbought);
      }
      if p["oversold"] >= p["overbought"] then Err(LevelsOutOfOrder) else Ok(p)
  }

  /** The signal for candle `index` from the RSI series under `settings`: a cross up through
      the oversold level buys, a cross down through the overbought level sells. */
  function SignalFor(settings: RsiParams, rsiValues: seq<real>, index: nat): Signal
  {
    var rsiIndex := index as real - settings.period;
    if rsiIndex < 0.0 then Hold
    else
      var currentRsi := At(rsiValues, rsiIndex);
      var prevRsi := At(rsiValues, rsiIndex - 1.0);
      if !Truthy(currentRsi) || !Truthy(prevRsi) then Hold
      else if prevRsi.value <= settings.oversold && currentRsi.value > settings.oversold then BuySignal
      else if prevRsi.value >= settings.overbought && currentRsi.value < settings.overbought then SellSignal
      else Hold
  }

  class RsiStrategy {
    /** The settings `prepare` fixed; `None` before it. */
    var params: Option<RsiParams>
    var rsiValues: seq<real>

    constructor()
      ensures params.None? && rsiValues == []
    {
      params := None;
      rsiValues := [];
    }

    /** `prepare`: fixes the settings (defaults where missing) and keeps the RSI series. */
    method Prepare(params: Option<Params>, rsiValues: seq<real>)
      modifies this
      ensures this.params == Some(Settings(params)) && this.rsiValues == rsiValues
    {
      this.params := Some(Settings(params));
      this.rsiValues := rsiValues;
    }

    /** The RSI value that belongs to candle `candle`, if any. */
    function RsiAt(candle: int): Option<real>
      reads this
      requires params.Some?
    {
      At(rsiValues, candle as real - params.value.period)
    }

    /** `onCandle`: the signal for candle `index`. The source's guard on a negative RSI index is
        subsumed: such an index reads nothing, which is HOLD as well. */
    function OnCandle(index: nat): (r: Signal)
      reads this
      requires params.Some?
      ensures r == BuySignal <==>
        Truthy(RsiAt(index)) && Truthy(RsiAt(index - 1)) &&
        RsiAt(index - 1).value <= params.value.oversold < RsiAt(index).value
      ensures r == SellSignal <==>
        Truthy(RsiAt(index)) && Truthy(RsiAt(index - 1)) &&
        RsiAt(index).value < params.value.overbought <= RsiAt(index - 1).value &&
        !(RsiAt(index - 1).value <= params.value.oversold < RsiAt(index).value)
    {
      SignalFor(params.value, rsiValues, index)
    }
  }

  /** With validated levels (oversold below overbought) the BUY and SELL conditions never
      overlap, so SELL is exactly the cross back below the overbought level. */
  lemma SellIsCrossDown(s: RsiStrategy, index: nat)
    requires s.params.Some? && s.params.value.oversold < s.params.value.overbought
    ensures s.OnCandle(index) == SellSignal <==>
      Truthy(s.RsiAt(index)) && Truthy(s.RsiAt(index - 1)) &&
      s.RsiAt(index).value < s.params.value.overbought <= s.RsiAt(index - 1).value
  {
  }

  /** A crossover cannot repeat on the next candle. */
  lemma NoRepeatedSignal(s: RsiStrategy, index: nat)
    requires s.params.Some?
    ensures s.OnCandle(index) == BuySignal ==> s.OnCandle(index + 1) != BuySignal
    ensures s.OnCandle(index) == SellSignal ==> s.OnCandle(index + 1) != SellSignal
  {
  }

  /** Validating first and then preparing gives the settings preparing alone gives. */
  lemma ValidateThenPrepare(params: Option<Params>)
    requires ValidateParameters(params).Ok?
    ensures Settings(Some(ValidateParameters(params).value)) == Settings(params)
  {
  }

  /** No look-ahead: cutting the RSI series off just after candle `index`'s entry leaves the
      signal unchanged. */
  lemma NoLookAhead(s: RsiStrategy, t: RsiStrategy, index: nat)
    requires s.params.Some? && t.params == s.params
    requires |t.rsiValues| <= |s.rsiValues| && t.rsiValues == s.rsiValues[..|t.rsiValues|]
    requires index as real - s.params.value.period < |t.rsiValues| as real
    ensures t.OnCandle(index) == s.OnCandle(index)
  {
    var k := index as real - s.params.value.period;
    AtPrefix(s.rsiValues, |t.rsiValues|, k);
    AtPrefix(s.rsiValues, |t.rsiValues|, k - 1.0);
  }
}
