/** The multi-criteria strategy: BUY only when the SMA trend, a MACD histogram turn and a
    not-overbought RSI agree; SELL on an SMA cross down or a MACD turn down. It also lays the
    indicator series out on the candle time axis for charting. */
module MultiConfirm {
  import opened Wrappers
  import opened Signals
  import Macd

  const MissingParameters: string := "MULTICRITERIA requires parameters"

  datatype MultiParams = MultiParams(
    smaShortPeriod: real, smaLongPeriod: real,
    rsiPeriod: real, rsiOverbought: real, rsiOversold: real,
    macdFast: real, macdSlow: real, macdSignal: real)

  /** The settings `prepare` derives, each falling back to its default when missing or zero. */
  function Settings(params: Option<Params>): (r: MultiParams)
    ensures r.smaShortPeriod == Setting(params, "smaShortPeriod", 10.0)
    ensures r.smaLongPeriod == Setting(params, "smaLongPeriod", 50.0)
    ensures r.rsiPeriod == Setting(params, "rsiPeriod", 14.0)
    ensures r.rsiOverbought == Setting(params, "rsiOverbought", 70.0)
    ensures r.rsiOversold == Setting(params, "rsiOversold", 30.0)
    ensures r.macdFast == Setting(params, "macdFast", 12.0)
    ensures r.macdSlow == Setting(params, "macdSlow", 26.0)
    ensures r.macdSignal == Setting(params, "macdSignal", 9.0)
  {
    MultiParams(
      Setting(params, "smaShortPeriod", 10.0), Setting(params, "smaLongPeriod", 50.0),
      Setting(params, "rsiPeriod", 14.0), Setting(params, "rsiOverbought", 70.0),
      Setting(params, "rsiOversold", 30.0), Setting(params, "macdFast", 12.0),
      Setting(params, "macdSlow", 26.0), Setting(params, "macdSignal", 9.0))
  }

  /** `validateParameters`: only a null object is rejected. */
  function ValidateParameters(params: Option<Params>): (r: Outcome<string>)
    ensures r.Pass? <==> params.Some?
    ensures r.Fail? ==> r.error == MissingParameters
  {
    if params.None? then Fail(MissingParameters) else Pass
  }

  /** Chart time: JavaScript milliseconds floored to whole seconds. */
  function Seconds(millis: int): (r: int)
    ensures r * 1000 <= millis < r * 1000 + 1000
  {
    millis / 1000
  }

  /** Colour of a histogram bar: green above zero, red otherwise. */
  function BarColor(value: real): string
  {
    if value > 0.0 then "#26a69a" else "#ef5350"
  }

  /** One point of a chart series; only histogram points carry a colour. */
  datatype ChartPoint = ChartPoint(time: int, value: real, color: Option<string>)

  /** The six indicator lines of the chart. */
  datatype Line = ShortLine | LongLine | RsiLine | MacdLine | SignalLine | HistogramLine

  /** The indicator values aligned with one candle; `None` where the aligned entry is undefined. */
  datatype Reading = Reading(
    short: Option<real>, long: Option<real>, rsi: Option<real>,
    macd: Option<real>, signal: Option<real>, histogram: Option<real>)

  function Pick(r: Reading, line: Line): Option<real>
  {
    match line
    case ShortLine => r.short
    case LongLine => r.long
    case RsiLine => r.rsi
    case MacdLine => r.macd
    case SignalLine => r.signal
    case HistogramLine => r.histogram
  }

  /** The point a candle contributes to a line, if its reading is defined. */
  function PointFor(millis: int, r: Reading, line: Line): seq<ChartPoint>
  {
    var v := Pick(r, line);
    if v.None? then []
    else if line == HistogramLine then [ChartPoint(Seconds(millis), v.value, Some(BarColor(v.value)))]
    else [ChartPoint(Seconds(millis), v.value, None)]
  }

  /** One line of the chart over candles with timestamps `times` and readings `readings`. */
  function Plot(times: seq<int>, readings: seq<Reading>, line: Line): (p: seq<ChartPoint>)
    requires |times| == |readings|
    ensures |p| <= |times|
    decreases |times|
  {
    if |times| == 0 then []
    else
      var n := |times| - 1;
      Plot(times[..n], readings[..n], line) + PointFor(times[n], readings[n], line)
  }

  /** Every point of a line comes from a distinct candle, in candle order: position `k` of the
      line is the point of candle `from[k]`, and `from` is strictly increasing. */
  lemma {:induction false} PlotSources(times: seq<int>, readings: seq<Reading>, line: Line) returns (from: seq<nat>)
    requires |times| == |readings|
    ensures |from| == |Plot(times, readings, line)|
    ensures forall k :: 0 <= k < |from| ==>
      from[k] < |times| && Pick(readings[from[k]], line).Some? &&
      [Plot(times, readings, line)[k]] == PointFor(times[from[k]], readings[from[k]], line)
    ensures forall k, l :: 0 <= k < l < |from| ==> from[k] < from[l]
    decreases |times|
  {
    if |times| == 0 {
      from := [];
    } else {
      var n := |times| - 1;
      var before := PlotSources(times[..n], readings[..n], line);
      var head := Plot(times[..n], readings[..n], line);
      if Pick(readings[n], line).Some? {
        from := before + [n];
      } else {
        from := before;
      }
      assert Plot(times, readings, line) == head + PointFor(times[n], readings[n], line);
      forall k | 0 <= k < |before|
        ensures Plot(times, readings, line)[k] == head[k]
      {
      }
    }
  }

  /** With non-decreasing candle timestamps every line is in non-decreasing time order. */
  lemma {:induction false} PlotInTimeOrder(times: seq<int>, readings: seq<Reading>, line: Line)
    requires |times| == |readings|
    requires forall i, j :: 0 <= i < j < |times| ==> times[i] <= times[j]
    ensures var p := Plot(times, readings, line);
      forall k, l :: 0 <= k < l < |p| ==> p[k].time <= p[l].time
  {
    var p := Plot(times, readings, line);
    var from := PlotSources(times, readings, line);
    forall k, l | 0 <= k < l < |p|
      ensures p[k].time <= p[l].time
    {
      assert [p[k]] == PointFor(times[from[k]], readings[from[k]], line);
      assert [p[l]] == PointFor(times[from[l]], readings[from[l]], line);
      assert p[k].time == Seconds(times[from[k]]) && p[l].time == Seconds(times[from[l]]);
    }
  }

  /** What `getParsedIndicators` returns, one series per line. */
  datatype Indicators = Indicators(
    smaShort: seq<ChartPoint>, smaLong: seq<ChartPoint>, rsi: seq<ChartPoint>,
    macdLine: seq<ChartPoint>, macdSignal: seq<ChartPoint>, macdHistogram: seq<ChartPoint>)

  class MultiConfirmStrategy {
    var params: Option<MultiParams>
    var smaShort: seq<real>
    var smaLong: seq<real>
    var rsiValues: seq<real>
    var macdValues: seq<Macd.MacdPoint>
    /** Number of candles before the first RSI and the first MACD entry. */
    var rsiOffset: int
    var macdOffset: int

    constructor()
      ensures params.None? && smaShort == [] && smaLong == [] && rsiValues == [] && macdValues == []
      ensures rsiOffset == 0 && macdOffset == 0
    {
      params := None;
      smaShort := [];
      smaLong := [];
      rsiValues := [];
      macdValues := [];
      rsiOffset := 0;
      macdOffset := 0;
    }

    /** `prepare`: fixes the settings and keeps the four series computed from `closesCount`
        closes, aligning the RSI and MACD series to the end of the candle list. */
    method Prepare(params: Option<Params>, closesCount: nat, smaShort: seq<real>, smaLong: seq<real>,
                   rsiValues: seq<real>, macdValues: seq<Macd.MacdPoint>)
      modifies this
      ensures this.params == Some(Settings(params))
      ensures this.smaShort == smaShort && this.smaLong == smaLong
      ensures this.rsiValues == rsiValues && this.macdValues == macdValues
      ensures rsiOffset + |rsiValues| == closesCount && macdOffset + |macdValues| == closesCount
    {
      this.params := Some(Settings(params));
      this.smaShort := smaShort;
      this.smaLong := smaLong;
      this.rsiValues := rsiValues;
      this.rsiOffset := closesCount - |rsiValues|;
      this.macdValues := macdValues;
      this.macdOffset := closesCount - |macdValues|;
    }

    function ShortAt(candle: int): Option<real>
      reads this
      requires params.Some?
    {
      At(smaShort, candle as real - params.value.smaShortPeriod + 1.0)
    }

    function LongAt(candle: int): Option<real>
      reads this
      requires params.Some?
    {
      At(smaLong, candle as real - params.value.smaLongPeriod + 1.0)
    }

    function RsiAt(candle: int): Option<real>
      reads this
    {
      At(rsiValues, (candle - rsiOffset) as real)
    }

    function MacdAt(candle: int): Option<Macd.MacdPoint>
      reads this
    {
      At(macdValues, (candle - macdOffset) as real)
    }

    /** The indicator values aligned with candle `candle`. */
    function ReadingAt(candle: int): Reading
      reads this
      requires params.Some?
    {
      var m := MacdAt(candle);
      Reading(ShortAt(candle), LongAt(candle), RsiAt(candle),
        if m.Some? then m.value.macd else None,
        if m.Some? then m.value.signal else None,
        if m.Some? then m.value.histogram else None)
    }

    /** The readings of the first `n` candles. */
    function Readings(n: nat): (rs: seq<Reading>)
      reads this
      requires params.Some?
      ensures |rs| == n
    {
      if n == 0 then [] else Readings(n - 1) + [ReadingAt(n - 1)]
    }

    /** Candle `index` has one earlier entry in the long SMA, the RSI and the MACD series. */
    predicate HasHistory(index: int)
      reads this
      requires params.Some?
    {
      index as real >= params.value.smaLongPeriod && index - rsiOffset >= 1 && index - macdOffset >= 1
    }

    /** This candle's short SMA, long SMA and RSI are present and non-zero, and so is its MACD. */
    predicate Readable(index: int)
      reads this
      requires params.Some?
    {
      Truthy(ShortAt(index)) && Truthy(LongAt(index)) && Truthy(RsiAt(index)) && MacdAt(index).Some?
    }

    /** `onCandle`: the signal for candle `index`. */
    function OnCandle(index: nat): (r: Signal)
      reads this
      requires params.Some?
      ensures !HasHistory(index) || !Readable(index) ==> r == Hold
      ensures r == BuySignal <==>
        HasHistory(index) && Readable(index) &&
        ShortAt(index).value > LongAt(index).value &&
        MacdAt(index - 1).Some? && Macd.TurnsPositive(MacdAt(index - 1).value, MacdAt(index).value) &&
        RsiAt(index).value < params.value.rsiOverbought
      ensures r == SellSignal <==>
        HasHistory(index) && Readable(index) &&
        ((ShortAt(index - 1).Some? && LongAt(index - 1).Some? &&
          ShortAt(index - 1).value >= LongAt(index - 1).value && ShortAt(index).value < LongAt(index).value) ||
         (MacdAt(index - 1).Some? && Macd.TurnsNegative(MacdAt(index - 1).value, MacdAt(index).value)))
    {
      var settings := params.value;
      var idxShort := index as real - settings.smaShortPeriod + 1.0;
      var idxLong := index as real - settings.smaLongPeriod + 1.0;
      var idxRsi := index - rsiOffset;
      var idxMacd := index - macdOffset;
      if idxLong < 1.0 || idxRsi < 1 || idxMacd < 1 then Hold
      else
        var currentShort := At(smaShort, idxShort);
        var prevShort := At(smaShort, idxShort - 1.0);
        var currentLong := At(smaLong, idxLong);
        var prevLong := At(smaLong, idxLong - 1.0);
        var currentRsi := At(rsiValues, idxRsi as real);
        var currentMacd := At(macdValues, idxMacd as real);
        if !Truthy(currentShort) || !Truthy(currentLong) || !Truthy(currentRsi) || currentMacd.None? then Hold
        else
          var prevMacd := macdValues[idxMacd - 1];
          assert MacdAt(index - 1) == Some(prevMacd);
          var isSmaTrendUp := currentShort.value > currentLong.value;
          var isMacdCrossingUp := AtMost(prevMacd.histogram, 0.0) && Above(currentMacd.value.histogram, 0.0);
          var isRsiSafeToBuy := currentRsi.value < settings.rsiOverbought;
          if isSmaTrendUp && isMacdCrossingUp && isRsiSafeToBuy then BuySignal
          else
            var isSmaCrossDown := prevShort.Some? && prevLong.Some? &&
              prevShort.value >= prevLong.value && currentShort.value < currentLong.value;
            var isMacdCrossingDown := AtLeast(prevMacd.histogram, 0.0) && Below(currentMacd.value.histogram, 0.0);
            if isSmaCrossDown || isMacdCrossingDown then SellSignal else Hold
    }

    /** Extending the candle list by one candle appends that candle's point to every line. */
    lemma PlotStep(times: seq<int>, i: nat, line: Line)
      requires params.Some? && i < |times|
      ensures Plot(times[..i + 1], Readings(i + 1), line)
        == Plot(times[..i], Readings(i), line) + PointFor(times[i], ReadingAt(i), line)
    {
      assert times[..i + 1][..i] == times[..i];
      assert Readings(i + 1)[..i] == Readings(i);
    }

    /** One step of `getParsedIndicators`: candle `i`, stamped `millis`, adds a point to each
        line whose aligned entry is defined, and to no other. */
    method PlotCandle(i: nat, millis: int, ind: Indicators) returns (ind': Indicators)
      requires params.Some?
      ensures ind'.smaShort == ind.smaShort + PointFor(millis, ReadingAt(i), ShortLine)
      ensures ind'.smaLong == ind.smaLong + PointFor(millis, ReadingAt(i), LongLine)
      ensures ind'.rsi == ind.rsi + PointFor(millis, ReadingAt(i), RsiLine)
      ensures ind'.macdLine == ind.macdLine + PointFor(millis, ReadingAt(i), MacdLine)
      ensures ind'.macdSignal == ind.macdSignal + PointFor(millis, ReadingAt(i), SignalLine)
      ensures ind'.macdHistogram == ind.macdHistogram + PointFor(millis, ReadingAt(i), HistogramLine)
    {
      var settings := params.value;
      ghost var reading := ReadingAt(i);
      var smaShortSeries, smaLongSeries, rsiSeries := ind.smaShort, ind.smaLong, ind.rsi;
      var macdLineSeries, signalLineSeries, macdHistogramSeries := ind.macdLine, ind.macdSignal, ind.macdHistogram;
      var time := Seconds(millis);
      var idxShort := i as real - settings.smaShortPeriod + 1.0;
      var short := At(smaShort, idxShort);
      assert short == reading.short;
      if idxShort >= 0.0 && short.Some? {
        smaShortSeries := smaShortSeries + [ChartPoint(time, short.value, None)];
      }
      assert smaShortSeries == ind.smaShort + PointFor(millis, reading, ShortLine);
      var idxLong := i as real - settings.smaLongPeriod + 1.0;
      var long := At(smaLong, idxLong);
      assert long == reading.long;
      if idxLong >= 0.0 && long.Some? {
        smaLongSeries := smaLongSeries + [ChartPoint(time, long.value, None)];
      }
      assert smaLongSeries == ind.smaLong + PointFor(millis, reading, LongLine);
      var idxRsi := i - rsiOffset;
      var rsi := At(rsiValues, idxRsi as real);
      assert rsi == reading.rsi;
      if idxRsi >= 0 && rsi.Some? {
        rsiSeries := rsiSeries + [ChartPoint(time, rsi.value, None)];
      }
      assert rsiSeries == ind.rsi + PointFor(millis, reading, RsiLine);
      var idxMacd := i - macdOffset;
      var m := At(macdValues, idxMacd as real);
      assert m == MacdAt(i);
      if idxMacd >= 0 && m.Some? {
        var point := m.value;
        if point.macd.Some? {
          macdLineSeries := macdLineSeries + [ChartPoint(time, point.macd.value, None)];
        }
        if point.signal.Some? {
          signalLineSeries := signalLineSeries + [ChartPoint(time, point.signal.value, None)];
        }
        if point.histogram.Some? {
          var h := point.histogram.value;
          macdHistogramSeries := macdHistogramSeries + [ChartPoint(time, h, Some(BarColor(h)))];
        }
      }
      ind' := Indicators(smaShortSeries, smaLongSeries, rsiSeries, macdLineSeries, signalLineSeries, macdHistogramSeries);
    }

    /** The six lines of the first `n` candles. */
    function Chart(times: seq<int>, n: nat): Indicators
      reads this
      requires params.Some? && n <= |times|
    {
      var rs := Readings(n);
      Indicators(Plot(times[..n], rs, ShortLine), Plot(times[..n], rs, LongLine), Plot(times[..n], rs, RsiLine),
        Plot(times[..n], rs, MacdLine), Plot(times[..n], rs, SignalLine), Plot(times[..n], rs, HistogramLine))
    }

    /** `getParsedIndicators`: walks the candles once, appending to each line the point of every
        candle whose aligned entry is defined. */
    method GetParsedIndicators(times: seq<int>) returns (ind: Indicators)
      requires params.Some?
      ensures ind.smaShort == Plot(times, Readings(|times|), ShortLine)
      ensures ind.smaLong == Plot(times, Readings(|times|), LongLine)
      ensures ind.rsi == Plot(times, Readings(|times|), RsiLine)
      ensures ind.macdLine == Plot(times, Readings(|times|), MacdLine)
      ensures ind.macdSignal == Plot(times, Readings(|times|), SignalLine)
      ensures ind.macdHistogram == Plot(times, Readings(|times|), HistogramLine)
    {
      ind := Indicators([], [], [], [], [], []);
      for i := 0 to |times|
        invariant ind == Chart(times, i)
      {
        PlotStep(times, i, ShortLine);
        PlotStep(times, i, LongLine);
        PlotStep(times, i, RsiLine);
        PlotStep(times, i, MacdLine);
        PlotStep(times, i, SignalLine);
        PlotStep(times, i, HistogramLine);
        ind := PlotCandle(i, times[i], ind);
      }
      assert times[..|times|] == times;
    }
  }

  /** A confirmed BUY is in particular a MACD-strategy BUY on the same MACD series. */
  lemma ConfirmedBuyIsMacdBuy(s: MultiConfirmStrategy, m: Macd.MacdStrategy, index: nat)
    requires s.params.Some? && m.macdValues == s.macdValues && m.offset == s.macdOffset
    requires s.OnCandle(index) == BuySignal
    ensures m.OnCandle(index) == BuySignal
  {
    assert m.MacdAt(index) == s.MacdAt(index) && m.MacdAt(index - 1) == s.MacdAt(index - 1);
  }

  /** Once a candle has history and readable values, a MACD-strategy SELL on the same series is
      enough for a SELL here. */
  lemma MacdSellIsSell(s: MultiConfirmStrategy, m: Macd.MacdStrategy, index: nat)
    requires s.params.Some? && m.macdValues == s.macdValues && m.offset == s.macdOffset
    requires s.HasHistory(index) && s.Readable(index)
    requires m.OnCandle(index) == SellSignal
    ensures s.OnCandle(index) == SellSignal
  {
    assert m.MacdAt(index) == s.MacdAt(index) && m.MacdAt(index - 1) == s.MacdAt(index - 1);
  }
}
