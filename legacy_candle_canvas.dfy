/**
 * The earlier snapshot of the render model,
 * src/tradingCanvas/classes/CandleCanvas.ts: the window is cut in two
 * slices, sizes are tripled, there is no minimum length and no live
 * candle, and records carry no trades, slot or back-reference.
 */
module LegacyCandleCanvas {
  import opened Wrappers
  import opened Types
  import opened CandleClasses
  import opened CandleCanvas

  /** Device-pixel factor of this snapshot (lines 25-26). */
  const LegacyScale: real := 3.0

  /** Drop the newest `shift` candles, then keep the last `candlesShown` of the rest (lines 28-36). */
  function TwoStepWindow(history: seq<Candle>, candlesShown: int, shift: int): (r: seq<Candle>)
    ensures |r| <= |history|
  {
    var shifted := JsSlice(history, 0, |history| - shift);
    JsSlice(shifted, |shifted| - candlesShown, |shifted|)
  }

  /** When the window fits, the two slices cut the same window as the single slice of the package. */
  lemma TwoStepIsWindow(history: seq<Candle>, candlesShown: int, shift: int)
    requires 0 <= shift && 0 <= candlesShown && candlesShown + shift <= |history|
    ensures TwoStepWindow(history, candlesShown, shift) == Window(history, candlesShown, shift)
  {
    var shifted := JsSlice(history, 0, |history| - shift);
    assert shifted == history[..|history| - shift];
    assert shifted[|shifted| - candlesShown..] == history[|history| - candlesShown - shift..|history| - shift];
  }

  /** One positioned candle of this snapshot. */
  datatype LegacyCandle2D = LegacyCandle2D(
    open: real, close: real, low: real, high: real,
    noDraw: bool, mountPoints: MountSlots, alligator: Alligator)

  /**
   * The record of one candle: the same mapped rows, slots and alligator
   * values as the package record, and the pixel `noDraw` test.
   */
  function LegacyRecordOf(c: Candle, g: Geometry): (r: LegacyCandle2D)
    requires g.max != g.min
    ensures var p := Candle2DOf(c, g, 0.0, 0);
            && r.open == p.open && r.close == p.close && r.low == p.low && r.high == p.high
            && r.mountPoints == p.mountPoints && r.alligator == p.alligator
            && r.noDraw == p.noDraw
  {
    var open, close := GetPoint(c.open, g), GetPoint(c.close, g);
    var low, high := GetPoint(c.low, g), GetPoint(c.high, g);
    LegacyCandle2D(open, close, low, high, NoDrawAsWritten(open, close, low, high),
                   TwoSlotOf(g.candleWidth, c.indicators, low, high), AlligatorPoints(c.indicators.alligator, g))
  }

  /** `getDrawingArray`: one record per window candle, in order. */
  function LegacyDrawingArray(w: seq<Candle>, g: Geometry): (r: seq<LegacyCandle2D>)
    requires g.max != g.min
    ensures |r| == |w|
    ensures forall i :: 0 <= i < |w| ==> r[i] == LegacyRecordOf(w[i], g)
  {
    seq(|w|, i requires 0 <= i < |w| => LegacyRecordOf(w[i], g))
  }

  function LegacyAlligatorsOf(cs: seq<LegacyCandle2D>): seq<Alligator> {
    seq(|cs|, i requires 0 <= i < |cs| => cs[i].alligator)
  }

  datatype LegacyCanvas = LegacyCanvas(
    width: real, height: real, candlesShown: int, candleShift: int,
    min: real, max: real, gap: real, candleWidth: real,
    candleArray: seq<LegacyCandle2D>, alligatorArray: AlligatorLines)

  /**
   * The snapshot's constructor. It never rejects a short history; only a
   * window without a usable price range (where JavaScript computes NaN or
   * Infinity) is a failure here.
   */
  function LegacyCanvasOf(width: real, height: real, candlesShown: int, candleShift: int,
                          history: seq<Candle>): (r: Result<LegacyCanvas, BuildError>)
    ensures r.Failure? ==> r.error == DegenerateWindow
    ensures var w := TwoStepWindow(history, candlesShown, candleShift);
            var mm := MinMaxCalc(w);
            r.Success? <==> candlesShown > 0 && mm.min.Some? && mm.max.Some? && mm.min.value != mm.max.value
    ensures r.Success? ==>
              var c := r.value;
              var w := TwoStepWindow(history, candlesShown, candleShift);
              && c.width == width * LegacyScale && c.height == height * LegacyScale
              && c.candlesShown == candlesShown && c.candleShift == candleShift
              && IsLeastNonZero(Some(c.min), Lows(w)) && IsGreatestNonZero(Some(c.max), Highs(w))
              && Spacing(c.gap, c.candleWidth) == GapAndCandleWidth(c.width, candlesShown)
              && c.candleArray == LegacyDrawingArray(w, Geometry(c.height, c.candleWidth, c.min, c.max))
              && c.alligatorArray == AlligatorLinesOf(LegacyAlligatorsOf(c.candleArray), Spacing(c.gap, c.candleWidth))
  {
    var w := TwoStepWindow(history, candlesShown, candleShift);
    var mm := MinMaxCalc(w);
    if candlesShown <= 0 || mm.min.None? || mm.max.None? || mm.min.value == mm.max.value then
      Failure(DegenerateWindow)
    else
      var width', height' := width * LegacyScale, height * LegacyScale;
      var sp := GapAndCandleWidth(width', candlesShown);
      var candleArray := LegacyDrawingArray(w, Geometry(height', sp.candleWidth, mm.min.value, mm.max.value));
      Success(LegacyCanvas(width', height', candlesShown, candleShift, mm.min.value, mm.max.value,
                           sp.gap, sp.candleWidth, candleArray,
                           AlligatorLinesOf(LegacyAlligatorsOf(candleArray), sp)))
  }

  /**
   * A history shorter than the minimum is rejected by the package model and
   * drawn by this one, as long as its window has a price range.
   */
  lemma ShortHistoryOnlyLegacyBuilds(width: real, height: real, candlesShown: int, shift: int,
                                     history: seq<Candle>, lastCandle: Option<Candle>)
    requires |history| < MinCandlesShown
    requires candlesShown > 0
    requires var mm := MinMaxCalc(TwoStepWindow(history, candlesShown, shift));
             mm.min.Some? && mm.max.Some? && mm.min.value != mm.max.value
    ensures LegacyCanvasOf(width, height, candlesShown, shift, history).Success?
    ensures CanvasOf(width, height, candlesShown, shift, history, lastCandle) == Failure(NotEnoughCandles)
  {
  }

  /** The constructor step by step; the alligator lines come from the package's push loop. */
  method NewLegacyCandleCanvas(width: real, height: real, candlesShown: int, candleShift: int,
                               candlesToDraw: seq<Candle>) returns (r: Result<LegacyCanvas, BuildError>)
    ensures r == LegacyCanvasOf(width, height, candlesShown, candleShift, candlesToDraw)
  {
    var zoomedCandleArray := TwoStepWindow(candlesToDraw, candlesShown, candleShift);
    var minMax := MinMaxCalc(zoomedCandleArray);
    if candlesShown <= 0 || minMax.min.None? || minMax.max.None? || minMax.min.value == minMax.max.value {
      return Failure(DegenerateWindow);
    }
    var w, h := width * LegacyScale, height * LegacyScale;
    var gapAndWidth := GapAndCandleWidth(w, candlesShown);
    var candleArray := LegacyDrawingArray(zoomedCandleArray, Geometry(h, gapAndWidth.candleWidth, minMax.min.value, minMax.max.value));
    var alligatorArray := GetAlligatorArray(LegacyAlligatorsOf(candleArray), gapAndWidth);
    r := Success(LegacyCanvas(w, h, candlesShown, candleShift, minMax.min.value, minMax.max.value,
                              gapAndWidth.gap, gapAndWidth.candleWidth, candleArray, alligatorArray));
  }
}
