/**
 * packages/canvas-trading/src/draw/draw.ts: the decisions behind the
 * drawing calls. The canvas calls themselves are not modelled; each
 * function returns what would be drawn.
 */
module Draw {
  import opened Wrappers
  import opened Types
  import opened CandleClasses
  import opened CandleCanvas
  import opened DrawFunctions

  // ---------------------------------------------------------------------------
  // displayTrade (lines 25-108)

  /** A found leg whose trade entry can be read: `trades[innerIndex]` exists. */
  predicate WellFormed(f: FoundCandle<Candle>) {
    f.candle.Some? ==> CandleTrades(f.candle.value).Some? && 0 <= f.innerIndex < |CandleTrades(f.candle.value).value|
  }

  function LegTrade(f: FoundCandle<Candle>): AssignedTrade
    requires f.candle.Some? && WellFormed(f)
  {
    CandleTrades(f.candle.value).value[f.innerIndex]
  }

  /** Window slot of a history index: `index - candleArray[0].originalIndex + candleShift`. */
  function WindowIndex(c: CandleCanvas, historyIndex: int): int
    requires Valid(c)
  {
    historyIndex - c.candleArray[0].originalIndex + c.candleShift
  }

  /** A trade is profitable when a long sold higher than it bought, or a short lower. */
  function IsProfit(tradeType: TradeType, buyPrice: real, sellPrice: real): bool {
    if tradeType == Long then buyPrice < sellPrice else buyPrice > sellPrice
  }

  /** The rounded rectangle behind a multi-candle trade. */
  datatype Box = Box(x: real, y: real, width: real, height: real, radius: real)

  /**
   * The computed endpoints and profit colour, the rectangle, and whether the
   * arrow from `start` to `end` is drawn; a one-candle trade draws neither.
   */
  datatype TradeDrawing = TradeDrawing(start: Vector2, end: Vector2, isProfit: bool, box: Option<Box>, arrow: bool)

  /**
   * `undefined` (Hidden) when the trade is wholly outside the window;
   * otherwise the input is handed back, with what was drawn when both legs
   * were found.
   */
  datatype TradeDisplay = Hidden | Returned(drawing: Option<TradeDrawing>)

  function DisplayTrade(c: CandleCanvas, startCandle: FoundCandle<Candle>, endCandle: FoundCandle<Candle>): (r: TradeDisplay)
    requires Valid(c) && WellFormed(startCandle) && WellFormed(endCandle)
    ensures r.Hidden? <==>
              && startCandle.candle.Some? && endCandle.candle.Some?
              && var s, e := WindowIndex(c, startCandle.index), WindowIndex(c, endCandle.index);
                 (s < 0 && e < 0) || (s >= c.candlesShown && e >= c.candlesShown)
    ensures r == Returned(None) <==> startCandle.candle.None? || endCandle.candle.None?
    ensures r.Returned? && r.drawing.Some? ==>
              var d := r.drawing.value;
              var buy, sell := LegTrade(startCandle).buyPrice, LegTrade(endCandle).sellPrice;
              && (d.isProfit <==> (LegTrade(endCandle).tradeType == Long && buy < sell)
                                  || (LegTrade(endCandle).tradeType == Short && buy > sell))
              && d.start == Vector2(SlotCentre(WindowIndex(c, startCandle.index), SpacingOf(c)), GetPoint(buy, GeometryOf(c)))
              && d.end == Vector2(SlotCentre(WindowIndex(c, endCandle.index), SpacingOf(c)), GetPoint(sell, GeometryOf(c)))
              && (d.box.None? <==> startCandle.candle.value.openTime == endCandle.candle.value.openTime)
              && (!d.arrow <==> startCandle.candle.value.openTime == endCandle.candle.value.openTime)
  {
    if startCandle.candle.Some? && endCandle.candle.Some? then
      var originalIndexOfFirstVisibleCandle := c.candleArray[0].originalIndex;
      var startCandleIndex := startCandle.index - originalIndexOfFirstVisibleCandle + c.candleShift;
      var originalEndCandleIndex := endCandle.index - originalIndexOfFirstVisibleCandle + c.candleShift;
      var isNotInViewport := (originalEndCandleIndex < 0 && startCandleIndex < 0)
                             || (originalEndCandleIndex >= c.candlesShown && startCandleIndex >= c.candlesShown);
      if isNotInViewport then Hidden
      else
        var buyPrice := LegTrade(startCandle).buyPrice;
        var sellPrice := LegTrade(endCandle).sellPrice;
        var isProfit := IsProfit(LegTrade(endCandle).tradeType, buyPrice, sellPrice);
        var g := GeometryOf(c);
        // x: index * (candleWidth + gap) + candleWidth / 2, the centre of the slot
        var start := Vector2(SlotCentre(startCandleIndex, SpacingOf(c)), GetPoint(buyPrice, g));
        var end := Vector2(SlotCentre(originalEndCandleIndex, SpacingOf(c)), GetPoint(sellPrice, g));
        var tradeInOneCandle := startCandle.candle.value.openTime == endCandle.candle.value.openTime;
        var box := if tradeInOneCandle then None
                   else Some(Box(start.x, MinR(start.y, end.y), end.x - start.x, Abs(end.y - start.y), c.width / 150.0));
        Returned(Some(TradeDrawing(start, end, isProfit, box, !tradeInOneCandle)))
    else Returned(None)
  }

  /** The unclamped window of a built canvas starts at history index `len - shown - shift`. */
  function WindowStart(historyLength: int, shown: int, shift: int): int {
    historyLength - shown - shift
  }

  /**
   * What the constructor establishes about the records (the `candleArray`
   * clause of `CanvasOf`), for a window that fits in the history.
   */
  predicate DrawnFrom(c: CandleCanvas, history: seq<Candle>) {
    && Valid(c)
    && 0 <= c.candleShift && c.candlesShown + c.candleShift <= |history|
    && c.candleArray == DrawingArray(Window(history, c.candlesShown, c.candleShift), GeometryOf(c), SpacingOf(c), |history|)
  }

  /** Every successfully built canvas whose window fits is drawn from its history. */
  lemma CanvasDrawnFrom(width: real, height: real, shown: int, shift: int,
                        history: seq<Candle>, lastCandle: Option<Candle>)
    requires 0 <= shift && shown + shift <= |history|
    requires CanvasOf(width, height, shown, shift, history, lastCandle).Success?
    ensures DrawnFrom(CanvasOf(width, height, shown, shift, history, lastCandle).value, history)
  {
  }

  /**
   * `WindowIndex` is the position of the history index inside the window:
   * the shift the back-reference carries is taken out again.
   */
  lemma WindowIndexIsWindowPosition(c: CandleCanvas, history: seq<Candle>, historyIndex: int)
    requires DrawnFrom(c, history)
    ensures WindowIndex(c, historyIndex) == historyIndex - WindowStart(|history|, c.candlesShown, c.candleShift)
  {
    OriginalIndexOffsetByShift(history, c.candlesShown, c.candleShift, GeometryOf(c), SpacingOf(c), 0);
  }

  /** The record at window slot `k` was built from the found leg's candle, at slot `k`. */
  lemma RecordOfLeg(c: CandleCanvas, history: seq<Candle>, id: int, end: bool, leg: FoundCandle<Candle>)
    requires DrawnFrom(c, history)
    requires IsFound(history, CandleTrades, id, end, leg)
    requires 0 <= leg.index - WindowStart(|history|, c.candlesShown, c.candleShift) < c.candlesShown
    ensures WellFormed(leg)
    ensures var k := leg.index - WindowStart(|history|, c.candlesShown, c.candleShift);
            && |c.candleArray| == c.candlesShown
            && c.candleArray[k].xPosition == XPosition(k, SpacingOf(c))
            && 0 <= leg.innerIndex < |c.candleArray[k].trades|
            && c.candleArray[k].trades[leg.innerIndex] == MapTrade(LegTrade(leg), GeometryOf(c))
  {
    var k := leg.index - WindowStart(|history|, c.candlesShown, c.candleShift);
    OriginalIndexOffsetByShift(history, c.candlesShown, c.candleShift, GeometryOf(c), SpacingOf(c), k);
  }

  /** A found start leg in window slot `k` is drawn where record `k` put its buy price. */
  lemma StartPointDrawn(c: CandleCanvas, startCandle: FoundCandle<Candle>, endCandle: FoundCandle<Candle>, k: int)
    requires Valid(c) && WellFormed(startCandle) && WellFormed(endCandle)
    requires startCandle.candle.Some? && endCandle.candle.Some? && LegTrade(startCandle).isThisCandleStart
    requires k == WindowIndex(c, startCandle.index) && 0 <= k < c.candlesShown == |c.candleArray|
    requires c.candleArray[k].xPosition == XPosition(k, SpacingOf(c))
    requires 0 <= startCandle.innerIndex < |c.candleArray[k].trades|
    requires c.candleArray[k].trades[startCandle.innerIndex] == MapTrade(LegTrade(startCandle), GeometryOf(c))
    ensures var r := DisplayTrade(c, startCandle, endCandle);
            && r.Returned? && r.drawing.Some?
            && r.drawing.value.start.x == c.candleArray[k].xPosition + c.candleWidth / 2.0
            && r.drawing.value.start.y == c.candleArray[k].trades[startCandle.innerIndex].buyPrice
  {
  }

  /** A found end leg in window slot `k` is drawn where record `k` put its sell price. */
  lemma EndPointDrawn(c: CandleCanvas, startCandle: FoundCandle<Candle>, endCandle: FoundCandle<Candle>, k: int)
    requires Valid(c) && WellFormed(startCandle) && WellFormed(endCandle)
    requires startCandle.candle.Some? && endCandle.candle.Some? && LegTrade(endCandle).isThisCandleEnd
    requires k == WindowIndex(c, endCandle.index) && 0 <= k < c.candlesShown == |c.candleArray|
    requires c.candleArray[k].xPosition == XPosition(k, SpacingOf(c))
    requires 0 <= endCandle.innerIndex < |c.candleArray[k].trades|
    requires c.candleArray[k].trades[endCandle.innerIndex] == MapTrade(LegTrade(endCandle), GeometryOf(c))
    ensures var r := DisplayTrade(c, startCandle, endCandle);
            && r.Returned? && r.drawing.Some?
            && r.drawing.value.end.x == c.candleArray[k].xPosition + c.candleWidth / 2.0
            && r.drawing.value.end.y == c.candleArray[k].trades[endCandle.innerIndex].sellPrice
  {
  }

  /**
   * A start leg inside the window is drawn on its own record: at the centre
   * of that record's slot and at the row the record mapped its buy price to.
   */
  lemma StartLegDrawn(c: CandleCanvas, history: seq<Candle>, id: int,
                      startCandle: FoundCandle<Candle>, endCandle: FoundCandle<Candle>)
    requires DrawnFrom(c, history)
    requires IsFound(history, CandleTrades, id, false, startCandle)
    requires IsFound(history, CandleTrades, id, true, endCandle)
    ensures WellFormed(startCandle) && WellFormed(endCandle)
    ensures |c.candleArray| == c.candlesShown
    ensures var s := startCandle.index - WindowStart(|history|, c.candlesShown, c.candleShift);
            0 <= s < c.candlesShown ==> 0 <= startCandle.innerIndex < |c.candleArray[s].trades|
    ensures var s := startCandle.index - WindowStart(|history|, c.candlesShown, c.candleShift);
            0 <= s < c.candlesShown ==>
              var r := DisplayTrade(c, startCandle, endCandle);
              && r.Returned? && r.drawing.Some?
              && r.drawing.value.start.x == c.candleArray[s].xPosition + c.candleWidth / 2.0
              && r.drawing.value.start.y == c.candleArray[s].trades[startCandle.innerIndex].buyPrice
  {
    var start := WindowStart(|history|, c.candlesShown, c.candleShift);
    WindowIndexIsWindowPosition(c, history, startCandle.index);
    if 0 <= startCandle.index - start < c.candlesShown {
      RecordOfLeg(c, history, id, false, startCandle);
      StartPointDrawn(c, startCandle, endCandle, startCandle.index - start);
    }
  }

  /** The mirror image for the end leg and its sell price. */
  lemma EndLegDrawn(c: CandleCanvas, history: seq<Candle>, id: int,
                    startCandle: FoundCandle<Candle>, endCandle: FoundCandle<Candle>)
    requires DrawnFrom(c, history)
    requires IsFound(history, CandleTrades, id, false, startCandle)
    requires IsFound(history, CandleTrades, id, true, endCandle)
    ensures WellFormed(startCandle) && WellFormed(endCandle)
    ensures |c.candleArray| == c.candlesShown
    ensures var e := endCandle.index - WindowStart(|history|, c.candlesShown, c.candleShift);
            0 <= e < c.candlesShown ==> 0 <= endCandle.innerIndex < |c.candleArray[e].trades|
    ensures var e := endCandle.index - WindowStart(|history|, c.candlesShown, c.candleShift);
            0 <= e < c.candlesShown ==>
              var r := DisplayTrade(c, startCandle, endCandle);
              && r.Returned? && r.drawing.Some?
              && r.drawing.value.end.x == c.candleArray[e].xPosition + c.candleWidth / 2.0
              && r.drawing.value.end.y == c.candleArray[e].trades[endCandle.innerIndex].sellPrice
  {
    var start := WindowStart(|history|, c.candlesShown, c.candleShift);
    WindowIndexIsWindowPosition(c, history, endCandle.index);
    if 0 <= endCandle.index - start < c.candlesShown {
      RecordOfLeg(c, history, id, true, endCandle);
      EndPointDrawn(c, startCandle, endCandle, endCandle.index - start);
    }
  }

  // ---------------------------------------------------------------------------
  // Candle bodies (lines 164-201)

  datatype Colour = White | Red | Green

  /** The rectangle and wick of one record. */
  datatype CandleBody = CandleBody(x: real, y: real, width: real, height: real, fill: Colour,
                                   wickX: real, wickTop: real, wickBottom: real)

  /** What `drawFunction` draws for one record: nothing for `noDraw`, else its body and wick. */
  function CandleBodyOf(candle: Candle2D, candleWidth: real): (b: Option<CandleBody>)
    ensures b.None? <==> candle.noDraw
    ensures b.Some? ==> (b.value.fill == White <==> candle.open == candle.close)
                        && (b.value.fill == Red <==> candle.open < candle.close)
                        && (b.value.fill == Green <==> candle.open > candle.close)
    ensures b.Some? && b.value.fill != White ==>
              b.value.y == MinR(candle.open, candle.close) && b.value.y + b.value.height == MaxR(candle.open, candle.close)
    ensures b.Some? && b.value.fill == White ==> b.value.y == candle.open && b.value.height == 3.0
    ensures b.Some? ==> b.value.x == candle.xPosition && b.value.width == candleWidth
                        && b.value.wickX == candle.xPosition + candleWidth / 2.0
                        && b.value.wickTop == candle.high && b.value.wickBottom == candle.low
  {
    if candle.noDraw then None
    else
      var x := candle.xPosition;
      var candleIsRed := candle.open < candle.close;
      var y := if candleIsRed then candle.open else candle.close;
      var candleIsWhite := candle.open == candle.close;
      var fill := if candleIsWhite then White else if candleIsRed then Red else Green;
      Some(CandleBody(x, y, candleWidth, if candleIsWhite then 3.0 else Abs(candle.open - candle.close), fill,
                      x + candleWidth / 2.0, candle.high, candle.low))
  }

  /**
   * Rows grow downwards, so a body is red exactly when the price fell over
   * the candle, green when it rose and white when it did not move.
   */
  lemma BodyColourFollowsPrice(c: Candle, g: Geometry, x: real, k: int)
    requires g.max > g.min && g.height > GapSpace(g) * 2.0
    requires !Candle2DOf(c, g, x, k).noDraw
    ensures var b := CandleBodyOf(Candle2DOf(c, g, x, k), g.candleWidth);
            && b.Some?
            && (b.value.fill == Red <==> c.open > c.close)
            && (b.value.fill == Green <==> c.open < c.close)
            && (b.value.fill == White <==> c.open == c.close)
  {
    if c.open < c.close {
      GetPointDecreasing(g, c.open, c.close);
    } else if c.open > c.close {
      GetPointDecreasing(g, c.close, c.open);
    }
  }

  // ---------------------------------------------------------------------------
  // Oscillator colours (lines 142-153)

  /** Green when the vertex rose from the previous bar; the first bar has none, so it is red. */
  function AoColour(bars: seq<AoCandle>, i: int): (col: Colour)
    requires 0 <= i < |bars|
    ensures col == Green <==> i > 0 && bars[i].vertexValue > bars[i - 1].vertexValue
    ensures col == Red <==> !(i > 0 && bars[i].vertexValue > bars[i - 1].vertexValue)
    ensures i == 0 ==> col == Red
  {
    if i > 0 && bars[i].vertexValue > bars[i - 1].vertexValue then Green else Red
  }

  // ---------------------------------------------------------------------------
  // Last-price label (lines 229-261)

  /** Record index and x position of the label, with the live close it prints. */
  datatype PriceLabel = PriceLabel(index: int, x: real, y: real, price: real)

  /** The record `candleArray[len - 9 + candleShift]`, when the label is drawn at all. */
  function LastPriceLabel(c: CandleCanvas, showLastCandlePrice: bool): (r: Option<PriceLabel>)
    ensures var index := |c.candleArray| - 9 + c.candleShift;
            r.Some? <==> showLastCandlePrice && c.lastCandle.Some? && c.lastCandle.value.close != 0.0
                         && 0 <= index < |c.candleArray|
    ensures r.Some? ==> var index := |c.candleArray| - 9 + c.candleShift;
                        r.value.index == index && r.value.price == c.lastCandle.value.close
                        && r.value.x == c.candleArray[index].xPosition + c.candleWidth * 2.0 + c.gap
                        && r.value.y == c.candleArray[index].close
  {
    if !showLastCandlePrice then None
    else if c.lastCandle.None? || c.lastCandle.value.close == 0.0 then None
    else
      var alligatorOffset := 8;
      var index := |c.candleArray| - (1 + alligatorOffset) + c.candleShift;
      if !(0 <= index < |c.candleArray|) then None
      else
        var lastCandle2D := c.candleArray[index];
        Some(PriceLabel(index, lastCandle2D.xPosition + c.candleWidth * 2.0 + c.gap, lastCandle2D.close,
                        c.lastCandle.value.close))
  }

  /**
   * The label sits on the live candle: after the constructor wrote the live
   * candle at history index `len - 9`, the record the label reads for a
   * shift below 9 is exactly the record built from that candle; for a shift
   * of 9 or more there is no label.
   */
  lemma LastPriceLabelOnLiveCandle(c: CandleCanvas, original: seq<Candle>, live: Candle)
    requires |original| >= MinCandlesShown && live.close != 0.0
    requires c.lastCandle == Some(live) && 9 <= c.candlesShown
    requires DrawnFrom(c, LiveSubstituted(original, Some(live)))
    ensures var r := LastPriceLabel(c, true);
            && (c.candleShift < 9 <==> r.Some?)
            && (r.Some? ==> c.candleArray[r.value.index]
                            == Candle2DOf(live, GeometryOf(c), XPosition(r.value.index, SpacingOf(c)), |original| - 9 + c.candleShift))
  {
    var history := LiveSubstituted(original, Some(live));
    if c.candleShift < 9 {
      var index := c.candlesShown - 9 + c.candleShift;
      OriginalIndexOffsetByShift(history, c.candlesShown, c.candleShift, GeometryOf(c), SpacingOf(c), index);
      assert history[|history| - 9] == live;
    } else {
      OriginalIndexOffsetByShift(history, c.candlesShown, c.candleShift, GeometryOf(c), SpacingOf(c), 0);
    }
  }
}
