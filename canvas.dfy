/**
 * The pure decisions of the React component
 * packages/canvas-trading/src/Canvas/Canvas.tsx: settings defaults, the
 * guarded model construction, the cursor readout, wheel masking, the
 * trade-id range, the reset on unselect and the auto-focus on a trade.
 * React state setters are modelled by returning the values they receive
 * (`ScrollZoom.Effects`), as for the reducer.
 */
module CanvasComponent {
  import opened Wrappers
  import opened Types
  import opened ScrollZoom
  import opened CandleCanvas
  import opened DrawFunctions

  // ---------------------------------------------------------------------------
  // Settings (lines 55-67) and initial window (lines 74-75)

  /** `OtherSettings`: every field optional. */
  datatype OtherSettings = OtherSettings(
    allTradesShown: Option<bool>, alligator: Option<bool>, ao: Option<bool>,
    mountedIndicators: Option<bool>, zoom: Option<bool>, scroll: Option<bool>,
    showAsset: Option<bool>, showLastCandlePrice: Option<bool>,
    cursor: Option<bool>, resizable: Option<bool>)

  /** The settings the component works with once defaults are filled in. */
  datatype CheckedSettings = CheckedSettings(
    allTradesShown: bool, alligator: bool, ao: bool, mountedIndicators: bool,
    zoom: bool, scroll: bool, showAsset: bool, showLastCandlePrice: bool)

  /**
   * A given setting is kept; a missing one (or a missing settings object)
   * takes its default: off for the trade overview, the asset label and the
   * last-price label, on for everything else.
   */
  function CheckSettings(s: Option<OtherSettings>): (r: CheckedSettings)
    ensures s.Some? ==>
              && r.allTradesShown == s.value.allTradesShown.GetOr(false)
              && r.showAsset == s.value.showAsset.GetOr(false)
              && r.showLastCandlePrice == s.value.showLastCandlePrice.GetOr(false)
              && r.alligator == s.value.alligator.GetOr(true)
              && r.ao == s.value.ao.GetOr(true)
              && r.mountedIndicators == s.value.mountedIndicators.GetOr(true)
              && r.zoom == s.value.zoom.GetOr(true)
              && r.scroll == s.value.scroll.GetOr(true)
    ensures s.None? ==> r == CheckedSettings(false, true, true, true, true, true, false, false)
  {
    if s.None? then CheckedSettings(false, true, true, true, true, true, false, false)
    else
      var o := s.value;
      CheckedSettings(
        o.allTradesShown.GetOr(false), o.alligator.GetOr(true), o.ao.GetOr(true),
        o.mountedIndicators.GetOr(true), o.zoom.GetOr(true), o.scroll.GetOr(true),
        o.showAsset.GetOr(false), o.showLastCandlePrice.GetOr(false))
  }

  /** The window the component starts from: 100 candles, no shift, unless the props say otherwise. */
  function InitialViewport(candlesShownProp: Option<int>, shiftProp: Option<int>): (v: Viewport)
    ensures candlesShownProp.None? ==> v.candlesShown == 100
    ensures candlesShownProp.Some? ==> v.candlesShown == candlesShownProp.value
    ensures shiftProp.None? ==> v.shift == 0
    ensures shiftProp.Some? ==> v.shift == shiftProp.value
  {
    Viewport(shiftProp.GetOr(0), candlesShownProp.GetOr(100))
  }

  // ---------------------------------------------------------------------------
  // The guarded model (lines 89-103)

  /**
   * `new CandleCanvas(...)` inside try/catch: None is the `null` of a
   * construction error. The array the component holds is the one the
   * constructor wrote the live candle into.
   */
  function PropsCanvas(width: real, height: real, candlesShown: int, shift: int,
                       history: seq<Candle>, lastCandle: Option<Candle>): (r: Option<CandleCanvas>)
    ensures |history| < MinCandlesShown ==> r.None?
    ensures r.Some? ==> Valid(r.value) && r.value.candlesToDraw == LiveSubstituted(history, lastCandle)
    ensures |history| >= MinCandlesShown ==>
              (r.None? <==> CanvasOf(width, height, candlesShown, shift, LiveSubstituted(history, lastCandle), lastCandle).Failure?)
  {
    if |history| < MinCandlesShown then None
    else
      match CanvasOf(width, height, candlesShown, shift, LiveSubstituted(history, lastCandle), lastCandle)
      case Success(c) => Some(c)
      case Failure(_) => None
  }

  // ---------------------------------------------------------------------------
  // Cursor readout (lines 105-148)

  /** The part of the bounding rectangle the cursor logic reads. */
  datatype Rect = Rect(left: real, top: real, width: real)

  datatype Ohlc = Ohlc(o: real, c: real, l: real, h: real)

  /**
   * What one cursor event does to the labels. `Update` carries the price
   * label, the new cursor position (None: not moved), the date label and the
   * OHLC readout (None: left as they were).
   */
  datatype CursorEffect =
    | NoOp
    | ClearLabels
    | Update(price: Option<real>, cursor: Option<Vector2>, date: Option<string>, ohlc: Option<Ohlc>)

  /**
   * `Math.floor(x / rect.width * windowLength)` when it indexes the window;
   * a zero width gives Infinity or NaN in JavaScript, which index nothing.
   */
  function CursorSlot(x: real, rectWidth: real, windowLength: int): (r: Option<int>)
    ensures r.Some? ==> 0 <= r.value < windowLength
    ensures rectWidth == 0.0 ==> r.None?
  {
    if rectWidth == 0.0 then None
    else
      var index := SlotIndex(x, rectWidth, windowLength);
      if 0 <= index < windowLength then Some(index) else None
  }

  /** The column index before the range test. */
  function SlotIndex(x: real, rectWidth: real, windowLength: int): int
    requires rectWidth != 0.0
  {
    (x / rectWidth * windowLength as real).Floor
  }

  /**
   * The window is divided into equal columns across the canvas: a cursor in
   * column `i` reads candle `i`.
   */
  lemma CursorSlotCoversColumn(x: real, rectWidth: real, windowLength: int, i: int)
    requires rectWidth > 0.0 && 0 <= i < windowLength
    requires i as real * rectWidth <= x * windowLength as real < (i + 1) as real * rectWidth
    ensures CursorSlot(x, rectWidth, windowLength) == Some(i)
  {
    SlotIndexOfColumn(x, rectWidth, windowLength, i);
  }

  lemma SlotIndexOfColumn(x: real, rectWidth: real, windowLength: int, i: int)
    requires rectWidth > 0.0
    requires i as real * rectWidth <= x * windowLength as real < (i + 1) as real * rectWidth
    ensures SlotIndex(x, rectWidth, windowLength) == i
  {
    var n := windowLength as real;
    ProductSwap(x, rectWidth, n);
    QuotientBounds(x * n, rectWidth, i as real, (i + 1) as real);
    FloorOfBracket(x / rectWidth * n, i);
  }

  /** Scaling before or after the division gives the same quotient. */
  lemma ProductSwap(x: real, d: real, n: real)
    requires d > 0.0
    ensures x / d * n == (x * n) / d
  {
    assert (x / d) * d == x;
    assert (x / d * n) * d == x * n;
  }

  /** A value in `[i, i + 1)` has floor `i`. */
  lemma FloorOfBracket(q: real, i: int)
    requires i as real <= q < (i + 1) as real
    ensures q.Floor == i
  {
  }

  /** Dividing `lo * d <= v < hi * d` by a positive `d`. */
  lemma QuotientBounds(v: real, d: real, lo: real, hi: real)
    requires d > 0.0 && lo * d <= v < hi * d
    ensures lo <= v / d < hi
  {
    var q := v / d;
    assert q * d == v;
  }

  /** True for zero, as JavaScript's `!value` is for a number. */
  predicate Falsy(v: real) { v == 0.0 }

  function CursorLabels(canvas: Option<CandleCanvas>, history: seq<Candle>, candlesShown: int, shift: int,
                        position: Vector2, onlyLabels: bool, rect: Rect): (r: CursorEffect)
    requires canvas.Some? ==> Valid(canvas.value)
    ensures canvas.None? <==> r.NoOp?
    ensures r.ClearLabels? <==> canvas.Some? && (position.x < 0.0 || position.y < 0.0)
    ensures r.Update? ==>
              var x := if onlyLabels then position.x else position.x - rect.left;
              var y := if onlyLabels then position.y else position.y - rect.top;
              var w := Window(history, candlesShown, shift);
              var slot := CursorSlot(x, rect.width, |w|);
              && r.price == DisplayedPrice(canvas.value, y)
              && r.cursor == (if onlyLabels then None else Some(Vector2(x, y)))
              && (r.date.Some? <==> slot.Some?)
              && (slot.Some? ==> r.date == Some(w[slot.value].openTime))
              && (r.ohlc.Some? <==> slot.Some? && !Falsy(w[slot.value].open) && !Falsy(w[slot.value].close)
                                    && !Falsy(w[slot.value].low) && !Falsy(w[slot.value].high))
              && (r.ohlc.Some? ==> r.ohlc.value == Ohlc(w[slot.value].open, w[slot.value].close,
                                                        w[slot.value].low, w[slot.value].high))
  {
    if canvas.None? then NoOp
    else if position.x < 0.0 || position.y < 0.0 then ClearLabels
    else
      var x := if onlyLabels then position.x else position.x - rect.left;
      var y := if onlyLabels then position.y else position.y - rect.top;
      var price := DisplayedPrice(canvas.value, y);
      var cursor := if onlyLabels then None else Some(Vector2(x, y));
      var zoomedAndShifted := Window(history, candlesShown, shift);
      match CursorSlot(x, rect.width, |zoomedAndShifted|)
      case None => Update(price, cursor, None, None)
      case Some(index) =>
        var candle := zoomedAndShifted[index];
        if Falsy(candle.open) || Falsy(candle.close) || Falsy(candle.low) || Falsy(candle.high) then
          Update(price, cursor, Some(candle.openTime), None)
        else Update(price, cursor, Some(candle.openTime), Some(Ohlc(candle.open, candle.close, candle.low, candle.high)))
  }

  /**
   * The cursor reads the candle the model drew in that column: its date
   * label comes from the window record `i`.
   */
  lemma CursorReadsDrawnCandle(canvas: CandleCanvas, history: seq<Candle>, y: real, rect: Rect, x: real, i: int)
    requires Valid(canvas) && 0.0 <= y && 0.0 <= x + rect.left
    requires rect.width > 0.0 && 0 <= i < |Window(history, canvas.candlesShown, canvas.candleShift)|
    requires i as real * rect.width
             <= x * |Window(history, canvas.candlesShown, canvas.candleShift)| as real
             < (i + 1) as real * rect.width
    ensures var r := CursorLabels(Some(canvas), history, canvas.candlesShown, canvas.candleShift,
                                  Vector2(x + rect.left, y + rect.top), false, rect);
            0.0 <= y + rect.top ==>
              r.Update? && r.date == Some(Window(history, canvas.candlesShown, canvas.candleShift)[i].openTime)
  {
    assert x + rect.left - rect.left == x;
    assert y + rect.top - rect.top == y;
    CursorSlotCoversColumn(x, rect.width, |Window(history, canvas.candlesShown, canvas.candleShift)|, i);
  }

  // ---------------------------------------------------------------------------
  // Wheel (lines 181-197)

  /** The call the wheel listener makes: deltas masked by the two settings, nothing when both are off. */
  function WheelEffects(settings: CheckedSettings, delta: Vector2, shift: int, candlesShown: int,
                        totalCandles: int): (r: Effects)
    ensures !settings.scroll && !settings.zoom ==> r == Effects(None, None)
    ensures !settings.scroll ==> r.setShift.None?
    ensures !settings.zoom ==> r.setCandlesShown.None?
    ensures settings.scroll && settings.zoom ==> r == ScrollZoom.ScrollZoom(delta, shift, candlesShown, totalCandles)
    ensures ValidViewport(Viewport(shift, candlesShown), totalCandles) ==>
              ValidViewport(Apply(Viewport(shift, candlesShown), r), totalCandles)
  {
    if !(settings.scroll || settings.zoom) then Effects(None, None)
    else
      ScrollZoom.ScrollZoom(Vector2(if settings.scroll then delta.x else 0.0, if settings.zoom then delta.y else 0.0),
                 shift, candlesShown, totalCandles)
  }

  // ---------------------------------------------------------------------------
  // Trade ids shown together (lines 160-172)

  /** Trade `j` of candle `i` exists. */
  predicate HasTrade(history: seq<Candle>, i: int, j: int) {
    0 <= i < |history| && history[i].trades.Some? && 0 <= j < |history[i].trades.value|
  }

  /** The starting bound: the selected trade's id, or 0 when none is selected. */
  function StartBound(shownTrade: Option<int>): int {
    shownTrade.GetOr(0)
  }

  /** The nested scan raising `max` to every trade id of the history. */
  method MaxTradeId(history: seq<Candle>, shownTrade: Option<int>) returns (max: int)
    ensures StartBound(shownTrade) <= max
    ensures forall i, j :: HasTrade(history, i, j) ==> history[i].trades.value[j].tradeID <= max
    ensures max == StartBound(shownTrade)
            || exists i, j :: HasTrade(history, i, j) && history[i].trades.value[j].tradeID == max
  {
    max := if shownTrade.Some? && shownTrade.value != 0 then shownTrade.value else 0;
    var index := 0;
    while index < |history|
      invariant 0 <= index <= |history|
      invariant StartBound(shownTrade) <= max
      invariant forall i, j :: i < index && HasTrade(history, i, j) ==> history[i].trades.value[j].tradeID <= max
      invariant max == StartBound(shownTrade)
                || exists i, j :: HasTrade(history, i, j) && history[i].trades.value[j].tradeID == max
    {
      if history[index].trades.Some? {
        var trades := history[index].trades.value;
        var inner := 0;
        while inner < |trades|
          invariant 0 <= inner <= |trades|
          invariant StartBound(shownTrade) <= max
          invariant forall i, j :: i < index && HasTrade(history, i, j) ==> history[i].trades.value[j].tradeID <= max
          invariant forall j :: 0 <= j < inner ==> trades[j].tradeID <= max
          invariant max == StartBound(shownTrade)
                    || exists i, j :: HasTrade(history, i, j) && history[i].trades.value[j].tradeID == max
        {
          if trades[inner].tradeID > max {
            max := trades[inner].tradeID;
            assert HasTrade(history, index, inner);
          }
          inner := inner + 1;
        }
      }
      index := index + 1;
    }
  }

  /** The ids passed to `displayTrade`: 0..max with the overview on, else the selected trade alone. */
  function DisplayedTradeIds(settings: CheckedSettings, shownTrade: Option<int>, max: int): (ids: seq<int>)
    ensures settings.allTradesShown ==> |ids| == if max < 0 then 0 else max + 1
    ensures !settings.allTradesShown ==> ids == if shownTrade.Some? then [shownTrade.value] else []
    ensures settings.allTradesShown ==> forall k :: 0 <= k < |ids| ==> ids[k] == k
  {
    if settings.allTradesShown then
      var ids := seq(if max < 0 then 0 else max + 1, k => k);
      ids
    else if shownTrade.Some? then [shownTrade.value]
    else []
  }

  // ---------------------------------------------------------------------------
  // Unselect reset (lines 244-250)

  /** Unselecting a trade resets the window to no shift and the width the component started with. */
  function UnselectReset(shownTrade: Option<int>, initialCandlesShown: int): (r: Effects)
    ensures shownTrade.None? ==> Apply(Viewport(0, 0), r) == Viewport(0, initialCandlesShown)
                                 && r.setShift.Some? && r.setCandlesShown.Some?
    ensures shownTrade.Some? ==> forall v :: Apply(v, r) == v
  {
    if shownTrade.None? then Effects(Some(0), Some(initialCandlesShown)) else Effects(None, None)
  }

  // ---------------------------------------------------------------------------
  // Auto-focus on a trade (lines 253-276)

  /** `Math.min(Math.max(len - end - 10, 0), len - 40)`. */
  function FocusShift(historyLength: int, endIndex: int): int {
    Min(Max(historyLength - endIndex - 10, 0), historyLength - 40)
  }

  /** `end - start + 20`, not clamped to the minimum width. */
  function FocusShown(startIndex: int, endIndex: int): int {
    endIndex - startIndex + 20
  }

  /**
   * When neither side of the shift clamps, the focused window runs from 10
   * candles before the start leg to 10 candles after the end leg.
   */
  lemma FocusFramesTrade(historyLength: int, startIndex: int, endIndex: int)
    requires 30 <= endIndex <= historyLength - 10
    ensures var shift, shown := FocusShift(historyLength, endIndex), FocusShown(startIndex, endIndex);
            && shift == historyLength - endIndex - 10
            && historyLength - shown - shift == startIndex - 10
            && historyLength - shift == endIndex + 10
  {
  }

  /** A history of at least 40 candles always gets a shift inside `[0, len - 40]`. */
  lemma FocusShiftInRange(historyLength: int, endIndex: int)
    requires historyLength >= 40
    ensures 0 <= FocusShift(historyLength, endIndex) <= historyLength - 40
  {
  }

  /** Legs 40 and 55 of a 100-candle history are shown 35 wide, 35 from the newest candle. */
  lemma FocusExample()
    ensures FocusShift(100, 55) == 35 && FocusShown(40, 55) == 35
  {
  }

  /**
   * Because the width is not clamped, focusing a trade shorter than 10
   * candles leaves a window the zoom never accepts: every zoom delta is
   * refused until the trade is unselected (pans still apply).
   */
  lemma ShortFocusFreezesZoom(startIndex: int, endIndex: int, y: real, maxCandles: int, shift: int)
    requires endIndex - startIndex < 10
    ensures YMovement(y, FocusShown(startIndex, endIndex), maxCandles, shift).None?
  {
  }

  /** Leg `(i, j)` matches, and no matching leg follows it in scan order. */
  ghost predicate IsLastLeg(history: seq<Candle>, id: int, end: bool, i: int, j: int) {
    && IsMatch(history, CandleTrades, id, end, i, j)
    && forall i2, j2 :: IsMatch(history, CandleTrades, id, end, i2, j2) ==> !Before(i, j, i2, j2)
  }

  /**
   * The auto-focus effect. Nothing happens without a selected trade or
   * with a missing leg; otherwise the window is framed around the last
   * start leg and the last end leg of that trade.
   */
  method FocusOnTrade(history: seq<Candle>, shownTrade: Option<int>) returns (r: Effects)
    ensures r.setShift.Some? <==> r.setCandlesShown.Some?
    ensures r.setShift.None? <==>
              || shownTrade.None?
              || (forall i, j :: !IsMatch(history, CandleTrades, shownTrade.value, false, i, j))
              || (forall i, j :: !IsMatch(history, CandleTrades, shownTrade.value, true, i, j))
    ensures r.setShift.Some? ==>
              exists si, sj, ei, ej ::
                && IsLastLeg(history, shownTrade.value, false, si, sj)
                && IsLastLeg(history, shownTrade.value, true, ei, ej)
                && r.setShift == Some(FocusShift(|history|, ei))
                && r.setCandlesShown == Some(FocusShown(si, ei))
  {
    if shownTrade.None? {
      return Effects(None, None);
    }
    var startCandle := FindCandleWithTrade(history, CandleTrades, shownTrade.value, false);
    var endCandle := FindCandleWithTrade(history, CandleTrades, shownTrade.value, true);
    if startCandle.candle.None? || endCandle.candle.None? {
      return Effects(None, None);
    }
    assert IsLastLeg(history, shownTrade.value, false, startCandle.index, startCandle.innerIndex);
    assert IsLastLeg(history, shownTrade.value, true, endCandle.index, endCandle.innerIndex);
    r := Effects(Some(FocusShift(|history|, endCandle.index)), Some(FocusShown(startCandle.index, endCandle.index)));
  }
}
