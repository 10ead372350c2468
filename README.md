# canvas-trading: a verified model of the chart engine

canvas-trading is a React component that draws trading candles on an HTML
canvas. It shows reversal-bar and fractal marks, the three alligator lines,
Awesome Oscillator (AO) bars and the trades of a strategy. Under the UI sits a
small deterministic engine, and this project models that engine in Dafny:

- **The viewport reducer** `scrollZoom`. It turns a wheel delta into the new
  `(shift, candlesShown)` pair: zoom first, then pan, each guarded and clamped.
  A safety margin of 3 candles applies. The earlier reducer of the older
  snapshot is modelled too.
- **The render model** `CandleCanvas`.
  - It writes the live candle into the caller's history.
  - It cuts the window out with JavaScript `slice` semantics.
  - It finds the least non-zero low and the greatest non-zero high, treating 0
    as "absent".
  - It computes the gap and the candle width.
  - It maps prices to pixel rows with `getPoint` and back with
    `getDisplayedPrice`.
  - It builds one `Candle2D` record per window candle.
  - It builds the alligator polylines and the AO bars.
  - The older snapshot's canvas is modelled too: a two-step slice, ×3 scale and
    no length check.
- **The mount-point allocators.** One is the fixed two-slot allocator of
  `CandleClasses.ts`. The other is the list-based stacks of
  `MountedClasses.ts`, with trade markers.
- **The trade locator** `findCandleWithTrade`. Its `return` sits inside a
  `forEach` callback, so the last match wins.
- **The drawing decisions of `draw.ts`.**
  - Trade placement and visibility, and the profit test.
  - Candle-body classification.
  - AO bar colours.
  - The last-price label.
- **The pure parts of `Canvas.tsx`.**
  - Settings defaults and the guarded construction.
  - The cursor readout and wheel masking.
  - The trade-id range, the reset on unselect, and the auto-focus on a trade.

Prices and pixels are `real`. JavaScript `Math.round(v)` is `Floor(v + 0.5)`
(`Types.Round`). `±Infinity` extremes are `None`. React setter callbacks are
modelled by returning the value each one would receive, or `None` when it is
not called (`ScrollZoom.Effects`). Code that mutates state keeps that form:
- `CandleMountPoints` (both versions) are classes whose methods modify their
  fields.
- The constructor writes into the caller's `array`.
- The push loops (`getAlligatorArray`, `getAOArray`, `getDrawingArray`, the
  `Candle2D` trade copy, the marker loop, the locator, the trade-id maximum) are
  methods with loop invariants. Most are proved equal to a specification
  function, and the properties are proved about that function; the locator
  (`FindCandleWithTrade`) and the trade-id maximum (`MaxTradeId`) are pinned
  by relational ensures instead: the last match, and a bound that is attained.

Files, one module each: `wrappers.dfy`, `types.dfy` (types.ts and config.ts),
`scroll_zoom.dfy`, `legacy_scroll_zoom.dfy`, `candle_classes.dfy`,
`candle_canvas.dfy`, `mounted_classes.dfy`, `draw_functions.dfy`, `draw.dfy`,
`canvas.dfy` (the component), and `legacy_candle_canvas.dfy`.

Where the repository's design description and the code disagree, the model
follows the code:
- A candle record's `noDraw` is the code's test on the mapped pixel rows,
  not a skip of candles whose raw price is 0. The raw-price skip is
  modelled beside it (`CandleClasses.IntendedCandle2DOf`, see Findings).
- AO extremes are not made symmetric around 0.
- A wheel delta of +10 at the minimum window of 30 (100 candles, no shift)
  widens it to 31 (`ScrollZoom.PositiveDeltaAtMinimumWidens`).
- A trade leg flagged both start and end is found by neither lookup.
- The locator returns the last match.
- `originalIndex` is `i + len - windowLen`, which does not deduct the shift.
  `displayTrade` adds `candleShift` back, so window positions come out right
  (`Draw.WindowIndexIsWindowPosition`).
- The settings `cursor` and `resizable` exist in `OtherSettings` but are given
  no default.

## Model

`CandleClasses.GetPoint` has no row of its own: `GetPointEnds`, `GetPointDecreasing`
and `GetPointInBand` state what it does. `LegacyCandleCanvas.TwoStepWindow` is
specified by `TwoStepIsWindow`.

| member | source | states |
|---|---|---|
| Types.Round | packages/canvas-trading/src/scrollZoom.ts:40 | `Math.round`: the result is within half a unit of its argument, halves rounded up |
| ScrollZoom.ZoomApplies | packages/canvas-trading/src/scrollZoom.ts:29-35 | the zoom guard holds exactly when `y != 0` and `30 <= candlesShown <= maxCandles - shift`; its second disjuncts add nothing |
| ScrollZoom.ZoomMultiplier | packages/canvas-trading/src/scrollZoom.ts:36 | the zoom multiplier is at least 0.3 |
| ScrollZoom.ZoomStep | packages/canvas-trading/src/scrollZoom.ts:36-40 | the rounded zoom step has the sign of the wheel delta |
| ScrollZoom.YMovement | packages/canvas-trading/src/scrollZoom.ts:22-50 | `setCandlesShown` is called iff the guard holds; the new width lies in `[30, maxCandles - shift]`; `y > 0` never narrows and `y < 0` never widens; at width 30 a non-positive step keeps 30 |
| ScrollZoom.PanApplies | packages/canvas-trading/src/scrollZoom.ts:58-63 | the pan guard holds exactly when `x != 0`, `0 <= shift <= maxCandles - candlesShown`, and at shift 0 only for `x < 0` |
| ScrollZoom.PanMultiplier | packages/canvas-trading/src/scrollZoom.ts:64 | the pan multiplier is at least 0.6 |
| ScrollZoom.PanStep | packages/canvas-trading/src/scrollZoom.ts:64-68 | the rounded pan step has the sign of the horizontal delta |
| ScrollZoom.XMovement | packages/canvas-trading/src/scrollZoom.ts:51-78 | `setShift` is called iff the guard holds; the new shift lies in `[0, maxCandles - candlesShown]`; `x > 0` never raises and `x < 0` never lowers the shift |
| ScrollZoom.ScrollZoom | packages/canvas-trading/src/scrollZoom.ts:4-21 | a zero delta calls no setter; at shift 0 only a leftward pan is processed; shift stays non-negative; the new shift is bounded by `(total - 3)` minus the ZOOMED width; `y > 0` never narrows, `x > 0` never raises the shift; the window invariant `0 <= shift`, `30 <= candlesShown`, `candlesShown + shift <= total - 3` is preserved |
| ScrollZoom.PositiveDeltaAtMinimumWidens | packages/canvas-trading/src/scrollZoom.ts:36-46 | with 100 candles, width 30 and delta `(0, +10)`, the width becomes 31 and no pan setter is called |
| ScrollZoom.NegativeDeltaAtMinimumStays | packages/canvas-trading/src/scrollZoom.ts:38-45 | with delta `(0, -10)` the width stays at the minimum 30 |
| LegacyScrollZoom.LegacyZoom | src/tradingCanvas/functions.ts:11-24 | zoom applies iff `y != 0`, `20 <= candlesShown <= M - shift` and at the right edge only for `y < 0`; the result is in `[20, M - shift]` and moves in the delta's direction |
| LegacyScrollZoom.LegacyPan | src/tradingCanvas/functions.ts:25-38 | pan applies iff `x != 0`, at shift 0 only for `x < 0`, and either `0 <= shift < M - candlesShown` or `shift == M - candlesShown + 1` with `x > 0`; the result is in `[0, M - candlesShown]`; `x > 0` never raises and `x < 0` never lowers the shift |
| LegacyScrollZoom.LegacyScrollZoom | src/tradingCanvas/functions.ts:3-39 | zero deltas call no setter; the shift is clamped with the INCOMING width, the width to `[20, M - shift]` |
| LegacyScrollZoom.LegacyPanLocksAtBoundary | src/tradingCanvas/functions.ts:26-30 | at exactly `shift == M - candlesShown` no pan is processed in either direction |
| LegacyScrollZoom.LegacyPanLockExample | src/tradingCanvas/functions.ts:25-37 | 100 candles, 50 shown, shift 50: a rightward pan is ignored, while the package version at its boundary moves 47 to 45 |
| LegacyScrollZoom.PanLeavesBoundary | packages/canvas-trading/src/scrollZoom.ts:58-72 | at its right boundary the package reducer processes every rightward pan and stays in range |
| LegacyScrollZoom.LegacyPanBreaksWindowBound | src/tradingCanvas/functions.ts:11-37 | zoom-in plus pan-left in one event takes `(40, 50)` of 100 candles to `(50, 60)`, so `shift + candlesShown > M` |
| CandleClasses.GetPointEnds | packages/canvas-trading/src/classes/CandleClasses.ts:162-170 | `getPoint(max) = 4.5 cw` and `getPoint(min) = H - 4.5 cw` |
| CandleClasses.GetPointDecreasing | packages/canvas-trading/src/classes/CandleClasses.ts:162-170 | with `max > min` and `H > 9 cw`, `getPoint` is strictly decreasing: higher prices are drawn higher |
| CandleClasses.GetPointInBand | packages/canvas-trading/src/classes/CandleClasses.ts:162-170 | every price in `[min, max]` lands in `[4.5 cw, H - 4.5 cw]` |
| CandleClasses.AlligatorPoints | packages/canvas-trading/src/classes/CandleClasses.ts:172-183 | an absent (0) alligator value stays 0, every other value is mapped through `getPoint` |
| CandleClasses.MapTrade | packages/canvas-trading/src/classes/CandleClasses.ts:150-158 | a trade copy maps `buyPrice` iff `isThisCandleStart` and `sellPrice` iff `isThisCandleEnd`, all other fields unchanged |
| CandleClasses.MapTrades | packages/canvas-trading/src/classes/CandleClasses.ts:149-159 | the copies keep count and order, each the mapped copy of its original |
| CandleClasses.Place | packages/canvas-trading/src/classes/CandleClasses.ts:66-107 | a free first slot takes the mark at one step from the edge; with the first slot taken and the second free, the second takes it at two steps; a full side is left as it was; an occupied slot is never overwritten |
| CandleClasses.TwoSlotOf | packages/canvas-trading/src/classes/CandleClasses.ts:36-64 | sell/up mount above at `high - cw` then `high - 2cw`, buy/down below at `low + cw` then `low + 2cw`; the reversal bar takes the first slot of a shared side and, alone on its side, leaves the second slot free; empty indicators leave a side empty |
| CandleClasses.CandleMountPoints.constructor | packages/canvas-trading/src/classes/CandleClasses.ts:30-45 | a fresh allocator holds exactly the slots of `TwoSlotOf` |
| CandleClasses.CandleMountPoints.MountIndicators | packages/canvas-trading/src/classes/CandleClasses.ts:46-64 | reversal bar first, then fractal, each on its side |
| CandleClasses.CandleMountPoints.MountUp | packages/canvas-trading/src/classes/CandleClasses.ts:66-86 | fills the first free upper slot, leaves the lower side alone |
| CandleClasses.CandleMountPoints.MountDown | packages/canvas-trading/src/classes/CandleClasses.ts:87-107 | fills the first free lower slot, leaves the upper side alone |
| CandleClasses.NoDraw | packages/canvas-trading/src/classes/CandleClasses.ts:141-143 | the intended skip test: a raw price is the sentinel 0 |
| CandleClasses.Candle2DOf | packages/canvas-trading/src/classes/CandleClasses.ts:120-160 | the record as written: open, close, low and high are the `getPoint` rows of the candle's prices; the trades are the mapped copies of the candle's trades, one per trade; `noDraw` iff one of the MAPPED rows is exactly 0; the slot position and back-reference are kept |
| CandleClasses.RecordNeverSkippedInRange | packages/canvas-trading/src/classes/CandleClasses.ts:141-143 | in a window with positive padding the record as written never skips a candle priced at or below the maximum, the sentinel 0 included |
| CandleClasses.IntendedCandle2DOf | packages/canvas-trading/src/classes/CandleClasses.ts:141-143 | the corrected record: `noDraw` iff a raw price is 0, every other field as in `Candle2DOf` |
| CandleClasses.IntendedAgreesOnPricedCandles | packages/canvas-trading/src/classes/CandleClasses.ts:141-143 | on a candle with no zero price within the window's range both tests draw it, and the two records are equal |
| CandleClasses.MappedRowPositive | packages/canvas-trading/src/classes/CandleClasses.ts:162-170 | every price up to the window maximum maps to a pixel row strictly greater than 0, so no mapped price is ever 0 |
| CandleClasses.PixelTestMissesSentinel | packages/canvas-trading/src/classes/CandleClasses.ts:141-143 | the pixel test as written never flags a candle whose prices do not exceed the maximum, the sentinel 0 included |
| CandleClasses.SentinelCandleSkipped | packages/canvas-trading/src/classes/CandleClasses.ts:141-143 | a candle with low = high = 0 is skipped by the intended record in every geometry |
| CandleClasses.SentinelCandleMissedAsWritten | packages/canvas-trading/src/classes/CandleClasses.ts:141-143 | in a 10..20 window the sentinel candle is drawn by the record as written and skipped by the intended one |
| CandleClasses.NewCandle2D | packages/canvas-trading/src/classes/CandleClasses.ts:120-160 | the constructor, with its trade-copy loop and the pixel `noDraw` test, builds exactly the record `Candle2DOf` |
| CandleCanvas.RelativeIndex | packages/canvas-trading/src/classes/CandleCanvas.ts:40-43 | a slice bound lies in `[0, len]`: the index itself when in range, counted from the end (floored at 0) when negative, `len` when too large |
| CandleCanvas.JsSlice | packages/canvas-trading/src/classes/CandleCanvas.ts:40-43 | `slice` returns the contiguous run from the resolved start whose length is the resolved end minus the resolved start, or 0; in range it is `s[start..end]` |
| CandleCanvas.Window | packages/canvas-trading/src/classes/CandleCanvas.ts:40-43 | the window is `history[len - shown - shift .. len - shift]` whenever that range fits |
| CandleCanvas.WindowWhenTooWide | packages/canvas-trading/src/classes/CandleCanvas.ts:40-43 | a window wider than the history has a negative start, which counts from the end: `history[min(max(2 len - shown - shift, 0), len - shift) .. len - shift]` |
| CandleCanvas.WindowWrapsWhenTooWide | packages/canvas-trading/src/classes/CandleCanvas.ts:40-43 | asking 100 of 60 candles shows the last 40 (the negative start counts from the end) |
| CandleCanvas.LiveSubstituted | packages/canvas-trading/src/classes/CandleCanvas.ts:37-38 | only entry `len - 9` changes, to the live candle, and nothing changes without one |
| CandleCanvas.MinNonZero | packages/canvas-trading/src/classes/CandleCanvas.ts:64-66 | the least non-zero value, None (+Infinity) when all are 0 |
| CandleCanvas.MaxNonZero | packages/canvas-trading/src/classes/CandleCanvas.ts:67-69 | the greatest non-zero value, None (-Infinity) when all are 0 |
| CandleCanvas.MinMaxCalc | packages/canvas-trading/src/classes/CandleCanvas.ts:62-88 | min/max are the least non-zero low and the greatest non-zero high; aoMin/aoMax the same over `ao.value`, not symmetrised |
| CandleCanvas.GapAndCandleWidth | packages/canvas-trading/src/classes/CandleCanvas.ts:56-61 | `gap = W / 5n`, `n * cw + (n - 1) * gap = W`, `cw = gap * (4 + 1/n)` |
| CandleCanvas.DrawingArray | packages/canvas-trading/src/classes/CandleCanvas.ts:89-106 | one record per window candle, record `i` at `xPosition = i * (cw + gap)` with `originalIndex = i + len - windowLen` |
| CandleCanvas.GetDrawingArray | packages/canvas-trading/src/classes/CandleCanvas.ts:89-106 | the map builds exactly `DrawingArray` |
| CandleCanvas.NonZeroIndices | packages/canvas-trading/src/classes/CandleCanvas.ts:111-119 | exactly the slots whose line value is non-zero, in increasing order |
| CandleCanvas.PolylineIsPresentValues | packages/canvas-trading/src/classes/CandleCanvas.ts:107-121 | each polyline is the non-zero mapped values in window order, at `x = xPosition + cw/2` of their slot |
| CandleCanvas.GetAlligatorArray | packages/canvas-trading/src/classes/CandleCanvas.ts:107-121 | the push loop builds exactly the three polylines `AlligatorLinesOf` |
| CandleCanvas.AoScaleOf | packages/canvas-trading/src/classes/CandleCanvas.ts:125-131 | the AO scale pads both extremes by 10% and takes a fifth of the height; undefined exactly where JavaScript computes a non-finite scale |
| CandleCanvas.AoBarOf | packages/canvas-trading/src/classes/CandleCanvas.ts:133-148 | a positive value's bar ends at the midline, a non-positive one starts at it; x and vertex value are copied |
| CandleCanvas.AoBars | packages/canvas-trading/src/classes/CandleCanvas.ts:133-149 | one AO bar per window candle |
| CandleCanvas.AoArrayOf | packages/canvas-trading/src/classes/CandleCanvas.ts:122-151 | the bar list is undefined exactly where the scale is non-finite (an absent extreme, or `abs(1.1 aoMin) + 1.1 aoMax == 0`), and otherwise has one bar per window candle |
| CandleCanvas.GetAOArray | packages/canvas-trading/src/classes/CandleCanvas.ts:122-151 | the push loop builds exactly `AoBars` |
| CandleCanvas.AoBarInPanel | packages/canvas-trading/src/classes/CandleCanvas.ts:125-148 | when `aoMin < 0 < aoMax`, a bar for a value in range has non-negative height and lies within `[0, H/5]` |
| CandleCanvas.AoBarsInPanel | packages/canvas-trading/src/classes/CandleCanvas.ts:122-151 | when the window's AO values have both signs, every bar lies within the panel `[0, H/5]` |
| CandleCanvas.CanvasOf | packages/canvas-trading/src/classes/CandleCanvas.ts:22-55 | fails with `NotEnoughCandles` iff the history has fewer than 30 entries; otherwise sizes are doubled and every field is the stated function of the window |
| CandleCanvas.NewCandleCanvas | packages/canvas-trading/src/classes/CandleCanvas.ts:22-55 | a short history is rejected before anything is written; otherwise the caller's array gets the live candle at `len - 9`, and the result is `CanvasOf` of that array |
| CandleCanvas.OriginalIndexOffsetByShift | packages/canvas-trading/src/classes/CandleCanvas.ts:89-103 | record `i` is drawn from history entry `len - shown - shift + i` and its back-reference is that index plus `shift` |
| CandleCanvas.DisplayedPriceInvertsGetPoint | packages/canvas-trading/src/classes/CandleCanvas.ts:152-169 | before rounding, `getDisplayedPrice(getPoint(p) / 2) = p` |
| CandleCanvas.DisplayedPriceAtBandEdges | packages/canvas-trading/src/classes/CandleCanvas.ts:152-169 | the top band edge reads back as max, `H - gapSpace` as min |
| CandleCanvas.DisplayedPrice | packages/canvas-trading/src/classes/CandleCanvas.ts:152-169 | the displayed price is the raw inverse rounded to 3 decimals (within 0.0005 of it and on the 0.001 grid), undefined exactly where JavaScript divides by zero |
| MountedClasses.StackUpSpacing | packages/canvas-trading/src/classes/MountedClasses.ts:95-118 | the k-th mark above is at `high - cw * (k + 1)`, adjacent marks exactly `cw` apart |
| MountedClasses.StackDownSpacing | packages/canvas-trading/src/classes/MountedClasses.ts:120-143 | the k-th mark below is at `low + cw * (k + 1)`, adjacent marks exactly `cw` apart |
| MountedClasses.FindEnd | packages/canvas-trading/src/classes/MountedClasses.ts:78-83 | `find` gives the first end-only leg of the id, None iff there is none |
| MountedClasses.TradeMarker | packages/canvas-trading/src/classes/MountedClasses.ts:108-117 | a trade marker carries the trade type, `value = profit` and `profitable = profit > 0` |
| MountedClasses.MarkedIndices | packages/canvas-trading/src/classes/MountedClasses.ts:74-91 | exactly the start-only trades whose candle also holds an end-only leg of the same id, in input order |
| MountedClasses.MarkersAreMarkedTrades | packages/canvas-trading/src/classes/MountedClasses.ts:74-92 | the trade loop mounts one marker per marked trade, in input order, and none for a leg with both flags |
| MountedClasses.CandleMountPoints.constructor | packages/canvas-trading/src/classes/MountedClasses.ts:32-50 | the stacks are revBar, fractal, then trade markers (below iff `above`), spaced as above |
| MountedClasses.CandleMountPoints.MountUp | packages/canvas-trading/src/classes/MountedClasses.ts:95-118 | appends one mark at `high - cw * (1 + length)`; existing marks and the lower stack are unchanged |
| MountedClasses.CandleMountPoints.MountDown | packages/canvas-trading/src/classes/MountedClasses.ts:120-143 | appends one mark at `low + cw * (1 + length)`; existing marks and the upper stack are unchanged |
| MountedClasses.CandleMountPoints.MountIndicators | packages/canvas-trading/src/classes/MountedClasses.ts:51-93 | appends revBar, fractal and the trade markers to the right stacks, in that order |
| MountedClasses.CandleMountPoints.MountTrades | packages/canvas-trading/src/classes/MountedClasses.ts:73-92 | the trade loop appends exactly the markers of the marked trades, below when `above` is true and above otherwise |
| DrawFunctions.FindCandleWithTrade | packages/canvas-trading/src/draw/drawFunctions.ts:163-187 | nothing found gives `(false, 0, 0)` iff no leg matches; otherwise the result names a matching leg (right id, start-only or end-only as asked) and no match comes after it in scan order |
| DrawFunctions.OneCandleLegMatchesNeither | packages/canvas-trading/src/draw/drawFunctions.ts:175-177 | a leg with both flags matches neither lookup |
| Draw.DisplayTrade | packages/canvas-trading/src/draw/draw.ts:25-108 | `undefined` exactly when both legs are found and both window indices are `< 0` or both `>= candlesShown`; profit is `buy < sell` for long and `buy > sell` for short, the type taken from the end leg; endpoints at `index * (cw + gap) + cw/2` and `getPoint(price)`; neither the rectangle nor the arrow is drawn iff the legs share an `openTime` |
| Draw.CanvasDrawnFrom | packages/canvas-trading/src/classes/CandleCanvas.ts:40-52 | every built canvas whose window fits has records drawn from that window |
| Draw.WindowIndexIsWindowPosition | packages/canvas-trading/src/draw/draw.ts:42-52 | the window-relative index equals `found.index - (len - shown - shift)` |
| Draw.RecordOfLeg | packages/canvas-trading/src/classes/CandleCanvas.ts:89-103 | a found leg inside the window has its mapped copy on the record of its window slot |
| Draw.StartLegDrawn | packages/canvas-trading/src/draw/draw.ts:71-76 | a start leg inside the window is drawn at the centre of its record's slot and at the row that record mapped its buy price to |
| Draw.EndLegDrawn | packages/canvas-trading/src/draw/draw.ts:77-82 | an end leg inside the window is drawn at the centre of its record's slot and at the row that record mapped its sell price to |
| Draw.CandleBodyOf | packages/canvas-trading/src/draw/draw.ts:164-201 | `noDraw` records draw nothing; red iff mapped `open < close`, white iff equal (height 3), else height `|open - close|` from `min(open, close)`; wick from high to low at `x + cw/2` |
| Draw.BodyColourFollowsPrice | packages/canvas-trading/src/draw/draw.ts:168-179 | a drawn body is red iff the raw price fell, green iff it rose, white iff unchanged |
| Draw.AoColour | packages/canvas-trading/src/draw/draw.ts:142-153 | an AO bar is green iff its vertex exceeds the previous bar's; bar 0 is red |
| Draw.LastPriceLabel | packages/canvas-trading/src/draw/draw.ts:229-261 | the label uses record `len2D - 9 + candleShift`; skipped iff the setting is off, the close is falsy, or the index is out of range; placed at `xPosition + 2cw + gap` |
| Draw.LastPriceLabelOnLiveCandle | packages/canvas-trading/src/draw/draw.ts:239-245 | the label's record is the one built from the live candle written at `len - 9`, present iff `shift < 9` |
| CanvasComponent.CheckSettings | packages/canvas-trading/src/Canvas/Canvas.tsx:55-67 | given settings are kept; missing ones default to false for `allTradesShown`, `showAsset`, `showLastCandlePrice` and true for the rest |
| CanvasComponent.InitialViewport | packages/canvas-trading/src/Canvas/Canvas.tsx:74-75 | the window starts at 100 candles and shift 0 unless the props say otherwise |
| CanvasComponent.PropsCanvas | packages/canvas-trading/src/Canvas/Canvas.tsx:89-103 | a short history (the constructor's throw) yields `null` (None); a built model is valid and holds the history with the live candle written in; None also where the model of the canvas is degenerate (see Left out) |
| CanvasComponent.CursorSlot | packages/canvas-trading/src/Canvas/Canvas.tsx:129-134 | the date index is in the window when defined, and undefined for a zero-width rectangle |
| CanvasComponent.CursorSlotCoversColumn | packages/canvas-trading/src/Canvas/Canvas.tsx:125-134 | a cursor in the i-th of `windowLen` equal columns reads candle i |
| CanvasComponent.CursorLabels | packages/canvas-trading/src/Canvas/Canvas.tsx:105-148 | no model: no-op; a negative coordinate clears the labels; else price from `getDisplayedPrice(y)`, the cursor moved unless only labels, the date set iff the index hits the window, OHLC set iff in addition no field is 0 |
| CanvasComponent.CursorReadsDrawnCandle | packages/canvas-trading/src/Canvas/Canvas.tsx:118-135 | a mouse over column i shows the date of window candle i |
| CanvasComponent.WheelEffects | packages/canvas-trading/src/Canvas/Canvas.tsx:181-197 | both settings off gives no call; scroll off means no shift change, zoom off no width change; the window invariant is preserved |
| CanvasComponent.MaxTradeId | packages/canvas-trading/src/Canvas/Canvas.tsx:160-166 | the scan yields the maximum of `shownTrade or 0` and every trade id of the history |
| CanvasComponent.DisplayedTradeIds | packages/canvas-trading/src/Canvas/Canvas.tsx:160-172 | with `allTradesShown` the ids `0..max` in order, else the selected trade alone or none |
| CanvasComponent.UnselectReset | packages/canvas-trading/src/Canvas/Canvas.tsx:244-250 | unselecting resets to shift 0 and the initial width; a selected trade changes nothing |
| CanvasComponent.FocusFramesTrade | packages/canvas-trading/src/Canvas/Canvas.tsx:261-272 | when the shift does not clamp, the focused window runs from 10 before the start leg to 10 after the end leg |
| CanvasComponent.FocusShiftInRange | packages/canvas-trading/src/Canvas/Canvas.tsx:261-267 | with at least 40 candles the focus shift lies in `[0, len - 40]` |
| CanvasComponent.FocusExample | packages/canvas-trading/src/Canvas/Canvas.tsx:261-272 | legs 40 and 55 of 100 candles give shift 35 and width 35 |
| CanvasComponent.ShortFocusFreezesZoom | packages/canvas-trading/src/Canvas/Canvas.tsx:269-272 | the width is not clamped: a trade spanning fewer than 10 candles leaves a width the zoom guard refuses for every delta |
| CanvasComponent.FocusOnTrade | packages/canvas-trading/src/Canvas/Canvas.tsx:253-276 | no selection or a missing leg changes nothing; otherwise shift `min(max(len - end - 10, 0), len - 40)` and width `end - start + 20` from the last start and end legs |
| LegacyCandleCanvas.TwoStepIsWindow | src/tradingCanvas/classes/CandleCanvas.ts:28-36 | the two-step slice equals `slice(len - shown - shift, len - shift)` when the window fits |
| LegacyCandleCanvas.LegacyRecordOf | src/tradingCanvas/classes/CandleCanvas.ts:66-78 | the older record has the package record's rows, slots and alligator values, with the pixel `noDraw` test |
| LegacyCandleCanvas.LegacyDrawingArray | src/tradingCanvas/classes/CandleCanvas.ts:66-78 | one record per window candle, in order |
| LegacyCandleCanvas.LegacyCanvasOf | src/tradingCanvas/classes/CandleCanvas.ts:18-48 | never rejects a short history; sizes ×3; min/max ignore zeros; gap/width fill identity; alligator points at `i * (cw + gap) + cw/2` |
| LegacyCandleCanvas.ShortHistoryOnlyLegacyBuilds | src/tradingCanvas/classes/CandleCanvas.ts:18-48 | a history below 30 entries is built by the older canvas and rejected by the package one |
| LegacyCandleCanvas.NewLegacyCandleCanvas | src/tradingCanvas/classes/CandleCanvas.ts:18-93 | the constructor, with the alligator push loop, builds exactly `LegacyCanvasOf` |

## Left out

- React wiring is not modelled: hooks, refs, effect scheduling, event-listener registration and `getBoundingClientRect`. The rectangle is a parameter of `CanvasComponent.CursorLabels`, and the listener bodies are functions of their inputs.
- Canvas 2D drawing is not modelled: `rect`, `line`, `roundedRect`, `arrowWithHead`, `drawCurveLine`, the mount marks, `drawCursor` and every `ctx` call. These are browser calls; the model returns what would be drawn.
- Styling (`canvas.styled.ts`, `app.styled.ts`) and the touch type guard in `utils/scalingMobileLike.ts` are not modelled. The guard has no gesture logic.
- The older snapshots `src/tradingCanvas/classes/CandleClasses.ts`, `src/tradingCanvas/draw/draw.ts`, `src/tradingCanvas/draw.ts`, `src/draw.ts` and `src/App.tsx` are not modelled separately. They repeat `getPoint`, the two-slot allocator and the locator, or only draw. The older `displayTrade` tests profit on pixel rows and is not merged with the package one.
- Floating point is modelled as exact `real` arithmetic. No IEEE rounding, NaN, `toFixed` or `toLocaleString` text is modelled.
- CandleCanvas.CanvasOf: returns `Failure(DegenerateWindow)` in the cases where JavaScript builds a canvas out of non-finite numbers: `candlesShown <= 0`, no non-zero low or high, or `max == min`. That canvas is not modelled.
- CandleCanvas.AoArrayOf: is None where JavaScript would fill the bars with non-finite numbers (NaN, or ±Infinity for a non-zero value over a zero scale), that is, with no non-zero AO value or `|1.1 aoMin| + 1.1 aoMax == 0`.
- CanvasComponent.PropsCanvas: is None also when `CandleCanvas.CanvasOf` fails with `DegenerateWindow` (no non-zero low or high, `max == min`, or `candlesShown <= 0`). There JavaScript does not throw; it keeps a canvas of non-finite numbers, and the cursor still sets the date and OHLC labels from it. The model's `CursorLabels` is then a no-op.
- LegacyCandleCanvas.LegacyCanvasOf: returns `Failure(DegenerateWindow)` for `candlesShown <= 0`, no non-zero low or high, or `max == min`. There the older constructor builds a canvas of non-finite numbers (Infinity extremes, NaN rows), which is not modelled.
- CandleClasses.IntendedCandle2DOf: the corrected skip test is not threaded through the canvas. `CandleCanvas.DrawingArray` and the drawing decisions use the record as written.
- ScrollZoom.PanStep: with `maxCandles - 3 == 0`, JavaScript divides by zero (Infinity, or NaN for zero width). The model uses the floor multiplier 0.6 there.
- ScrollZoom.YMovement: in the same case the infinite zoom step is modelled as saturating the clamp.
- LegacyCandleCanvas.LegacyRecordOf: the older record class reads `candleCanvas.minMax`, which the older canvas does not have (it stores `min` and `max`). The model reads `min` and `max`.
- CanvasComponent.CursorLabels: the date label is the raw `openTime`; the locale formatting of `new Date(...)` is not modelled.
- CanvasComponent.FocusOnTrade: `candleArray.indexOf(found.candle)` is modelled as the found index. This is the object's own position, which holds unless the same object occurs twice in the array.
- Draw.LastPriceLabel: the vertical text offset from `measureText` is a browser call and is left out. The label row is the record's close.
- Draw.DisplayTrade: `Canvas.tsx` (lines 168 and 171) calls `displayTrade(ctx, canvas, id)` with a number, while `draw.ts` takes the two found legs. As written, destructuring the number gives `undefined` legs (draw.ts:38), and reading `startCandle.candle` (draw.ts:41) throws a TypeError inside the drawing effect. The model follows `draw.ts`'s signature and does not model that throw. The colours of the rectangle and arrow are not modelled.
- MountedClasses.CandleMountPoints.MountUp: takes a ready `MountKind`, so the `type === 'trade' && tradeType` test of lines 108 and 133 is folded into the caller, which always passes a trade type for trades.
- `openTime` is modelled as a `string` only. `types.ts` admits `string | Date`, and for `Date` values the `===` of draw.ts:85 compares object references, not times. That case is not modelled.
- The input candle type is the package's `CandleToDraw`. The older snapshot's single `trade` field is not read by the older canvas and is not modelled.

## Findings

| source | as written | input that shows it | evidently intended | confidence | as-written member | corrected member |
|---|---|---|---|---|---|---|
| packages/canvas-trading/src/classes/CandleClasses.ts:141-143 | `noDraw` tests the mapped pixel rows for 0, so the flag never fires for a sentinel candle (prices 0): it is drawn below the price band, often off the canvas (rows 1319, 1410 and 1865 of a 1000-row canvas for the input shown) | window 10..20, height 1000, cw 10; candle open 5, close 6, low 0, high 0 | skip a candle whose raw price is the "no data" sentinel 0 | not executed | CandleClasses.SentinelCandleMissedAsWritten | CandleClasses.SentinelCandleSkipped |
| src/tradingCanvas/functions.ts:26-30 | the pan guard accepts `shift < M - cs` or `shift == M - cs + 1`, so at `shift == M - cs` (where the clamp puts it) every pan is ignored | 100 candles, 50 shown, shift 50, pan `x = +10` | at the right boundary accept a rightward pan, as the package reducer does | not executed | LegacyScrollZoom.LegacyPanLockExample | LegacyScrollZoom.PanLeavesBoundary |
| src/tradingCanvas/functions.ts:19-33 | the pan clamp uses the incoming `candlesShown`, so one event that zooms in and pans left overruns the history | 100 candles, shift 40, 50 shown, delta `(-50, +50)` gives shift 50, width 60 | clamp the shift against the zoomed width, keeping `shift + candlesShown <= M` | not executed | LegacyScrollZoom.LegacyPanBreaksWindowBound | ScrollZoom.ScrollZoom |
