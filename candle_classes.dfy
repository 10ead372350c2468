/**
 * packages/canvas-trading/src/classes/CandleClasses.ts: the price-to-pixel
 * map `getPoint`, the per-candle record `Candle2D` and the fixed two-slot
 * mount-point allocator.
 */
module CandleClasses {
  import opened Wrappers
  import opened Types

  /** The part of a canvas that `getPoint` reads: scaled height, candle width and the window's price extremes. */
  datatype Geometry = Geometry(height: real, candleWidth: real, min: real, max: real)

  /** Padding band kept free at the top and the bottom of the chart. */
  function GapSpace(g: Geometry): real {
    g.candleWidth * 4.5
  }

  /** `getPoint`: the padded, inverted linear map from a price to a pixel row. */
  function GetPoint(p: real, g: Geometry): real
    requires g.max != g.min
  {
    (g.max - p) / (g.max - g.min) * (g.height - GapSpace(g) * 2.0) + GapSpace(g)
  }

  /** The window's maximum lands on the top edge of the useful band, its minimum on the bottom edge. */
  lemma GetPointEnds(g: Geometry)
    requires g.max != g.min
    ensures GetPoint(g.max, g) == GapSpace(g)
    ensures GetPoint(g.min, g) == g.height - GapSpace(g)
  {
    assert (g.max - g.min) / (g.max - g.min) == 1.0;
  }

  /** Higher prices are drawn higher up (smaller y) whenever the band has positive height. */
  lemma GetPointDecreasing(g: Geometry, p: real, q: real)
    requires g.max > g.min && g.height > GapSpace(g) * 2.0
    requires p < q
    ensures GetPoint(p, g) > GetPoint(q, g)
  {
    var r, k := g.max - g.min, g.height - GapSpace(g) * 2.0;
    var tp, tq := (g.max - p) / r, (g.max - q) / r;
    DivStrict(g.max - p, g.max - q, r);
    MulStrict(tp, tq, k);
    assert GetPoint(p, g) == tp * k + GapSpace(g);
    assert GetPoint(q, g) == tq * k + GapSpace(g);
  }

  /** Every price of the window's range lands inside the useful band, never in the padding. */
  lemma GetPointInBand(g: Geometry, p: real)
    requires g.max > g.min && g.height >= GapSpace(g) * 2.0
    requires g.min <= p <= g.max
    ensures GapSpace(g) <= GetPoint(p, g) <= g.height - GapSpace(g)
  {
    var r, k := g.max - g.min, g.height - GapSpace(g) * 2.0;
    var t := (g.max - p) / r;
    assert 0.0 <= t <= 1.0 by {
      assert t * r == g.max - p;
    }
    assert 0.0 <= t * k <= k by {
      MulMono(t, 1.0, k);
    }
  }

  lemma DivStrict(a: real, b: real, d: real)
    requires a > b && d > 0.0
    ensures a / d > b / d
  {
    var t := (a - b) / d;
    assert t * d == a - b;
    assert t > 0.0;
    assert a / d - b / d == t;
  }

  lemma MulStrict(a: real, b: real, k: real)
    requires a > b && k > 0.0
    ensures a * k > b * k
  {
  }

  lemma MulMono(a: real, b: real, k: real)
    requires 0.0 <= a <= b && k >= 0.0
    ensures 0.0 <= a * k <= b * k
  {
  }

  /** `getAlligatorPoints`: an absent line (exactly 0) stays 0, every other value is mapped. */
  function AlligatorPoints(a: Alligator, g: Geometry): (r: Alligator)
    requires g.max != g.min
    ensures a.jaw == 0.0 ==> r.jaw == 0.0
    ensures a.teeth == 0.0 ==> r.teeth == 0.0
    ensures a.lips == 0.0 ==> r.lips == 0.0
    ensures a.jaw != 0.0 ==> r.jaw == GetPoint(a.jaw, g)
    ensures a.teeth != 0.0 ==> r.teeth == GetPoint(a.teeth, g)
    ensures a.lips != 0.0 ==> r.lips == GetPoint(a.lips, g)
  {
    Alligator(
      if a.jaw != 0.0 then GetPoint(a.jaw, g) else 0.0,
      if a.teeth != 0.0 then GetPoint(a.teeth, g) else 0.0,
      if a.lips != 0.0 then GetPoint(a.lips, g) else 0.0)
  }

  /**
   * The copy of one trade made by the `Candle2D` constructor: only the leg
   * that belongs to this candle is mapped to pixels.
   */
  function MapTrade(t: AssignedTrade, g: Geometry): (r: AssignedTrade)
    requires g.max != g.min
    ensures r.tradeID == t.tradeID && r.tradeType == t.tradeType && r.profit == t.profit
    ensures r.isThisCandleStart == t.isThisCandleStart && r.isThisCandleEnd == t.isThisCandleEnd
    ensures r.buyPrice == if t.isThisCandleStart then GetPoint(t.buyPrice, g) else t.buyPrice
    ensures r.sellPrice == if t.isThisCandleEnd then GetPoint(t.sellPrice, g) else t.sellPrice
  {
    var withBuy := if t.isThisCandleStart then t.(buyPrice := GetPoint(t.buyPrice, g)) else t;
    if withBuy.isThisCandleEnd then withBuy.(sellPrice := GetPoint(withBuy.sellPrice, g)) else withBuy
  }

  /** The trade copies of a candle, in order. */
  function MapTrades(ts: seq<AssignedTrade>, g: Geometry): (r: seq<AssignedTrade>)
    requires g.max != g.min
    ensures |r| == |ts|
    ensures forall i :: 0 <= i < |ts| ==> r[i] == MapTrade(ts[i], g)
  {
    seq(|ts|, i requires 0 <= i < |ts| => MapTrade(ts[i], g))
  }

  // ---------------------------------------------------------------------------
  // Two-slot mount points (lines 21-108)

  /** One side of a candle: two stacked slots. */
  datatype Side = Side(first: Option<Mounted>, second: Option<Mounted>)
  datatype MountSlots = MountSlots(above: Side, below: Side)

  const EmptySide: Side := Side(None, None)

  /**
   * The slot rule of `mountUp`/`mountDown`: take the first free slot, at one
   * or two `step`s from `edge`; an occupied slot is never overwritten and a
   * request on a full side is dropped.
   */
  function Place(s: Side, kind: MountKind, edge: real, step: real): (r: Side)
    ensures s.first.Some? ==> r.first == s.first
    ensures s.second.Some? ==> r.second == s.second
    ensures s.first.Some? && s.second.Some? ==> r == s
    ensures s.first.None? ==> r == Side(Some(Mounted(kind, edge + step)), s.second)
    ensures s.first.Some? && s.second.None? ==> r == Side(s.first, Some(Mounted(kind, edge + 2.0 * step)))
    ensures r.first.Some?
  {
    if s.first.None? then Side(Some(Mounted(kind, edge + step)), s.second)
    else if s.second.None? then Side(s.first, Some(Mounted(kind, edge + 2.0 * step)))
    else s
  }

  /** `mountUp(type, value, candleWidth, high)` on slot values. */
  function MountUpSlots(s: MountSlots, kind: MountKind, candleWidth: real, high: real): MountSlots {
    s.(above := Place(s.above, kind, high, -candleWidth))
  }

  /** `mountDown(type, value, candleWidth, low)` on slot values. */
  function MountDownSlots(s: MountSlots, kind: MountKind, candleWidth: real, low: real): MountSlots {
    s.(below := Place(s.below, kind, low, candleWidth))
  }

  /** `mountIndicators`: reversal bar first, then fractal. */
  function MountAll(s: MountSlots, candleWidth: real, ind: Indicators, low: real, high: real): MountSlots {
    var afterRevBar :=
      match ind.revBar
      case Some(Sell) => MountUpSlots(s, RevBarMark(Sell), candleWidth, high)
      case Some(Buy) => MountDownSlots(s, RevBarMark(Buy), candleWidth, low)
      case None => s;
    match ind.fractal
    case Some(Up) => MountUpSlots(afterRevBar, FractalMark(Up), candleWidth, high)
    case Some(Down) => MountDownSlots(afterRevBar, FractalMark(Down), candleWidth, low)
    case None => afterRevBar
  }

  /**
   * The slots a fresh `CandleMountPoints` ends up with: sell/up above at
   * `high - cw` then `high - 2cw`, buy/down below at `low + cw` then
   * `low + 2cw`, the reversal bar taking the first slot of a shared side.
   */
  function TwoSlotOf(candleWidth: real, ind: Indicators, low: real, high: real): (r: MountSlots)
    ensures ind.revBar == Some(Sell) ==> r.above.first == Some(Mounted(RevBarMark(Sell), high - candleWidth))
    ensures ind.revBar == Some(Buy) ==> r.below.first == Some(Mounted(RevBarMark(Buy), low + candleWidth))
    ensures ind.fractal == Some(Up) ==>
              if ind.revBar == Some(Sell)
              then r.above.second == Some(Mounted(FractalMark(Up), high - 2.0 * candleWidth))
              else r.above.first == Some(Mounted(FractalMark(Up), high - candleWidth)) && r.above.second.None?
    ensures ind.fractal == Some(Down) ==>
              if ind.revBar == Some(Buy)
              then r.below.second == Some(Mounted(FractalMark(Down), low + 2.0 * candleWidth))
              else r.below.first == Some(Mounted(FractalMark(Down), low + candleWidth)) && r.below.second.None?
    ensures ind.revBar == Some(Sell) && ind.fractal != Some(Up) ==> r.above.second.None?
    ensures ind.revBar == Some(Buy) && ind.fractal != Some(Down) ==> r.below.second.None?
    ensures ind.revBar != Some(Sell) && ind.fractal != Some(Up) ==> r.above == EmptySide
    ensures ind.revBar != Some(Buy) && ind.fractal != Some(Down) ==> r.below == EmptySide
  {
    MountAll(MountSlots(EmptySide, EmptySide), candleWidth, ind, low, high)
  }

  /** `CandleMountPoints` of CandleClasses.ts: two slots above and two below the candle. */
  class CandleMountPoints {
    var above: Side
    var below: Side

    function Slots(): MountSlots
      reads this
    {
      MountSlots(above, below)
    }

    constructor (candleWidth: real, candleIndicators: Indicators, low: real, high: real)
      ensures Slots() == TwoSlotOf(candleWidth, candleIndicators, low, high)
    {
      above := EmptySide;
      below := EmptySide;
      new;
      MountIndicators(candleWidth, candleIndicators, low, high);
    }

    method MountIndicators(candleWidth: real, indicators: Indicators, low: real, high: real)
      modifies this
      ensures Slots() == MountAll(old(Slots()), candleWidth, indicators, low, high)
    {
      if indicators.revBar == Some(Sell) {
        MountUp(RevBarMark(Sell), candleWidth, high);
      } else if indicators.revBar == Some(Buy) {
        MountDown(RevBarMark(Buy), candleWidth, low);
      }
      if indicators.fractal == Some(Up) {
        MountUp(FractalMark(Up), candleWidth, high);
      } else if indicators.fractal == Some(Down) {
        MountDown(FractalMark(Down), candleWidth, low);
      }
    }

    method MountUp(kind: MountKind, candleWidth: real, high: real)
      modifies this
      ensures Slots() == MountUpSlots(old(Slots()), kind, candleWidth, high)
    {
      var yGap := candleWidth;
      if above.first == None {
        above := above.(first := Some(Mounted(kind, high - yGap)));
      } else if above.second == None {
        above := above.(second := Some(Mounted(kind, high - yGap * 2.0)));
      }
    }

    method MountDown(kind: MountKind, candleWidth: real, low: real)
      modifies this
      ensures Slots() == MountDownSlots(old(Slots()), kind, candleWidth, low)
    {
      var yGap := candleWidth;
      if below.first == None {
        below := below.(first := Some(Mounted(kind, low + yGap)));
      } else if below.second == None {
        below := below.(second := Some(Mounted(kind, low + yGap * 2.0)));
      }
    }
  }

  // ---------------------------------------------------------------------------
  // Candle2D (lines 110-183)

  /** One positioned candle: pixel rows, slot in the window, back-reference into the history. */
  datatype Candle2D = Candle2D(
    open: real,
    close: real,
    low: real,
    high: real,
    noDraw: bool,
    mountPoints: MountSlots,
    alligator: Alligator,
    trades: seq<AssignedTrade>,
    xPosition: real,
    originalIndex: int)

  /** The `noDraw` test as written (lines 141-143): one of the MAPPED rows is exactly 0. */
  function NoDrawAsWritten(open: real, close: real, low: real, high: real): bool {
    open == 0.0 || close == 0.0 || low == 0.0 || high == 0.0
  }

  /** The intended `noDraw` test: one of the RAW prices is the "no data" sentinel 0. */
  function NoDraw(c: Candle): (b: bool)
    ensures !b ==> c.open != 0.0 && c.close != 0.0 && c.low != 0.0 && c.high != 0.0
    ensures b ==> c.open == 0.0 || c.close == 0.0 || c.low == 0.0 || c.high == 0.0
  {
    c.open == 0.0 || c.close == 0.0 || c.low == 0.0 || c.high == 0.0
  }

  /** Every price at or below the window maximum maps to a row strictly greater than 0 when the padding is positive. */
  lemma MappedRowPositive(g: Geometry, p: real)
    requires g.max > g.min && g.height >= GapSpace(g) * 2.0 && g.candleWidth > 0.0
    requires p <= g.max
    ensures GetPoint(p, g) > 0.0
  {
    var r, k := g.max - g.min, g.height - GapSpace(g) * 2.0;
    var t := (g.max - p) / r;
    assert t >= 0.0 by {
      assert t * r == g.max - p;
    }
    MulMono(t, t, k);
  }

  /**
   * The pixel test misses the sentinel: for a window with positive prices and
   * positive padding, a candle none of whose prices exceeds the maximum (the
   * sentinel 0 included) is never flagged.
   */
  lemma PixelTestMissesSentinel(c: Candle, g: Geometry)
    requires g.max > g.min && g.height >= GapSpace(g) * 2.0 && g.candleWidth > 0.0
    requires c.open <= g.max && c.close <= g.max && c.low <= g.max && c.high <= g.max
    ensures !NoDrawAsWritten(GetPoint(c.open, g), GetPoint(c.close, g), GetPoint(c.low, g), GetPoint(c.high, g))
  {
    MappedRowPositive(g, c.open);
    MappedRowPositive(g, c.close);
    MappedRowPositive(g, c.low);
    MappedRowPositive(g, c.high);
  }

  /** `candle.trades ? candle.trades : []` (CandleCanvas.ts line 100). */
  function TradesOrEmpty(c: Candle): seq<AssignedTrade> {
    c.trades.GetOr([])
  }

  /**
   * The record the `Candle2D` constructor builds for one window candle. Its
   * `noDraw` is the test as written, on the mapped rows.
   */
  function Candle2DOf(c: Candle, g: Geometry, xPosition: real, originalIndex: int): (r: Candle2D)
    requires g.max != g.min
    ensures r.noDraw <==> NoDrawAsWritten(r.open, r.close, r.low, r.high)
    ensures r.open == GetPoint(c.open, g) && r.close == GetPoint(c.close, g)
    ensures r.low == GetPoint(c.low, g) && r.high == GetPoint(c.high, g)
    ensures r.trades == MapTrades(TradesOrEmpty(c), g)
    ensures |r.trades| == |TradesOrEmpty(c)| && r.xPosition == xPosition && r.originalIndex == originalIndex
  {
    var open, close := GetPoint(c.open, g), GetPoint(c.close, g);
    var low, high := GetPoint(c.low, g), GetPoint(c.high, g);
    Candle2DFields(c, g, open, close, low, high, xPosition, originalIndex)
  }

  function Candle2DFields(c: Candle, g: Geometry, open: real, close: real, low: real, high: real,
                          xPosition: real, originalIndex: int): Candle2D
    requires g.max != g.min
  {
    Candle2D(
      open, close, low, high,
      NoDrawAsWritten(open, close, low, high),
      TwoSlotOf(g.candleWidth, c.indicators, low, high),
      AlligatorPoints(c.indicators.alligator, g),
      MapTrades(TradesOrEmpty(c), g),
      xPosition, originalIndex)
  }

  /**
   * The record with the intended skip test: identical except that `noDraw`
   * asks whether a RAW price is the "no data" sentinel 0.
   */
  function IntendedCandle2DOf(c: Candle, g: Geometry, xPosition: real, originalIndex: int): (r: Candle2D)
    requires g.max != g.min
    ensures r.noDraw <==> c.open == 0.0 || c.close == 0.0 || c.low == 0.0 || c.high == 0.0
    ensures r.(noDraw := false) == Candle2DOf(c, g, xPosition, originalIndex).(noDraw := false)
  {
    Candle2DOf(c, g, xPosition, originalIndex).(noDraw := NoDraw(c))
  }

  /**
   * The two tests agree on every real candle: with no zero price and nothing
   * above the window maximum, neither record is skipped.
   */
  lemma IntendedAgreesOnPricedCandles(c: Candle, g: Geometry, x: real, k: int)
    requires g.max > g.min && g.height >= GapSpace(g) * 2.0 && g.candleWidth > 0.0
    requires c.open <= g.max && c.close <= g.max && c.low <= g.max && c.high <= g.max
    requires c.open != 0.0 && c.close != 0.0 && c.low != 0.0 && c.high != 0.0
    ensures IntendedCandle2DOf(c, g, x, k) == Candle2DOf(c, g, x, k)
    ensures !Candle2DOf(c, g, x, k).noDraw
  {
    RecordNeverSkippedInRange(c, g, x, k);
  }

  /**
   * The test as written never fires in a window with positive padding: no
   * candle priced at or below the maximum is skipped, the sentinel 0 included.
   */
  lemma RecordNeverSkippedInRange(c: Candle, g: Geometry, x: real, k: int)
    requires g.max > g.min && g.height >= GapSpace(g) * 2.0 && g.candleWidth > 0.0
    requires c.open <= g.max && c.close <= g.max && c.low <= g.max && c.high <= g.max
    ensures !Candle2DOf(c, g, x, k).noDraw
  {
    PixelTestMissesSentinel(c, g);
  }

  /**
   * The sentinel candle of the design (low = high = 0) is skipped by the
   * intended test in every geometry, and missed by the test as written in a
   * window of prices 10..20.
   */
  lemma SentinelCandleSkipped(c: Candle, g: Geometry, x: real, k: int)
    requires g.max != g.min
    requires c.low == 0.0 && c.high == 0.0
    ensures IntendedCandle2DOf(c, g, x, k).noDraw
  {
  }

  lemma SentinelCandleMissedAsWritten(c: Candle)
    requires c.open == 5.0 && c.close == 6.0 && c.low == 0.0 && c.high == 0.0
    ensures var g := Geometry(1000.0, 10.0, 10.0, 20.0);
            IntendedCandle2DOf(c, g, 0.0, 0).noDraw && !Candle2DOf(c, g, 0.0, 0).noDraw
  {
    RecordNeverSkippedInRange(c, Geometry(1000.0, 10.0, 10.0, 20.0), 0.0, 0);
  }

  /**
   * The `Candle2D` constructor: maps the four prices, mounts the indicators
   * against the mapped low/high, maps the alligator and copies the trades one
   * by one.
   */
  method NewCandle2D(c: Candle, g: Geometry, xPosition: real, originalIndex: int) returns (r: Candle2D)
    requires g.max != g.min
    ensures r == Candle2DOf(c, g, xPosition, originalIndex)
  {
    var open, close := GetPoint(c.open, g), GetPoint(c.close, g);
    var low, high := GetPoint(c.low, g), GetPoint(c.high, g);
    var mountPoints := new CandleMountPoints(g.candleWidth, c.indicators, low, high);
    var noDraw := NoDrawAsWritten(open, close, low, high);
    var alligator := AlligatorPoints(c.indicators.alligator, g);
    var originalTrades := TradesOrEmpty(c);
    var trades: seq<AssignedTrade> := [];
    var i := 0;
    while i < |originalTrades|
      invariant 0 <= i <= |originalTrades|
      invariant |trades| == i
      invariant forall k :: 0 <= k < i ==> trades[k] == MapTrade(originalTrades[k], g)
    {
      var tradeCopy := originalTrades[i];
      if tradeCopy.isThisCandleStart {
        tradeCopy := tradeCopy.(buyPrice := GetPoint(tradeCopy.buyPrice, g));
      }
      if tradeCopy.isThisCandleEnd {
        tradeCopy := tradeCopy.(sellPrice := GetPoint(tradeCopy.sellPrice, g));
      }
      trades := trades + [tradeCopy];
      i := i + 1;
    }
    r := Candle2D(open, close, low, high, noDraw, mountPoints.Slots(), alligator, trades, xPosition, originalIndex);
  }
}
