/**
 * The wheel/drag reducer of packages/canvas-trading/src/scrollZoom.ts: a
 * zoom step on `candlesShown` followed by a pan step on `shift`, each guarded
 * and then clamped. The callbacks `setCandlesShown`/`setShift` are modelled
 * by returning the value each one receives, or None when it is not called.
 */
module ScrollZoom {
  import opened Wrappers
  import opened Types

  /** Candles kept out of reach of the window at the old end of the history (line 12). */
  const Margin: int := 3

  /** The values handed to the two setters by one event (None: setter not called). */
  datatype Effects = Effects(setShift: Option<int>, setCandlesShown: Option<int>)

  /** The caller's window after it has run the setters it was given. */
  function Apply(v: Viewport, e: Effects): Viewport {
    Viewport(e.setShift.GetOr(v.shift), e.setCandlesShown.GetOr(v.candlesShown))
  }

  /** The window invariant: nothing hidden beyond the newest candle, at least the minimum shown, margin respected. */
  predicate ValidViewport(v: Viewport, totalCandles: int) {
    0 <= v.shift && MinCandlesShown <= v.candlesShown && v.candlesShown + v.shift <= totalCandles - Margin
  }

  /** The zoom guard of lines 29-35; its second disjuncts add nothing to the first. */
  function ZoomApplies(y: real, candlesShown: int, maxCandles: int, shift: int): (b: bool)
    ensures b <==> y != 0.0 && MinCandlesShown <= candlesShown <= maxCandles - shift
  {
    && y != 0.0
    && (candlesShown > MinCandlesShown - 1 || (candlesShown == MinCandlesShown && y > 0.0))
    && (candlesShown < maxCandles - shift + 1 || (candlesShown == maxCandles - shift && y < 0.0))
  }

  /** `Math.max(0.3, candlesShown / maxCandles * 3)` (line 36). */
  function ZoomMultiplier(candlesShown: int, maxCandles: int): (m: real)
    requires maxCandles != 0
    ensures m >= 0.3
  {
    MaxR(0.3, candlesShown as real / maxCandles as real * 3.0)
  }

  /** The rounded zoom step of line 40; it has the sign of the wheel delta. */
  function ZoomStep(y: real, candlesShown: int, maxCandles: int): (d: int)
    requires maxCandles != 0
    ensures y > 0.0 ==> d >= 0
    ensures y < 0.0 ==> d <= 0
  {
    var m := ZoomMultiplier(candlesShown, maxCandles);
    assert y > 0.0 ==> y * m > 0.0;
    assert y < 0.0 ==> y * m < 0.0;
    Round(y * m * ZoomStrength)
  }

  /**
   * `yMovement`: the value passed to `setCandlesShown`, or None. Here
   * `maxCandles` is already reduced by the margin.
   */
  function YMovement(y: real, candlesShown: int, maxCandles: int, shift: int): (r: Option<int>)
    ensures r.Some? <==> ZoomApplies(y, candlesShown, maxCandles, shift)
    ensures r.Some? ==> MinCandlesShown <= r.value <= maxCandles - shift
    ensures r.Some? && y > 0.0 ==> r.value >= candlesShown
    ensures r.Some? && y < 0.0 ==> r.value <= candlesShown
    ensures (r.Some? && candlesShown == MinCandlesShown && maxCandles != 0
             && ZoomStep(y, candlesShown, maxCandles) <= 0) ==> r.value == MinCandlesShown
  {
    if !ZoomApplies(y, candlesShown, maxCandles, shift) then None
    else if maxCandles == 0 then
      // candlesShown / 0 is +Infinity in JavaScript: the step is infinite and the clamp saturates
      Some(if y > 0.0 then maxCandles - shift else MinCandlesShown)
    else
      Some(Max(Min(candlesShown + ZoomStep(y, candlesShown, maxCandles), maxCandles - shift), MinCandlesShown))
  }

  /** The pan guard of lines 59-63: shift in [0, maxCandles - candlesShown], and at 0 only a leftward delta. */
  function PanApplies(x: real, shift: int, candlesShown: int, maxCandles: int): (b: bool)
    ensures b <==> x != 0.0 && 0 <= shift <= maxCandles - candlesShown && (shift == 0 ==> x < 0.0)
  {
    && x != 0.0
    && (shift > 0 || (shift == 0 && x < 0.0))
    && (shift < maxCandles - candlesShown + 1 || (shift == maxCandles - candlesShown && x > 0.0))
  }

  /** `Math.max(0.6, candlesShown / maxCandles * 3)` (line 64). */
  function PanMultiplier(candlesShown: int, maxCandles: int): (m: real)
    requires maxCandles != 0
    ensures m >= 0.6
  {
    MaxR(0.6, candlesShown as real / maxCandles as real * 3.0)
  }

  /** The rounded pan step of line 68; it has the sign of the horizontal delta. */
  function PanStep(x: real, candlesShown: int, maxCandles: int): (d: int)
    ensures x > 0.0 ==> d >= 0
    ensures x < 0.0 ==> d <= 0
  {
    // with maxCandles == 0 the quotient is -Infinity (candlesShown < 0) and the multiplier is 0.6
    var m := if maxCandles == 0 then 0.6 else PanMultiplier(candlesShown, maxCandles);
    assert x > 0.0 ==> x * m > 0.0;
    assert x < 0.0 ==> x * m < 0.0;
    Round(x * m * ShiftStrength)
  }

  /** `xMovement`: the value passed to `setShift`, or None. */
  function XMovement(x: real, shift: int, candlesShown: int, maxCandles: int): (r: Option<int>)
    ensures r.Some? <==> PanApplies(x, shift, candlesShown, maxCandles)
    ensures r.Some? ==> 0 <= r.value <= maxCandles - candlesShown
    ensures r.Some? && x > 0.0 ==> r.value <= shift
    ensures r.Some? && x < 0.0 ==> r.value >= shift
  {
    if !PanApplies(x, shift, candlesShown, maxCandles) then None
    else Some(Max(Min(shift - PanStep(x, candlesShown, maxCandles), maxCandles - candlesShown), 0))
  }

  /**
   * `scrollZoom(movement, shift, candlesShown, maxCandles, ...)`: zoom first,
   * then pan against the margin-reduced maximum and the ZOOMED window width.
   */
  function ScrollZoom(movement: Vector2, shift: int, candlesShown: int, maxCandles: int): (r: Effects)
    ensures movement.y == 0.0 ==> r.setCandlesShown.None?
    ensures movement.x == 0.0 ==> r.setShift.None?
    ensures shift == 0 && r.setShift.Some? ==> movement.x < 0.0
    ensures shift >= 0 && r.setShift.Some? ==> r.setShift.value >= 0
    ensures r.setShift.Some? ==>
              r.setShift.value <= maxCandles - Margin - Apply(Viewport(shift, candlesShown), r).candlesShown
    ensures movement.y > 0.0 ==> Apply(Viewport(shift, candlesShown), r).candlesShown >= candlesShown
    ensures movement.x > 0.0 && shift >= 0 ==> Apply(Viewport(shift, candlesShown), r).shift <= shift
    ensures ValidViewport(Viewport(shift, candlesShown), maxCandles) ==>
              ValidViewport(Apply(Viewport(shift, candlesShown), r), maxCandles)
  {
    var m := maxCandles - Margin;
    var zoom := YMovement(movement.y, candlesShown, m, shift);
    Effects(XMovement(movement.x, shift, zoom.GetOr(candlesShown), m), zoom)
  }

  /**
   * With 100 candles, the minimum window and no shift, a wheel delta of +10
   * WIDENS the window to 31 (the step rounds 10 * 90/97 * 0.12 up to 1).
   */
  lemma PositiveDeltaAtMinimumWidens()
    ensures ScrollZoom(Vector2(0.0, 10.0), 0, 30, 100) == Effects(None, Some(31))
  {
    assert ZoomMultiplier(30, 97) == 90.0 / 97.0;
    assert 10.0 * (90.0 / 97.0) * ZoomStrength == 108.0 / 97.0;
    assert Round(108.0 / 97.0) == 1;
  }

  /** ... and a delta of -10 leaves it at the minimum. */
  lemma NegativeDeltaAtMinimumStays()
    ensures ScrollZoom(Vector2(0.0, -10.0), 0, 30, 100) == Effects(None, Some(30))
  {
    assert ZoomStep(-10.0, 30, 97) <= 0;
  }
}
