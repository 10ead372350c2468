/**
 * The earlier reducer of src/tradingCanvas/functions.ts: step
 * `Math.round(delta / 5)`, minimum window 20, no safety margin, and both the
 * zoom and the pan guard evaluated on the INCOMING window.
 */
module LegacyScrollZoom {
  import opened Wrappers
  import opened Types
  import opened ScrollZoom

  const LegacyMinCandles: int := 20

  /** The zoom half (lines 11-24): applies from 20 up to the right edge, and at the edge only for y < 0. */
  function LegacyZoom(y: real, candlesShown: int, maxCandles: int, shift: int): (r: Option<int>)
    ensures r.Some? <==> y != 0.0 && LegacyMinCandles <= candlesShown <= maxCandles - shift
                         && (candlesShown == maxCandles - shift ==> y < 0.0)
    ensures r.Some? ==> LegacyMinCandles <= r.value <= maxCandles - shift
    ensures r.Some? && y > 0.0 ==> r.value >= candlesShown
    ensures r.Some? && y < 0.0 ==> r.value <= candlesShown
  {
    if && y != 0.0
       && (candlesShown > 19 || (candlesShown == 20 && y > 0.0))
       && (candlesShown < maxCandles - shift || (candlesShown == maxCandles - shift && y < 0.0))
    then Some(Max(Min(candlesShown + Round(y / 5.0), maxCandles - shift), LegacyMinCandles))
    else None
  }

  /**
   * The pan half (lines 25-38): applies strictly below the right boundary, or
   * exactly one PAST it for x > 0; never at the boundary itself.
   */
  function LegacyPan(x: real, shift: int, candlesShown: int, maxCandles: int): (r: Option<int>)
    ensures r.Some? <==> x != 0.0 && (shift == 0 ==> x < 0.0)
                         && ((0 <= shift < maxCandles - candlesShown)
                             || (0 < shift == maxCandles - candlesShown + 1 && x > 0.0))
    ensures r.Some? ==> 0 <= r.value <= maxCandles - candlesShown
    ensures r.Some? && x > 0.0 ==> r.value <= shift
    ensures r.Some? && x < 0.0 ==> r.value >= shift
  {
    if && x != 0.0
       && (shift > 0 || (shift == 0 && x < 0.0))
       && (shift < maxCandles - candlesShown || (shift == maxCandles - candlesShown + 1 && x > 0.0))
    then Some(Max(Min(shift - Round(x / 5.0), maxCandles - candlesShown), 0))
    else None
  }

  /** `scrollZoom` of the earlier snapshot: both halves see the incoming `candlesShown`. */
  function LegacyScrollZoom(movement: Vector2, shift: int, candlesShown: int, maxCandles: int): (r: Effects)
    ensures movement.y == 0.0 ==> r.setCandlesShown.None?
    ensures movement.x == 0.0 ==> r.setShift.None?
    ensures r.setShift.Some? ==> 0 <= r.setShift.value <= maxCandles - candlesShown
    ensures r.setCandlesShown.Some? ==> LegacyMinCandles <= r.setCandlesShown.value <= maxCandles - shift
  {
    Effects(LegacyPan(movement.x, shift, candlesShown, maxCandles),
            LegacyZoom(movement.y, candlesShown, maxCandles, shift))
  }

  /** At exactly `shift == maxCandles - candlesShown` no pan is processed in either direction. */
  lemma {:induction false} LegacyPanLocksAtBoundary(x: real, candlesShown: int, maxCandles: int)
    ensures LegacyPan(x, maxCandles - candlesShown, candlesShown, maxCandles).None?
  {
  }

  /** A concrete lock-up: 100 candles, 50 shown, shift 50; a rightward pan is ignored. */
  lemma LegacyPanLockExample()
    ensures LegacyPan(10.0, 50, 50, 100) == None
    ensures XMovement(10.0, 47, 50, 97) == Some(45)
  {
    assert PanMultiplier(50, 97) == 150.0 / 97.0;
    assert 10.0 * (150.0 / 97.0) * ShiftStrength == 225.0 / 97.0;
    assert Round(225.0 / 97.0) == 2;
  }

  /** The current reducer leaves its right boundary: there a positive pan is processed and lowers the shift. */
  lemma PanLeavesBoundary(x: real, candlesShown: int, maxCandles: int)
    requires x > 0.0 && maxCandles - candlesShown > 0
    ensures XMovement(x, maxCandles - candlesShown, candlesShown, maxCandles).Some?
    ensures XMovement(x, maxCandles - candlesShown, candlesShown, maxCandles).value <= maxCandles - candlesShown
  {
  }

  /**
   * Zooming in and panning left in one event: the legacy clamp uses the old
   * width 50 and lets the window reach 60 + 50 = 110 candles of a 100-candle
   * history.
   */
  lemma LegacyPanBreaksWindowBound()
    ensures var v := Apply(Viewport(40, 50), LegacyScrollZoom(Vector2(-50.0, 50.0), 40, 50, 100));
            v == Viewport(50, 60) && v.shift + v.candlesShown > 100
  {
    assert Round(50.0 / 5.0) == 10;
    assert Round(-50.0 / 5.0) == -10;
  }
}
