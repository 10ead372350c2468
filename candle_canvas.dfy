/**
 * packages/canvas-trading/src/classes/CandleCanvas.ts: the model of one
 * render pass. Its constructor overwrites the live candle in the caller's
 * history, cuts the window out, measures it, and lays out the candles, the
 * alligator polylines and the Awesome Oscillator bars.
 */
module CandleCanvas {
  import opened Wrappers
  import opened Types
  import opened CandleClasses

  // ---------------------------------------------------------------------------
  // Window slicing: JavaScript `Array.prototype.slice`

  /** A slice bound: negative counts from the end, and the result is clamped to [0, len]. */
  function RelativeIndex(i: int, len: nat): (k: int)
    ensures 0 <= k <= len
    ensures 0 <= i <= len ==> k == i
    ensures i < 0 ==> k == Max(len + i, 0)
    ensures len < i ==> k == len
  {
    if i < 0 then Max(len + i, 0) else Min(i, len)
  }

  /** `s.slice(start, end)`. */
  function JsSlice<T>(s: seq<T>, start: int, end: int): (r: seq<T>)
    ensures RelativeIndex(start, |s|) + |r| <= |s|
    ensures |r| == Max(RelativeIndex(end, |s|) - RelativeIndex(start, |s|), 0)
    ensures r == s[RelativeIndex(start, |s|)..RelativeIndex(start, |s|) + |r|]
    ensures 0 <= start <= end <= |s| ==> r == s[start..end]
    ensures RelativeIndex(end, |s|) <= RelativeIndex(start, |s|) ==> r == []
  {
    var a, b := RelativeIndex(start, |s|), RelativeIndex(end, |s|);
    if a < b then s[a..b] else []
  }

  /** The visible window: `slice(len - candlesShown - shift, len - shift)` (lines 40-43). */
  function Window(history: seq<Candle>, candlesShown: int, shift: int): (r: seq<Candle>)
    ensures 0 <= shift && 0 <= candlesShown && candlesShown + shift <= |history| ==>
              r == history[|history| - candlesShown - shift..|history| - shift]
    ensures |r| <= |history|
  {
    JsSlice(history, |history| - candlesShown - shift, |history| - shift)
  }

  /**
   * A window wider than the history is cut from a negative start, which
   * counts from the end: it keeps at most the last `2 len - shown - shift`
   * candles before the shift, and none when that is not positive.
   */
  lemma WindowWhenTooWide(history: seq<Candle>, candlesShown: int, shift: int)
    requires 0 <= shift <= |history| < candlesShown + shift
    ensures Window(history, candlesShown, shift)
            == history[Min(Max(2 * |history| - candlesShown - shift, 0), |history| - shift)..|history| - shift]
  {
  }

  /**
   * A window wider than the history does not start at the oldest candle: the
   * negative start counts from the end, so 100 requested of 60 shows the last 40.
   */
  lemma WindowWrapsWhenTooWide(history: seq<Candle>)
    requires |history| == 60
    ensures Window(history, 100, 0) == history[20..]
  {
  }

  /**
   * `candlesToDraw[len - 9] = lastCandle` (lines 37-38): exactly one entry of
   * the caller's history is replaced, and only when a live candle is given.
   */
  function LiveSubstituted(history: seq<Candle>, lastCandle: Option<Candle>): (r: seq<Candle>)
    requires |history| >= 9
    ensures |r| == |history|
    ensures forall i :: 0 <= i < |history| && i != |history| - 9 ==> r[i] == history[i]
    ensures lastCandle.Some? ==> r[|history| - 9] == lastCandle.value
    ensures lastCandle.None? ==> r == history
  {
    if lastCandle.Some? then history[|history| - 9 := lastCandle.value] else history
  }

  // ---------------------------------------------------------------------------
  // Extremes (lines 62-88): 0 is "absent"; None stands for +Infinity / -Infinity

  /** `r` is the least non-zero entry of `s`, None exactly when there is none. */
  predicate IsLeastNonZero(r: Option<real>, s: seq<real>) {
    && (r.None? <==> forall i :: 0 <= i < |s| ==> s[i] == 0.0)
    && (r.Some? ==> r.value != 0.0 && r.value in s)
    && (r.Some? ==> forall i :: 0 <= i < |s| && s[i] != 0.0 ==> r.value <= s[i])
  }

  /** `r` is the greatest non-zero entry of `s`, None exactly when there is none. */
  predicate IsGreatestNonZero(r: Option<real>, s: seq<real>) {
    && (r.None? <==> forall i :: 0 <= i < |s| ==> s[i] == 0.0)
    && (r.Some? ==> r.value != 0.0 && r.value in s)
    && (r.Some? ==> forall i :: 0 <= i < |s| && s[i] != 0.0 ==> s[i] <= r.value)
  }

  /** `Math.min(...s.map(v => v !== 0 ? v : Infinity))`. */
  function MinNonZero(s: seq<real>): (r: Option<real>)
    ensures IsLeastNonZero(r, s)
  {
    if |s| == 0 then None
    else
      var rest := MinNonZero(s[1..]);
      assert forall i :: 1 <= i < |s| ==> s[i] == s[1..][i - 1];
      if s[0] == 0.0 then rest
      else if rest.None? || s[0] <= rest.value then Some(s[0])
      else rest
  }

  /** `Math.max(...s.map(v => v !== 0 ? v : -Infinity))`. */
  function MaxNonZero(s: seq<real>): (r: Option<real>)
    ensures IsGreatestNonZero(r, s)
  {
    if |s| == 0 then None
    else
      var rest := MaxNonZero(s[1..]);
      assert forall i :: 1 <= i < |s| ==> s[i] == s[1..][i - 1];
      if s[0] == 0.0 then rest
      else if rest.None? || s[0] >= rest.value then Some(s[0])
      else rest
  }

  function Lows(w: seq<Candle>): seq<real> {
    seq(|w|, i requires 0 <= i < |w| => w[i].low)
  }

  function Highs(w: seq<Candle>): seq<real> {
    seq(|w|, i requires 0 <= i < |w| => w[i].high)
  }

  function AoValues(w: seq<Candle>): seq<real> {
    seq(|w|, i requires 0 <= i < |w| => w[i].indicators.ao.value)
  }

  datatype MinMax = MinMax(min: Option<real>, max: Option<real>, aoMin: Option<real>, aoMax: Option<real>)

  /** `minMaxCalc`: price and oscillator extremes of the window, zeros ignored, no symmetrisation. */
  function MinMaxCalc(w: seq<Candle>): (r: MinMax)
    ensures IsLeastNonZero(r.min, Lows(w)) && IsGreatestNonZero(r.max, Highs(w))
    ensures IsLeastNonZero(r.aoMin, AoValues(w)) && IsGreatestNonZero(r.aoMax, AoValues(w))
  {
    MinMax(MinNonZero(Lows(w)), MaxNonZero(Highs(w)), MinNonZero(AoValues(w)), MaxNonZero(AoValues(w)))
  }

  // ---------------------------------------------------------------------------
  // Spacing (lines 56-61)

  datatype Spacing = Spacing(gap: real, candleWidth: real)

  /**
   * `getGapAndCandleWidth`: `candlesShown` bodies and the gaps between them
   * fill the width exactly, each body being (4 + 1/n) gaps wide.
   */
  function GapAndCandleWidth(width: real, candlesShown: int): (r: Spacing)
    requires candlesShown > 0
    ensures r.gap * 5.0 * candlesShown as real == width
    ensures candlesShown as real * r.candleWidth + (candlesShown - 1) as real * r.gap == width
    ensures r.candleWidth == r.gap * (4.0 + 1.0 / candlesShown as real)
  {
    var n := candlesShown as real;
    var gap := width / n / 5.0;
    var candleWidth := (width - (n - 1.0) * gap) / n;
    assert gap * 5.0 * n == width;
    assert candleWidth * n == width - (n - 1.0) * gap;
    assert candleWidth == gap * (4.0 + 1.0 / n) by {
      assert width == gap * 5.0 * n;
      assert width - (n - 1.0) * gap == gap * (4.0 * n + 1.0);
      assert gap * (4.0 + 1.0 / n) * n == gap * (4.0 * n + 1.0);
    }
    Spacing(gap, candleWidth)
  }

  /** Left edge of window slot `i`. */
  function XPosition(i: int, sp: Spacing): real {
    i as real * (sp.candleWidth + sp.gap)
  }

  /** Horizontal centre of window slot `i`. */
  function SlotCentre(i: int, sp: Spacing): real {
    XPosition(i, sp) + sp.candleWidth / 2.0
  }

  // ---------------------------------------------------------------------------
  // Drawing array (lines 89-106)

  /** `getDrawingArray`: one record per window candle, at its slot, with its back-reference. */
  function DrawingArray(w: seq<Candle>, g: Geometry, sp: Spacing, historyLength: int): (r: seq<Candle2D>)
    requires g.max != g.min
    ensures |r| == |w|
    ensures forall i :: 0 <= i < |w| ==>
              r[i] == Candle2DOf(w[i], g, XPosition(i, sp), i + historyLength - |w|)
  {
    seq(|w|, i requires 0 <= i < |w| => Candle2DOf(w[i], g, XPosition(i, sp), i + historyLength - |w|))
  }

  /** The imperative `map` of `getDrawingArray`, one `Candle2D` constructor call per candle. */
  method GetDrawingArray(w: seq<Candle>, g: Geometry, sp: Spacing, historyLength: int) returns (r: seq<Candle2D>)
    requires g.max != g.min
    ensures r == DrawingArray(w, g, sp, historyLength)
  {
    var indexInTheOriginalArray := historyLength - |w|;
    r := [];
    var i := 0;
    while i < |w|
      invariant 0 <= i <= |w|
      invariant |r| == i
      invariant forall k :: 0 <= k < i ==> r[k] == Candle2DOf(w[k], g, XPosition(k, sp), k + indexInTheOriginalArray)
    {
      var c := NewCandle2D(w[i], g, i as real * (sp.candleWidth + sp.gap), i + indexInTheOriginalArray);
      r := r + [c];
      i := i + 1;
    }
  }

  // ---------------------------------------------------------------------------
  // Alligator polylines (lines 107-121)

  datatype Line = Jaw | Teeth | Lips

  function LineValue(a: Alligator, l: Line): real {
    match l
    case Jaw => a.jaw
    case Teeth => a.teeth
    case Lips => a.lips
  }

  /** The slots, in window order, whose value on line `l` is present (non-zero). */
  function NonZeroIndices(points: seq<Alligator>, l: Line): (r: seq<int>)
    ensures forall k :: 0 <= k < |r| ==> 0 <= r[k] < |points| && LineValue(points[r[k]], l) != 0.0
    ensures forall k, m :: 0 <= k < m < |r| ==> r[k] < r[m]
    ensures forall i :: 0 <= i < |points| && LineValue(points[i], l) != 0.0 ==> i in r
    decreases |points|
  {
    if |points| == 0 then []
    else
      var n := |points| - 1;
      var rest := NonZeroIndices(points[..n], l);
      assert forall k :: 0 <= k < |rest| ==> points[..n][rest[k]] == points[rest[k]];
      rest + (if LineValue(points[n], l) != 0.0 then [n] else [])
  }

  /** Appends a point when its value is present. */
  function PushIfPresent(line: seq<Vector2>, x: real, v: real): seq<Vector2> {
    if v != 0.0 then line + [Vector2(x, v)] else line
  }

  /** One alligator polyline, built slot by slot in window order. */
  function Polyline(points: seq<Alligator>, l: Line, sp: Spacing): seq<Vector2>
    decreases |points|
  {
    if |points| == 0 then []
    else
      var n := |points| - 1;
      PushIfPresent(Polyline(points[..n], l, sp), SlotCentre(n, sp), LineValue(points[n], l))
  }

  datatype AlligatorLines = AlligatorLines(jaw: seq<Vector2>, teeth: seq<Vector2>, lips: seq<Vector2>)

  function AlligatorLinesOf(points: seq<Alligator>, sp: Spacing): AlligatorLines {
    AlligatorLines(Polyline(points, Jaw, sp), Polyline(points, Teeth, sp), Polyline(points, Lips, sp))
  }

  /** The points for the given slots, in the given order. */
  function PointsAt(points: seq<Alligator>, idx: seq<int>, l: Line, sp: Spacing): seq<Vector2>
    requires forall k :: 0 <= k < |idx| ==> 0 <= idx[k] < |points|
  {
    seq(|idx|, k requires 0 <= k < |idx| => Vector2(SlotCentre(idx[k], sp), LineValue(points[idx[k]], l)))
  }

  lemma PointsAtPrefix(points: seq<Alligator>, n: int, idx: seq<int>, l: Line, sp: Spacing)
    requires 0 <= n <= |points|
    requires forall k :: 0 <= k < |idx| ==> 0 <= idx[k] < n
    ensures PointsAt(points[..n], idx, l, sp) == PointsAt(points, idx, l, sp)
  {
  }

  lemma PointsAtSnoc(points: seq<Alligator>, idx: seq<int>, n: int, l: Line, sp: Spacing)
    requires forall k :: 0 <= k < |idx| ==> 0 <= idx[k] < |points|
    requires 0 <= n < |points|
    ensures PointsAt(points, idx + [n], l, sp)
            == PointsAt(points, idx, l, sp) + [Vector2(SlotCentre(n, sp), LineValue(points[n], l))]
  {
  }

  /**
   * A polyline is exactly the present values, each standing on the centre of
   * its own slot, in window order.
   */
  lemma {:induction false} PolylineIsPresentValues(points: seq<Alligator>, l: Line, sp: Spacing)
    ensures Polyline(points, l, sp) == PointsAt(points, NonZeroIndices(points, l), l, sp)
    decreases |points|
  {
    if |points| > 0 {
      var n := |points| - 1;
      var prefix := points[..n];
      PolylineIsPresentValues(prefix, l, sp);
      var before := NonZeroIndices(prefix, l);
      PointsAtPrefix(points, n, before, l, sp);
      if LineValue(points[n], l) != 0.0 {
        PointsAtSnoc(points, before, n, l, sp);
      }
    }
  }

  lemma AlligatorLinesStep(points: seq<Alligator>, i: int, sp: Spacing)
    requires 0 <= i < |points|
    ensures var before, x, a := AlligatorLinesOf(points[..i], sp), SlotCentre(i, sp), points[i];
            AlligatorLinesOf(points[..i + 1], sp)
            == AlligatorLines(PushIfPresent(before.jaw, x, a.jaw), PushIfPresent(before.teeth, x, a.teeth),
                              PushIfPresent(before.lips, x, a.lips))
  {
    assert points[..i + 1][..i] == points[..i];
  }

  /** `getAlligatorArray`: the present values of each line are pushed in window order. */
  method GetAlligatorArray(points: seq<Alligator>, sp: Spacing) returns (r: AlligatorLines)
    ensures r == AlligatorLinesOf(points, sp)
  {
    var jaw, teeth, lips := [], [], [];
    var index := 0;
    while index < |points|
      invariant 0 <= index <= |points|
      invariant AlligatorLines(jaw, teeth, lips) == AlligatorLinesOf(points[..index], sp)
    {
      AlligatorLinesStep(points, index, sp);
      var x := index as real * (sp.candleWidth + sp.gap) + sp.candleWidth / 2.0;
      var a := points[index];
      assert x == SlotCentre(index, sp);
      ghost var next := AlligatorLines(PushIfPresent(jaw, x, a.jaw), PushIfPresent(teeth, x, a.teeth),
                                       PushIfPresent(lips, x, a.lips));
      if a.jaw != 0.0 { jaw := jaw + [Vector2(x, a.jaw)]; }
      if a.teeth != 0.0 { teeth := teeth + [Vector2(x, a.teeth)]; }
      if a.lips != 0.0 { lips := lips + [Vector2(x, a.lips)]; }
      assert AlligatorLines(jaw, teeth, lips) == next;
      index := index + 1;
    }
    assert points[..|points|] == points;
    r := AlligatorLines(jaw, teeth, lips);
  }

  /** The mapped alligator triples of the drawing array. */
  function AlligatorsOf(cs: seq<Candle2D>): seq<Alligator> {
    seq(|cs|, i requires 0 <= i < |cs| => cs[i].alligator)
  }

  // ---------------------------------------------------------------------------
  // Awesome Oscillator bars (lines 122-151)

  datatype AoCandle = AoCandle(x: real, y: real, vertexValue: real, height: real)

  /** The oscillator panel's scale: padded extremes, panel height and the zero line's row. */
  datatype AoScale = AoScale(min: real, max: real, allHeight: real, midLine: real)

  /**
   * The scale of `getAOArray`, or None where JavaScript would compute a
   * non-finite scale (no non-zero value, or `|min| + max == 0`).
   */
  function AoScaleOf(mm: MinMax, height: real): (r: Option<AoScale>)
    requires mm.aoMin != Some(0.0) && mm.aoMax != Some(0.0)
    ensures r.Some? ==> r.value.min != 0.0 && r.value.max != 0.0 && r.value.allHeight == height / 5.0
    ensures r.None? <==> (mm.aoMin.None? || mm.aoMax.None?
                          || Abs(mm.aoMin.value * 1.1) + mm.aoMax.value * 1.1 == 0.0)
  {
    if mm.aoMin.None? || mm.aoMax.None? then None
    else if Abs(mm.aoMin.value * 1.1) + mm.aoMax.value * 1.1 == 0.0 then None
    else Some(ScaleFrom(mm.aoMin.value, mm.aoMax.value, height))
  }

  /** The scale for oscillator extremes `lo` and `hi`, padded by 10%. */
  function ScaleFrom(lo: real, hi: real, height: real): AoScale
    requires Abs(lo * 1.1) + hi * 1.1 != 0.0
  {
    var min, max := lo * 1.1, hi * 1.1;
    var allHeight := height / 5.0;
    AoScale(min, max, allHeight, allHeight * (hi / (Abs(min) + max)))
  }

  /** One oscillator bar: positive values grow up to the zero line, the others hang from it. */
  function AoBarOf(value: real, vertexValue: real, x: real, s: AoScale): (r: AoCandle)
    requires s.min != 0.0 && s.max != 0.0
    ensures value > 0.0 ==> r.y + r.height == s.midLine
    ensures value <= 0.0 ==> r.y == s.midLine
    ensures r.x == x && r.vertexValue == vertexValue
  {
    var newValue := if value > 0.0 then value / s.max else value / s.min;
    var aboveLine := value > 0.0;
    AoCandle(
      x,
      if aboveLine then s.midLine - newValue * s.midLine else s.midLine,
      vertexValue,
      if aboveLine then newValue * s.midLine else newValue * (s.allHeight - s.midLine))
  }

  function AoBars(w: seq<Candle>, sp: Spacing, s: AoScale): (r: seq<AoCandle>)
    requires s.min != 0.0 && s.max != 0.0
    ensures |r| == |w|
  {
    seq(|w|, i requires 0 <= i < |w| =>
      AoBarOf(w[i].indicators.ao.value, w[i].indicators.ao.vertexValue, XPosition(i, sp), s))
  }

  /** `getAOArray`'s loop: one bar per window candle, pushed in order. */
  method GetAOArray(w: seq<Candle>, sp: Spacing, s: AoScale) returns (r: seq<AoCandle>)
    requires s.min != 0.0 && s.max != 0.0
    ensures r == AoBars(w, sp, s)
  {
    r := [];
    var index := 0;
    while index < |w|
      invariant 0 <= index <= |w|
      invariant |r| == index
      invariant forall k :: 0 <= k < index ==>
                  r[k] == AoBarOf(w[k].indicators.ao.value, w[k].indicators.ao.vertexValue, XPosition(k, sp), s)
    {
      var ao := w[index].indicators.ao;
      var newValue := if ao.value > 0.0 then ao.value / s.max else ao.value / s.min;
      var aboveLine := ao.value > 0.0;
      r := r + [AoCandle(
        index as real * (sp.candleWidth + sp.gap),
        if aboveLine then s.midLine - newValue * s.midLine else s.midLine,
        ao.vertexValue,
        if aboveLine then newValue * s.midLine else newValue * (s.allHeight - s.midLine))];
      index := index + 1;
    }
  }

  /** The oscillator bars of a window, None where the scale is undefined. */
  function AoArrayOf(w: seq<Candle>, sp: Spacing, mm: MinMax, height: real): (r: Option<seq<AoCandle>>)
    requires mm.aoMin != Some(0.0) && mm.aoMax != Some(0.0)
    ensures r.None? <==> (mm.aoMin.None? || mm.aoMax.None?
                          || Abs(mm.aoMin.value * 1.1) + mm.aoMax.value * 1.1 == 0.0)
    ensures r.Some? ==> |r.value| == |w|
  {
    match AoScaleOf(mm, height)
    case None => None
    case Some(s) => Some(AoBars(w, sp, s))
  }

  lemma MulBounds(a: real, b: real)
    requires 0.0 <= a <= 1.0 && b >= 0.0
    ensures 0.0 <= a * b <= b
  {
  }

  lemma DivBounds(x: real, d: real)
    requires 0.0 <= x <= d && d > 0.0
    ensures 0.0 <= x / d <= 1.0
  {
    assert x / d * d == x;
  }

  lemma DivBoundsNegative(x: real, d: real)
    requires d <= x <= 0.0 && d < 0.0
    ensures 0.0 <= x / d <= 1.0
  {
    assert x / d * d == x;
  }

  /** With extremes of both signs the zero line lies inside the panel. */
  lemma ScaleFromBounds(lo: real, hi: real, height: real)
    requires lo < 0.0 < hi && height >= 0.0
    ensures Abs(lo * 1.1) + hi * 1.1 != 0.0
    ensures var s := ScaleFrom(lo, hi, height);
            s.min <= lo && hi <= s.max && s.min < 0.0 < s.max && s.allHeight == height / 5.0
            && 0.0 <= s.midLine <= s.allHeight
  {
    var d := Abs(lo * 1.1) + hi * 1.1;
    assert d == 1.1 * hi - 1.1 * lo;
    DivBounds(hi, d);
    var s := ScaleFrom(lo, hi, height);
    var p := hi / d;
    assert s.midLine == s.allHeight * p;
    MulBounds(p, s.allHeight);
    assert p * s.allHeight == s.allHeight * p;
  }

  /** A bar for a value inside the padded range stays between the panel's edges. */
  lemma AoBarBounds(value: real, vertexValue: real, x: real, s: AoScale)
    requires s.min < 0.0 < s.max && 0.0 <= s.midLine <= s.allHeight
    requires s.min <= value <= s.max
    ensures var bar := AoBarOf(value, vertexValue, x, s);
            0.0 <= bar.height && 0.0 <= bar.y && bar.y + bar.height <= s.allHeight
  {
    var bar := AoBarOf(value, vertexValue, x, s);
    if value > 0.0 {
      var nv := value / s.max;
      DivBounds(value, s.max);
      MulBounds(nv, s.midLine);
      assert bar.height == nv * s.midLine && bar.y == s.midLine - nv * s.midLine;
    } else {
      var nv := value / s.min;
      DivBoundsNegative(value, s.min);
      MulBounds(nv, s.allHeight - s.midLine);
      assert bar.height == nv * (s.allHeight - s.midLine) && bar.y == s.midLine;
      assert bar.height <= s.allHeight - s.midLine;
      assert bar.y + bar.height <= s.midLine + (s.allHeight - s.midLine);
    }
  }

  /**
   * When the window's oscillator values have both signs, every bar has
   * non-negative height and lies inside the panel [0, height / 5].
   */
  lemma AoBarInPanel(value: real, vertexValue: real, x: real, lo: real, hi: real, height: real)
    requires lo < 0.0 < hi && height >= 0.0
    requires value == 0.0 || lo <= value <= hi
    ensures Abs(lo * 1.1) + hi * 1.1 != 0.0
    ensures var s := ScaleFrom(lo, hi, height);
            s.min != 0.0 && s.max != 0.0
            && var bar := AoBarOf(value, vertexValue, x, s);
            0.0 <= bar.height && 0.0 <= bar.y && bar.y + bar.height <= height / 5.0
  {
    ScaleFromBounds(lo, hi, height);
    AoBarBounds(value, vertexValue, x, ScaleFrom(lo, hi, height));
  }

  /** Over a whole window: every bar lies inside the oscillator panel when the values have both signs. */
  lemma AoBarsInPanel(w: seq<Candle>, sp: Spacing, height: real)
    requires height >= 0.0
    requires var mm := MinMaxCalc(w); mm.aoMin.Some? && mm.aoMax.Some? && mm.aoMin.value < 0.0 < mm.aoMax.value
    ensures var mm := MinMaxCalc(w);
            var bars := AoArrayOf(w, sp, mm, height);
            bars.Some?
            && forall i :: 0 <= i < |bars.value| ==>
                 0.0 <= bars.value[i].height && 0.0 <= bars.value[i].y
                 && bars.value[i].y + bars.value[i].height <= height / 5.0
  {
    var mm := MinMaxCalc(w);
    var lo, hi := mm.aoMin.value, mm.aoMax.value;
    AoBarInPanel(0.0, 0.0, 0.0, lo, hi, height);
    var s := ScaleFrom(lo, hi, height);
    assert AoScaleOf(mm, height) == Some(s);
    var bars := AoBars(w, sp, s);
    forall i | 0 <= i < |bars|
      ensures 0.0 <= bars[i].height && 0.0 <= bars[i].y && bars[i].y + bars[i].height <= height / 5.0
    {
      var v := w[i].indicators.ao.value;
      assert v == AoValues(w)[i];
      AoBarInPanel(v, w[i].indicators.ao.vertexValue, XPosition(i, sp), lo, hi, height);
    }
  }

  // ---------------------------------------------------------------------------
  // The canvas model

  datatype BuildError = NotEnoughCandles | DegenerateWindow

  datatype CandleCanvas = CandleCanvas(
    width: real,
    height: real,
    candlesShown: int,
    candleShift: int,
    candlesToDraw: seq<Candle>,
    lastCandle: Option<Candle>,
    minMax: MinMax,
    gap: real,
    candleWidth: real,
    candleArray: seq<Candle2D>,
    alligatorArray: AlligatorLines,
    aoArray: Option<seq<AoCandle>>)

  /** What every successfully built canvas satisfies: finite, distinct extremes and a non-empty window. */
  predicate Valid(c: CandleCanvas) {
    && c.minMax.min.Some? && c.minMax.max.Some? && c.minMax.min.value != c.minMax.max.value
    && 0 < c.candlesShown && 0 < |c.candleArray|
  }

  function GeometryOf(c: CandleCanvas): (g: Geometry)
    requires Valid(c)
    ensures g.max != g.min
  {
    Geometry(c.height, c.candleWidth, c.minMax.min.value, c.minMax.max.value)
  }

  function SpacingOf(c: CandleCanvas): Spacing {
    Spacing(c.gap, c.candleWidth)
  }

  /**
   * The canvas the constructor builds from the (already substituted)
   * history. Failure(NotEnoughCandles) is the thrown error; Failure(
   * DegenerateWindow) stands where JavaScript would go on with infinite or NaN
   * pixel rows.
   */
  function CanvasOf(width: real, height: real, candlesShown: int, candleShift: int,
                    history: seq<Candle>, lastCandle: Option<Candle>): (r: Result<CandleCanvas, BuildError>)
    ensures r == Failure(NotEnoughCandles) <==> |history| < MinCandlesShown
    ensures r.Success? ==> Valid(r.value)
    ensures r.Success? ==>
              var c := r.value;
              var w := Window(history, candlesShown, candleShift);
              && c.candlesShown == candlesShown && c.candleShift == candleShift && c.lastCandle == lastCandle
              && c.width == width * ScaleForQuality && c.height == height * ScaleForQuality
              && c.candlesToDraw == history
              && c.minMax == MinMaxCalc(w)
              && Spacing(c.gap, c.candleWidth) == GapAndCandleWidth(c.width, candlesShown)
              && c.candleArray == DrawingArray(w, GeometryOf(c), SpacingOf(c), |history|)
              && c.alligatorArray == AlligatorLinesOf(AlligatorsOf(c.candleArray), SpacingOf(c))
              && c.aoArray == AoArrayOf(w, SpacingOf(c), c.minMax, c.height)
  {
    if |history| < MinCandlesShown then Failure(NotEnoughCandles)
    else
      var w := Window(history, candlesShown, candleShift);
      var mm := MinMaxCalc(w);
      if candlesShown <= 0 || mm.min.None? || mm.max.None? || mm.min.value == mm.max.value then
        Failure(DegenerateWindow)
      else
        var width', height' := width * ScaleForQuality, height * ScaleForQuality;
        var sp := GapAndCandleWidth(width', candlesShown);
        var g := Geometry(height', sp.candleWidth, mm.min.value, mm.max.value);
        var candleArray := DrawingArray(w, g, sp, |history|);
        Success(CandleCanvas(
          width', height', candlesShown, candleShift, history, lastCandle, mm, sp.gap, sp.candleWidth,
          candleArray, AlligatorLinesOf(AlligatorsOf(candleArray), sp), AoArrayOf(w, sp, mm, height')))
  }

  /**
   * The constructor. It throws on a history shorter than the minimum, writes
   * the live candle into the CALLER'S array, and builds the model from the
   * result.
   */
  method NewCandleCanvas(width: real, height: real, candlesShown: int, candleShift: int,
                         candlesToDraw: array<Candle>, lastCandle: Option<Candle>)
    returns (r: Result<CandleCanvas, BuildError>)
    modifies candlesToDraw
    ensures candlesToDraw.Length < MinCandlesShown ==>
              r == Failure(NotEnoughCandles) && candlesToDraw[..] == old(candlesToDraw[..])
    ensures candlesToDraw.Length >= MinCandlesShown ==>
              candlesToDraw[..] == LiveSubstituted(old(candlesToDraw[..]), lastCandle)
    ensures r == CanvasOf(width, height, candlesShown, candleShift, candlesToDraw[..], lastCandle)
  {
    if candlesToDraw.Length < MinCandlesShown {
      return Failure(NotEnoughCandles);
    }
    var width', height' := width * ScaleForQuality, height * ScaleForQuality;
    if lastCandle.Some? {
      candlesToDraw[candlesToDraw.Length - 9] := lastCandle.value;
    }
    var history := candlesToDraw[..];
    var zoomedAndShifted := Window(history, candlesShown, candleShift);
    var minMax := MinMaxCalc(zoomedAndShifted);
    if candlesShown <= 0 || minMax.min.None? || minMax.max.None? || minMax.min.value == minMax.max.value {
      return Failure(DegenerateWindow);
    }
    var spacing := GapAndCandleWidth(width', candlesShown);
    var g := Geometry(height', spacing.candleWidth, minMax.min.value, minMax.max.value);
    var candleArray := GetDrawingArray(zoomedAndShifted, g, spacing, |history|);
    var alligatorArray := GetAlligatorArray(AlligatorsOf(candleArray), spacing);
    var aoArray: Option<seq<AoCandle>> := None;
    var scale := AoScaleOf(minMax, height');
    if scale.Some? {
      var bars := GetAOArray(zoomedAndShifted, spacing, scale.value);
      aoArray := Some(bars);
    }
    r := Success(CandleCanvas(
      width', height', candlesShown, candleShift, history, lastCandle, minMax, spacing.gap, spacing.candleWidth,
      candleArray, alligatorArray, aoArray));
  }

  /**
   * `originalIndex` is the history index plus the shift: with an unclamped
   * window, record `i` is drawn from history entry `len - shown - shift + i`
   * while its back-reference says `len - shown + i`.
   */
  lemma OriginalIndexOffsetByShift(history: seq<Candle>, shown: int, shift: int, g: Geometry, sp: Spacing, i: int)
    requires 0 <= shift && 0 <= shown && shown + shift <= |history| && g.max != g.min
    requires 0 <= i < shown
    ensures var records := DrawingArray(Window(history, shown, shift), g, sp, |history|);
            var source := |history| - shown - shift + i;
            |records| == shown
            && records[i] == Candle2DOf(history[source], g, XPosition(i, sp), source + shift)
  {
  }

  // ---------------------------------------------------------------------------
  // Inverse map (lines 152-169)

  /** `getDisplayedPrice` before rounding; `y` is in CSS pixels, i.e. divided by the quality scale. */
  function RawDisplayedPrice(g: Geometry, y: real): real
    requires g.height != 0.0 && g.height != GapSpace(g) * 2.0
  {
    var minMaxRange := g.max - g.min;
    var gapSpace := GapSpace(g);
    var gapInPrice := minMaxRange * (gapSpace / (g.height - gapSpace * 2.0));
    g.max + gapInPrice - (minMaxRange + gapInPrice * 2.0) * (y / (g.height / ScaleForQuality))
  }

  /** The row `getPoint` gives a price, read back at CSS scale, is that price again. */
  lemma DisplayedPriceInvertsGetPoint(g: Geometry, p: real)
    requires g.max != g.min && g.height != 0.0 && g.height != GapSpace(g) * 2.0
    ensures RawDisplayedPrice(g, GetPoint(p, g) / ScaleForQuality) == p
  {
    var r, gs := g.max - g.min, GapSpace(g);
    var k := g.height - gs * 2.0;
    var gip := r * (gs / k);
    var pt := GetPoint(p, g);
    assert pt == (g.max - p) / r * k + gs;
    assert pt / ScaleForQuality / (g.height / ScaleForQuality) == pt / g.height;
    assert r + gip * 2.0 == r * g.height / k by {
      assert gip * 2.0 == r * (gs * 2.0) / k;
      assert r == r * k / k;
    }
    assert r * g.height / k * (pt / g.height) == r / k * pt;
    assert r / k * pt == (g.max - p) + gip by {
      assert r / k * ((g.max - p) / r * k) == g.max - p;
      assert r / k * gs == gip;
    }
  }

  /** The padding edges read back as the window's extremes: the top band edge as max, the bottom one as min. */
  lemma DisplayedPriceAtBandEdges(g: Geometry)
    requires g.max != g.min && g.height != 0.0 && g.height != GapSpace(g) * 2.0
    ensures RawDisplayedPrice(g, GapSpace(g) / ScaleForQuality) == g.max
    ensures RawDisplayedPrice(g, (g.height - GapSpace(g)) / ScaleForQuality) == g.min
  {
    GetPointEnds(g);
    DisplayedPriceInvertsGetPoint(g, g.max);
    DisplayedPriceInvertsGetPoint(g, g.min);
  }

  /** `getDisplayedPrice`: rounded to 3 decimals; None where JavaScript divides by zero. */
  function DisplayedPrice(c: CandleCanvas, y: real): (r: Option<real>)
    requires Valid(c)
    ensures var g := GeometryOf(c);
            r.None? <==> g.height == 0.0 || g.height == GapSpace(g) * 2.0
    ensures r.Some? ==> var raw := RawDisplayedPrice(GeometryOf(c), y);
                        raw - 0.0005 < r.value <= raw + 0.0005
    ensures r.Some? ==> (r.value * 1000.0).Floor as real == r.value * 1000.0
  {
    var g := GeometryOf(c);
    if g.height == 0.0 || g.height == GapSpace(g) * 2.0 then None
    else
      var thousandths := Round(RawDisplayedPrice(g, y) * 1000.0);
      assert thousandths as real / 1000.0 * 1000.0 == thousandths as real;
      Some(thousandths as real / 1000.0)
  }
}
