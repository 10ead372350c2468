/**
 * packages/canvas-trading/src/classes/MountedClasses.ts: the list-based
 * marker allocator. Markers are stacked one candle width apart beyond the
 * candle's high (above) or low (below), in the order they are mounted:
 * reversal bar, fractal, then one trade marker per trade that opens and
 * closes on this candle.
 */
module MountedClasses {
  import opened Wrappers
  import opened Types

  /** Height of the `place`-th mark above the candle (places count from 1). */
  function AbovePos(high: real, candleWidth: real, place: int): real {
    high - candleWidth * place as real
  }

  /** Height of the `place`-th mark below the candle (places count from 1). */
  function BelowPos(low: real, candleWidth: real, place: int): real {
    low + candleWidth * place as real
  }

  /** Kinds stacked upwards from `high`, the first `start` places being taken already. */
  function StackUp(kinds: seq<MountKind>, high: real, candleWidth: real, start: nat): seq<Mounted> {
    seq(|kinds|, k requires 0 <= k < |kinds| => Mounted(kinds[k], AbovePos(high, candleWidth, start + k + 1)))
  }

  /** Kinds stacked downwards from `low`, the first `start` places being taken already. */
  function StackDown(kinds: seq<MountKind>, low: real, candleWidth: real, start: nat): seq<Mounted> {
    seq(|kinds|, k requires 0 <= k < |kinds| => Mounted(kinds[k], BelowPos(low, candleWidth, start + k + 1)))
  }

  /**
   * The k-th mark above an empty stack sits k + 1 candle widths over the high,
   * and adjacent marks are exactly one candle width apart.
   */
  lemma StackUpSpacing(kinds: seq<MountKind>, high: real, candleWidth: real)
    ensures var r := StackUp(kinds, high, candleWidth, 0);
            && |r| == |kinds|
            && (forall k :: 0 <= k < |r| ==> r[k].kind == kinds[k] && r[k].yPos == high - candleWidth * (k + 1) as real)
            && (forall k :: 0 <= k < |r| - 1 ==> r[k + 1].yPos == r[k].yPos - candleWidth)
  {
  }

  /** The mirror image below the low. */
  lemma StackDownSpacing(kinds: seq<MountKind>, low: real, candleWidth: real)
    ensures var r := StackDown(kinds, low, candleWidth, 0);
            && |r| == |kinds|
            && (forall k :: 0 <= k < |r| ==> r[k].kind == kinds[k] && r[k].yPos == low + candleWidth * (k + 1) as real)
            && (forall k :: 0 <= k < |r| - 1 ==> r[k + 1].yPos == r[k].yPos + candleWidth)
  {
  }

  /** Pushing one mark onto a stack of `kinds` above `base` stacks `kinds + [kind]`. */
  lemma StackUpPush(current: seq<Mounted>, base: seq<Mounted>, kinds: seq<MountKind>, kind: MountKind,
                    high: real, candleWidth: real)
    requires current == base + StackUp(kinds, high, candleWidth, |base|)
    ensures current + [Mounted(kind, AbovePos(high, candleWidth, 1 + |current|))]
            == base + StackUp(kinds + [kind], high, candleWidth, |base|)
  {
    var a := current + [Mounted(kind, AbovePos(high, candleWidth, 1 + |current|))];
    var b := base + StackUp(kinds + [kind], high, candleWidth, |base|);
    assert |a| == |b|;
    forall k | 0 <= k < |a|
      ensures a[k] == b[k]
    {
      if |base| <= k < |base| + |kinds| {
        assert (kinds + [kind])[k - |base|] == kinds[k - |base|];
      }
    }
  }

  /** The mirror image below the candle. */
  lemma StackDownPush(current: seq<Mounted>, base: seq<Mounted>, kinds: seq<MountKind>, kind: MountKind,
                      low: real, candleWidth: real)
    requires current == base + StackDown(kinds, low, candleWidth, |base|)
    ensures current + [Mounted(kind, BelowPos(low, candleWidth, 1 + |current|))]
            == base + StackDown(kinds + [kind], low, candleWidth, |base|)
  {
    var a := current + [Mounted(kind, BelowPos(low, candleWidth, 1 + |current|))];
    var b := base + StackDown(kinds + [kind], low, candleWidth, |base|);
    assert |a| == |b|;
    forall k | 0 <= k < |a|
      ensures a[k] == b[k]
    {
      if |base| <= k < |base| + |kinds| {
        assert (kinds + [kind])[k - |base|] == kinds[k - |base|];
      }
    }
  }

  // ---------------------------------------------------------------------------
  // Which trades get a marker (lines 73-92)

  /** An end-only leg of trade `id`. */
  predicate IsEndLeg(t: AssignedTrade, id: int) {
    t.tradeID == id && t.isThisCandleEnd && !t.isThisCandleStart
  }

  /** `trades.find(...)`: the first end-only leg of trade `id`, if any. */
  function FindEnd(trades: seq<AssignedTrade>, id: int): (r: Option<AssignedTrade>)
    ensures r.None? <==> forall i :: 0 <= i < |trades| ==> !IsEndLeg(trades[i], id)
    ensures r.Some? ==> IsEndLeg(r.value, id)
                        && exists i :: 0 <= i < |trades| && trades[i] == r.value
                                      && forall j :: 0 <= j < i ==> !IsEndLeg(trades[j], id)
  {
    if |trades| == 0 then None
    else if IsEndLeg(trades[0], id) then Some(trades[0])
    else
      var r := FindEnd(trades[1..], id);
      assert forall i :: 1 <= i < |trades| ==> trades[i] == trades[1..][i - 1];
      r
  }

  /** A start-only leg whose candle also holds an end-only leg with the same id. */
  predicate IsMarked(t: AssignedTrade, trades: seq<AssignedTrade>) {
    !t.isThisCandleEnd && t.isThisCandleStart && exists j :: 0 <= j < |trades| && IsEndLeg(trades[j], t.tradeID)
  }

  /** `MountedTrade`: the trade's type, its profit and whether that profit is positive. */
  function TradeMarker(t: AssignedTrade): (k: MountKind)
    ensures k.TradeMark? && k.tradeType == t.tradeType && k.value == t.profit
    ensures k.profitable <==> t.profit > 0.0
  {
    TradeMark(t.tradeType, t.profit, t.profit > 0.0)
  }

  /** The markers of the trade loop over `trades`, each tested against the whole list `all`. */
  function Markers(trades: seq<AssignedTrade>, all: seq<AssignedTrade>): seq<MountKind>
    decreases |trades|
  {
    if |trades| == 0 then []
    else
      var n := |trades| - 1;
      Markers(trades[..n], all) + (if IsMarked(trades[n], all) then [TradeMarker(trades[n])] else [])
  }

  lemma MarkersStep(trades: seq<AssignedTrade>, i: int, all: seq<AssignedTrade>)
    requires 0 <= i < |trades|
    ensures Markers(trades[..i + 1], all)
            == Markers(trades[..i], all) + (if IsMarked(trades[i], all) then [TradeMarker(trades[i])] else [])
  {
    assert trades[..i + 1][..i] == trades[..i];
  }

  /** The positions, in order, of the trades that get a marker. */
  function MarkedIndices(trades: seq<AssignedTrade>, all: seq<AssignedTrade>): (r: seq<int>)
    ensures forall k :: 0 <= k < |r| ==> 0 <= r[k] < |trades| && IsMarked(trades[r[k]], all)
    ensures forall k, m :: 0 <= k < m < |r| ==> r[k] < r[m]
    ensures forall i :: 0 <= i < |trades| && IsMarked(trades[i], all) ==> i in r
    decreases |trades|
  {
    if |trades| == 0 then []
    else
      var n := |trades| - 1;
      var rest := MarkedIndices(trades[..n], all);
      assert forall k :: 0 <= k < |rest| ==> trades[..n][rest[k]] == trades[rest[k]];
      rest + (if IsMarked(trades[n], all) then [n] else [])
  }

  function MarkersAt(trades: seq<AssignedTrade>, idx: seq<int>): seq<MountKind>
    requires forall k :: 0 <= k < |idx| ==> 0 <= idx[k] < |trades|
  {
    seq(|idx|, k requires 0 <= k < |idx| => TradeMarker(trades[idx[k]]))
  }

  /**
   * The trade loop mounts exactly one marker per marked trade, in input order;
   * in particular a leg with both flags set never gets one.
   */
  lemma {:induction false} MarkersAreMarkedTrades(trades: seq<AssignedTrade>, all: seq<AssignedTrade>)
    ensures Markers(trades, all) == MarkersAt(trades, MarkedIndices(trades, all))
    decreases |trades|
  {
    if |trades| > 0 {
      var n := |trades| - 1;
      MarkersAreMarkedTrades(trades[..n], all);
      var before := MarkedIndices(trades[..n], all);
      assert MarkersAt(trades[..n], before) == MarkersAt(trades, before);
      if IsMarked(trades[n], all) {
        assert MarkersAt(trades, before + [n]) == MarkersAt(trades, before) + [TradeMarker(trades[n])];
      }
    }
  }

  // ---------------------------------------------------------------------------
  // Which side each marker goes to (lines 59-92)

  /** The indicator marks stacked above: a sell reversal bar, then an up fractal. */
  function IndicatorsAbove(ind: Indicators): seq<MountKind> {
    (if ind.revBar == Some(Sell) then [RevBarMark(Sell)] else [])
    + (if ind.fractal == Some(Up) then [FractalMark(Up)] else [])
  }

  /** The indicator marks stacked below: a buy reversal bar, then a down fractal. */
  function IndicatorsBelow(ind: Indicators): seq<MountKind> {
    (if ind.revBar == Some(Buy) then [RevBarMark(Buy)] else [])
    + (if ind.fractal == Some(Down) then [FractalMark(Down)] else [])
  }

  /** Everything mounted above; trade markers go above only when `above` is false. */
  function AboveKinds(ind: Indicators, trades: seq<AssignedTrade>, above: bool): seq<MountKind> {
    IndicatorsAbove(ind) + (if above then [] else Markers(trades, trades))
  }

  /** Everything mounted below; trade markers go below exactly when `above` is true. */
  function BelowKinds(ind: Indicators, trades: seq<AssignedTrade>, above: bool): seq<MountKind> {
    IndicatorsBelow(ind) + (if above then Markers(trades, trades) else [])
  }

  // ---------------------------------------------------------------------------
  // The allocator

  class CandleMountPoints {
    var above: seq<Mounted>
    var below: seq<Mounted>

    /** Starts with both stacks empty and mounts everything of the candle. */
    constructor(candleWidth: real, candleIndicators: Indicators, trades: seq<AssignedTrade>,
                low: real, high: real, above: bool)
      ensures this.above == StackUp(AboveKinds(candleIndicators, trades, above), high, candleWidth, 0)
      ensures this.below == StackDown(BelowKinds(candleIndicators, trades, above), low, candleWidth, 0)
    {
      this.above := [];
      this.below := [];
      new;
      MountIndicators(candleWidth, candleIndicators, trades, low, high, above);
    }

    /** Pushes one mark on top of the stack above the candle. */
    method MountUp(kind: MountKind, candleWidth: real, high: real)
      modifies this
      ensures this.above == old(this.above) + [Mounted(kind, AbovePos(high, candleWidth, 1 + |old(this.above)|))]
      ensures this.below == old(this.below)
    {
      var yGap := candleWidth;
      this.above := this.above + [Mounted(kind, high - yGap * (1 + |this.above|) as real)];
    }

    /** Pushes one mark on the stack below the candle. */
    method MountDown(kind: MountKind, candleWidth: real, low: real)
      modifies this
      ensures this.below == old(this.below) + [Mounted(kind, BelowPos(low, candleWidth, 1 + |old(this.below)|))]
      ensures this.above == old(this.above)
    {
      var yGap := candleWidth;
      this.below := this.below + [Mounted(kind, low + yGap * (1 + |this.below|) as real)];
    }

    /** Mounts reversal bar, fractal and trade markers, appending to whatever is there. */
    method MountIndicators(candleWidth: real, indicators: Indicators, trades: seq<AssignedTrade>,
                           low: real, high: real, above: bool)
      modifies this
      ensures this.above == old(this.above)
                            + StackUp(AboveKinds(indicators, trades, above), high, candleWidth, |old(this.above)|)
      ensures this.below == old(this.below)
                            + StackDown(BelowKinds(indicators, trades, above), low, candleWidth, |old(this.below)|)
    {
      ghost var a0, b0 := this.above, this.below;
      ghost var up: seq<MountKind>, down: seq<MountKind> := [], [];
      assert this.above == a0 + StackUp(up, high, candleWidth, |a0|);
      assert this.below == b0 + StackDown(down, low, candleWidth, |b0|);
      if indicators.revBar == Some(Sell) {
        StackUpPush(this.above, a0, up, RevBarMark(Sell), high, candleWidth);
        MountUp(RevBarMark(Sell), candleWidth, high);
        up := up + [RevBarMark(Sell)];
      } else if indicators.revBar == Some(Buy) {
        StackDownPush(this.below, b0, down, RevBarMark(Buy), low, candleWidth);
        MountDown(RevBarMark(Buy), candleWidth, low);
        down := down + [RevBarMark(Buy)];
      }
      if indicators.fractal == Some(Up) {
        StackUpPush(this.above, a0, up, FractalMark(Up), high, candleWidth);
        MountUp(FractalMark(Up), candleWidth, high);
        up := up + [FractalMark(Up)];
      } else if indicators.fractal == Some(Down) {
        StackDownPush(this.below, b0, down, FractalMark(Down), low, candleWidth);
        MountDown(FractalMark(Down), candleWidth, low);
        down := down + [FractalMark(Down)];
      }
      assert up == IndicatorsAbove(indicators) && down == IndicatorsBelow(indicators);
      MountTrades(candleWidth, trades, low, high, above, a0, b0, up, down);
    }

    /**
     * The trade loop of `mountIndicators`: one marker per marked trade, below
     * when `above` is set and above otherwise, after the indicator marks.
     */
    method MountTrades(candleWidth: real, trades: seq<AssignedTrade>, low: real, high: real, above: bool,
                       ghost a0: seq<Mounted>, ghost b0: seq<Mounted>,
                       ghost up: seq<MountKind>, ghost down: seq<MountKind>)
      requires this.above == a0 + StackUp(up, high, candleWidth, |a0|)
      requires this.below == b0 + StackDown(down, low, candleWidth, |b0|)
      modifies this
      ensures this.above == a0 + StackUp(up + (if above then [] else Markers(trades, trades)), high, candleWidth, |a0|)
      ensures this.below == b0 + StackDown(down + (if above then Markers(trades, trades) else []), low, candleWidth, |b0|)
    {
      assert Markers(trades[..0], trades) == [] && up + [] == up && down + [] == down;
      ghost var ups, downs := up, down;
      var i := 0;
      while i < |trades|
        invariant 0 <= i <= |trades|
        invariant ups == up + (if above then [] else Markers(trades[..i], trades))
        invariant downs == down + (if above then Markers(trades[..i], trades) else [])
        invariant this.above == a0 + StackUp(ups, high, candleWidth, |a0|)
        invariant this.below == b0 + StackDown(downs, low, candleWidth, |b0|)
      {
        MarkersStep(trades, i, trades);
        var trade := trades[i];
        var tradeID := trade.tradeID;
        var foundStart := !trade.isThisCandleEnd && trade.isThisCandleStart;
        var foundEnd := FindEnd(trades, tradeID);
        assert foundStart && foundEnd.Some? <==> IsMarked(trade, trades);
        if foundStart && foundEnd.Some? {
          var profit := trade.profit;
          if above {
            StackDownPush(this.below, b0, downs, TradeMarker(trade), low, candleWidth);
            MountDown(TradeMark(trade.tradeType, profit, profit > 0.0), candleWidth, low);
            downs := downs + [TradeMarker(trade)];
          } else {
            StackUpPush(this.above, a0, ups, TradeMarker(trade), high, candleWidth);
            MountUp(TradeMark(trade.tradeType, profit, profit > 0.0), candleWidth, high);
            ups := ups + [TradeMarker(trade)];
          }
        }
        i := i + 1;
      }
      assert trades[..|trades|] == trades;
    }
  }
}
