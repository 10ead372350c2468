/**
 * packages/canvas-trading/src/draw/drawFunctions.ts, `findCandleWithTrade`:
 * the scan that finds the candle holding one leg of a trade. The `return`
 * inside the inner `forEach` callback does not stop the scan, so every
 * match overwrites the previous one and the LAST match in scan order wins.
 */
module DrawFunctions {
  import opened Wrappers
  import opened Types

  /** `FoundCandle<T>`: `candle` is None where the source stores `false`. */
  datatype FoundCandle<T> = FoundCandle(candle: Option<T>, index: int, innerIndex: int)

  /** The leg looked for: start-only for `end == false`, end-only for `end == true`. */
  predicate RightLeg(t: AssignedTrade, id: int, end: bool) {
    && t.tradeID == id
    && (if !end then t.isThisCandleStart && !t.isThisCandleEnd else !t.isThisCandleStart && t.isThisCandleEnd)
  }

  /** Trade `j` of candle `i` is a matching leg. */
  predicate IsMatch<T>(candles: seq<T>, tradesOf: T -> Option<seq<AssignedTrade>>, id: int, end: bool, i: int, j: int) {
    && 0 <= i < |candles|
    && tradesOf(candles[i]).Some?
    && 0 <= j < |tradesOf(candles[i]).value|
    && RightLeg(tradesOf(candles[i]).value[j], id, end)
  }

  /** Scan order: candle by candle, and trade by trade within a candle. */
  predicate Before(i1: int, j1: int, i2: int, j2: int) {
    i1 < i2 || (i1 == i2 && j1 < j2)
  }

  /** `found` names a matching leg, and the record it carries is that leg's candle. */
  predicate IsFound<T(==)>(candles: seq<T>, tradesOf: T -> Option<seq<AssignedTrade>>, id: int, end: bool, found: FoundCandle<T>) {
    && IsMatch(candles, tradesOf, id, end, found.index, found.innerIndex)
    && found.candle == Some(candles[found.index])
  }

  /**
   * The nested scan. Not found: `(false, 0, 0)`. Found: a matching leg, and
   * no matching leg comes after it in scan order.
   */
  method FindCandleWithTrade<T(==)>(candles: seq<T>, tradesOf: T -> Option<seq<AssignedTrade>>, id: int, end: bool)
    returns (r: FoundCandle<T>)
    ensures r.candle.None? <==> forall i, j :: !IsMatch(candles, tradesOf, id, end, i, j)
    ensures r.candle.None? ==> r == FoundCandle(None, 0, 0)
    ensures r.candle.Some? ==> IsFound(candles, tradesOf, id, end, r)
    ensures r.candle.Some? ==> forall i, j :: IsMatch(candles, tradesOf, id, end, i, j) ==>
                                 !Before(r.index, r.innerIndex, i, j)
  {
    r := FoundCandle(None, 0, 0);
    var index := 0;
    while index < |candles|
      invariant 0 <= index <= |candles|
      invariant r.candle.None? ==> r == FoundCandle(None, 0, 0)
      invariant r.candle.None? <==> forall i, j :: i < index ==> !IsMatch(candles, tradesOf, id, end, i, j)
      invariant r.candle.Some? ==> IsFound(candles, tradesOf, id, end, r) && r.index < index
      invariant r.candle.Some? ==> forall i, j :: i < index && IsMatch(candles, tradesOf, id, end, i, j) ==>
                                     !Before(r.index, r.innerIndex, i, j)
    {
      var candle := candles[index];
      var trades := tradesOf(candle);
      if trades.Some? {
        var innerIndex := 0;
        while innerIndex < |trades.value|
          invariant 0 <= innerIndex <= |trades.value|
          invariant r.candle.None? ==> r == FoundCandle(None, 0, 0)
          invariant r.candle.None? <==>
                      forall i, j :: Before(i, j, index, innerIndex) ==> !IsMatch(candles, tradesOf, id, end, i, j)
          invariant r.candle.Some? ==> IsFound(candles, tradesOf, id, end, r)
                                       && Before(r.index, r.innerIndex, index, innerIndex)
          invariant r.candle.Some? ==> forall i, j :: Before(i, j, index, innerIndex) && IsMatch(candles, tradesOf, id, end, i, j) ==>
                                         !Before(r.index, r.innerIndex, i, j)
        {
          var candleTrade := trades.value[innerIndex];
          var rightType := if !end then candleTrade.isThisCandleStart && !candleTrade.isThisCandleEnd
                           else !candleTrade.isThisCandleStart && candleTrade.isThisCandleEnd;
          assert IsMatch(candles, tradesOf, id, end, index, innerIndex) <==> candleTrade.tradeID == id && rightType;
          if candleTrade.tradeID == id && rightType {
            r := FoundCandle(Some(candle), index, innerIndex);
          }
          innerIndex := innerIndex + 1;
        }
      }
      index := index + 1;
    }
  }

  /** A leg marked as both start and end (a one-candle trade) is found by neither lookup. */
  lemma OneCandleLegMatchesNeither(t: AssignedTrade, id: int)
    requires t.isThisCandleStart && t.isThisCandleEnd
    ensures !RightLeg(t, id, false) && !RightLeg(t, id, true)
  {
  }
}
