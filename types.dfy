/**
 * The chart's data types (packages/canvas-trading/src/types.ts), the tuning
 * constants (packages/canvas-trading/src/config.ts) and the few JavaScript
 * numeric helpers the engine relies on.
 */
module Types {
  import opened Wrappers

  /** Smallest window the reducer lets the user zoom to, and the shortest history a canvas is built from. */
  const MinCandlesShown: int := 30
  /** Device-pixel factor applied to the canvas width and height. */
  const ScaleForQuality: real := 2.0
  const ZoomStrength: real := 0.12
  const ShiftStrength: real := 0.15

  datatype RevBar = Buy | Sell
  datatype Fractal = Up | Down
  /** The three alligator lines; a value of exactly 0 means "absent". */
  datatype Alligator = Alligator(jaw: real, teeth: real, lips: real)
  datatype Ao = Ao(value: real, vertexValue: real)
  /** `revBar` and `fractal` are None where the source has the empty string. */
  datatype Indicators = Indicators(revBar: Option<RevBar>, fractal: Option<Fractal>, alligator: Alligator, ao: Ao)

  datatype TradeType = Long | Short
  datatype AssignedTrade = AssignedTrade(
    tradeID: int,
    tradeType: TradeType,
    buyPrice: real,
    sellPrice: real,
    profit: real,
    isThisCandleStart: bool,
    isThisCandleEnd: bool)

  /** One input candle; a price of exactly 0 is the "no data" sentinel. */
  datatype Candle = Candle(
    open: real,
    openTime: string,
    closeTime: string,
    high: real,
    low: real,
    close: real,
    indicators: Indicators,
    trades: Option<seq<AssignedTrade>>,
    asset: Option<string>)

  datatype Vector2 = Vector2(x: real, y: real)

  /** What a mount slot holds: a reversal bar, a fractal, or a trade marker (MountedTrade). */
  datatype MountKind =
    | RevBarMark(revBar: RevBar)
    | FractalMark(fractal: Fractal)
    | TradeMark(tradeType: TradeType, value: real, profitable: bool)

  /** A marker placed at pixel height `yPos` (MountedIndicator / MountedTrade). */
  datatype Mounted = Mounted(kind: MountKind, yPos: real)

  /** The pan/zoom window: `shift` newest candles hidden, `candlesShown` candles visible. */
  datatype Viewport = Viewport(shift: int, candlesShown: int)

  /** The optional `trades` of an input candle, as a first-class accessor for the trade locator. */
  function CandleTrades(c: Candle): Option<seq<AssignedTrade>> {
    c.trades
  }

  function Min(a: int, b: int): int { if a <= b then a else b }
  function Max(a: int, b: int): int { if a >= b then a else b }
  function MinR(a: real, b: real): real { if a <= b then a else b }
  function MaxR(a: real, b: real): real { if a >= b then a else b }
  function Abs(a: real): real { if a < 0.0 then -a else a }

  /** JavaScript `Math.round`: the nearest integer, halves rounded up. */
  function Round(v: real): (r: int)
    ensures v - 0.5 < r as real <= v + 0.5
  {
    (v + 0.5).Floor
  }
}
