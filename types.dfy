/**
 * The record shapes of lib/types.ts, and the JavaScript numbers the engine computes with.
 */
module Types {

  /**
   * A JavaScript number as the indicator engine produces it: either NaN or a
   * finite value. Finite values are idealised as mathematical reals (no rounding).
   * In this idealised model Infinity never arises once the candle fields are
   * finite (IEEE doubles could overflow in a window sum), so it has no constructor here.
   */
  datatype Num = NaN | Finite(value: real)

  /** One candle (`OHLCV`); the price fields are finite and idealised as reals. */
  datatype Ohlcv = Ohlcv(timestamp: int, open: real, high: real, low: real, close: real, volume: real)

  /** One output point (`BollingerBandsData`). */
  datatype BollingerBandsData = BollingerBandsData(timestamp: int, basis: Num, upper: Num, lower: Num)

  /** The only moving-average kind, `'SMA'`. */
  datatype MaType = SMA

  /**
   * The price field the bands are computed from. `Unrecognized` stands for any
   * other string a JavaScript caller may pass; the engine treats it as `Close`.
   */
  datatype PriceSource = Close | Open | High | Low | Unrecognized

  /** The parameters (`BollingerBandsInputs`). */
  datatype BollingerBandsInputs = BollingerBandsInputs(
    length: int,
    maType: MaType,
    source: PriceSource,
    stdDevMultiplier: real,
    offset: int)
}
