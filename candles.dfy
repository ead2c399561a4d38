/** OHLC candles as the providers return them and the chart draws them. */
module Candles {
  /** Prices are carried untouched from provider to chart; nothing computes with them. */
  type Price = real

  /** `[timestamp, open, high, low, close]`. */
  datatype Candle = Candle(time: int, open: Price, high: Price, low: Price, close: Price)

  /** The sort key of a candle: its timestamp. */
  function TimeKey(c: Candle): real {
    c.time as real
  }
}
