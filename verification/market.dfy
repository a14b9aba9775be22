/** The market snapshot the calculator reads, typed. Every field the stages
    index directly is a plain number here: the source raises a KeyError when
    one is missing, and the typed snapshot cannot lack it. */
module Market {
  import opened Wrappers

  /** manual_break_points as the source reads it: a dictionary whose values
      may be null. A section that is absent or null is the empty map. */
  type ManualLevels = map<string, Option<real>>

  datatype MarketSnapshot = MarketSnapshot(
    symbol: Option<string>,
    previousClose: real,         // previous_day.close
    dayHigh: real,               // current_day.high
    dayLow: real,                // current_day.low
    currentPrice: real,          // current_day.current_price
    premarketBbt1h: real,        // bollinger_bands.premarket_bbt_1h
    premarketBbb1h: real,        // bollinger_bands.premarket_bbb_1h
    marketCloseBbt1h: real,      // bollinger_bands.market_close_bbt_1h
    marketCloseBbb1h: real,      // bollinger_bands.market_close_bbb_1h
    ema20: real,                 // emas_1h.ema20
    ema50: real,                 // emas_1h.ema50
    ema200: real,                // emas_1h.ema200
    manualBreakPoints: ManualLevels)

  /** The "bullish"/"bearish" label used by the trend horizons and by the
      first-target prediction. */
  datatype Bias = Bullish | Bearish
}
