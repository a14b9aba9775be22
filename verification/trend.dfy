/** Algorithm 3: the hourly EMA20/EMA50/EMA200 against the current price. */
module Trend {
  import opened Numeric
  import opened Market

  /** The trend_analysis record. */
  datatype TrendAnalysis = TrendAnalysis(
    shortTerm: Bias,
    mediumTerm: Bias,
    longTerm: Bias,
    trendStrength: real)

  /** How many of the five bullish comparisons hold. */
  function BullishSignals(price: real, ema20: real, ema50: real, ema200: real): (n: nat)
    ensures n <= 5
    ensures n == 5 <==> price > ema20 && ema20 > ema50 && ema50 > ema200 && price > ema50 && price > ema200
    ensures n == 0 <==> price <= ema20 && ema20 <= ema50 && ema50 <= ema200 && price <= ema50 && price <= ema200
  {
    Indicator(price > ema20) + Indicator(ema20 > ema50) + Indicator(ema50 > ema200)
      + Indicator(price > ema50) + Indicator(price > ema200)
  }

  function BiasOf(bullish: bool): Bias {
    if bullish then Bullish else Bearish
  }

  function Analyze(price: real, ema20: real, ema50: real, ema200: real): (t: TrendAnalysis)
    ensures t.shortTerm == Bullish <==> price > ema20
    ensures t.mediumTerm == Bullish <==> ema20 > ema50
    ensures t.longTerm == Bullish <==> ema50 > ema200
    ensures t.trendStrength == BullishSignals(price, ema20, ema50, ema200) as real / 5.0
    ensures 0.0 <= t.trendStrength <= 1.0
  {
    var signals := BullishSignals(price, ema20, ema50, ema200);
    // round(signals / 5.0, 2) leaves the fifth unchanged
    assert OnGrid(signals as real / 5.0, 2);
    RoundOnGrid(signals as real / 5.0, 2);
    TrendAnalysis(
      BiasOf(price > ema20),
      BiasOf(ema20 > ema50),
      BiasOf(ema50 > ema200),
      Round(signals as real / 5.0, 2))
  }

  /** Full strength exactly when the price and the three averages are
      stacked in bullish order; the two extra price comparisons then follow. */
  lemma FullStrengthIffStacked(price: real, ema20: real, ema50: real, ema200: real)
    ensures Analyze(price, ema20, ema50, ema200).trendStrength == 1.0 <==>
              price > ema20 > ema50 > ema200
  {
    var n := BullishSignals(price, ema20, ema50, ema200);
    assert n as real / 5.0 == 1.0 <==> n == 5;
  }

  /** Zero strength exactly when all three horizons are bearish. */
  lemma ZeroStrengthIffAllBearish(price: real, ema20: real, ema50: real, ema200: real)
    ensures var t := Analyze(price, ema20, ema50, ema200);
            t.trendStrength == 0.0 <==>
              t.shortTerm == Bearish && t.mediumTerm == Bearish && t.longTerm == Bearish
  {
    var n := BullishSignals(price, ema20, ema50, ema200);
    assert n as real / 5.0 == 0.0 <==> n == 0;
  }
}
