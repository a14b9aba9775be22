/** Algorithm 5: which of the day's extremes is predicted to be reached
    first, from the distances to them, the gap direction and the trend
    strength recorded by the earlier stages. */
module Targets {
  import opened Market
  import Gap

  /** The directional_targets record. */
  datatype DirectionalTargets = DirectionalTargets(
    bullishTarget: real,
    bearishTarget: real,
    firstTargetPrediction: Bias)

  function Analyze(price: real, dayHigh: real, dayLow: real,
                   gapDirection: Gap.Direction, trendStrength: real): (t: DirectionalTargets)
    ensures t.bullishTarget == dayHigh && t.bearishTarget == dayLow
    ensures dayHigh - price < price - dayLow ==>
              (t.firstTargetPrediction == Bullish <==> gapDirection == Gap.Up && trendStrength > 0.6)
    ensures dayHigh - price >= price - dayLow ==>
              (t.firstTargetPrediction == Bearish <==> gapDirection == Gap.Down && trendStrength < 0.4)
  {
    var distanceToHigh := dayHigh - price;
    var distanceToLow := price - dayLow;
    var prediction :=
      if distanceToHigh < distanceToLow then
        if gapDirection == Gap.Up && trendStrength > 0.6 then Bullish else Bearish
      else
        if gapDirection == Gap.Down && trendStrength < 0.4 then Bearish else Bullish;
    DirectionalTargets(dayHigh, dayLow, prediction)
  }

  /** An up gap with a strong trend predicts the high first, wherever the
      price sits in the day's range; a down gap with a weak trend predicts
      the low first. */
  lemma MomentumOverridesDistance(price: real, dayHigh: real, dayLow: real,
                                  gapDirection: Gap.Direction, trendStrength: real)
    ensures gapDirection == Gap.Up && trendStrength > 0.6 ==>
              Analyze(price, dayHigh, dayLow, gapDirection, trendStrength).firstTargetPrediction == Bullish
    ensures gapDirection == Gap.Down && trendStrength < 0.4 ==>
              Analyze(price, dayHigh, dayLow, gapDirection, trendStrength).firstTargetPrediction == Bearish
  {
  }

  /** Without momentum (an up gap with a trend strength of at most 0.6, or a
      down gap with one of at least 0.4) the prediction is the FARTHER
      extreme: a price near the high is expected to reverse, one near the
      low to bounce; equal distances predict the high. */
  lemma FartherExtremeWithoutMomentum(price: real, dayHigh: real, dayLow: real,
                                      gapDirection: Gap.Direction, trendStrength: real)
    requires gapDirection == Gap.Up ==> trendStrength <= 0.6
    requires gapDirection == Gap.Down ==> trendStrength >= 0.4
    ensures (Analyze(price, dayHigh, dayLow, gapDirection, trendStrength).firstTargetPrediction == Bullish)
        <==> (dayHigh - price >= price - dayLow)
  {
  }
}
