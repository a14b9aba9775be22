/** Algorithm 7: the final decision engine. The gap, trend, alert and target
    records vote bullish or bearish factors; the larger side decides the
    direction (a tie is SHORT), its share of the votes gives the confidence,
    and fixed multipliers of the price give entries, stop and targets. */
module Decision {
  import opened Numeric
  import opened Market
  import Gap
  import Trend
  import Alerts
  import Targets

  datatype Direction = Long | Short

  /** The trading_signals record. */
  datatype TradingSignals = TradingSignals(
    primaryDirection: Direction,
    confidence: real,
    entryLevels: seq<real>,
    stopLoss: real,
    takeProfit: seq<real>,
    riskReward: real)

  /** Bullish and bearish factor counts. */
  datatype Votes = Votes(bullish: nat, bearish: nat)

  /** An up gap is bullish unless it is large (a large gap is expected to
      fill, two bearish factors); a down gap is bearish. */
  function GapVote(gap: Gap.GapAnalysis): Votes {
    if gap.gapDirection == Gap.Up then
      if gap.classification == Gap.Large then Votes(0, 2) else Votes(1, 0)
    else Votes(0, 1)
  }

  /** A strong trend (above 0.6) is two bullish factors, a weak one (below
      0.4) two bearish ones; in between it does not vote. */
  function TrendVote(trendStrength: real): Votes {
    if trendStrength > 0.6 then Votes(2, 0)
    else if trendStrength < 0.4 then Votes(0, 2)
    else Votes(0, 0)
  }

  /** A high or medium correction level is two bearish factors, a low one a
      single bearish factor. */
  function AlertVote(level: Alerts.CorrectionLevel): Votes {
    match level
    case High => Votes(0, 2)
    case Medium => Votes(0, 2)
    case Low => Votes(0, 1)
    case _ => Votes(0, 0)
  }

  function TargetVote(prediction: Bias): Votes {
    if prediction == Bullish then Votes(1, 0) else Votes(0, 1)
  }

  /** The factors of all four votes. The gap and the target always vote, so
      at least two factors are counted and the confidence division is safe. */
  function Tally(gap: Gap.GapAnalysis, trend: Trend.TrendAnalysis,
                 alerts: Alerts.Alerts, targets: Targets.DirectionalTargets): (v: Votes)
    ensures v.bullish + v.bearish >= 2
    ensures v.bullish <= 4 && v.bearish <= 7
  {
    var g, t := GapVote(gap), TrendVote(trend.trendStrength);
    var a, p := AlertVote(alerts.correctionLevel), TargetVote(targets.firstTargetPrediction);
    Votes(g.bullish + t.bullish + a.bullish + p.bullish,
          g.bearish + t.bearish + a.bearish + p.bearish)
  }

  /** The decision engine's counters, built up one rule at a time. */
  method CountFactors(gap: Gap.GapAnalysis, trend: Trend.TrendAnalysis,
                      alerts: Alerts.Alerts, targets: Targets.DirectionalTargets)
    returns (bullishFactors: nat, bearishFactors: nat)
    ensures bullishFactors == Tally(gap, trend, alerts, targets).bullish
    ensures bearishFactors == Tally(gap, trend, alerts, targets).bearish
  {
    bullishFactors, bearishFactors := 0, 0;
    // gap: a large up gap is expected to fill
    if gap.gapDirection == Gap.Up {
      if gap.classification == Gap.Large {
        bearishFactors := bearishFactors + 2;
      } else {
        bullishFactors := bullishFactors + 1;
      }
    } else {
      bearishFactors := bearishFactors + 1;
    }
    // trend
    if trend.trendStrength > 0.6 {
      bullishFactors := bullishFactors + 2;
    } else if trend.trendStrength < 0.4 {
      bearishFactors := bearishFactors + 2;
    }
    // overbought
    if alerts.correctionLevel == Alerts.High || alerts.correctionLevel == Alerts.Medium {
      bearishFactors := bearishFactors + 2;
    } else if alerts.correctionLevel == Alerts.Low {
      bearishFactors := bearishFactors + 1;
    }
    // directional target
    if targets.firstTargetPrediction == Bullish {
      bullishFactors := bullishFactors + 1;
    } else {
      bearishFactors := bearishFactors + 1;
    }
  }

  /** LONG on a strict bullish majority, otherwise SHORT. */
  function PrimaryDirection(v: Votes): (d: Direction)
    ensures d == Long <==> v.bullish > v.bearish
  {
    if v.bullish > v.bearish then Long else Short
  }

  /** min(0.9, winning factors / all factors), before rounding. */
  function Confidence(v: Votes): (c: real)
    requires v.bullish + v.bearish > 0
    ensures 0.5 <= c <= 0.9
  {
    var winning := if PrimaryDirection(v) == Long then v.bullish else v.bearish;
    var total := v.bullish + v.bearish;
    AtLeastHalf(winning, total);
    Min(0.9, winning as real / total as real)
  }

  lemma AtLeastHalf(w: nat, t: nat)
    requires 0 < t <= 2 * w
    ensures w as real / t as real >= 0.5
  {
    var q := w as real / t as real;
    assert q * t as real == w as real;
    if q < 0.5 {
      assert (0.5 - q) * t as real > 0.0;
    }
  }

  /** The source's risk: the distance from the price to the stop. */
  function Risk(price: real, s: TradingSignals): real {
    Abs(price - s.stopLoss)
  }

  /** reward / risk rounded to one decimal, or 1.0 when there is no risk. */
  function RiskReward(risk: real, reward: real): (rr: real)
    requires risk >= 0.0 && reward >= 0.0
    ensures rr >= 0.0
    ensures risk == 0.0 ==> rr == 1.0
  {
    if risk > 0.0 then
      NonNegativeRatio(reward, risk);
      RoundOnGrid(0.0, 1);
      RoundMonotone(0.0, reward / risk, 1);
      Round(reward / risk, 1)
    else 1.0
  }

  lemma NonNegativeRatio(a: real, b: real)
    requires a >= 0.0 && b > 0.0
    ensures a / b >= 0.0
  {
  }

  /** The two entry levels: just below the price for LONG, just above it
      for SHORT, nearest first. */
  function EntryLevels(d: Direction, price: real): (e: seq<real>)
    ensures |e| == 2
  {
    if d == Long then [Round(price * 0.999, 2), Round(price * 0.997, 2)]
    else [Round(price * 1.001, 2), Round(price * 1.003, 2)]
  }

  /** The stop: 1.5% against the trade. */
  function StopLoss(d: Direction, price: real): (s: real)
    ensures Abs(s - price * (if d == Long then 0.985 else 1.015)) <= 0.005
  {
    RoundIsNearest(price * 0.985, 2);
    RoundIsNearest(price * 1.015, 2);
    if d == Long then Round(price * 0.985, 2) else Round(price * 1.015, 2)
  }

  /** The two take-profit levels: the day extreme in the direction of the
      trade, then 2% beyond it. */
  function TakeProfit(d: Direction, targets: Targets.DirectionalTargets): (t: seq<real>)
    ensures |t| == 2
    ensures t[0] == if d == Long then targets.bullishTarget else targets.bearishTarget
  {
    if d == Long then [targets.bullishTarget, Round(targets.bullishTarget * 1.02, 2)]
    else [targets.bearishTarget, Round(targets.bearishTarget * 0.98, 2)]
  }

  /** The trading_signals record from the recorded stage results. */
  function Decide(price: real, gap: Gap.GapAnalysis, trend: Trend.TrendAnalysis,
                  alerts: Alerts.Alerts, targets: Targets.DirectionalTargets): (s: TradingSignals)
    ensures s.primaryDirection == Long <==>
              Tally(gap, trend, alerts, targets).bullish > Tally(gap, trend, alerts, targets).bearish
    ensures 0.5 <= s.confidence <= 0.9
    ensures s.entryLevels == EntryLevels(s.primaryDirection, price)
    ensures s.stopLoss == StopLoss(s.primaryDirection, price)
    ensures s.takeProfit == TakeProfit(s.primaryDirection, targets)
    ensures |s.entryLevels| == 2 && |s.takeProfit| == 2
    ensures s.takeProfit[0] ==
              if s.primaryDirection == Long then targets.bullishTarget else targets.bearishTarget
    ensures s.riskReward >= 0.0
    ensures Risk(price, s) == 0.0 ==> s.riskReward == 1.0
    ensures Risk(price, s) > 0.0 ==>
              s.riskReward == Round(Abs(s.takeProfit[0] - price) / Risk(price, s), 1)
  {
    var votes := Tally(gap, trend, alerts, targets);
    var direction := PrimaryDirection(votes);
    var confidence := Confidence(votes);
    RoundWithin(confidence, 0.5, 0.9, 2);
    var stop := StopLoss(direction, price);
    var profits := TakeProfit(direction, targets);
    var risk := Abs(price - stop);
    var reward := Abs(profits[0] - price);
    TradingSignals(direction, Round(confidence, 2), EntryLevels(direction, price), stop, profits,
                   RiskReward(risk, reward))
  }

  /** A large up gap with a high or medium correction level is SHORT whatever
      the trend and the target prediction say: mean reversion overrides
      trend following. */
  lemma GapFillOverridesTrend(price: real, gap: Gap.GapAnalysis, trend: Trend.TrendAnalysis,
                              alerts: Alerts.Alerts, targets: Targets.DirectionalTargets)
    requires gap.gapDirection == Gap.Up && gap.classification == Gap.Large
    requires alerts.correctionLevel == Alerts.High || alerts.correctionLevel == Alerts.Medium
    ensures Decide(price, gap, trend, alerts, targets).primaryDirection == Short
  {
    var v := Tally(gap, trend, alerts, targets);
    assert v.bearish >= 4 && v.bullish <= 3;
  }

  /** From five dollars up, or for any non-negative price in whole cents,
      the entries and the stop are on the losing side of the price and
      ordered outwards from it: for LONG stop <= second entry <= first entry
      <= price, for SHORT the mirror. */
  lemma LevelsOnLosingSide(d: Direction, price: real)
    requires price >= 5.0 || (price >= 0.0 && OnGrid(price, 2))
    ensures var e, stop := EntryLevels(d, price), StopLoss(d, price);
            d == Long ==> stop <= e[1] <= e[0] <= price
    ensures var e, stop := EntryLevels(d, price), StopLoss(d, price);
            d == Short ==> price <= e[0] <= e[1] <= stop
  {
    if d == Long {
      LongLevelsBelow(price);
    } else {
      ShortLevelsAbove(price);
    }
  }

  lemma LongLevelsBelow(price: real)
    requires price >= 5.0 || (price >= 0.0 && OnGrid(price, 2))
    ensures Round(price * 0.985, 2) <= Round(price * 0.997, 2)
    ensures Round(price * 0.997, 2) <= Round(price * 0.999, 2) <= price
  {
    RoundMonotone(price * 0.985, price * 0.997, 2);
    RoundMonotone(price * 0.997, price * 0.999, 2);
    if price >= 5.0 {
      // 0.1% of five dollars is half a cent: rounding cannot climb back
      RoundIsNearest(price * 0.999, 2);
    } else {
      RoundOnGrid(price, 2);
      RoundMonotone(price * 0.999, price, 2);
    }
  }

  lemma ShortLevelsAbove(price: real)
    requires price >= 5.0 || (price >= 0.0 && OnGrid(price, 2))
    ensures price <= Round(price * 1.001, 2) <= Round(price * 1.003, 2)
    ensures Round(price * 1.003, 2) <= Round(price * 1.015, 2)
  {
    RoundMonotone(price * 1.001, price * 1.003, 2);
    RoundMonotone(price * 1.003, price * 1.015, 2);
    if price >= 5.0 {
      RoundIsNearest(price * 1.001, 2);
    } else {
      RoundOnGrid(price, 2);
      RoundMonotone(price, price * 1.001, 2);
    }
  }

  /** Above five dollars the entries and the stop are strictly on the losing
      side of the price: the smallest offset, 0.1%, is then more than half a
      cent, so rounding cannot bring a level back to the price. */
  lemma LevelsStrictlyOnLosingSide(d: Direction, price: real)
    requires price > 5.0
    ensures var e, stop := EntryLevels(d, price), StopLoss(d, price);
            d == Long ==> stop < price && e[1] < price && e[0] < price
    ensures var e, stop := EntryLevels(d, price), StopLoss(d, price);
            d == Short ==> stop > price && e[1] > price && e[0] > price
  {
    if d == Long {
      RoundIsNearest(price * 0.999, 2);
      RoundIsNearest(price * 0.997, 2);
      RoundIsNearest(price * 0.985, 2);
    } else {
      RoundIsNearest(price * 1.001, 2);
      RoundIsNearest(price * 1.003, 2);
      RoundIsNearest(price * 1.015, 2);
    }
  }

  /** Hence, above five dollars, the risk is positive and the reported
      risk/reward is reward / risk rounded to one decimal. */
  lemma RiskPositiveAboveFiveDollars(price: real, gap: Gap.GapAnalysis, trend: Trend.TrendAnalysis,
                                     alerts: Alerts.Alerts, targets: Targets.DirectionalTargets)
    requires price > 5.0
    ensures var s := Decide(price, gap, trend, alerts, targets);
            Risk(price, s) > 0.0 &&
            s.riskReward == Round(Abs(s.takeProfit[0] - price) / Risk(price, s), 1)
  {
    var s := Decide(price, gap, trend, alerts, targets);
    LevelsStrictlyOnLosingSide(s.primaryDirection, price);
  }

  /** Below five dollars, in whole cents, the first entry rounds back to the
      price itself, in either direction. */
  lemma FirstEntryAtPriceBelowFiveDollars(d: Direction, price: real)
    requires 0.0 <= price < 5.0 && OnGrid(price, 2)
    ensures EntryLevels(d, price)[0] == price
  {
    var cents := Scaled(price, 2).Floor;
    if d == Long {
      RoundToNearestUnit(price * 0.999, 2, cents);
    } else {
      RoundToNearestUnit(price * 1.001, 2, cents);
    }
  }

  /** At one cent every level collapses onto the price: both entries and the
      stop are 0.01, so there is no risk and the risk/reward is reported as
      1.0, whatever the direction. */
  lemma PennyPriceHasNoRisk(gap: Gap.GapAnalysis, trend: Trend.TrendAnalysis,
                            alerts: Alerts.Alerts, targets: Targets.DirectionalTargets)
    ensures var s := Decide(0.01, gap, trend, alerts, targets);
            s.entryLevels == [0.01, 0.01] && s.stopLoss == 0.01 &&
            Risk(0.01, s) == 0.0 && s.riskReward == 1.0
  {
    RoundToNearestUnit(0.01 * 0.999, 2, 1);
    RoundToNearestUnit(0.01 * 0.997, 2, 1);
    RoundToNearestUnit(0.01 * 0.985, 2, 1);
    RoundToNearestUnit(0.01 * 1.001, 2, 1);
    RoundToNearestUnit(0.01 * 1.003, 2, 1);
    RoundToNearestUnit(0.01 * 1.015, 2, 1);
  }

  /** Below five dollars, a price with sub-cent digits can put the levels on
      the wrong side: a LONG at 0.998 enters at 1.0 twice, above the price,
      and a SHORT at 1.002 enters first at 1.0, below it. */
  lemma SubCentPricesCrossTheirEntries()
    ensures EntryLevels(Long, 0.998) == [1.0, 1.0]
    ensures StopLoss(Long, 0.998) == 0.98
    ensures EntryLevels(Short, 1.002)[0] == 1.0
  {
    RoundToNearestUnit(0.998 * 0.999, 2, 100);
    RoundToNearestUnit(0.998 * 0.997, 2, 100);
    RoundToNearestUnit(0.998 * 0.985, 2, 98);
    RoundToNearestUnit(1.002 * 1.001, 2, 100);
  }

  /** Below a quarter, a day extreme with sub-cent digits can put the second
      take-profit before the first: a LONG with day high 0.2401 takes profit
      at 0.2401, then at 0.24. */
  lemma SubCentTargetsOutOfOrder()
    ensures TakeProfit(Long, Targets.DirectionalTargets(0.2401, 0.2, Bullish)) == [0.2401, 0.24]
  {
    RoundToNearestUnit(0.2401 * 1.02, 2, 24);
  }

  /** From a quarter up, or for any non-negative day extreme in whole cents,
      the second take-profit lies beyond the first in the direction of the
      trade: 2% of a quarter is half a cent. */
  lemma TakeProfitsOrdered(d: Direction, targets: Targets.DirectionalTargets)
    requires d == Long ==>
               targets.bullishTarget >= 0.25 ||
               (targets.bullishTarget >= 0.0 && OnGrid(targets.bullishTarget, 2))
    requires d == Short ==>
               targets.bearishTarget >= 0.25 ||
               (targets.bearishTarget >= 0.0 && OnGrid(targets.bearishTarget, 2))
    ensures d == Long ==> TakeProfit(d, targets)[0] <= TakeProfit(d, targets)[1]
    ensures d == Short ==> TakeProfit(d, targets)[1] <= TakeProfit(d, targets)[0]
  {
    var high, low := targets.bullishTarget, targets.bearishTarget;
    if d == Long {
      if high >= 0.25 {
        RoundIsNearest(high * 1.02, 2);
      } else {
        RoundOnGrid(high, 2);
        RoundMonotone(high, high * 1.02, 2);
      }
    } else {
      if low >= 0.25 {
        RoundIsNearest(low * 0.98, 2);
      } else {
        RoundOnGrid(low, 2);
        RoundMonotone(low * 0.98, low, 2);
      }
    }
  }

}
