/** The documented NVDA snapshot, run through the whole pipeline. */
module Scenario {
  import opened Wrappers
  import opened Numeric
  import opened Market
  import Gap
  import Imbalance
  import Trend
  import Alerts
  import Targets
  import BreakPoints
  import Decision
  import Calculator

  /** The NVDA snapshot with the given manual levels. */
  function Nvda(levels: ManualLevels): MarketSnapshot {
    MarketSnapshot(
      Some("NVDA"),
      163.87, 172.81, 169.91, 171.89,
      174.54, 160.82, 166.74, 161.84,
      167.68, 164.25, 152.47,
      levels)
  }

  /** The manual levels of the documented input. */
  function NvdaLevels(): ManualLevels {
    map["break_point" := Some(171.67), "max_pos_exp" := Some(174.04),
        "int_pos_exp" := Some(172.85), "int_neg_exp" := Some(170.48),
        "max_neg_exp" := Some(169.29)]
  }

  /** Without manual levels: a large up gap of 4.9% (fill probability 0.85),
      a fully bullish trend, and a SHORT signal because the gap fill and the
      high correction level outvote the trend. Three bullish against four
      bearish factors give a confidence of 4/7, rounded to 0.57, and the
      risk/reward is 1.98 / 2.58, rounded to 0.8. */
  lemma NvdaWithoutManualLevels(timestamp: string)
    ensures Calculator.Analyze(Nvda(map[]), timestamp) ==
              Success(Calculator.AnalysisResult(
                timestamp, "NVDA",
                Gap.GapAnalysis(8.02, Gap.Up, 4.9, 0.85, Gap.Large),
                Imbalance.ImbalanceAnalysis(1.047, 0.994, Imbalance.Bullish, Imbalance.Moderate),
                Trend.TrendAnalysis(Bullish, Bullish, Bullish, 1.0),
                Alerts.Alerts(true, true, true, true, Alerts.High),
                Targets.DirectionalTargets(172.81, 169.91, Bullish),
                BreakPoints.BreakPointAnalysis(None, None, None, 0.5),
                Decision.TradingSignals(Decision.Short, 0.57, [172.06, 172.41], 174.47,
                                        [169.91, 166.51], 0.8)))
  {
    // gap: 8.02 up, 4.894...% rounded to 4.9
    RoundToNearestUnit(8.02, 2, 802);
    RoundToNearestUnit(8.02 / 163.87 * 100.0, 1, 49);
    // imbalance ratios 1.04678... and 0.99369...
    RoundToNearestUnit(174.54 / 166.74, 3, 1047);
    RoundToNearestUnit(160.82 / 161.84, 3, 994);
    // decision: confidence 4/7, levels around 171.89
    RoundToNearestUnit(4.0 / 7.0, 2, 57);
    RoundToNearestUnit(171.89 * 1.001, 2, 17206);
    RoundToNearestUnit(171.89 * 1.003, 2, 17241);
    RoundToNearestUnit(171.89 * 1.015, 2, 17447);
    RoundToNearestUnit(169.91 * 0.98, 2, 16651);
    RoundToNearestUnit(1.98 / 2.58, 1, 8);
  }

  /** The break point stage on the documented levels, with the recorded
      trend strength 1.0 and gap percentage 4.9: the break point lies 0.22
      below the price and is the nearest support, the intermediate positive
      expansion is the nearest resistance, and the probability of breaking
      upwards is 0.7 * 1.0 + 0.3 * 4.9 / 10 = 0.847, rounded to 0.85. */
  lemma NvdaBreakPoints()
    ensures BreakPoints.Analyze(NvdaLevels(), 171.89, 1.0, 4.9) ==
              BreakPoints.BreakPointAnalysis(Some(0.22), Some(172.85), Some(171.67), 0.85)
  {
    var levels := NvdaLevels();
    var resistances := BreakPoints.ResistanceCandidates(levels);
    var supports := BreakPoints.SupportCandidates(levels);
    assert resistances == [Some(171.67), Some(172.85), Some(174.04)];
    assert supports == [Some(171.67), Some(170.48), Some(169.29)];
    assert BreakPoints.Above(resistances, 171.89) == [172.85, 174.04];
    assert BreakPoints.Below(supports, 171.89) == [171.67, 170.48, 169.29];
    RoundToNearestUnit(171.89 - 171.67, 2, 22);
    assert BreakPoints.ProbabilityBreakUp(1.0, 4.9) == 0.847;
    RoundToNearestUnit(0.847, 2, 85);
  }

  /** The manual levels change only the break point record: the signal is
      the same SHORT as without them. */
  lemma NvdaWithManualLevels(timestamp: string)
    ensures var r := Calculator.Analyze(Nvda(NvdaLevels()), timestamp);
            r.Success? &&
            r.value.breakPointAnalysis ==
              BreakPoints.BreakPointAnalysis(Some(0.22), Some(172.85), Some(171.67), 0.85) &&
            r.value.tradingSignals ==
              Decision.TradingSignals(Decision.Short, 0.57, [172.06, 172.41], 174.47,
                                      [169.91, 166.51], 0.8)
  {
    NvdaWithoutManualLevels(timestamp);
    NvdaBreakPoints();
  }
}
