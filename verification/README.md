# Trading calculator model

A Dafny model of `TradingCalculator` from the trading-analysis MVP. The
calculator takes one market snapshot for a symbol and runs seven algorithms
in a fixed order. Each algorithm inserts one record into the calculator's
`analysis_result` dictionary:

1. gap analysis
2. Bollinger band imbalance
3. EMA trend
4. multi-timeframe overbought alerts
5. directional targets
6. manual break points
7. the final decision engine, which votes bullish and bearish factors into
   a LONG/SHORT signal with a confidence, entry levels, a stop, take-profit
   levels and a risk/reward ratio

Stages 5, 6 and 7 read what the earlier stages recorded.

The project is laid out as follows:

- `wrappers.dfy`: `Option` and `Result`.
- `numeric.dfy`: absolute value, min/max, clamping, and Python's `round(x, n)`.
  Rounding is taken over exact decimals, with ties going to the even
  neighbour.
- `market.dfy`: the input snapshot. Every field the calculator reads is typed
  here. `symbol` is optional. The manual levels are a map from level name to
  an optional number.
- `gap.dfy`, `imbalance.dfy`, `trend.dfy`, `alerts.dfy`, `targets.dfy`,
  `breakpoints.dfy`, `decision.dfy`: one module per algorithm. Each holds a
  pure function for the record the stage writes, plus lemmas about it.
  `Decision.CountFactors` is the decision engine's four counting rules,
  written as statements that update the two counters.
- `calculator.dfy`:
  - the class `TradingCalculator`, whose field `analysisResult` is the
    dictionary, filled in one stage method at a time;
  - `Calculator.Analyze`, the whole pipeline as a function of the snapshot.
  - `AnalyzeSymbol` is proved to return `Analyze`'s result and to leave the
    record that Python leaves behind.
- `scenario.dfy`: the documented NVDA snapshot, computed through the whole
  pipeline.

A zero previous close or a zero market-close band top or bottom makes the
source raise `ZeroDivisionError` partway through. Here that becomes a
`Failure(DivisionByZero(divisor))` naming the first divisor that fails. The
record keeps what the stages before the failure wrote.

## Behaviour as written

The model follows the code. In these places the code differs from the
system's written design description:

- The fill probability is a step function of the gap class: 0.3, 0.6 and
  0.85. It is not a smooth calibrated curve.
- The imbalance direction uses fixed thresholds. Bullish needs a top-band
  ratio above 1.02 and a bottom-band ratio above 0.98. Bearish needs a top
  ratio below 0.98 and a bottom ratio below 1.02. Strength is judged on the
  top ratio against 1.05 and 0.95. There is no "ratio is 1.0" guard for a
  zero divisor: the division raises.
- The trend strength counts five comparisons out of five: price > EMA20,
  EMA20 > EMA50, EMA50 > EMA200, price > EMA50 and price > EMA200.
- Only the one-hour band top is an input to the alerts. The 30-minute,
  5-minute and 1-minute tops are 0.98, 0.96 and 0.94 times it.
- Without momentum, the directional target predicts the FARTHER extreme.
- The confidence is the winning side's share of the factors, capped at 0.9.
  For the NVDA snapshot that is 4/7, reported as 0.57, not 0.73. The
  risk/reward of 0.8 and the SHORT override of a fully bullish trend are as
  documented.
- A break point equal to the price reports no distance (`None`). It is
  neither a resistance nor a support. The probability of breaking upwards
  does not depend on the distance at all.
- The entry and stop offsets are fixed percentages of the price, rounded to
  cents, so they only clear the price from five dollars up. Above $5 the
  0.1% offset is more than half a cent, and every level lies strictly on the
  losing side of the price. Below $5, in whole cents, the first entry rounds
  back to the price itself. At $0.01 both entries and the stop equal the
  price, so the risk is 0 and the risk/reward is reported as 1.0. Below $5,
  a price with sub-cent digits can put the entries on the wrong side of the
  price (a LONG at 0.998 enters at 1.0), and below $0.25 a day extreme with
  sub-cent digits can put the second take-profit before the first (a day
  high of 0.2401 gives take-profits 0.2401 and 0.24).
- Missing sections are not defaulted. The source indexes them and would
  raise `KeyError`.

## Model

| member | source | states |
|---|---|---|
| Numeric.NearestInt | src/trading_calculator.py:85-87 | the integer chosen by `round` is within 0.5 of its argument, and an exact half goes to the even neighbour |
| Numeric.Round | src/trading_calculator.py:85-87 | `round(x, n)` lies within half a unit of the n-th decimal from x; RoundIsNearest adds that it has at most n decimals |
| Numeric.RoundIsNearest | src/trading_calculator.py:85-87 | `round(x, n)` has at most n decimals and lies within half a unit of the n-th decimal from x |
| Numeric.RoundMonotone | src/trading_calculator.py:85-87 | rounding never reverses the order of two values |
| Numeric.Clamp | src/trading_calculator.py:275 | `min(hi, max(lo, x))` lies in [lo, hi] and leaves a value already inside unchanged |
| Gap.Percentage | src/trading_calculator.py:69-70 | with a positive previous close, the percentage is positive iff the price rose and zero iff it is unchanged |
| Gap.Classify | src/trading_calculator.py:74-82 | small iff abs(pct) < 1, medium iff 1 <= abs(pct) < 3, large iff abs(pct) >= 3 |
| Gap.FillProbability | src/trading_calculator.py:74-82 | every class's fill probability lies in [0.3, 0.85] |
| Gap.Analyze | src/trading_calculator.py:61-90 | direction is up iff the price exceeds the close; class and fill probability come from the unrounded percentage; the stored size and percentage are within half a cent and half a tenth of the exact values |
| Gap.ClassificationBoundaries | src/trading_calculator.py:74-82 | 0.99% is small, 1% and 2.99% are medium, 3% is large, on both signs |
| Gap.FillMonotone | src/trading_calculator.py:74-82 | a larger absolute percentage never lowers the fill probability |
| Gap.ZeroGapIsDown | src/trading_calculator.py:69-71 | an unchanged price is a small "down" gap of 0.0% |
| Gap.PercentageSignMatchesDirection | src/trading_calculator.py:69-87 | with a positive close, the stored percentage is >= 0 for an up gap and <= 0 for a down gap |
| Imbalance.Judge | src/trading_calculator.py:104-112 | both directions of each rule: bullish, bearish and neutral conditions, neutral iff weak, and when strength is strong |
| Imbalance.Analyze | src/trading_calculator.py:92-119 | the labels are judged on the unrounded ratios; the stored ratios are within 0.0005 of them |
| Imbalance.EqualBandsAreNeutral | src/trading_calculator.py:100-112 | equal premarket and market-close bands give a neutral imbalance with ratio 1.0 |
| Trend.BullishSignals | src/trading_calculator.py:143-149 | at most five signals; five iff all five comparisons hold, none iff none holds |
| Trend.Analyze | src/trading_calculator.py:121-158 | each horizon is bullish iff its comparison holds; the strength is the signal count over five and lies in [0, 1] |
| Trend.FullStrengthIffStacked | src/trading_calculator.py:143-157 | strength is 1.0 iff price > EMA20 > EMA50 > EMA200 |
| Trend.ZeroStrengthIffAllBearish | src/trading_calculator.py:133-157 | strength is 0.0 iff all three horizons are bearish |
| Alerts.Analyze | src/trading_calculator.py:160-201 | each timeframe is overbought iff the price exceeds its derived band top; the level is high iff 1h is overbought, none iff no timeframe is |
| Alerts.FlagsNest | src/trading_calculator.py:173-181 | for a non-negative band top, overbought on a slower timeframe implies overbought on every faster one |
| Alerts.LevelCountsFlags | src/trading_calculator.py:183-193 | for a non-negative band top, the correction level's rank equals the number of overbought flags |
| Targets.Analyze | src/trading_calculator.py:203-236 | targets are the day high and low; in each distance branch the prediction is as stated, iff the momentum condition holds |
| Targets.MomentumOverridesDistance | src/trading_calculator.py:220-230 | an up gap with strength > 0.6 predicts the high, a down gap with strength < 0.4 the low, wherever the price sits |
| Targets.FartherExtremeWithoutMomentum | src/trading_calculator.py:220-230 | without momentum, the high is predicted iff it is at least as far as the low |
| BreakPoints.Above | src/trading_calculator.py:265 | a value is in the resistance list iff it is a non-null, non-zero candidate above the price |
| BreakPoints.Below | src/trading_calculator.py:266 | a value is in the support list iff it is a non-null, non-zero candidate below the price |
| BreakPoints.Least | src/trading_calculator.py:268 | `min` of a non-empty list is an element no greater than any other |
| BreakPoints.Greatest | src/trading_calculator.py:269 | `max` of a non-empty list is an element no smaller than any other |
| BreakPoints.NearestResistance | src/trading_calculator.py:265-268 | the lowest present candidate above the price, and None iff there is none |
| BreakPoints.NearestSupport | src/trading_calculator.py:266-269 | the highest present candidate below the price, and None iff there is none |
| BreakPoints.ProbabilityBreakUp | src/trading_calculator.py:271-275 | the clamped probability lies in [0.1, 0.9] |
| BreakPoints.Analyze | src/trading_calculator.py:238-282 | no levels give the neutral record with 0.5; otherwise nearest levels as above and a probability in [0.1, 0.9]; a distance is reported iff a non-zero break point differs from the price, within half a cent of price - break point |
| BreakPoints.ProbabilityMonotone | src/trading_calculator.py:271-281 | a stronger trend or a larger gap never lowers the reported probability, with or without levels |
| BreakPoints.BreakPointAtPrice | src/trading_calculator.py:262-278 | a break point at the price reports no distance and is neither resistance nor support |
| Decision.Tally | src/trading_calculator.py:297-326 | at least two factors are counted, at most four bullish and seven bearish |
| Decision.CountFactors | src/trading_calculator.py:297-326 | the counters built rule by rule equal the tally of the four votes |
| Decision.PrimaryDirection | src/trading_calculator.py:328-334 | LONG iff bullish factors strictly outnumber bearish ones; a tie is SHORT |
| Decision.Confidence | src/trading_calculator.py:328-334 | the winning share, capped at 0.9, lies in [0.5, 0.9] |
| Decision.RiskReward | src/trading_calculator.py:358-361 | non-negative, and 1.0 when there is no risk |
| Decision.EntryLevels | src/trading_calculator.py:337-351 | two entry levels, nearest first; their side of the price and their order are stated by LevelsOnLosingSide |
| Decision.StopLoss | src/trading_calculator.py:342-352 | the stop is within half a cent of 1.5% below the price for LONG and 1.5% above it for SHORT; LevelsOnLosingSide orders it against the entries |
| Decision.TakeProfit | src/trading_calculator.py:343-356 | two levels, the first being the day extreme in the trade's direction |
| Decision.Decide | src/trading_calculator.py:284-370 | direction from the tally, confidence in [0.5, 0.9], levels by direction, risk/reward non-negative, 1.0 without risk, else reward / risk rounded to one decimal |
| Decision.GapFillOverridesTrend | src/trading_calculator.py:301-334 | a large up gap with a high or medium correction level is SHORT whatever the trend and target say |
| Decision.LevelsOnLosingSide | src/trading_calculator.py:336-356 | from $5 up, or for any non-negative price in whole cents, stop <= second entry <= first entry <= price for LONG, and the mirror for SHORT; SubCentPricesCrossTheirEntries shows the order fails for sub-cent prices below $5 |
| Decision.LevelsStrictlyOnLosingSide | src/trading_calculator.py:336-352 | above $5 the entries and the stop are strictly on the losing side of the price |
| Decision.RiskPositiveAboveFiveDollars | src/trading_calculator.py:358-361 | above $5 the risk is positive, so the risk/reward is reward / risk rounded to one decimal |
| Decision.FirstEntryAtPriceBelowFiveDollars | src/trading_calculator.py:337-351 | below $5, in whole cents, the first entry equals the price in either direction |
| Decision.PennyPriceHasNoRisk | src/trading_calculator.py:336-361 | at $0.01 both entries and the stop are 0.01, the risk is 0 and the risk/reward is 1.0 |
| Decision.SubCentPricesCrossTheirEntries | src/trading_calculator.py:337-351 | a LONG at 0.998 gets entries [1.0, 1.0] above the price and stop 0.98; a SHORT at 1.002 gets a first entry of 1.0 below the price |
| Decision.SubCentTargetsOutOfOrder | src/trading_calculator.py:343-346 | a LONG with day high 0.2401 gets take-profits [0.2401, 0.24], the second before the first |
| Decision.TakeProfitsOrdered | src/trading_calculator.py:343-356 | when the traded direction's day extreme is from $0.25 up, or non-negative in whole cents, the second take-profit lies beyond the first in the trade's direction |
| Calculator.Analyze | src/trading_calculator.py:32-59 | fails iff a divisor is zero, naming the first one in evaluation order; on success carries the timestamp and symbol, confidence in [0, 1], risk/reward >= 0, two entries and two take-profits, trend strength in [0, 1], probability in [0.1, 0.9] |
| Calculator.SymbolOf | src/trading_calculator.py:42 | the given symbol, or "UNKNOWN" when the key is absent |
| Calculator.ReportedGapSign | src/trading_calculator.py:69-87 | with a positive close, the reported percentage's sign matches the reported direction |
| Calculator.GapFillOverridesTrend | src/trading_calculator.py:32-59 | a large up gap with the price above 98% of the band top ends SHORT |
| Calculator.TradingCalculator.constructor | src/trading_calculator.py:29-30 | a new calculator holds an empty record |
| Calculator.TradingCalculator.AnalyzeSymbol | src/trading_calculator.py:32-59 | returns `Analyze`'s result; on success the record holds every entry; on a failure it holds what the stages before it wrote |
| Calculator.TradingCalculator.GapAnalysisStage | src/trading_calculator.py:61-90 | inserts the gap record and changes no other entry |
| Calculator.TradingCalculator.ImbalanceAnalysisStage | src/trading_calculator.py:92-119 | inserts the imbalance record and changes no other entry |
| Calculator.TradingCalculator.TrendAnalysisStage | src/trading_calculator.py:121-158 | inserts the trend record and changes no other entry |
| Calculator.TradingCalculator.MultiTimeframeAlertsStage | src/trading_calculator.py:160-201 | inserts the alerts record and changes no other entry |
| Calculator.TradingCalculator.DirectionalTargetsStage | src/trading_calculator.py:203-236 | inserts the targets record computed from the recorded gap direction and trend strength |
| Calculator.TradingCalculator.BreakPointAnalysisStage | src/trading_calculator.py:238-282 | inserts the break point record computed from the recorded trend strength and rounded gap percentage |
| Calculator.TradingCalculator.FinalDecisionStage | src/trading_calculator.py:284-370 | inserts the signals that `Decide` gives for the recorded gap, trend, alerts and targets |
| Scenario.NvdaWithoutManualLevels | src/trading_calculator.py:32-59 | the documented NVDA snapshot gives a large 4.9% up gap, a full-strength trend, and SHORT with confidence 0.57 and risk/reward 0.8 |
| Scenario.NvdaBreakPoints | src/trading_calculator.py:238-282 | the documented manual levels give distance 0.22, resistance 172.85, support 171.67 and probability 0.85 |
| Scenario.NvdaWithManualLevels | src/trading_calculator.py:32-59 | with the manual levels the signal is unchanged |

## Left out

- `main` (the command-line wrapper: argument parsing, file reading and writing, JSON output) is I/O and is not modelled.
- The timestamp from `datetime.now()` is a parameter of `Analyze` and `AnalyzeSymbol`.
- Numeric.Round: computes Python's `round` on the exact decimal value. It does not model binary floating point, so a value such as 2.675 rounds to 2.68 here, where Python's float rounds it to 2.67. All arithmetic is exact over reals, with no overflow, infinities or NaN.
- Gap.Analyze: states the stored size and percentage by their distance from the exact values, not by the tie rule, which Numeric.NearestInt states.
- Imbalance.Analyze: states the stored ratios by their distance from the exact ratios, not by the tie rule, which Numeric.NearestInt states.
- Missing input keys (`KeyError`) and non-numeric JSON values are not modelled: the snapshot is typed and every section the code indexes is present. Only `symbol` and `manual_break_points` are optional, as in the code's `data.get`.
- Calculator.SymbolOf: `"symbol": null` is not modelled. The snapshot's optional symbol cannot tell an explicit null from an absent key. For an explicit null, `data.get('symbol', 'UNKNOWN')` gives None, not "UNKNOWN".
- Snapshot fields the calculator never reads are left out: previous-day high, low and change, current-day change. The band bottom read at line 170 is never used, so it is not modelled.
- The tests and the dashboard server are outside the calculator and are not part of this model.
