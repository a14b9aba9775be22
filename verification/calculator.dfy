/** TradingCalculator: runs the seven algorithms in order on one snapshot.
    Each stage inserts its record into the calculator's analysis_result, and
    the later stages read what the earlier ones recorded. */
module Calculator {
  import opened Wrappers
  import opened Numeric
  import opened Market
  import Gap
  import Imbalance
  import Trend
  import Alerts
  import Targets
  import BreakPoints
  import Decision

  /** The divisor that was zero when the source raised ZeroDivisionError. */
  datatype Divisor = PreviousClose | MarketCloseBbt | MarketCloseBbb

  datatype CalcError = DivisionByZero(divisor: Divisor)

  /** A finished analysis: every key of analysis_result is filled in. */
  datatype AnalysisResult = AnalysisResult(
    analysisTimestamp: string,
    symbol: string,
    gapAnalysis: Gap.GapAnalysis,
    imbalanceAnalysis: Imbalance.ImbalanceAnalysis,
    trendAnalysis: Trend.TrendAnalysis,
    alerts: Alerts.Alerts,
    directionalTargets: Targets.DirectionalTargets,
    breakPointAnalysis: BreakPoints.BreakPointAnalysis,
    tradingSignals: Decision.TradingSignals)

  /** analysis_result while it is being filled in: None is a missing key. */
  datatype Entries = Entries(
    analysisTimestamp: Option<string>,
    symbol: Option<string>,
    gapAnalysis: Option<Gap.GapAnalysis>,
    imbalanceAnalysis: Option<Imbalance.ImbalanceAnalysis>,
    trendAnalysis: Option<Trend.TrendAnalysis>,
    alerts: Option<Alerts.Alerts>,
    directionalTargets: Option<Targets.DirectionalTargets>,
    breakPointAnalysis: Option<BreakPoints.BreakPointAnalysis>,
    tradingSignals: Option<Decision.TradingSignals>)

  const NoEntries := Entries(None, None, None, None, None, None, None, None, None)

  /** data.get('symbol', 'UNKNOWN') */
  function SymbolOf(data: MarketSnapshot): (s: string)
    ensures data.symbol.Some? ==> s == data.symbol.value
    ensures data.symbol.None? ==> s == "UNKNOWN"
  {
    data.symbol.GetOr("UNKNOWN")
  }

  /** The record analyze_symbol starts from: only the timestamp and symbol. */
  function Started(data: MarketSnapshot, timestamp: string): Entries {
    NoEntries.(analysisTimestamp := Some(timestamp), symbol := Some(SymbolOf(data)))
  }

  /** The entries of a finished analysis. */
  function Recorded(r: AnalysisResult): Entries {
    Entries(Some(r.analysisTimestamp), Some(r.symbol), Some(r.gapAnalysis),
            Some(r.imbalanceAnalysis), Some(r.trendAnalysis), Some(r.alerts),
            Some(r.directionalTargets), Some(r.breakPointAnalysis), Some(r.tradingSignals))
  }

  /** The whole pipeline as a function of the snapshot. The clock reading the
      source takes for the timestamp is a parameter. A zero previous close or
      a zero market-close band raises in the source; here it is an error,
      reported for the first division that fails. */
  function Analyze(data: MarketSnapshot, timestamp: string): (r: Result<AnalysisResult, CalcError>)
    ensures r.Failure? <==>
              data.previousClose == 0.0 || data.marketCloseBbt1h == 0.0 || data.marketCloseBbb1h == 0.0
    ensures data.previousClose == 0.0 ==> r == Failure(DivisionByZero(PreviousClose))
    ensures data.previousClose != 0.0 && data.marketCloseBbt1h == 0.0 ==>
              r == Failure(DivisionByZero(MarketCloseBbt))
    ensures data.previousClose != 0.0 && data.marketCloseBbt1h != 0.0 && data.marketCloseBbb1h == 0.0 ==>
              r == Failure(DivisionByZero(MarketCloseBbb))
    ensures r.Success? ==>
              var a := r.value;
              a.analysisTimestamp == timestamp && a.symbol == SymbolOf(data) &&
              0.0 <= a.tradingSignals.confidence <= 1.0 &&
              a.tradingSignals.riskReward >= 0.0 &&
              |a.tradingSignals.entryLevels| == 2 && |a.tradingSignals.takeProfit| == 2 &&
              0.0 <= a.trendAnalysis.trendStrength <= 1.0 &&
              0.1 <= a.breakPointAnalysis.probabilityBreakUp <= 0.9
  {
    if data.previousClose == 0.0 then Failure(DivisionByZero(PreviousClose))
    else if data.marketCloseBbt1h == 0.0 then Failure(DivisionByZero(MarketCloseBbt))
    else if data.marketCloseBbb1h == 0.0 then Failure(DivisionByZero(MarketCloseBbb))
    else
      var price := data.currentPrice;
      var gap := Gap.Analyze(data.previousClose, price);
      var imbalance := Imbalance.Analyze(data.premarketBbt1h, data.premarketBbb1h,
                                         data.marketCloseBbt1h, data.marketCloseBbb1h);
      var trend := Trend.Analyze(price, data.ema20, data.ema50, data.ema200);
      var alerts := Alerts.Analyze(price, data.marketCloseBbt1h);
      var targets := Targets.Analyze(price, data.dayHigh, data.dayLow,
                                     gap.gapDirection, trend.trendStrength);
      var breakPoints := BreakPoints.Analyze(data.manualBreakPoints, price,
                                             trend.trendStrength, gap.gapPercentage);
      var signals := Decision.Decide(price, gap, trend, alerts, targets);
      Success(AnalysisResult(timestamp, SymbolOf(data), gap, imbalance, trend, alerts,
                             targets, breakPoints, signals))
  }

  /** With a positive previous close, the reported gap percentage has the
      sign of the reported gap direction. */
  lemma ReportedGapSign(data: MarketSnapshot, timestamp: string)
    requires data.previousClose > 0.0
    requires data.marketCloseBbt1h != 0.0 && data.marketCloseBbb1h != 0.0
    ensures var r := Analyze(data, timestamp);
            r.Success? &&
            (r.value.gapAnalysis.gapDirection == Gap.Up ==> r.value.gapAnalysis.gapPercentage >= 0.0) &&
            (r.value.gapAnalysis.gapDirection == Gap.Down ==> r.value.gapAnalysis.gapPercentage <= 0.0)
  {
    Gap.PercentageSignMatchesDirection(data.previousClose, data.currentPrice);
  }

  /** A large up gap with the price above 98% of the market-close band top
      (a high or medium correction level) ends SHORT, whatever the averages
      say: the gap fill and the correction outvote a fully bullish trend. */
  lemma GapFillOverridesTrend(data: MarketSnapshot, timestamp: string)
    requires data.previousClose != 0.0
    requires data.marketCloseBbt1h != 0.0 && data.marketCloseBbb1h != 0.0
    requires data.currentPrice > data.previousClose
    requires Abs(Gap.Percentage(data.previousClose, data.currentPrice)) >= 3.0
    requires data.currentPrice > data.marketCloseBbt1h * 0.98
    ensures var r := Analyze(data, timestamp);
            r.Success? && r.value.tradingSignals.primaryDirection == Decision.Short
  {
    var price := data.currentPrice;
    var gap := Gap.Analyze(data.previousClose, price);
    var trend := Trend.Analyze(price, data.ema20, data.ema50, data.ema200);
    var alerts := Alerts.Analyze(price, data.marketCloseBbt1h);
    var targets := Targets.Analyze(price, data.dayHigh, data.dayLow,
                                   gap.gapDirection, trend.trendStrength);
    Decision.GapFillOverridesTrend(price, gap, trend, alerts, targets);
  }

  class TradingCalculator {
    var analysisResult: Entries

    constructor ()
      ensures analysisResult == NoEntries
    {
      analysisResult := NoEntries;
    }

    /** analyze_symbol: resets the record, then runs the seven stages. When a
        division fails, the record keeps what the stages before it wrote. */
    method AnalyzeSymbol(data: MarketSnapshot, timestamp: string)
      returns (r: Result<AnalysisResult, CalcError>)
      modifies this
      ensures r == Analyze(data, timestamp)
      ensures r.Success? ==> analysisResult == Recorded(r.value)
      ensures data.previousClose == 0.0 ==> analysisResult == Started(data, timestamp)
      ensures data.previousClose != 0.0 && r.Failure? ==>
                analysisResult ==
                  Started(data, timestamp).(gapAnalysis := Some(Gap.Analyze(data.previousClose, data.currentPrice)))
    {
      analysisResult := Started(data, timestamp);
      if data.previousClose == 0.0 {
        return Failure(DivisionByZero(PreviousClose));
      }
      GapAnalysisStage(data);
      if data.marketCloseBbt1h == 0.0 {
        return Failure(DivisionByZero(MarketCloseBbt));
      }
      if data.marketCloseBbb1h == 0.0 {
        return Failure(DivisionByZero(MarketCloseBbb));
      }
      ImbalanceAnalysisStage(data);
      TrendAnalysisStage(data);
      MultiTimeframeAlertsStage(data);
      DirectionalTargetsStage(data);
      BreakPointAnalysisStage(data);
      FinalDecisionStage(data);
      r := Success(AnalysisResult(
        timestamp, SymbolOf(data),
        analysisResult.gapAnalysis.value, analysisResult.imbalanceAnalysis.value,
        analysisResult.trendAnalysis.value, analysisResult.alerts.value,
        analysisResult.directionalTargets.value, analysisResult.breakPointAnalysis.value,
        analysisResult.tradingSignals.value));
    }

    method GapAnalysisStage(data: MarketSnapshot)
      requires data.previousClose != 0.0
      modifies this
      ensures analysisResult ==
                old(analysisResult).(gapAnalysis := Some(Gap.Analyze(data.previousClose, data.currentPrice)))
    {
      analysisResult := analysisResult.(gapAnalysis := Some(Gap.Analyze(data.previousClose, data.currentPrice)));
    }

    method ImbalanceAnalysisStage(data: MarketSnapshot)
      requires data.marketCloseBbt1h != 0.0 && data.marketCloseBbb1h != 0.0
      modifies this
      ensures analysisResult ==
                old(analysisResult).(imbalanceAnalysis := Some(Imbalance.Analyze(
                  data.premarketBbt1h, data.premarketBbb1h, data.marketCloseBbt1h, data.marketCloseBbb1h)))
    {
      var record := Imbalance.Analyze(data.premarketBbt1h, data.premarketBbb1h,
                                      data.marketCloseBbt1h, data.marketCloseBbb1h);
      analysisResult := analysisResult.(imbalanceAnalysis := Some(record));
    }

    method TrendAnalysisStage(data: MarketSnapshot)
      modifies this
      ensures analysisResult ==
                old(analysisResult).(trendAnalysis := Some(Trend.Analyze(
                  data.currentPrice, data.ema20, data.ema50, data.ema200)))
    {
      var record := Trend.Analyze(data.currentPrice, data.ema20, data.ema50, data.ema200);
      analysisResult := analysisResult.(trendAnalysis := Some(record));
    }

    method MultiTimeframeAlertsStage(data: MarketSnapshot)
      modifies this
      ensures analysisResult ==
                old(analysisResult).(alerts := Some(Alerts.Analyze(data.currentPrice, data.marketCloseBbt1h)))
    {
      analysisResult := analysisResult.(alerts := Some(Alerts.Analyze(data.currentPrice, data.marketCloseBbt1h)));
    }

    /** Reads the recorded gap direction and trend strength. */
    method DirectionalTargetsStage(data: MarketSnapshot)
      requires analysisResult.gapAnalysis.Some? && analysisResult.trendAnalysis.Some?
      modifies this
      ensures analysisResult ==
                old(analysisResult).(directionalTargets := Some(Targets.Analyze(
                  data.currentPrice, data.dayHigh, data.dayLow,
                  old(analysisResult).gapAnalysis.value.gapDirection,
                  old(analysisResult).trendAnalysis.value.trendStrength)))
    {
      var record := Targets.Analyze(data.currentPrice, data.dayHigh, data.dayLow,
                                    analysisResult.gapAnalysis.value.gapDirection,
                                    analysisResult.trendAnalysis.value.trendStrength);
      analysisResult := analysisResult.(directionalTargets := Some(record));
    }

    /** Reads the recorded trend strength and (rounded) gap percentage. */
    method BreakPointAnalysisStage(data: MarketSnapshot)
      requires analysisResult.gapAnalysis.Some? && analysisResult.trendAnalysis.Some?
      modifies this
      ensures analysisResult ==
                old(analysisResult).(breakPointAnalysis := Some(BreakPoints.Analyze(
                  data.manualBreakPoints, data.currentPrice,
                  old(analysisResult).trendAnalysis.value.trendStrength,
                  old(analysisResult).gapAnalysis.value.gapPercentage)))
    {
      var record := BreakPoints.Analyze(data.manualBreakPoints, data.currentPrice,
                                        analysisResult.trendAnalysis.value.trendStrength,
                                        analysisResult.gapAnalysis.value.gapPercentage);
      analysisResult := analysisResult.(breakPointAnalysis := Some(record));
    }

    /** The decision engine: the bullish and bearish factor counters are built
        up one rule at a time, then the direction, the confidence and the
        levels follow from them. */
    method FinalDecisionStage(data: MarketSnapshot)
      requires analysisResult.gapAnalysis.Some? && analysisResult.trendAnalysis.Some?
      requires analysisResult.alerts.Some? && analysisResult.directionalTargets.Some?
      modifies this
      ensures analysisResult ==
                old(analysisResult).(tradingSignals := Some(Decision.Decide(
                  data.currentPrice,
                  old(analysisResult).gapAnalysis.value, old(analysisResult).trendAnalysis.value,
                  old(analysisResult).alerts.value, old(analysisResult).directionalTargets.value)))
    {
      var price := data.currentPrice;
      var gap := analysisResult.gapAnalysis.value;
      var trend := analysisResult.trendAnalysis.value;
      var alerts := analysisResult.alerts.value;
      var targets := analysisResult.directionalTargets.value;

      var bullishFactors, bearishFactors := Decision.CountFactors(gap, trend, alerts, targets);
      var votes := Decision.Votes(bullishFactors, bearishFactors);
      var direction := Decision.PrimaryDirection(votes);
      var confidence := Decision.Confidence(votes);
      var stopLoss := Decision.StopLoss(direction, price);
      var takeProfit := Decision.TakeProfit(direction, targets);
      var risk := Abs(price - stopLoss);
      var reward := Abs(takeProfit[0] - price);
      var signals := Decision.TradingSignals(direction, Round(confidence, 2),
                                             Decision.EntryLevels(direction, price),
                                             stopLoss, takeProfit, Decision.RiskReward(risk, reward));
      analysisResult := analysisResult.(tradingSignals := Some(signals));
    }
  }
}
