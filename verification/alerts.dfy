/** Algorithm 4: overbought flags on four timeframes. Only the one-hour band
    top is an input; the 30-minute, 5-minute and 1-minute tops are derived
    from it by the fixed factors 0.98, 0.96 and 0.94. */
module Alerts {
  import opened Numeric

  datatype CorrectionLevel = NoCorrection | Slight | Low | Medium | High

  /** The alerts record. */
  datatype Alerts = Alerts(
    overbought1m: bool,
    overbought5m: bool,
    overbought30m: bool,
    overbought1h: bool,
    correctionLevel: CorrectionLevel)

  /** The correction level goes by the slowest overbought timeframe: the
      first match in the order 1h, 30m, 5m, 1m. */
  function Analyze(price: real, bbt1h: real): (a: Alerts)
    ensures a.overbought1h <==> price > bbt1h
    ensures a.overbought30m <==> price > bbt1h * 0.98
    ensures a.overbought5m <==> price > bbt1h * 0.96
    ensures a.overbought1m <==> price > bbt1h * 0.94
    ensures a.correctionLevel == High <==> a.overbought1h
    ensures a.correctionLevel == NoCorrection <==>
              !a.overbought1h && !a.overbought30m && !a.overbought5m && !a.overbought1m
  {
    var bbt30m := bbt1h * 0.98;
    var bbt5m := bbt1h * 0.96;
    var bbt1m := bbt1h * 0.94;
    var ob1h, ob30m, ob5m, ob1m := price > bbt1h, price > bbt30m, price > bbt5m, price > bbt1m;
    var level :=
      if ob1h then High
      else if ob30m then Medium
      else if ob5m then Low
      else if ob1m then Slight
      else NoCorrection;
    Alerts(ob1m, ob5m, ob30m, ob1h, level)
  }

  function Rank(c: CorrectionLevel): nat {
    match c
    case NoCorrection => 0
    case Slight => 1
    case Low => 2
    case Medium => 3
    case High => 4
  }

  function FlagCount(a: Alerts): nat {
    Indicator(a.overbought1m) + Indicator(a.overbought5m)
      + Indicator(a.overbought30m) + Indicator(a.overbought1h)
  }

  /** With a non-negative band top, being overbought on a slower timeframe
      implies being overbought on every faster one. */
  lemma FlagsNest(price: real, bbt1h: real)
    requires bbt1h >= 0.0
    ensures var a := Analyze(price, bbt1h);
            (a.overbought1h ==> a.overbought30m) &&
            (a.overbought30m ==> a.overbought5m) &&
            (a.overbought5m ==> a.overbought1m)
  {
  }

  /** With a non-negative band top, the correction level escalates one step
      per overbought timeframe: its rank is the number of flags set. */
  lemma LevelCountsFlags(price: real, bbt1h: real)
    requires bbt1h >= 0.0
    ensures Rank(Analyze(price, bbt1h).correctionLevel) == FlagCount(Analyze(price, bbt1h))
  {
    FlagsNest(price, bbt1h);
  }
}
