/** Algorithm 2: premarket against market-close Bollinger band levels. */
module Imbalance {
  import opened Numeric

  datatype Direction = Bullish | Bearish | Neutral

  datatype Strength = Strong | Moderate | Weak

  /** The imbalance_analysis record; the ratios are stored rounded to three
      decimals, the labels come from the unrounded ratios. */
  datatype ImbalanceAnalysis = ImbalanceAnalysis(
    bbtRatio: real,
    bbbRatio: real,
    imbalanceDirection: Direction,
    strength: Strength)

  /** Direction and strength from the top-band and bottom-band ratios. */
  function Judge(bbtRatio: real, bbbRatio: real): (j: (Direction, Strength))
    ensures j.0 == Bullish <==> bbtRatio > 1.02 && bbbRatio > 0.98
    ensures j.0 == Bearish <==> bbtRatio < 0.98 && bbbRatio < 1.02
    ensures j.0 == Neutral <==> j.1 == Weak
    ensures j.1 == Strong <==>
              (bbtRatio > 1.05 && bbbRatio > 0.98) || (bbtRatio < 0.95 && bbbRatio < 1.02)
  {
    if bbtRatio > 1.02 && bbbRatio > 0.98 then
      (Bullish, if bbtRatio > 1.05 then Strong else Moderate)
    else if bbtRatio < 0.98 && bbbRatio < 1.02 then
      (Bearish, if bbtRatio < 0.95 then Strong else Moderate)
    else
      (Neutral, Weak)
  }

  /** The source divides by both market-close levels without a guard. */
  function Analyze(premarketBbt: real, premarketBbb: real,
                   marketCloseBbt: real, marketCloseBbb: real): (r: ImbalanceAnalysis)
    requires marketCloseBbt != 0.0 && marketCloseBbb != 0.0
    ensures (r.imbalanceDirection, r.strength) ==
              Judge(premarketBbt / marketCloseBbt, premarketBbb / marketCloseBbb)
    ensures Abs(r.bbtRatio - premarketBbt / marketCloseBbt) <= 0.0005
    ensures Abs(r.bbbRatio - premarketBbb / marketCloseBbb) <= 0.0005
  {
    var bbtRatio := premarketBbt / marketCloseBbt;
    var bbbRatio := premarketBbb / marketCloseBbb;
    var (direction, strength) := Judge(bbtRatio, bbbRatio);
    RoundIsNearest(bbtRatio, 3);
    RoundIsNearest(bbbRatio, 3);
    ImbalanceAnalysis(Round(bbtRatio, 3), Round(bbbRatio, 3), direction, strength)
  }

  /** Equal premarket and market-close bands show no imbalance. */
  lemma EqualBandsAreNeutral(bbt: real, bbb: real)
    requires bbt != 0.0 && bbb != 0.0
    ensures Analyze(bbt, bbb, bbt, bbb).imbalanceDirection == Neutral
    ensures Analyze(bbt, bbb, bbt, bbb).bbtRatio == 1.0
  {
    assert bbt / bbt == 1.0;
    RoundOnGrid(1.0, 3);
  }
}
