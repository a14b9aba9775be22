/** Algorithm 1: the opening gap between the previous close and the current
    price, its size class and the fixed fill probability of each class. */
module Gap {
  import opened Numeric

  datatype Direction = Up | Down

  datatype Classification = Small | Medium | Large

  /** The gap_analysis record; gapSize and gapPercentage are the rounded
      values the source stores. */
  datatype GapAnalysis = GapAnalysis(
    gapSize: real,
    gapDirection: Direction,
    gapPercentage: real,
    fillProbability: real,
    classification: Classification)

  /** gap_percentage before rounding. The source divides by the previous
      close without a guard, so a zero close raises. */
  function Percentage(previousClose: real, currentPrice: real): (p: real)
    requires previousClose != 0.0
    ensures previousClose > 0.0 ==> (p > 0.0 <==> currentPrice > previousClose)
    ensures previousClose > 0.0 ==> (p == 0.0 <==> currentPrice == previousClose)
  {
    (currentPrice - previousClose) / previousClose * 100.0
  }

  /** Buckets |percentage|: below 1 is small, from 1 to below 3 is medium,
      from 3 on is large. */
  function Classify(percentage: real): (c: Classification)
    ensures c == Small <==> Abs(percentage) < 1.0
    ensures c == Medium <==> 1.0 <= Abs(percentage) < 3.0
    ensures c == Large <==> 3.0 <= Abs(percentage)
  {
    if Abs(percentage) < 1.0 then Small
    else if Abs(percentage) < 3.0 then Medium
    else Large
  }

  /** The fixed fill probability of each class: a step function. */
  function FillProbability(c: Classification): (p: real)
    ensures 0.3 <= p <= 0.85
  {
    match c
    case Small => 0.3
    case Medium => 0.6
    case Large => 0.85
  }

  function Analyze(previousClose: real, currentPrice: real): (g: GapAnalysis)
    requires previousClose != 0.0
    ensures g.gapDirection == Up <==> currentPrice > previousClose
    ensures g.classification == Classify(Percentage(previousClose, currentPrice))
    ensures g.fillProbability == FillProbability(g.classification)
    ensures Abs(g.gapSize - (currentPrice - previousClose)) <= 0.005
    ensures Abs(g.gapPercentage - Percentage(previousClose, currentPrice)) <= 0.05
  {
    var gapSize := currentPrice - previousClose;
    var percentage := Percentage(previousClose, currentPrice);
    var classification := Classify(percentage);
    RoundIsNearest(gapSize, 2);
    RoundIsNearest(percentage, 1);
    GapAnalysis(
      Round(gapSize, 2),
      if gapSize > 0.0 then Up else Down,
      Round(percentage, 1),
      FillProbability(classification),
      classification)
  }

  /** The class boundaries: 0.99% is small, 1% and 2.99% are medium, 3% is
      large, on either side of zero. */
  lemma ClassificationBoundaries()
    ensures Classify(0.99) == Small && Classify(-0.99) == Small
    ensures Classify(1.0) == Medium && Classify(-1.0) == Medium
    ensures Classify(2.99) == Medium && Classify(-2.99) == Medium
    ensures Classify(3.0) == Large && Classify(-3.0) == Large
  {
  }

  /** The larger the gap in percent, the larger (or equal) the fill
      probability. */
  lemma FillMonotone(p: real, q: real)
    requires Abs(p) <= Abs(q)
    ensures FillProbability(Classify(p)) <= FillProbability(Classify(q))
  {
  }

  /** A zero gap is reported as "down". */
  lemma ZeroGapIsDown(price: real)
    requires price != 0.0
    ensures Analyze(price, price).gapDirection == Down
    ensures Analyze(price, price).classification == Small
    ensures Analyze(price, price).gapPercentage == 0.0
  {
    assert Percentage(price, price) == 0.0;
    RoundOnGrid(0.0, 1);
  }

  /** With a positive previous close, the reported (rounded) percentage has
      the sign of the reported direction. */
  lemma PercentageSignMatchesDirection(previousClose: real, currentPrice: real)
    requires previousClose > 0.0
    ensures Analyze(previousClose, currentPrice).gapDirection == Up ==>
              Analyze(previousClose, currentPrice).gapPercentage >= 0.0
    ensures Analyze(previousClose, currentPrice).gapDirection == Down ==>
              Analyze(previousClose, currentPrice).gapPercentage <= 0.0
  {
    var gap := currentPrice - previousClose;
    var p := Percentage(previousClose, currentPrice);
    RoundOnGrid(0.0, 1);
    if gap > 0.0 {
      assert gap / previousClose > 0.0;
      RoundMonotone(0.0, p, 1);
    } else {
      assert gap / previousClose <= 0.0;
      RoundMonotone(p, 0.0, 1);
    }
  }
}
