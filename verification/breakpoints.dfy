/** Algorithm 6: manually supplied break point and expansion levels against
    the current price, and a clamped probability of breaking upwards. */
module BreakPoints {
  import opened Wrappers
  import opened Numeric
  import opened Market

  /** The break_point_analysis record; None stands for the source's null. */
  datatype BreakPointAnalysis = BreakPointAnalysis(
    breakPointDistance: Option<real>,
    nearestResistance: Option<real>,
    nearestSupport: Option<real>,
    probabilityBreakUp: real)

  /** manual_levels.get(key) */
  function Level(levels: ManualLevels, key: string): Option<real> {
    if key in levels then levels[key] else None
  }

  /** Python truthiness of a level: a missing or null level and a level of 0
      are ignored. */
  predicate Present(level: Option<real>) {
    level.Some? && level.value != 0.0
  }

  /** Resistance candidates in the source's order: break_point, int_pos_exp,
      max_pos_exp. */
  function ResistanceCandidates(levels: ManualLevels): seq<Option<real>> {
    [Level(levels, "break_point"), Level(levels, "int_pos_exp"), Level(levels, "max_pos_exp")]
  }

  /** Support candidates in the source's order: break_point, int_neg_exp,
      max_neg_exp. */
  function SupportCandidates(levels: ManualLevels): seq<Option<real>> {
    [Level(levels, "break_point"), Level(levels, "int_neg_exp"), Level(levels, "max_neg_exp")]
  }

  /** The present candidates strictly above the price, in order. */
  function Above(candidates: seq<Option<real>>, price: real): (r: seq<real>)
    ensures forall x :: x in r <==> Some(x) in candidates && x != 0.0 && x > price
  {
    if candidates == [] then []
    else
      var rest := Above(candidates[1..], price);
      assert forall l :: l in candidates <==> l == candidates[0] || l in candidates[1..];
      if Present(candidates[0]) && candidates[0].value > price
      then [candidates[0].value] + rest
      else rest
  }

  /** The present candidates strictly below the price, in order. */
  function Below(candidates: seq<Option<real>>, price: real): (r: seq<real>)
    ensures forall x :: x in r <==> Some(x) in candidates && x != 0.0 && x < price
  {
    if candidates == [] then []
    else
      var rest := Below(candidates[1..], price);
      assert forall l :: l in candidates <==> l == candidates[0] || l in candidates[1..];
      if Present(candidates[0]) && candidates[0].value < price
      then [candidates[0].value] + rest
      else rest
  }

  /** Python's min over a non-empty list. */
  function Least(s: seq<real>): (m: real)
    requires |s| > 0
    ensures m in s && forall x :: x in s ==> m <= x
  {
    if |s| == 1 then s[0]
    else
      var rest := Least(s[1..]);
      assert forall x :: x in s <==> x == s[0] || x in s[1..];
      Min(s[0], rest)
  }

  /** Python's max over a non-empty list. */
  function Greatest(s: seq<real>): (m: real)
    requires |s| > 0
    ensures m in s && forall x :: x in s ==> x <= m
  {
    if |s| == 1 then s[0]
    else
      var rest := Greatest(s[1..]);
      assert forall x :: x in s <==> x == s[0] || x in s[1..];
      Max(s[0], rest)
  }

  /** min(resistances) if resistances else None */
  function NearestResistance(levels: ManualLevels, price: real): (r: Option<real>)
    ensures r.Some? ==>
              Some(r.value) in ResistanceCandidates(levels) && r.value != 0.0 && r.value > price
    ensures r.Some? ==>
              forall l :: l in ResistanceCandidates(levels) && Present(l) && l.value > price ==> r.value <= l.value
    ensures r.None? <==>
              forall l :: l in ResistanceCandidates(levels) ==> !(Present(l) && l.value > price)
  {
    var resistances := Above(ResistanceCandidates(levels), price);
    if resistances == [] then None
    else
      assert resistances[0] in resistances;
      Some(Least(resistances))
  }

  /** max(supports) if supports else None */
  function NearestSupport(levels: ManualLevels, price: real): (r: Option<real>)
    ensures r.Some? ==>
              Some(r.value) in SupportCandidates(levels) && r.value != 0.0 && r.value < price
    ensures r.Some? ==>
              forall l :: l in SupportCandidates(levels) && Present(l) && l.value < price ==> l.value <= r.value
    ensures r.None? <==>
              forall l :: l in SupportCandidates(levels) ==> !(Present(l) && l.value < price)
  {
    var supports := Below(SupportCandidates(levels), price);
    if supports == [] then None
    else
      assert supports[0] in supports;
      Some(Greatest(supports))
  }

  /** The unrounded probability: 70% trend strength, 30% gap momentum (the
      recorded gap percentage divided by ten), clamped into [0.1, 0.9]. */
  function ProbabilityBreakUp(trendStrength: real, gapPercentage: real): (p: real)
    ensures 0.1 <= p <= 0.9
  {
    Clamp(trendStrength * 0.7 + Abs(gapPercentage) / 10.0 * 0.3, 0.1, 0.9)
  }

  /** `trendStrength` and `gapPercentage` are the values recorded by the trend
      and gap stages (the percentage already rounded to one decimal). */
  function Analyze(levels: ManualLevels, price: real,
                   trendStrength: real, gapPercentage: real): (b: BreakPointAnalysis)
    ensures levels == map[] ==> b == BreakPointAnalysis(None, None, None, 0.5)
    ensures levels != map[] ==>
              b.nearestResistance == NearestResistance(levels, price) &&
              b.nearestSupport == NearestSupport(levels, price) &&
              0.1 <= b.probabilityBreakUp <= 0.9
    ensures b.breakPointDistance.Some? <==>
              levels != map[] && Present(Level(levels, "break_point")) &&
              Level(levels, "break_point").value != price
    ensures b.breakPointDistance.Some? ==>
              Abs(b.breakPointDistance.value - (price - Level(levels, "break_point").value)) <= 0.005
  {
    if levels == map[] then
      BreakPointAnalysis(None, None, None, 0.5)
    else
      var breakPoint := Level(levels, "break_point");
      // `round(d, 2) if d else None`: a zero distance is reported as null
      var distance :=
        if Present(breakPoint) && price - breakPoint.value != 0.0 then
          RoundIsNearest(price - breakPoint.value, 2);
          Some(Round(price - breakPoint.value, 2))
        else None;
      var probability := ProbabilityBreakUp(trendStrength, gapPercentage);
      RoundWithin(probability, 0.1, 0.9, 2);
      BreakPointAnalysis(
        distance,
        NearestResistance(levels, price),
        NearestSupport(levels, price),
        Round(probability, 2))
  }

  /** A stronger trend or a larger gap never lowers the reported probability
      of breaking upwards (without levels it is 0.5 either way). */
  lemma ProbabilityMonotone(levels: ManualLevels, price: real,
                            t1: real, g1: real, t2: real, g2: real)
    requires t1 <= t2 && Abs(g1) <= Abs(g2)
    ensures Analyze(levels, price, t1, g1).probabilityBreakUp <=
            Analyze(levels, price, t2, g2).probabilityBreakUp
  {
    var x1 := t1 * 0.7 + Abs(g1) / 10.0 * 0.3;
    var x2 := t2 * 0.7 + Abs(g2) / 10.0 * 0.3;
    ClampMonotone(x1, x2, 0.1, 0.9);
    RoundMonotone(ProbabilityBreakUp(t1, g1), ProbabilityBreakUp(t2, g2), 2);
  }

  /** A break point exactly at the price reports no distance and is neither
      a resistance nor a support. */
  lemma BreakPointAtPrice(levels: ManualLevels, price: real, trendStrength: real, gapPercentage: real)
    requires Level(levels, "break_point") == Some(price)
    ensures Analyze(levels, price, trendStrength, gapPercentage).breakPointDistance == None
    ensures NearestResistance(levels, price) != Some(price)
    ensures NearestSupport(levels, price) != Some(price)
  {
  }
}
