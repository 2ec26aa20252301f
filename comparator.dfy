/** The team comparator (lib/feedback/comparator.ts): the weighted total, the
    winner rule with its tie band, and the key-differentiator selection. */
module Comparison {
  import opened Wrappers
  import opened Types

  datatype Weights = Weights(quality: real, speed: real, collaboration: real, innovation: real)

  /** `scoring-weights.yaml` as parsed; a field is `None` when absent. */
  datatype WeightsConfig = WeightsConfig(
    quality: Option<real>,
    speed: Option<real>,
    collaboration: Option<real>,
    innovation: Option<real>)

  const DefaultWeights := Weights(0.4, 0.2, 0.2, 0.2)

  function Abs(x: real): real {
    if x < 0.0 then -x else x
  }

  /** `x || d` on a configured number: a missing weight or a weight of 0
      is falsy and falls back to the default. */
  function OrDefault(x: Option<real>, d: real): (r: real)
    ensures x.Some? && x.value != 0.0 ==> r == x.value
    ensures x.None? || x.value == 0.0 ==> r == d
  {
    if x.Some? && x.value != 0.0 then x.value else d
  }

  /** `loadScoringWeights`: `None` stands for a file that could not be read
      or parsed. Each weight falls back on its own. */
  function LoadScoringWeights(config: Option<WeightsConfig>): (w: Weights)
    ensures config.None? ==> w == DefaultWeights
    ensures config.Some? ==>
      w.quality == OrDefault(config.value.quality, 0.4) &&
      w.speed == OrDefault(config.value.speed, 0.2) &&
      w.collaboration == OrDefault(config.value.collaboration, 0.2) &&
      w.innovation == OrDefault(config.value.innovation, 0.2)
  {
    match config
    case None => DefaultWeights
    case Some(c) =>
      Weights(OrDefault(c.quality, 0.4), OrDefault(c.speed, 0.2),
              OrDefault(c.collaboration, 0.2), OrDefault(c.innovation, 0.2))
  }

  /** A configured weight of 0 is replaced by its default, whatever the
      other weights are: it loads exactly as a missing weight would. */
  lemma ZeroWeightFallsBack(c: WeightsConfig)
    ensures c.quality == Some(0.0) ==>
      LoadScoringWeights(Some(c)).quality == 0.4 &&
      LoadScoringWeights(Some(c)) == LoadScoringWeights(Some(c.(quality := None)))
    ensures c.speed == Some(0.0) ==>
      LoadScoringWeights(Some(c)).speed == 0.2 &&
      LoadScoringWeights(Some(c)) == LoadScoringWeights(Some(c.(speed := None)))
    ensures c.collaboration == Some(0.0) ==>
      LoadScoringWeights(Some(c)).collaboration == 0.2 &&
      LoadScoringWeights(Some(c)) == LoadScoringWeights(Some(c.(collaboration := None)))
    ensures c.innovation == Some(0.0) ==>
      LoadScoringWeights(Some(c)).innovation == 0.2 &&
      LoadScoringWeights(Some(c)) == LoadScoringWeights(Some(c.(innovation := None)))
  {
  }

  /** `calculateTeamScore`: the weighted sum of the four sub-scores. With
      non-negative weights summing to 1 the total is a convex combination,
      so it lies between the smallest and the largest sub-score; the
      default weights are such weights. */
  function CalculateTeamScore(w: Weights, p: TeamPerformance): (r: real)
    ensures Convex(w) ==>
      Min4(p.qualityScore, p.speedScore, p.collaborationScore, p.innovationScore) <= r <=
      Max4(p.qualityScore, p.speedScore, p.collaborationScore, p.innovationScore)
  {
    var total := p.qualityScore * w.quality + p.speedScore * w.speed +
      p.collaborationScore * w.collaboration + p.innovationScore * w.innovation;
    if Convex(w) then
      LowerBound(w.quality, w.speed, w.collaboration, w.innovation,
        p.qualityScore, p.speedScore, p.collaborationScore, p.innovationScore,
        Min4(p.qualityScore, p.speedScore, p.collaborationScore, p.innovationScore));
      UpperBound(w.quality, w.speed, w.collaboration, w.innovation,
        p.qualityScore, p.speedScore, p.collaborationScore, p.innovationScore,
        Max4(p.qualityScore, p.speedScore, p.collaborationScore, p.innovationScore));
      total
    else total
  }

  function Min4(a: real, b: real, c: real, d: real): (m: real)
    ensures m <= a && m <= b && m <= c && m <= d
  {
    var ab := if a <= b then a else b;
    var cd := if c <= d then c else d;
    if ab <= cd then ab else cd
  }

  function Max4(a: real, b: real, c: real, d: real): (m: real)
    ensures m >= a && m >= b && m >= c && m >= d
  {
    var ab := if a >= b then a else b;
    var cd := if c >= d then c else d;
    if ab >= cd then ab else cd
  }

  predicate Convex(w: Weights) {
    w.quality >= 0.0 && w.speed >= 0.0 && w.collaboration >= 0.0 && w.innovation >= 0.0 &&
    w.quality + w.speed + w.collaboration + w.innovation == 1.0
  }

  lemma LowerBound(wq: real, ws: real, wc: real, wi: real, a: real, b: real, c: real, d: real, lo: real)
    requires wq >= 0.0 && ws >= 0.0 && wc >= 0.0 && wi >= 0.0 && wq + ws + wc + wi == 1.0
    requires lo <= a && lo <= b && lo <= c && lo <= d
    ensures lo <= a * wq + b * ws + c * wc + d * wi
  {
    ScaleLow(wq, a, lo);
    ScaleLow(ws, b, lo);
    ScaleLow(wc, c, lo);
    ScaleLow(wi, d, lo);
    Distribute(lo, wq, ws, wc, wi);
    SumLe(lo * wq, lo * ws, lo * wc, lo * wi, a * wq, b * ws, c * wc, d * wi);
  }

  lemma UpperBound(wq: real, ws: real, wc: real, wi: real, a: real, b: real, c: real, d: real, hi: real)
    requires wq >= 0.0 && ws >= 0.0 && wc >= 0.0 && wi >= 0.0 && wq + ws + wc + wi == 1.0
    requires a <= hi && b <= hi && c <= hi && d <= hi
    ensures a * wq + b * ws + c * wc + d * wi <= hi
  {
    ScaleHigh(wq, a, hi);
    ScaleHigh(ws, b, hi);
    ScaleHigh(wc, c, hi);
    ScaleHigh(wi, d, hi);
    Distribute(hi, wq, ws, wc, wi);
    SumLe(a * wq, b * ws, c * wc, d * wi, hi * wq, hi * ws, hi * wc, hi * wi);
  }

  lemma ScaleLow(k: real, x: real, lo: real)
    requires k >= 0.0 && lo <= x
    ensures lo * k <= x * k
  {
  }

  lemma ScaleHigh(k: real, x: real, hi: real)
    requires k >= 0.0 && x <= hi
    ensures x * k <= hi * k
  {
  }

  /** m is split by weights that sum to 1. */
  lemma Distribute(m: real, a: real, b: real, c: real, d: real)
    requires a + b + c + d == 1.0
    ensures m == m * a + m * b + m * c + m * d
  {
    var t := a + b + c + d;
    assert m * t == m * a + m * b + m * c + m * d;
    assert m * t == m * 1.0;
  }

  lemma SumLe(x1: real, x2: real, x3: real, x4: real, y1: real, y2: real, y3: real, y4: real)
    requires x1 <= y1 && x2 <= y2 && x3 <= y3 && x4 <= y4
    ensures x1 + x2 + x3 + x4 <= y1 + y2 + y3 + y4
  {
  }

  lemma DefaultWeightsConvex()
    ensures Convex(DefaultWeights)
  {
  }

  /** The winner rule: a tie inside the band of 2 points, otherwise the team
      with the larger total. */
  function BetterTeam(alphaScore: real, omegaScore: real): (v: Verdict)
    ensures v == Tie <==> Abs(alphaScore - omegaScore) < 2.0
    ensures v == Win(Alpha) <==> Abs(alphaScore - omegaScore) >= 2.0 && alphaScore > omegaScore
    ensures v == Win(Omega) <==> Abs(alphaScore - omegaScore) >= 2.0 && omegaScore > alphaScore
    ensures v != Win(Ultimate)
  {
    if Abs(alphaScore - omegaScore) < 2.0 then Tie
    else if alphaScore > omegaScore then Win(Alpha) else Win(Omega)
  }

  /** One dimension's entry; a dimension both teams score equally on is
      credited to Omega, because the test is a strict `>`. */
  function Dimension(name: string, alpha: real, omega: real): (d: Differentiator)
    ensures d.diff == Abs(alpha - omega) && d.diff >= 0.0
    ensures d.leader == Alpha <==> alpha > omega
    ensures d.leader == Omega <==> alpha <= omega
  {
    Differentiator(name, Abs(alpha - omega), if alpha > omega then Alpha else Omega)
  }

  function Dimensions(a: TeamPerformance, o: TeamPerformance): seq<Differentiator> {
    [ Dimension("Quality", a.qualityScore, o.qualityScore),
      Dimension("Speed", a.speedScore, o.speedScore),
      Dimension("Collaboration", a.collaborationScore, o.collaborationScore),
      Dimension("Innovation", a.innovationScore, o.innovationScore) ]
  }

  /** `filter(d => d.diff > 5)`. */
  function Significant(ds: seq<Differentiator>): (r: seq<Differentiator>)
    ensures forall d :: d in r <==> d in ds && d.diff > 5.0
    ensures |r| <= |ds|
  {
    if ds == [] then []
    else if ds[0].diff > 5.0 then [ds[0]] + Significant(ds[1..])
    else Significant(ds[1..])
  }

  predicate SortedByGap(ds: seq<Differentiator>) {
    forall i, j :: 0 <= i < j < |ds| ==> ds[i].diff >= ds[j].diff
  }

  /** Insert `x` before the first entry whose gap is not larger, which
      keeps equal gaps in their original order (the sort is stable). */
  function Insert(x: Differentiator, ds: seq<Differentiator>): (r: seq<Differentiator>)
    ensures multiset(r) == multiset(ds) + multiset{x}
  {
    if ds == [] || x.diff >= ds[0].diff then [x] + ds
    else
      assert ds == [ds[0]] + ds[1..];
      [ds[0]] + Insert(x, ds[1..])
  }

  lemma {:induction false} InsertSorted(x: Differentiator, ds: seq<Differentiator>)
    requires SortedByGap(ds)
    ensures SortedByGap(Insert(x, ds))
  {
    if ds != [] && x.diff < ds[0].diff {
      InsertSorted(x, ds[1..]);
      var rest := Insert(x, ds[1..]);
      forall d | d in rest ensures d.diff <= ds[0].diff {
        assert d in multiset(rest);
        assert d == x || d in multiset(ds[1..]);
      }
    }
  }

  /** `sort((a, b) => b.diff - a.diff)`: largest gap first. */
  function SortByGap(ds: seq<Differentiator>): (r: seq<Differentiator>)
    ensures multiset(r) == multiset(ds)
    ensures SortedByGap(r)
  {
    if ds == [] then []
    else
      assert ds == [ds[0]] + ds[1..];
      InsertSorted(ds[0], SortByGap(ds[1..]));
      Insert(ds[0], SortByGap(ds[1..]))
  }

  /** The key differentiators: exactly the dimensions with a gap above 5,
      largest gap first. */
  function KeyDifferentiators(a: TeamPerformance, o: TeamPerformance): (r: seq<Differentiator>)
    ensures multiset(r) == multiset(Significant(Dimensions(a, o)))
    ensures SortedByGap(r)
    ensures forall d :: d in r ==> d.diff > 5.0 && d in Dimensions(a, o)
  {
    var r := SortByGap(Significant(Dimensions(a, o)));
    assert forall d :: d in r ==> d in multiset(Significant(Dimensions(a, o)));
    r
  }

  /** `generateReasoning`, without its prose. */
  function GenerateReasoning(a: TeamPerformance, o: TeamPerformance, winner: Verdict): (r: Reasoning)
    ensures winner == Tie ==> r == TieReasoning(a.totalScore, o.totalScore)
    ensures winner.Win? ==> r.WinReasoning? && r.winner == winner.team
    ensures winner.Win? && winner.team == Alpha ==>
      r.winnerTotal == a.totalScore && r.loserTotal == o.totalScore &&
      r.winnerStrengths == a.strengths &&
      (r.loserImprovements.Some? <==> |o.improvements| > 0)
    ensures winner.Win? && winner.team != Alpha ==>
      r.winnerTotal == o.totalScore && r.loserTotal == a.totalScore &&
      r.winnerStrengths == o.strengths &&
      (r.loserImprovements.Some? <==> |a.improvements| > 0)
    ensures r.WinReasoning? ==> r.margin == r.winnerTotal - r.loserTotal
  {
    match winner
    case Tie => TieReasoning(a.totalScore, o.totalScore)
    case Win(t) =>
      var winnerPerf := if t == Alpha then a else o;
      var loserPerf := if t == Alpha then o else a;
      WinReasoning(t, winnerPerf.totalScore, loserPerf.totalScore,
        winnerPerf.totalScore - loserPerf.totalScore,
        KeyDifferentiators(a, o), winnerPerf.strengths,
        if |loserPerf.improvements| > 0 then Some(loserPerf.improvements) else None)
  }

  /** `compareTeams`: the verdict, both totals as given, and the four
      sub-scores copied unchanged. */
  function CompareTeams(a: TeamPerformance, o: TeamPerformance): (r: ComparisonResult)
    ensures r.alphaScore == a.totalScore && r.omegaScore == o.totalScore
    ensures r.betterTeam == Tie <==> Abs(a.totalScore - o.totalScore) < 2.0
    ensures r.betterTeam.Win? ==>
      (r.betterTeam.team == Alpha <==> a.totalScore > o.totalScore)
    ensures r.betterTeam != Win(Ultimate)
    ensures r.details == ComparisonDetails(
      ScorePair(a.qualityScore, o.qualityScore), ScorePair(a.speedScore, o.speedScore),
      ScorePair(a.collaborationScore, o.collaborationScore),
      ScorePair(a.innovationScore, o.innovationScore))
  {
    var better := BetterTeam(a.totalScore, o.totalScore);
    ComparisonResult(better, a.totalScore, o.totalScore, GenerateReasoning(a, o, better),
      ComparisonDetails(
        ScorePair(a.qualityScore, o.qualityScore), ScorePair(a.speedScore, o.speedScore),
        ScorePair(a.collaborationScore, o.collaborationScore),
        ScorePair(a.innovationScore, o.innovationScore)))
  }

  /** Scenario: 100 ms average against 10000 ms average, all else equal and
      default weights, is a 19.8-point lead for the faster team. */
  lemma FasterTeamWins(a: TeamPerformance, o: TeamPerformance)
    requires a.qualityScore == o.qualityScore && a.collaborationScore == o.collaborationScore
    requires a.innovationScore == o.innovationScore
    requires a.speedScore == 99.0 && o.speedScore == 0.0
    ensures BetterTeam(CalculateTeamScore(DefaultWeights, a), CalculateTeamScore(DefaultWeights, o)) == Win(Alpha)
  {
    assert CalculateTeamScore(DefaultWeights, a) - CalculateTeamScore(DefaultWeights, o) == 19.8;
  }
}
