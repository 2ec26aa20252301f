/** The moderator (lib/orchestration/moderator.ts): the four sub-scores of a
    team, its strength and improvement labels, the praise template, the
    continue flag and the confidence of the judgment. */
module Moderation {
  import opened Wrappers
  import opened Types
  import opened Text
  import opened Comparison
  import opened Averages

  /** The numbers each mean is taken over. */
  function ValidationScores(vs: seq<ValidationReport>): (r: seq<real>)
    ensures |r| == |vs| && forall k :: 0 <= k < |vs| ==> r[k] == vs[k].overallScore
  {
    seq(|vs|, k requires 0 <= k < |vs| => vs[k].overallScore)
  }

  function Confidences(outs: seq<AgentOutput>): (r: seq<real>)
    ensures |r| == |outs| && forall k :: 0 <= k < |outs| ==> r[k] == outs[k].confidence as real
  {
    seq(|outs|, k requires 0 <= k < |outs| => outs[k].confidence as real)
  }

  function ProcessingTimes(outs: seq<AgentOutput>): (r: seq<real>)
    ensures |r| == |outs| && forall k :: 0 <= k < |outs| ==> r[k] == outs[k].processingTime as real
  {
    seq(|outs|, k requires 0 <= k < |outs| => outs[k].processingTime as real)
  }

  function ContentLengths(outs: seq<AgentOutput>): (r: seq<real>)
    ensures |r| == |outs| && forall k :: 0 <= k < |outs| ==> r[k] == |outs[k].content| as real
  {
    seq(|outs|, k requires 0 <= k < |outs| => |outs[k].content| as real)
  }

  // ---------------------------------------------------------------------
  // Quality and speed
  // ---------------------------------------------------------------------

  /** 60% mean validation score, 40% mean self-reported confidence. Quality
      stays in [0,100] when the validation scores do and no output claims
      more than 100% confidence. */
  function QualityScore(outs: seq<AgentOutput>, vs: seq<ValidationReport>): (r: real)
    requires |outs| > 0 && |vs| > 0
    ensures (forall k :: 0 <= k < |vs| ==> 0.0 <= vs[k].overallScore <= 100.0) &&
            (forall k :: 0 <= k < |outs| ==> outs[k].confidence <= 100) ==>
            0.0 <= r <= 100.0
  {
    var q := Mean(ValidationScores(vs)) * 0.6 + Mean(Confidences(outs)) * 0.4;
    if (forall k :: 0 <= k < |vs| ==> 0.0 <= vs[k].overallScore <= 100.0) &&
      (forall k :: 0 <= k < |outs| ==> outs[k].confidence <= 100)
    then
      MeanBounds(ValidationScores(vs), 0.0, 100.0);
      MeanBounds(Confidences(outs), 0.0, 100.0);
      q
    else q
  }

  /** 100 minus one point per 100 ms of mean processing time, floored at 0. */
  function SpeedScore(outs: seq<AgentOutput>): (r: real)
    requires |outs| > 0
    ensures 0.0 <= r <= 100.0
    ensures r == 0.0 <==> Mean(ProcessingTimes(outs)) >= 10000.0
  {
    var t := Mean(ProcessingTimes(outs));
    MeanBounds(ProcessingTimes(outs), 0.0, LargestTime(outs));
    if 100.0 - t / 100.0 > 0.0 then 100.0 - t / 100.0 else 0.0
  }

  /** An upper bound of the processing times, used only to bound their mean
      from below. */
  function LargestTime(outs: seq<AgentOutput>): (m: real)
    ensures m >= 0.0 && forall k :: 0 <= k < |outs| ==> outs[k].processingTime as real <= m
  {
    if outs == [] then 0.0
    else
      var m := LargestTime(outs[..|outs| - 1]);
      var t := outs[|outs| - 1].processingTime as real;
      if t > m then t else m
  }

  // ---------------------------------------------------------------------
  // Collaboration
  // ---------------------------------------------------------------------

  /** Output `cur` builds on `prev` when its lowercased text mentions the
      previous agent's name, "analysis" or "based on". */
  predicate BuildsOn(prev: AgentOutput, cur: AgentOutput) {
    var content := ToLower(cur.content);
    Contains(content, ToLower(prev.agentName)) || Contains(content, "analysis") ||
    Contains(content, "based on")
  }

  /** The number of positions i >= 1 whose output builds on output i-1. */
  function BuildCount(outs: seq<AgentOutput>): (n: nat)
    ensures n <= if |outs| == 0 then 0 else |outs| - 1
  {
    if |outs| < 2 then 0
    else
      BuildCount(outs[..|outs| - 1]) +
      (if BuildsOn(outs[|outs| - 2], outs[|outs| - 1]) then 1 else 0)
  }

  /** The collaboration score: 70, plus 10 per output building on its
      predecessor, capped at 100. */
  function CollaborationScore(outs: seq<AgentOutput>): (r: real)
    ensures 70.0 <= r <= 100.0
    ensures |outs| <= 1 ==> r == 70.0
    ensures r == 100.0 <==> BuildCount(outs) >= 3
  {
    var score := 70 + 10 * BuildCount(outs);
    if score < 100 then score as real else 100.0
  }

  /** One more output never lowers the collaboration score. */
  lemma CollaborationMonotone(outs: seq<AgentOutput>, o: AgentOutput)
    ensures CollaborationScore(outs) <= CollaborationScore(outs + [o])
  {
    if |outs| >= 1 {
      assert (outs + [o])[..|outs|] == outs;
    }
  }

  /** `assessCollaboration`: the loop over outputs 1..n-1 with its running
      score. */
  method AssessCollaboration(outs: seq<AgentOutput>) returns (r: real)
    ensures r == CollaborationScore(outs)
  {
    var score := 70;
    var i := 1;
    while i < |outs|
      invariant 1 <= i <= if |outs| == 0 then 1 else |outs|
      invariant |outs| == 0 ==> score == 70
      invariant |outs| > 0 ==> score == 70 + 10 * BuildCount(outs[..i])
    {
      var currentContent := ToLower(outs[i].content);
      var previousAgent := ToLower(outs[i - 1].agentName);
      assert outs[..i + 1][..i] == outs[..i];
      if Contains(currentContent, previousAgent) || Contains(currentContent, "analysis") ||
         Contains(currentContent, "based on") {
        score := score + 10;
      }
      i := i + 1;
    }
    if |outs| > 0 {
      assert outs[..|outs|] == outs;
    }
    r := if score < 100 then score as real else 100.0;
  }

  // ---------------------------------------------------------------------
  // Innovation
  // ---------------------------------------------------------------------

  const InnovativeKeywords: seq<string> := [
    "novel", "innovative", "unique", "breakthrough", "unprecedented",
    "cutting-edge", "revolutionary", "groundbreaking", "unconventional"]

  /** How many of `ks` occur in `content`; each keyword counts once however
      often it occurs. */
  function KeywordHits(content: string, ks: seq<string>): (n: nat)
    ensures n <= |ks|
  {
    if ks == [] then 0
    else KeywordHits(content, ks[..|ks| - 1]) + (if Contains(content, ks[|ks| - 1]) then 1 else 0)
  }

  /** Keyword hits summed over the outputs' lowercased texts. */
  function TotalKeywordHits(outs: seq<AgentOutput>): (n: nat)
    ensures n <= |InnovativeKeywords| * |outs|
  {
    if outs == [] then 0
    else
      TotalKeywordHits(outs[..|outs| - 1]) +
      KeywordHits(ToLower(outs[|outs| - 1].content), InnovativeKeywords)
  }

  /** The length bonus: 10 above a mean length of 800 characters, 10 more
      above 1200. With no outputs the mean is NaN and neither test holds. */
  function LengthBonus(outs: seq<AgentOutput>): (b: nat)
    ensures b == 0 || b == 10 || b == 20
    ensures |outs| == 0 ==> b == 0
    ensures |outs| > 0 ==> (b >= 10 <==> Mean(ContentLengths(outs)) > 800.0)
    ensures |outs| > 0 ==> (b == 20 <==> Mean(ContentLengths(outs)) > 1200.0)
  {
    if |outs| == 0 then 0
    else
      var avgLength := Mean(ContentLengths(outs));
      (if avgLength > 800.0 then 10 else 0) + (if avgLength > 1200.0 then 10 else 0)
  }

  /** The innovation score: 60, plus 5 per (output, keyword) hit, plus the
      length bonus, capped at 100. */
  function InnovationScore(outs: seq<AgentOutput>): (r: real)
    ensures 60.0 <= r <= 100.0
    ensures r == 100.0 <==> 5 * TotalKeywordHits(outs) + LengthBonus(outs) >= 40
    ensures TotalKeywordHits(outs) == 0 && LengthBonus(outs) == 0 ==> r == 60.0
  {
    var score := 60 + 5 * TotalKeywordHits(outs) + LengthBonus(outs);
    if score < 100 then score as real else 100.0
  }

  /** `assessInnovation`: a keyword loop nested in an output loop, then the
      length bonus. */
  method AssessInnovation(outs: seq<AgentOutput>) returns (r: real)
    ensures r == InnovationScore(outs)
  {
    var score := 60;
    var i := 0;
    while i < |outs|
      invariant 0 <= i <= |outs|
      invariant score == 60 + 5 * TotalKeywordHits(outs[..i])
    {
      var content := ToLower(outs[i].content);
      var j := 0;
      while j < |InnovativeKeywords|
        invariant 0 <= j <= |InnovativeKeywords|
        invariant score == 60 + 5 * TotalKeywordHits(outs[..i]) +
          5 * KeywordHits(content, InnovativeKeywords[..j])
      {
        assert InnovativeKeywords[..j + 1][..j] == InnovativeKeywords[..j];
        if Contains(content, InnovativeKeywords[j]) {
          score := score + 5;
        }
        j := j + 1;
      }
      assert InnovativeKeywords[..j] == InnovativeKeywords;
      assert outs[..i + 1][..i] == outs[..i];
      i := i + 1;
    }
    assert outs[..i] == outs;
    score := score + LengthBonus(outs);
    r := if score < 100 then score as real else 100.0;
  }

  // ---------------------------------------------------------------------
  // Strengths and improvements
  // ---------------------------------------------------------------------

  /** One entry of `Object.entries(scores)`, with the key already turned
      into its label ("qualityScore" becomes "quality"). */
  datatype Entry = Entry(name: string, value: real)

  /** The score record in its key order. */
  function Entries(quality: real, speed: real, collaboration: real, innovation: real): seq<Entry> {
    [Entry("quality", quality), Entry("speed", speed),
     Entry("collaboration", collaboration), Entry("innovation", innovation)]
  }

  predicate Excellent(x: real) { x >= 85.0 }

  predicate NeedsWork(x: real) { x < 70.0 }

  /** The labels `prefix + name` of the entries whose value satisfies `keep`,
      in entry order. */
  function Labels(es: seq<Entry>, prefix: string, keep: real -> bool): (r: seq<string>)
    ensures |r| <= |es|
  {
    if es == [] then []
    else
      Labels(es[..|es| - 1], prefix, keep) +
      (if keep(es[|es| - 1].value) then [prefix + es[|es| - 1].name] else [])
  }

  /** A label is produced exactly for the entries that satisfy the test. */
  lemma {:induction false} LabelsExact(es: seq<Entry>, prefix: string, keep: real -> bool, x: string)
    ensures x in Labels(es, prefix, keep) <==>
      exists k :: 0 <= k < |es| && keep(es[k].value) && x == prefix + es[k].name
  {
    if es != [] {
      var n := |es| - 1;
      LabelsExact(es[..n], prefix, keep, x);
      if x in Labels(es[..n], prefix, keep) {
        var k :| 0 <= k < n && keep(es[..n][k].value) && x == prefix + es[..n][k].name;
        assert es[k] == es[..n][k];
      }
      if exists k :: 0 <= k < |es| && keep(es[k].value) && x == prefix + es[k].name {
        var k :| 0 <= k < |es| && keep(es[k].value) && x == prefix + es[k].name;
        if k < n {
          assert es[..n][k] == es[k];
        }
      }
    }
  }

  /** The index `reduce((a, b) => b[1] > a[1] ? b : a)` ends on: the first
      entry with the largest value. */
  function FirstMax(es: seq<Entry>): (m: nat)
    requires |es| > 0
    ensures m < |es|
    ensures forall k :: 0 <= k < |es| ==> es[k].value <= es[m].value
    ensures forall k :: 0 <= k < m ==> es[k].value < es[m].value
  {
    if |es| == 1 then 0
    else
      var k := FirstMax(es[..|es| - 1]);
      if es[|es| - 1].value > es[k].value then |es| - 1 else k
  }

  /** What `identifyStrengths` returns. */
  function Strengths(es: seq<Entry>): seq<string>
    requires |es| > 0
  {
    var excellent := Labels(es, "Excellent ", Excellent);
    if |excellent| > 0 then excellent else ["Strong " + es[FirstMax(es)].name]
  }

  /** The strength labels are never empty: every entry at 85 or above is
      labelled "Excellent", and when there is none exactly one "Strong"
      label names the first highest entry. */
  lemma StrengthsExact(es: seq<Entry>, x: string)
    requires |es| > 0
    ensures |Strengths(es)| > 0
    ensures (exists k :: 0 <= k < |es| && Excellent(es[k].value)) ==>
      (x in Strengths(es) <==> exists k :: 0 <= k < |es| && Excellent(es[k].value) && x == "Excellent " + es[k].name)
    ensures (forall k :: 0 <= k < |es| ==> !Excellent(es[k].value)) ==>
      Strengths(es) == ["Strong " + es[FirstMax(es)].name]
  {
    LabelsExact(es, "Excellent ", Excellent, x);
    if exists k :: 0 <= k < |es| && Excellent(es[k].value) {
      var k :| 0 <= k < |es| && Excellent(es[k].value);
      LabelsExact(es, "Excellent ", Excellent, "Excellent " + es[k].name);
    } else {
      if |Labels(es, "Excellent ", Excellent)| > 0 {
        var y := Labels(es, "Excellent ", Excellent)[0];
        LabelsExact(es, "Excellent ", Excellent, y);
      }
    }
  }

  /** What `identifyImprovements` returns. */
  function Improvements(es: seq<Entry>): seq<string> {
    Labels(es, "Enhance ", NeedsWork)
  }

  /** The improvement labels name exactly the entries below 70. */
  lemma ImprovementsExact(es: seq<Entry>, x: string)
    ensures x in Improvements(es) <==>
      exists k :: 0 <= k < |es| && es[k].value < 70.0 && x == "Enhance " + es[k].name
  {
    LabelsExact(es, "Enhance ", NeedsWork, x);
  }

  /** The push loop collecting the labels of the entries that pass `keep`. */
  method CollectLabels(es: seq<Entry>, prefix: string, keep: real -> bool) returns (labels: seq<string>)
    ensures labels == Labels(es, prefix, keep)
  {
    labels := [];
    var i := 0;
    while i < |es|
      invariant 0 <= i <= |es|
      invariant labels == Labels(es[..i], prefix, keep)
    {
      assert es[..i + 1][..i] == es[..i];
      if keep(es[i].value) {
        labels := labels + [prefix + es[i].name];
      }
      i := i + 1;
    }
    assert es[..i] == es;
  }

  /** `identifyStrengths`. */
  method IdentifyStrengths(es: seq<Entry>) returns (strengths: seq<string>)
    requires |es| > 0
    ensures strengths == Strengths(es)
  {
    strengths := CollectLabels(es, "Excellent ", Excellent);
    if |strengths| == 0 {
      var highest := es[FirstMax(es)];
      strengths := strengths + ["Strong " + highest.name];
    }
  }

  /** `identifyImprovements`. */
  method IdentifyImprovements(es: seq<Entry>) returns (improvements: seq<string>)
    ensures improvements == Improvements(es)
  {
    improvements := CollectLabels(es, "Enhance ", NeedsWork);
  }

  // ---------------------------------------------------------------------
  // Team performance
  // ---------------------------------------------------------------------

  /** `calculateTeamPerformance` as a function of its inputs and the
      comparator's weights. */
  function Performance(w: Weights, team: Team, outs: seq<AgentOutput>, vs: seq<ValidationReport>): (r: TeamPerformance)
    requires |outs| > 0 && |vs| > 0
    ensures r.team == team && r.qualityScore == QualityScore(outs, vs) && r.speedScore == SpeedScore(outs)
    ensures r.collaborationScore == CollaborationScore(outs) && r.innovationScore == InnovationScore(outs)
    ensures r.totalScore == CalculateTeamScore(w, r.(totalScore := 0.0, strengths := [], improvements := []))
  {
    var q := QualityScore(outs, vs);
    var s := SpeedScore(outs);
    var c := CollaborationScore(outs);
    var i := InnovationScore(outs);
    var p := TeamPerformance(team, q, s, c, i, 0.0, [], []);
    var es := Entries(q, s, c, i);
    TeamPerformance(team, q, s, c, i, CalculateTeamScore(w, p), Strengths(es), Improvements(es))
  }

  method CalculateTeamPerformance(w: Weights, team: Team, outs: seq<AgentOutput>, vs: seq<ValidationReport>)
    returns (p: TeamPerformance)
    requires |outs| > 0 && |vs| > 0
    ensures p == Performance(w, team, outs, vs)
  {
    var qualityScore := QualityScore(outs, vs);
    var speedScore := SpeedScore(outs);
    var collaborationScore := AssessCollaboration(outs);
    var innovationScore := AssessInnovation(outs);
    var totalScore := CalculateTeamScore(w,
      TeamPerformance(team, qualityScore, speedScore, collaborationScore, innovationScore, 0.0, [], []));
    var es := Entries(qualityScore, speedScore, collaborationScore, innovationScore);
    var strengths := IdentifyStrengths(es);
    var improvements := IdentifyImprovements(es);
    p := TeamPerformance(team, qualityScore, speedScore, collaborationScore, innovationScore,
      totalScore, strengths, improvements);
  }

  /** With validation scores in [0,100], self-reported confidences of at
      most 100 and convex weights, every sub-score and the total lie in
      [0,100]; speed, collaboration and innovation do so unconditionally. */
  lemma PerformanceInRange(w: Weights, team: Team, outs: seq<AgentOutput>, vs: seq<ValidationReport>)
    requires |outs| > 0 && |vs| > 0
    requires Convex(w)
    requires forall k :: 0 <= k < |vs| ==> 0.0 <= vs[k].overallScore <= 100.0
    requires forall k :: 0 <= k < |outs| ==> outs[k].confidence <= 100
    ensures var p := Performance(w, team, outs, vs);
      0.0 <= p.qualityScore <= 100.0 && 0.0 <= p.speedScore <= 100.0 &&
      70.0 <= p.collaborationScore <= 100.0 && 60.0 <= p.innovationScore <= 100.0 &&
      0.0 <= p.totalScore <= 100.0
  {
  }

  /** The parsed confidence is not clamped, so one output claiming 150%
      lifts quality above 100 even with perfect validation. */
  lemma UnclampedConfidenceLiftsQuality(o: AgentOutput, v: ValidationReport)
    requires o.confidence == 150 && v.overallScore == 100.0
    ensures QualityScore([o], [v]) == 120.0
  {
    assert Sum(ValidationScores([v])) == 100.0 by {
      assert ValidationScores([v])[..0] == [];
    }
    assert Sum(Confidences([o])) == 150.0 by {
      assert Confidences([o])[..0] == [];
    }
  }

  /** The team's improvement labels name exactly its sub-scores below 70 --
      collaboration never, as it starts at 70 -- and it always has at least
      one strength. */
  lemma PerformanceLabels(w: Weights, team: Team, outs: seq<AgentOutput>, vs: seq<ValidationReport>, x: string)
    requires |outs| > 0 && |vs| > 0
    ensures var p := Performance(w, team, outs, vs);
      |p.strengths| > 0 &&
      (x in p.improvements <==>
        (x == "Enhance quality" && p.qualityScore < 70.0) ||
        (x == "Enhance speed" && p.speedScore < 70.0) ||
        (x == "Enhance innovation" && p.innovationScore < 70.0))
  {
    var p := Performance(w, team, outs, vs);
    EntryLabels(p.qualityScore, p.speedScore, p.collaborationScore, p.innovationScore, x);
  }

  /** The labels of four sub-scores whose collaboration score is at least
      70: no collaboration improvement, and at least one strength. */
  lemma EntryLabels(q: real, s: real, c: real, i: real, x: string)
    requires c >= 70.0
    ensures var es := Entries(q, s, c, i);
      |Strengths(es)| > 0 &&
      (x in Improvements(es) <==>
        (x == "Enhance quality" && q < 70.0) ||
        (x == "Enhance speed" && s < 70.0) ||
        (x == "Enhance innovation" && i < 70.0))
  {
    var es := Entries(q, s, c, i);
    ImprovementsExact(es, x);
    StrengthsExact(es, x);
    EnhanceLabels();
    if x in Improvements(es) {
      var k :| 0 <= k < |es| && es[k].value < 70.0 && x == "Enhance " + es[k].name;
      assert k != 2;
    }
    if x == "Enhance quality" && q < 70.0 {
      assert es[0].value < 70.0 && x == "Enhance " + es[0].name;
    }
    if x == "Enhance speed" && s < 70.0 {
      assert es[1].value < 70.0 && x == "Enhance " + es[1].name;
    }
    if x == "Enhance innovation" && i < 70.0 {
      assert es[3].value < 70.0 && x == "Enhance " + es[3].name;
    }
  }

  /** Three of the improvement labels, spelled out. */
  lemma EnhanceLabels()
    ensures "Enhance " + "quality" == "Enhance quality"
    ensures "Enhance " + "speed" == "Enhance speed"
    ensures "Enhance " + "innovation" == "Enhance innovation"
  {
  }

  // ---------------------------------------------------------------------
  // Praise
  // ---------------------------------------------------------------------

  /** `praise-templates.yaml`; the optional comeback list is never read. */
  datatype PraiseTemplates = PraiseTemplates(
    decisive: seq<string>,
    close: seq<string>,
    tie: seq<string>,
    milestones: map<nat, string>)

  /** The templates used when the file cannot be read. */
  const DefaultTemplates := PraiseTemplates(
    ["🏆 **{team} DOMINATES!** A commanding victory!"],
    ["🥇 **{team} Edges Out Victory!** Well fought!"],
    ["🤝 **Dead Heat!** Both teams delivered excellence!"],
    map[3 := "🔥 **3-Win Streak!** {team} is on fire!",
        5 := "⚡ **5-Win Streak!** {team} is dominating!"])

  /** The streak line: only for a streak of the winning team whose count has
      a non-empty milestone template. */
  function StreakLine(t: PraiseTemplates, winner: Team, streak: Option<Streak>): (r: Option<string>)
    ensures r.Some? <==>
      streak.Some? && streak.value.team == winner && streak.value.count in t.milestones &&
      t.milestones[streak.value.count] != ""
    ensures r.Some? ==> r.value == t.milestones[streak.value.count]
  {
    if streak.Some? && streak.value.team == winner && streak.value.count in t.milestones &&
       t.milestones[streak.value.count] != ""
    then Some(t.milestones[streak.value.count])
    else None
  }

  /** `generatePraise`, as the template it picks. `None` stands for the
      TypeError thrown when the chosen template list is empty. */
  function GeneratePraise(t: PraiseTemplates, winner: Verdict, alphaScore: real, omegaScore: real,
                          streak: Option<Streak>): (r: Option<Praise>)
    ensures winner == Tie ==>
      (r.Some? <==> |t.tie| > 0) && (r.Some? ==> r.value == Praise(TieBucket, t.tie[0], None))
    ensures winner.Win? && Abs(alphaScore - omegaScore) > 15.0 ==>
      (r.Some? <==> |t.decisive| > 0) && (r.Some? ==> r.value.bucket == Decisive && r.value.template == t.decisive[0])
    ensures winner.Win? && Abs(alphaScore - omegaScore) <= 15.0 ==>
      (r.Some? <==> |t.close| > 0) && (r.Some? ==> r.value.bucket == Close && r.value.template == t.close[0])
    ensures winner.Win? && r.Some? ==> r.value.streakLine == StreakLine(t, winner.team, streak)
  {
    match winner
    case Tie => if |t.tie| > 0 then Some(Praise(TieBucket, t.tie[0], None)) else None
    case Win(team) =>
      var margin := Abs(alphaScore - omegaScore);
      var bucket := if margin > 15.0 then Decisive else Close;
      var templates := if margin > 15.0 then t.decisive else t.close;
      if |templates| > 0 then Some(Praise(bucket, templates[0], StreakLine(t, team, streak))) else None
  }

  /** With the built-in templates the praise always exists, and a streak line
      appears exactly for the winner's third and fifth straight win. */
  lemma DefaultPraise(winner: Verdict, alphaScore: real, omegaScore: real, streak: Option<Streak>)
    ensures GeneratePraise(DefaultTemplates, winner, alphaScore, omegaScore, streak).Some?
    ensures winner.Win? ==>
      (GeneratePraise(DefaultTemplates, winner, alphaScore, omegaScore, streak).value.streakLine.Some? <==>
        streak.Some? && streak.value.team == winner.team && (streak.value.count == 3 || streak.value.count == 5))
  {
  }

  // ---------------------------------------------------------------------
  // Continue flag and confidence
  // ---------------------------------------------------------------------

  /** A result that is an `error`-severity failure. */
  predicate Critical(r: FeedbackResult) {
    r.severity == Error && !r.passed
  }

  /** `report.results.some(critical)`. */
  predicate HasCritical(report: ValidationReport) {
    exists j :: 0 <= j < |report.results| && Critical(report.results[j])
  }

  /** `reports.some(report => report.results.some(critical))`. */
  function HasCriticalFailure(reports: seq<ValidationReport>): bool {
    if reports == [] then false
    else HasCriticalFailure(reports[..|reports| - 1]) || HasCritical(reports[|reports| - 1])
  }

  lemma {:induction false} CriticalFailureIff(reports: seq<ValidationReport>)
    ensures HasCriticalFailure(reports) <==> exists k :: 0 <= k < |reports| && HasCritical(reports[k])
  {
    if reports != [] {
      var n := |reports| - 1;
      CriticalFailureIff(reports[..n]);
      if HasCriticalFailure(reports[..n]) {
        var k :| 0 <= k < n && HasCritical(reports[..n][k]);
        assert reports[k] == reports[..n][k];
      }
      if exists k :: 0 <= k < |reports| && HasCritical(reports[k]) {
        var k :| 0 <= k < |reports| && HasCritical(reports[k]);
        if k < n {
          assert reports[..n][k] == reports[k];
        }
      }
    }
  }

  /** `shouldContinue`: false exactly when some report of either team holds
      a failed `error`-severity result. */
  function ShouldContinue(alphaValidation: seq<ValidationReport>, omegaValidation: seq<ValidationReport>): (r: bool)
    ensures r <==>
      (forall k :: 0 <= k < |alphaValidation| ==> !HasCritical(alphaValidation[k])) &&
      (forall k :: 0 <= k < |omegaValidation| ==> !HasCritical(omegaValidation[k]))
  {
    var all := alphaValidation + omegaValidation;
    CriticalFailureIff(all);
    assert forall k :: 0 <= k < |alphaValidation| ==> all[k] == alphaValidation[k];
    assert forall k :: 0 <= k < |omegaValidation| ==> all[|alphaValidation| + k] == omegaValidation[k];
    !HasCriticalFailure(all)
  }

  /** For reports whose verdict is "every error-severity result passed" (as
      the ruleset engine builds them), continuing means every report of
      both teams passed. */
  lemma ContinueIffAllPassed(alphaValidation: seq<ValidationReport>, omegaValidation: seq<ValidationReport>)
    requires forall k :: 0 <= k < |alphaValidation| ==> (alphaValidation[k].passed <==> !HasCritical(alphaValidation[k]))
    requires forall k :: 0 <= k < |omegaValidation| ==> (omegaValidation[k].passed <==> !HasCritical(omegaValidation[k]))
    ensures ShouldContinue(alphaValidation, omegaValidation) <==>
      (forall k :: 0 <= k < |alphaValidation| ==> alphaValidation[k].passed) &&
      (forall k :: 0 <= k < |omegaValidation| ==> omegaValidation[k].passed)
  {
  }

  /** `calculateConfidence`: 70% of the average of the two teams' mean
      validation scores, plus twice the score gap capped at 30, the whole
      capped at 100. */
  function CalculateConfidence(alphaPerf: TeamPerformance, omegaPerf: TeamPerformance,
                               alphaValidation: seq<ValidationReport>, omegaValidation: seq<ValidationReport>): (r: real)
    requires |alphaValidation| > 0 && |omegaValidation| > 0
    ensures r <= 100.0
  {
    var avgAlpha := Mean(ValidationScores(alphaValidation));
    var avgOmega := Mean(ValidationScores(omegaValidation));
    var validationScore := (avgAlpha + avgOmega) / 2.0;
    var scoreDiff := Abs(alphaPerf.totalScore - omegaPerf.totalScore);
    var diffConfidence := if scoreDiff * 2.0 < 30.0 then scoreDiff * 2.0 else 30.0;
    var raw := validationScore * 0.7 + diffConfidence;
    if raw < 100.0 then raw else 100.0
  }

  /** With non-negative validation scores the confidence lies in
      [0, 100]. */
  lemma ConfidenceInRange(alphaPerf: TeamPerformance, omegaPerf: TeamPerformance,
                          alphaValidation: seq<ValidationReport>, omegaValidation: seq<ValidationReport>)
    requires |alphaValidation| > 0 && |omegaValidation| > 0
    requires forall k :: 0 <= k < |alphaValidation| ==> alphaValidation[k].overallScore >= 0.0
    requires forall k :: 0 <= k < |omegaValidation| ==> omegaValidation[k].overallScore >= 0.0
    ensures 0.0 <= CalculateConfidence(alphaPerf, omegaPerf, alphaValidation, omegaValidation) <= 100.0
  {
    MeanBounds(ValidationScores(alphaValidation), 0.0, MaxScore(alphaValidation));
    MeanBounds(ValidationScores(omegaValidation), 0.0, MaxScore(omegaValidation));
  }

  /** An upper bound of the validation scores, used only to bound their mean. */
  function MaxScore(vs: seq<ValidationReport>): (m: real)
    requires |vs| > 0
    ensures forall k :: 0 <= k < |vs| ==> vs[k].overallScore <= m
  {
    if |vs| == 1 then vs[0].overallScore
    else
      var m := MaxScore(vs[..|vs| - 1]);
      if vs[|vs| - 1].overallScore > m then vs[|vs| - 1].overallScore else m
  }

  /** The confidence averages the per-team means, not the pooled mean: one
      perfect alpha report against three failing omega reports counts as a
      validation average of 50, not 25. */
  lemma ConfidenceAveragesTeamMeans(a: TeamPerformance, v100: ValidationReport, v0: ValidationReport)
    requires a.totalScore == 50.0
    requires v100.overallScore == 100.0 && v0.overallScore == 0.0
    ensures CalculateConfidence(a, a, [v100], [v0, v0, v0]) == 35.0
  {
    assert Sum(ValidationScores([v100])) == 100.0 by {
      assert ValidationScores([v100])[..0] == [];
    }
    SumBounds(ValidationScores([v0, v0, v0]), 0.0, 0.0);
  }

  // ---------------------------------------------------------------------
  // The judgment
  // ---------------------------------------------------------------------

  /** `judge` as a function of its inputs: both performances, the
      comparator's verdict and reasoning, the praise, the continue flag and
      the confidence. `None` stands for the praise lookup throwing. */
  function JudgeSpec(w: Weights, t: PraiseTemplates,
                     alphaOutputs: seq<AgentOutput>, omegaOutputs: seq<AgentOutput>,
                     alphaValidation: seq<ValidationReport>, omegaValidation: seq<ValidationReport>,
                     currentStreak: Option<Streak>): (r: Option<ModeratorJudgment>)
    requires |alphaOutputs| > 0 && |omegaOutputs| > 0
    requires |alphaValidation| > 0 && |omegaValidation| > 0
    ensures r.Some? ==> r.value.winningTeam != Win(Ultimate)
    ensures r.Some? ==> r.value.confidence <= 100.0
    ensures r.Some? ==>
      (r.value.winningTeam == Tie <==>
        Abs(r.value.teamAlphaPerformance.totalScore - r.value.teamOmegaPerformance.totalScore) < 2.0)
  {
    var alphaPerformance := Performance(w, Alpha, alphaOutputs, alphaValidation);
    var omegaPerformance := Performance(w, Omega, omegaOutputs, omegaValidation);
    var comparison := CompareTeams(alphaPerformance, omegaPerformance);
    var praise := GeneratePraise(t, comparison.betterTeam, alphaPerformance.totalScore,
      omegaPerformance.totalScore, currentStreak);
    if praise.None? then None
    else
      Some(ModeratorJudgment(comparison.betterTeam, alphaPerformance, omegaPerformance,
        comparison.reasoning, praise.value, ShouldContinue(alphaValidation, omegaValidation),
        CalculateConfidence(alphaPerformance, omegaPerformance, alphaValidation, omegaValidation)))
  }

  /** `judge`. */
  method Judge(w: Weights, t: PraiseTemplates,
               alphaOutputs: seq<AgentOutput>, omegaOutputs: seq<AgentOutput>,
               alphaValidation: seq<ValidationReport>, omegaValidation: seq<ValidationReport>,
               currentStreak: Option<Streak>) returns (j: Option<ModeratorJudgment>)
    requires |alphaOutputs| > 0 && |omegaOutputs| > 0
    requires |alphaValidation| > 0 && |omegaValidation| > 0
    ensures j == JudgeSpec(w, t, alphaOutputs, omegaOutputs, alphaValidation, omegaValidation, currentStreak)
  {
    var alphaPerformance := CalculateTeamPerformance(w, Alpha, alphaOutputs, alphaValidation);
    var omegaPerformance := CalculateTeamPerformance(w, Omega, omegaOutputs, omegaValidation);
    var comparison := CompareTeams(alphaPerformance, omegaPerformance);
    var praise := GeneratePraise(t, comparison.betterTeam, alphaPerformance.totalScore,
      omegaPerformance.totalScore, currentStreak);
    if praise.None? {
      j := None;
    } else {
      var shouldContinue := ShouldContinue(alphaValidation, omegaValidation);
      var confidence := CalculateConfidence(alphaPerformance, omegaPerformance, alphaValidation, omegaValidation);
      j := Some(ModeratorJudgment(comparison.betterTeam, alphaPerformance, omegaPerformance,
        comparison.reasoning, praise.value, shouldContinue, confidence));
    }
  }

  /** The judgment embeds both computed performances unchanged and takes its
      winner from the comparator. */
  lemma JudgmentEmbedsPerformances(w: Weights, t: PraiseTemplates,
                                   alphaOutputs: seq<AgentOutput>, omegaOutputs: seq<AgentOutput>,
                                   alphaValidation: seq<ValidationReport>, omegaValidation: seq<ValidationReport>,
                                   currentStreak: Option<Streak>)
    requires |alphaOutputs| > 0 && |omegaOutputs| > 0
    requires |alphaValidation| > 0 && |omegaValidation| > 0
    ensures var r := JudgeSpec(w, t, alphaOutputs, omegaOutputs, alphaValidation, omegaValidation, currentStreak);
      var a := Performance(w, Alpha, alphaOutputs, alphaValidation);
      var o := Performance(w, Omega, omegaOutputs, omegaValidation);
      r.Some? ==>
        r.value.teamAlphaPerformance == a && r.value.teamOmegaPerformance == o &&
        r.value.winningTeam == BetterTeam(a.totalScore, o.totalScore)
  {
  }

  /** Scenario: two teams with the same outputs and reports tie, and with
      the built-in templates the judgment carries the tie template. */
  lemma IdenticalTeamsTie(w: Weights, outs: seq<AgentOutput>, vs: seq<ValidationReport>, streak: Option<Streak>)
    requires |outs| > 0 && |vs| > 0
    ensures var r := JudgeSpec(w, DefaultTemplates, outs, outs, vs, vs, streak);
      r.Some? && r.value.winningTeam == Tie &&
      r.value.praiseMessage == Praise(TieBucket, DefaultTemplates.tie[0], None)
  {
    var a := Performance(w, Alpha, outs, vs);
    var o := Performance(w, Omega, outs, vs);
    SameScoresSameTotal(w, outs, vs);
    assert CompareTeams(a, o).betterTeam == Tie;
    assert GeneratePraise(DefaultTemplates, Tie, a.totalScore, o.totalScore, streak)
      == Some(Praise(TieBucket, DefaultTemplates.tie[0], None));
  }

  /** The team label does not enter the total. */
  lemma SameScoresSameTotal(w: Weights, outs: seq<AgentOutput>, vs: seq<ValidationReport>)
    requires |outs| > 0 && |vs| > 0
    ensures Performance(w, Alpha, outs, vs).totalScore == Performance(w, Omega, outs, vs).totalScore
  {
    var q, s, c, i := QualityScore(outs, vs), SpeedScore(outs), CollaborationScore(outs), InnovationScore(outs);
    TotalIgnoresTeam(w, TeamPerformance(Alpha, q, s, c, i, 0.0, [], []), Omega);
  }

  lemma TotalIgnoresTeam(w: Weights, p: TeamPerformance, t: Team)
    ensures CalculateTeamScore(w, p) == CalculateTeamScore(w, p.(team := t))
  {
  }
}
