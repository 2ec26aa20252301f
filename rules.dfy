/** The ruleset validator (lib/feedback/ruleset-engine.ts): pass/fail rules
    run against one agent output, producing a validation report. */
module Rulesets {
  import opened Wrappers
  import opened Types
  import opened Text

  /** The `type` field of a rule definition. */
  datatype RuleKind = Programmatic | Llm | OtherKind(name: string)

  /** One rule as the ruleset file describes it. */
  datatype RuleConfig = RuleConfig(
    id: string,
    name: string,
    description: string,
    kind: RuleKind,
    severity: Severity,
    minChars: Option<int>)

  /** What running a check gives: `true`, `false`, or an exception. */
  datatype Outcome = Pass | Fail | Throw

  /** A `ValidationRule`: its check may be any function of the output. */
  datatype Rule = Rule(
    id: string,
    name: string,
    description: string,
    kind: RuleKind,
    severity: Severity,
    check: AgentOutput -> Outcome)

  function FromBool(b: bool): Outcome {
    if b then Pass else Fail
  }

  predicate HasStructure(content: string) {
    Contains(content, "**") || Contains(content, "##") || Contains(content, "- ")
  }

  /** The predicate `createCheckFunction` builds for a rule definition. A
      rule without a built-in check always passes. */
  predicate ConfigCheck(c: RuleConfig, o: AgentOutput): (b: bool)
    ensures !KnownCheck(c) ==> b
  {
    var lower := ToLower(o.content);
    if c.kind == Programmatic && c.id == "min_length" && c.minChars.Some? && c.minChars.value != 0 then
      |o.content| >= c.minChars.value
    else if c.kind == Programmatic && c.id == "confidence_present" then
      0 < o.confidence <= 100
    else if c.kind == Programmatic && c.id == "structured_format" then
      HasStructure(o.content)
    else if c.kind == Llm && c.id == "logical_consistency" then
      |o.content| > 100 && o.confidence > 50
    else if c.kind == Llm && c.id == "actionable_insights" then
      Contains(lower, "recommend") || Contains(lower, "should") || Contains(lower, "strategy")
    else
      true
  }

  /** `createCheckFunction`. None of the checks it builds throws. */
  function CreateCheckFunction(c: RuleConfig): (check: AgentOutput -> Outcome)
    ensures forall o :: check(o) != Throw
  {
    o => FromBool(ConfigCheck(c, o))
  }

  /** The rule ids `createCheckFunction` gives a real check for. */
  predicate KnownCheck(c: RuleConfig) {
    (c.kind == Programmatic &&
      ((c.id == "min_length" && c.minChars.Some? && c.minChars.value != 0) ||
       c.id == "confidence_present" || c.id == "structured_format")) ||
    (c.kind == Llm && (c.id == "logical_consistency" || c.id == "actionable_insights"))
  }

  lemma UnknownRulesPass(c: RuleConfig, o: AgentOutput)
    requires !KnownCheck(c)
    ensures CreateCheckFunction(c)(o) == Pass
  {
  }

  lemma StructuredFormatCheck(c: RuleConfig, o: AgentOutput)
    requires c.kind == Programmatic && c.id == "structured_format"
    ensures CreateCheckFunction(c)(o) == Pass <==>
      (Contains(o.content, "**") || Contains(o.content, "##") || Contains(o.content, "- "))
  {
  }

  /** A `min_length` rule whose `min_chars` is missing or 0 always passes:
      the `&& min_chars` guard sends it to the final always-pass check. */
  lemma MinLengthWithoutBoundPasses(c: RuleConfig, o: AgentOutput)
    requires c.kind == Programmatic && c.id == "min_length"
    requires c.minChars.None? || c.minChars == Some(0)
    ensures CreateCheckFunction(c)(o) == Pass
  {
  }

  function RuleFromConfig(c: RuleConfig): Rule {
    Rule(c.id, c.name, c.description, c.kind, c.severity, CreateCheckFunction(c))
  }

  /** The rules `loadRuleset` builds from a definition list, one per entry. */
  function RulesFromConfig(cs: seq<RuleConfig>): (rs: seq<Rule>)
    ensures |rs| == |cs|
    ensures forall i :: 0 <= i < |cs| ==>
      rs[i].id == cs[i].id && rs[i].name == cs[i].name && rs[i].description == cs[i].description &&
      rs[i].kind == cs[i].kind && rs[i].severity == cs[i].severity
    ensures forall i, o :: 0 <= i < |cs| ==> rs[i].check(o) == FromBool(ConfigCheck(cs[i], o))
  {
    seq(|cs|, i requires 0 <= i < |cs| => RuleFromConfig(cs[i]))
  }

  /** `loadDefaultRules`: the fallback ruleset. */
  function DefaultRules(): (rs: seq<Rule>)
    ensures |rs| == 2
    ensures rs[0].id == "min_length" && rs[1].id == "confidence_present"
    ensures rs[0].severity == Error && rs[1].severity == Error
    ensures forall o :: rs[0].check(o) == (if |o.content| >= 100 then Pass else Fail)
    ensures forall o :: rs[1].check(o) == (if 0 < o.confidence <= 100 then Pass else Fail)
  {
    [ Rule("min_length", "Minimum Content Length",
           "Output must contain at least 100 characters", Programmatic, Error,
           (o: AgentOutput) => FromBool(|o.content| >= 100)),
      Rule("confidence_present", "Confidence Score Present",
           "Output must include a confidence score", Programmatic, Error,
           (o: AgentOutput) => FromBool(0 < o.confidence <= 100)) ]
  }

  /** What `loadRuleset` installs: the parsed rules, or the fallback pair when
      reading or parsing the file failed. */
  function Loaded(parsed: Option<seq<RuleConfig>>): (rs: seq<Rule>)
    ensures parsed.None? ==> rs == DefaultRules()
    ensures parsed.Some? ==>
      |rs| == |parsed.value| && forall i :: 0 <= i < |rs| ==> rs[i].id == parsed.value[i].id && rs[i].severity == parsed.value[i].severity
  {
    match parsed
    case Some(cs) => RulesFromConfig(cs)
    case None => DefaultRules()
  }

  const GenericSuggestion := "Review and improve this aspect of your output"

  const Suggestions: map<string, string> := map[
    "min_length" := "Provide more detailed analysis with supporting evidence",
    "confidence_present" := "Include a confidence score (0-100%) in your output",
    "structured_format" := "Use markdown formatting with headers and bullet points",
    "logical_consistency" := "Ensure all statements logically support each other",
    "actionable_insights" := "Include specific, actionable recommendations",
    "no_contradictions" := "Review output to eliminate contradictory statements"]

  /** `getSuggestion`: the rule's own advice, or the generic one. */
  function GetSuggestion(ruleId: string): (s: string)
    ensures ruleId !in Suggestions ==> s == GenericSuggestion
    ensures ruleId in Suggestions ==> s == Suggestions[ruleId]
    ensures s != ""
  {
    if ruleId in Suggestions then Suggestions[ruleId] else GenericSuggestion
  }

  /** The entry `validate` pushes for one rule. */
  function ResultFor(rule: Rule, o: AgentOutput): (r: FeedbackResult)
    ensures r.ruleId == rule.id && r.ruleName == rule.name && r.severity == rule.severity
    ensures r.passed <==> rule.check(o) == Pass
    ensures r.suggestion.None? <==> r.passed
  {
    match rule.check(o)
    case Pass =>
      FeedbackResult(true, rule.name, rule.id, rule.severity, "✓ " + rule.name, None)
    case Fail =>
      FeedbackResult(false, rule.name, rule.id, rule.severity,
        "✗ " + rule.name + ": " + rule.description, Some(GetSuggestion(rule.id)))
    case Throw =>
      FeedbackResult(false, rule.name, rule.id, rule.severity,
        "✗ " + rule.name + ": Check failed with error", Some("Unable to validate - check failed"))
  }

  /** Number of passing entries. */
  function CountPassed(rs: seq<FeedbackResult>): (n: nat)
    ensures n <= |rs|
  {
    if rs == [] then 0
    else CountPassed(rs[..|rs| - 1]) + (if rs[|rs| - 1].passed then 1 else 0)
  }

  /** `overallScore`: the percentage of rules passed, 100 with no rules. */
  function OverallScore(passed: nat, total: nat): (s: real)
    requires passed <= total
    ensures 0.0 <= s <= 100.0
    ensures total == 0 ==> s == 100.0
    ensures total > 0 ==> s * (total as real) == 100.0 * (passed as real)
  {
    if total > 0 then (passed as real / total as real) * 100.0 else 100.0
  }

  /** `passed`: every `error`-severity entry passed. */
  predicate ErrorsPassed(rs: seq<FeedbackResult>) {
    forall i :: 0 <= i < |rs| && rs[i].severity == Error ==> rs[i].passed
  }

  function Report(o: AgentOutput, results: seq<FeedbackResult>, passedCount: nat, total: nat): ValidationReport
    requires passedCount <= total
  {
    ValidationReport(o.team, o.agentName, ErrorsPassed(results), results, OverallScore(passedCount, total))
  }

  /** The validation loop of `validate`: one entry per rule, in rule order,
      and the number of passing checks. A throwing check becomes a failing
      entry and the loop goes on. */
  method RunRules(rules: seq<Rule>, o: AgentOutput) returns (results: seq<FeedbackResult>, passedCount: nat)
    ensures results == Results(rules, o)
    ensures passedCount == CountPassed(results)
  {
    results, passedCount := [], 0;
    var i := 0;
    while i < |rules|
      invariant 0 <= i <= |rules|
      invariant |results| == i
      invariant forall k :: 0 <= k < i ==> results[k] == ResultFor(rules[k], o)
      invariant passedCount == CountPassed(results)
    {
      var rule := rules[i];
      var entry := ResultFor(rule, o);
      results := results + [entry];
      assert results[..|results| - 1] == results[..i];
      if entry.passed {
        passedCount := passedCount + 1;
      }
      i := i + 1;
    }
    assert results == Results(rules, o);
  }

  /** The entries for a whole ruleset, one per rule in rule order. */
  function Results(rules: seq<Rule>, o: AgentOutput): (rs: seq<FeedbackResult>)
    ensures |rs| == |rules|
    ensures forall i :: 0 <= i < |rules| ==> rs[i] == ResultFor(rules[i], o)
  {
    seq(|rules|, i requires 0 <= i < |rules| => ResultFor(rules[i], o))
  }

  /** The report `validate` returns for a ruleset, as a function of it. */
  function ValidateSpec(o: AgentOutput, rules: seq<Rule>): (r: ValidationReport)
    ensures r.team == o.team && r.agentName == o.agentName
    ensures |r.results| == |rules|
  {
    var results := Results(rules, o);
    Report(o, results, CountPassed(results), |rules|)
  }

  /** The report's verdict: it passes iff every `error`-severity rule's
      check passed; warnings and infos never decide it. */
  lemma ReportPassedIff(o: AgentOutput, rules: seq<Rule>)
    ensures var r := ValidateSpec(o, rules);
      r.passed <==> forall i :: 0 <= i < |rules| && rules[i].severity == Error ==> rules[i].check(o) == Pass
    ensures ValidateSpec(o, rules).team == o.team && ValidateSpec(o, rules).agentName == o.agentName
    ensures 0.0 <= ValidateSpec(o, rules).overallScore <= 100.0
    ensures |ValidateSpec(o, rules).results| == |rules|
  {
  }

  /** Counting the passing entries of the per-rule results counts the rules
      whose check passed. */
  lemma CountPassedRules(rules: seq<Rule>, o: AgentOutput, n: nat)
    requires n <= |rules|
    ensures CountPassed(Results(rules[..n], o)) == |set i | 0 <= i < n && rules[i].check(o) == Pass|
  {
    var rs := Results(rules[..n], o);
    CountPassedCard(rs, n);
    assert rs[..n] == rs;
    assert (set i | 0 <= i < n && rs[i].passed) == (set i | 0 <= i < n && rules[i].check(o) == Pass);
  }

  /** The passed count of the first `n` entries is the number of passing
      indices below `n`. */
  lemma {:induction false} CountPassedCard(rs: seq<FeedbackResult>, n: nat)
    requires n <= |rs|
    ensures CountPassed(rs[..n]) == |set i | 0 <= i < n && rs[i].passed|
  {
    if n > 0 {
      assert rs[..n][..n - 1] == rs[..n - 1];
      assert CountPassed(rs[..n]) == CountPassed(rs[..n - 1]) + (if rs[n - 1].passed then 1 else 0);
      CountPassedCard(rs, n - 1);
      var sPrev := set i | 0 <= i < n - 1 && rs[i].passed;
      var sAll := set i | 0 <= i < n && rs[i].passed;
      if rs[n - 1].passed {
        assert sAll == sPrev + {n - 1};
        assert |sAll| == |sPrev| + 1;
      } else {
        assert sAll == sPrev;
      }
    }
  }

  /** Scenario: a 50-character output fails the fallback ruleset, with the
      `min_length` entry present and failing. */
  lemma ShortOutputFailsDefaultRules(o: AgentOutput)
    requires |o.content| == 50
    ensures var r := ValidateSpec(o, DefaultRules());
      !r.passed && r.results[0].ruleId == "min_length" && !r.results[0].passed
  {
    var r := ValidateSpec(o, DefaultRules());
    assert r.results[0] == ResultFor(DefaultRules()[0], o);
  }

  class RulesetEngine {
    /** The ruleset cache, by name. */
    var rulesets: map<string, seq<Rule>>
    /** Reading and parsing `config/rulesets/{name}.yaml`; `None` when either
        fails. */
    const source: string -> Option<seq<RuleConfig>>

    constructor (source: string -> Option<seq<RuleConfig>>)
      ensures rulesets == map[] && this.source == source
    {
      rulesets := map[];
      this.source := source;
    }

    /** `loadRuleset`: the parsed rules, or on failure the fallback pair. */
    method LoadRuleset(name: string)
      modifies this
      ensures rulesets == old(rulesets)[name := Loaded(source(name))]
    {
      var parsed := source(name);
      match parsed {
        case Some(cs) =>
          rulesets := rulesets[name := RulesFromConfig(cs)];
        case None =>
          rulesets := rulesets[name := DefaultRules()];
      }
    }

    /** `validate`: load the ruleset only when it is not cached, then run
        it. A cached ruleset is used as it is, so repeating the call gives the
        same report and leaves the cache as it was. */
    method Validate(o: AgentOutput, rulesetName: string) returns (report: ValidationReport)
      modifies this
      ensures rulesetName in old(rulesets) ==> rulesets == old(rulesets)
      ensures rulesetName !in old(rulesets) ==>
        rulesets == old(rulesets)[rulesetName := Loaded(source(rulesetName))]
      ensures report == ValidateSpec(o, rulesets[rulesetName])
    {
      if rulesetName !in rulesets {
        LoadRuleset(rulesetName);
      }
      var rules := rulesets[rulesetName];
      var results, passedCount := RunRules(rules, o);
      report := Report(o, results, passedCount, |rules|);
    }
  }
}
