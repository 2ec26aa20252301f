/** The base agent (lib/agents/base-agent.ts): the lazily loaded system
    prompt, the context serialiser, the confidence parser, and `execute`
    over an abstract completion backend. The agent roster of
    nine team agent files is folded into a table. */
module Agents {
  import opened Wrappers
  import opened Types
  import opened Text

  // ---------------------------------------------------------------------
  // Context serialisation
  // ---------------------------------------------------------------------

  const FirstAnalysis := "This is the first analysis in the cycle."
  const PreviousHeader := "Previous team member analyses:"

  /** One previous output as `buildContext` writes it. */
  function Section(o: AgentOutput): string {
    "\n\n--- " + o.agentName + " (" + TeamName(o.team) + ") ---\n" + o.content
  }

  function Sections(outs: seq<AgentOutput>): (r: seq<string>)
    ensures |r| == |outs| && forall k :: 0 <= k < |outs| ==> r[k] == Section(outs[k])
  {
    seq(|outs|, k requires 0 <= k < |outs| => Section(outs[k]))
  }

  /** `buildContext`: the first-analysis note when nothing ran before,
      else the header followed by the previous outputs. */
  function BuildContext(context: AgentContext): (r: string)
    ensures |context.previousOutputs| == 0 ==> r == FirstAnalysis
  {
    if |context.previousOutputs| == 0 then FirstAnalysis
    else PreviousHeader + Join(Sections(context.previousOutputs), "\n")
  }

  /** The serialisation grows by one section per output, in order: the
      first output follows the header, and each later one is appended after
      a newline. */
  lemma BuildContextSnoc(context: AgentContext, o: AgentOutput)
    ensures var next := context.(previousOutputs := context.previousOutputs + [o]);
      BuildContext(next) ==
        if |context.previousOutputs| == 0 then PreviousHeader + Section(o)
        else BuildContext(context) + "\n" + Section(o)
  {
    var prev := context.previousOutputs;
    assert Sections(prev + [o]) == Sections(prev) + [Section(o)];
    if |prev| > 0 {
      JoinSnoc(Sections(prev), Section(o), "\n");
    }
  }

  /** Every previous output's header line and content appear in the
      context. */
  lemma BuildContextMentions(context: AgentContext, k: nat)
    requires k < |context.previousOutputs|
    ensures Contains(BuildContext(context), Section(context.previousOutputs[k]))
  {
    JoinContainsPart(Sections(context.previousOutputs), "\n", k);
    ContainsExtend(Join(Sections(context.previousOutputs), "\n"), Section(context.previousOutputs[k]), PreviousHeader, "");
    assert PreviousHeader + Join(Sections(context.previousOutputs), "\n") + "" == BuildContext(context);
  }

  // ---------------------------------------------------------------------
  // Confidence parsing: /Confidence(?:\s+Level)?:\s*(\d+)%/i
  // ---------------------------------------------------------------------

  /** The code points `\s` matches in a JavaScript regular expression. */
  predicate IsSpace(c: char) {
    '\U{9}' <= c <= '\U{D}' || c == ' ' || c == '\U{A0}' || c == '\U{1680}' ||
    '\U{2000}' <= c <= '\U{200A}' || c == '\U{2028}' || c == '\U{2029}' ||
    c == '\U{202F}' || c == '\U{205F}' || c == '\U{3000}' || c == '\U{FEFF}'
  }

  /** The end of the run of whitespace starting at `j`. */
  function SkipSpaces(s: string, j: nat): (e: nat)
    requires j <= |s|
    ensures j <= e <= |s|
    ensures e == |s| || !IsSpace(s[e])
    decreases |s| - j
  {
    if j < |s| && IsSpace(s[j]) then SkipSpaces(s, j + 1) else j
  }

  /** The end of the run of decimal digits starting at `j`. */
  function SkipDigits(s: string, j: nat): (e: nat)
    requires j <= |s|
    ensures j <= e <= |s|
    ensures AllDigits(s[j..e])
    ensures e == |s| || !IsDigit(s[e])
    decreases |s| - j
  {
    if j < |s| && IsDigit(s[j]) then SkipDigits(s, j + 1) else j
  }

  /** `s` spells the word `w` (given in lower case) at `j`, ignoring
      case. */
  predicate WordAt(s: string, j: nat, w: string) {
    j + |w| <= |s| && forall k :: 0 <= k < |w| ==> LowerChar(s[j + k]) == w[k]
  }

  /** Where the optional `\s+Level` group ends when the match has reached
      `j`: after the word when whitespace and "level" follow, else `j`.
      Taking the group whenever it matches loses nothing: skipping it
      would leave whitespace where the colon must be. */
  function AfterLevel(s: string, j: nat): (e: nat)
    requires j <= |s|
    ensures j <= e <= |s|
  {
    var w := SkipSpaces(s, j);
    if w > j && WordAt(s, w, "level") then w + 5 else j
  }

  /** The digits captured by a match starting at `i`, if one does. With
      greedy `\s*` and `\d+` no backtracking can rescue a failed attempt,
      so the match at a given start is unique. */
  function MatchAt(s: string, i: nat): (r: Option<string>)
    ensures r.Some? ==> |r.value| > 0 && AllDigits(r.value) && WordAt(s, i, "confidence")
  {
    if !WordAt(s, i, "confidence") then None
    else
      var j := AfterLevel(s, i + 10);
      if !(j < |s| && s[j] == ':') then None
      else
        var k := SkipSpaces(s, j + 1);
        var e := SkipDigits(s, k);
        if e > k && e < |s| && s[e] == '%' then Some(s[k..e]) else None
  }

  predicate Matches(s: string, j: nat) {
    MatchAt(s, j).Some?
  }

  /** `j` is where the leftmost match starts. */
  predicate Leftmost(s: string, j: nat) {
    j <= |s| && Matches(s, j) && forall k :: 0 <= k < j ==> !Matches(s, k)
  }

  /** The start of the leftmost match at or after `i`, if any. */
  function FirstMatch(s: string, i: nat): (r: Option<nat>)
    requires i <= |s|
    ensures r.None? ==> forall j :: i <= j <= |s| ==> !Matches(s, j)
    ensures r.Some? ==> i <= r.value <= |s| && Matches(s, r.value)
    ensures r.Some? ==> forall j :: i <= j < r.value ==> !Matches(s, j)
  {
    FirstTrue(MatchStarts(s), i)
  }

  /** For each position of `s`, from 0 to `|s|`, whether a match starts
      there. */
  function MatchStarts(s: string): (t: seq<bool>)
    ensures |t| == |s| + 1 && forall j :: 0 <= j <= |s| ==> t[j] == Matches(s, j)
  {
    seq(|s| + 1, j requires 0 <= j <= |s| => Matches(s, j))
  }

  /** The first index from `i` on where `t` holds, if any. */
  function FirstTrue(t: seq<bool>, i: nat): (r: Option<nat>)
    requires i <= |t|
    ensures r.None? ==> forall j :: i <= j < |t| ==> !t[j]
    ensures r.Some? ==> i <= r.value < |t| && t[r.value]
    ensures r.Some? ==> forall j :: i <= j < r.value ==> !t[j]
    decreases |t| - i
  {
    if i == |t| then None
    else if t[i] then Some(i)
    else FirstTrue(t, i + 1)
  }

  /** A leftmost match is the one the search from the start finds. */
  lemma LeftmostIsFirst(s: string, j: nat)
    requires Leftmost(s, j)
    ensures FirstMatch(s, 0) == Some(j)
  {
  }

  /** `extractConfidence`: the number in the first `Confidence: N%` or
      `Confidence Level: N%` (any letter case), unclamped; 75 when there is
      none. */
  function ExtractConfidence(content: string): (n: nat)
    ensures (forall j :: 0 <= j <= |content| ==> !Matches(content, j)) ==> n == 75
    ensures forall j :: Leftmost(content, j) ==> n == DigitsValue(MatchAt(content, j).value)
  {
    forall j: nat | Leftmost(content, j)
      ensures FirstMatch(content, 0) == Some(j)
    {
      LeftmostIsFirst(content, j);
    }
    match FirstMatch(content, 0)
    case None => 75
    case Some(j) => DigitsValue(MatchAt(content, j).value)
  }

  /** A match spells "confidence" in the lower-cased text. */
  lemma MatchMentions(content: string, j: nat)
    ensures Matches(content, j) ==> Contains(ToLower(content), "confidence")
  {
    if Matches(content, j) {
      var low := ToLower(content);
      assert forall k :: 0 <= k < 10 ==> low[j..j + 10][k] == "confidence"[k];
      assert OccursAt(low, "confidence", j);
      OccursAtContains(low, "confidence", j);
    }
  }

  /** Text that never mentions "confidence" in any letter case gets the
      default of 75. */
  lemma NoMentionDefaults(content: string)
    requires !Contains(ToLower(content), "confidence")
    ensures ExtractConfidence(content) == 75
  {
    forall j | 0 <= j <= |content|
      ensures !Matches(content, j)
    {
      MatchMentions(content, j);
    }
  }

  /** A digit run of length `len` followed by a non-digit ends where it
      should. */
  lemma {:induction false} DigitsRun(s: string, j: nat, len: nat)
    requires j + len < |s|
    requires forall k :: j <= k < j + len ==> IsDigit(s[k])
    requires !IsDigit(s[j + len])
    ensures SkipDigits(s, j) == j + len
    decreases len
  {
    if len > 0 {
      DigitsRun(s, j + 1, len - 1);
    }
  }

  /** The canonical line is read back as the number written, whatever its
      size. */
  lemma ConfidenceLineRoundTrip(n: nat)
    ensures ExtractConfidence("Confidence: " + NatToString(n) + "%") == n
  {
    var digits := NatToString(n);
    var s := "Confidence: " + digits + "%";
    assert forall k :: 0 <= k < 10 ==> LowerChar(s[k]) == "confidence"[k];
    assert WordAt(s, 0, "confidence");
    assert s[10] == ':' && s[11] == ' ' && s[12] == digits[0];
    assert AfterLevel(s, 10) == 10;
    assert SkipSpaces(s, 11) == 12 by {
      assert SkipSpaces(s, 12) == 12;
    }
    assert forall k :: 12 <= k < 12 + |digits| ==> s[k] == digits[k - 12];
    DigitsRun(s, 12, |digits|);
    assert s[12..12 + |digits|] == digits;
    assert MatchAt(s, 0) == Some(digits);
    assert Leftmost(s, 0);
    DigitsRoundTrip(n);
  }

  /** 150 is returned as 150, not clamped to 100. */
  lemma UnclampedConfidence()
    ensures ExtractConfidence("Confidence: 150%") == 150
  {
    Spell150();
    ConfidenceLineRoundTrip(150);
    LineOf150();
  }

  lemma Spell150()
    ensures NatToString(150) == "150"
  {
    assert DigitChar(1) == '1' && DigitChar(5) == '5' && DigitChar(0) == '0';
    assert NatToString(15) == NatToString(1) + [DigitChar(5)];
    assert NatToString(150) == NatToString(15) + [DigitChar(0)];
  }

  lemma LineOf150()
    ensures "Confidence: " + "150" + "%" == "Confidence: 150%"
  {
  }

  /** The pattern is not anchored: the mock backend's "Statistical
      Confidence: 86%" line is read as 86. */
  lemma UnanchoredMatch()
    ensures ExtractConfidence("Statistical Confidence: 86%") == 86
  {
    var s := "Statistical Confidence: 86%";
    NoMatchInPrefix(s);
    MatchAfterPrefix(s);
    assert Leftmost(s, 12);
    assert DigitsValue("86") == 86 by {
      assert "86"[..1] == "8";
      assert "8"[..0] == "";
    }
  }

  lemma NoMatchInPrefix(s: string)
    requires s == "Statistical Confidence: 86%"
    ensures forall j :: 0 <= j < 12 ==> !Matches(s, j)
  {
    forall j | 0 <= j < 12
      ensures !Matches(s, j)
    {
      assert !(LowerChar(s[j]) == 'c' && LowerChar(s[j + 1]) == 'o');
      WordAtStart(s, j, "confidence");
    }
  }

  /** A word of two or more letters found at `j` starts with its first two
      letters there. */
  lemma WordAtStart(s: string, j: nat, w: string)
    requires |w| >= 2
    ensures WordAt(s, j, w) ==> LowerChar(s[j]) == w[0] && LowerChar(s[j + 1]) == w[1]
  {
    if WordAt(s, j, w) {
      assert LowerChar(s[j + 0]) == w[0];
    }
  }

  lemma MatchAfterPrefix(s: string)
    requires s == "Statistical Confidence: 86%"
    ensures MatchAt(s, 12) == Some("86")
  {
    assert forall k :: 0 <= k < 10 ==> LowerChar(s[12 + k]) == "confidence"[k];
    assert WordAt(s, 12, "confidence");
    assert AfterLevel(s, 22) == 22;
    assert SkipSpaces(s, 23) == 24 by {
      assert SkipSpaces(s, 24) == 24;
    }
    assert SkipDigits(s, 24) == 26 by {
      assert SkipDigits(s, 26) == 26;
      assert SkipDigits(s, 25) == 26;
    }
    assert s[24..26] == "86";
  }

  // ---------------------------------------------------------------------
  // The agent
  // ---------------------------------------------------------------------

  /** What the completion backend returns. */
  datatype Completion = Completion(content: string, model: string, totalTokens: nat)

  /** `${contextStr}\n\nDirective: ${directive}`. */
  function UserMessage(context: AgentContext, directive: string): (r: string)
    ensures |r| == |BuildContext(context)| + 13 + |directive|
  {
    BuildContext(context) + "\n\nDirective: " + directive
  }

  /** The message starts with the context, which starts with the header
      once an agent ran before, and ends with the directive. */
  lemma MessageShape(context: AgentContext, directive: string)
    ensures |context.previousOutputs| > 0 ==> PreviousHeader <= BuildContext(context)
    ensures var m := UserMessage(context, directive);
      BuildContext(context) <= m && m[|m| - |directive|..] == directive
  {
  }

  /** The output `execute` builds from a completion. */
  function OutputOf(name: string, team: Team, response: Completion, context: AgentContext, elapsed: nat): (o: AgentOutput)
    ensures o.agentName == name && o.team == team && o.content == response.content
    ensures o.confidence == ExtractConfidence(response.content)
    ensures o.processingTime == elapsed
    ensures o.metadata == OutputMetadata(response.model, response.totalTokens, context.iterationNumber)
  {
    AgentOutput(name, team, response.content, ExtractConfidence(response.content), elapsed,
      OutputMetadata(response.model, response.totalTokens, context.iterationNumber))
  }

  class Agent {
    const name: string
    const team: Team
    const role: string
    /** The completion backend, from (system prompt, user message). */
    const llm: (string, string) -> Completion
    /** `loadPrompt(team, lowercased name)`, with its built-in fallback. */
    const prompts: (Team, string) -> string
    var systemPrompt: string

    constructor (name: string, team: Team, role: string,
                 llm: (string, string) -> Completion, prompts: (Team, string) -> string)
      ensures this.name == name && this.team == team && this.role == role
      ensures this.llm == llm && this.prompts == prompts
      ensures systemPrompt == ""
    {
      this.name, this.team, this.role := name, team, role;
      this.llm, this.prompts := llm, prompts;
      systemPrompt := "";
    }

    function LoadedPrompt(): string
      reads this
    {
      prompts(team, ToLower(name))
    }

    /** The prompt `execute` sends: the cached one, or a fresh load while
        the cache is empty. */
    function PromptInUse(): (p: string)
      reads this
      ensures systemPrompt != "" ==> p == systemPrompt
      ensures systemPrompt == "" ==> p == LoadedPrompt()
    {
      if systemPrompt == "" then LoadedPrompt() else systemPrompt
    }

    /** `initialize`. */
    method Initialize()
      modifies this
      ensures systemPrompt == LoadedPrompt()
    {
      systemPrompt := prompts(team, ToLower(name));
    }

    /** `execute`; `elapsed` is the measured processing time. */
    method Execute(directive: string, context: AgentContext, elapsed: nat) returns (o: AgentOutput)
      modifies this
      ensures systemPrompt == old(PromptInUse())
      ensures PromptInUse() == old(PromptInUse())
      ensures o == OutputOf(name, team, llm(old(PromptInUse()), UserMessage(context, directive)), context, elapsed)
    {
      if systemPrompt == "" {
        Initialize();
      }
      var contextStr := BuildContext(context);
      var response := llm(systemPrompt, contextStr + "\n\nDirective: " + directive);
      o := OutputOf(name, team, response, context, elapsed);
    }
  }

  // ---------------------------------------------------------------------
  // The roster
  // ---------------------------------------------------------------------

  datatype AgentSpec = AgentSpec(name: string, team: Team, role: string)

  /** The agents of each team, in execution order. */
  function Roster(t: Team): (r: seq<AgentSpec>)
    ensures |r| == 3 && forall k :: 0 <= k < 3 ==> r[k].team == t
  {
    [AgentSpec(AgentName(t, 0), t, AgentRole(t, 0)),
     AgentSpec(AgentName(t, 1), t, AgentRole(t, 1)),
     AgentSpec(AgentName(t, 2), t, AgentRole(t, 2))]
  }

  /** The name of the team's `k`-th agent. */
  function AgentName(t: Team, k: nat): string {
    match t
    case Alpha => if k == 0 then "Cipher" else if k == 1 then "Specter" else "Nexus"
    case Omega => if k == 0 then "Quantum" else if k == 1 then "Shadow" else "Apex"
    case Ultimate => if k == 0 then "Synergy" else if k == 1 then "Sentinel" else "Catalyst"
  }

  /** The role of the team's `k`-th agent. */
  function AgentRole(t: Team, k: nat): string {
    match t
    case Alpha =>
      if k == 0 then "Data Analyst and Pattern Recognizer"
      else if k == 1 then "Risk Assessor and Contrarian Thinker"
      else "Strategic Synthesizer and Vision Architect"
    case Omega =>
      if k == 0 then "Advanced Data Scientist and Predictive Modeler"
      else if k == 1 then "Deep Risk Analyzer and Devil's Advocate"
      else "Strategic Orchestrator and Optimization Specialist"
    case Ultimate =>
      if k == 0 then "Cross-Functional Data & Ecosystem Analyst"
      else if k == 1 then "Holistic Risk & Resilience Architect"
      else "Transformative Strategy & Ecosystem Orchestrator"
  }
}
