/** The cycle orchestrator (lib/orchestration/cycle-orchestrator.ts): it
    runs the teams' agents in order, validates every output, has the
    moderator judge alpha against omega, books the round into the tracker
    and stores the result in the history. */
module Orchestration {
  import opened Wrappers
  import opened Types
  import opened Text
  import opened Store
  import opened Rulesets
  import opened Comparison
  import opened Moderation
  import opened Tracking
  import opened Agents

  // ---------------------------------------------------------------------
  // A team's run, on values
  // ---------------------------------------------------------------------

  /** What an agent's output depends on: its identity, its backend and the
      system prompt it sends. */
  datatype AgentView = AgentView(name: string, team: Team, llm: (string, string) -> Completion, prompt: string)

  function View(a: Agent): AgentView
    reads a
  {
    AgentView(a.name, a.team, a.llm, a.PromptInUse())
  }

  function Views(team: seq<Agent>): (vs: seq<AgentView>)
    reads set a | a in team
    ensures |vs| == |team| && forall k :: 0 <= k < |team| ==> vs[k] == View(team[k])
  {
    if team == [] then [] else Views(team[..|team| - 1]) + [View(team[|team| - 1])]
  }

  /** Agents whose views are unchanged give the same team view. */
  lemma SameViews(team: seq<Agent>, vs: seq<AgentView>)
    requires |vs| == |team| && forall k :: 0 <= k < |team| ==> View(team[k]) == vs[k]
    ensures Views(team) == vs
  {
  }

  /** The context an agent of a team run receives. */
  function TeamContext(directive: string, previous: seq<AgentOutput>): AgentContext {
    AgentContext(directive, previous, 1)
  }

  /** One agent's turn, after the outputs `previous`. */
  function Turn(v: AgentView, directive: string, previous: seq<AgentOutput>, elapsed: nat): AgentOutput {
    var context := TeamContext(directive, previous);
    OutputOf(v.name, v.team, v.llm(v.prompt, UserMessage(context, directive)), context, elapsed)
  }

  /** `executeTeam` on values: the agents run one after the other, each
      seeing the outputs of those before it; `times(k)` is the k-th agent's
      measured processing time. */
  function TeamRun(vs: seq<AgentView>, directive: string, times: nat -> nat): (outs: seq<AgentOutput>)
    ensures |outs| == |vs|
  {
    if vs == [] then []
    else
      var previous := TeamRun(vs[..|vs| - 1], directive, times);
      previous + [Turn(vs[|vs| - 1], directive, previous, times(|vs| - 1))]
  }

  /** Agent `k` receives exactly the outputs of agents `0..k-1`, in order,
      and its output carries its own name and team, the first iteration
      number and its own processing time. */
  lemma {:induction false} TeamRunTurns(vs: seq<AgentView>, directive: string, times: nat -> nat, k: nat)
    requires k < |vs|
    ensures var outs := TeamRun(vs, directive, times);
      outs[k] == Turn(vs[k], directive, outs[..k], times(k)) &&
      outs[k].agentName == vs[k].name && outs[k].team == vs[k].team &&
      outs[k].metadata.iterationNumber == 1 && outs[k].processingTime == times(k)
  {
    var outs := TeamRun(vs, directive, times);
    TeamRunTurn(vs, directive, times, k);
    TurnFields(vs[k], directive, outs[..k], times(k));
  }

  lemma {:induction false} TeamRunTurn(vs: seq<AgentView>, directive: string, times: nat -> nat, k: nat)
    requires k < |vs|
    ensures var outs := TeamRun(vs, directive, times);
      outs[k] == Turn(vs[k], directive, outs[..k], times(k))
    decreases |vs|
  {
    var n := |vs| - 1;
    var outs := TeamRun(vs, directive, times);
    var previous := TeamRun(vs[..n], directive, times);
    assert outs == previous + [Turn(vs[n], directive, previous, times(n))];
    if k < n {
      TeamRunTurn(vs[..n], directive, times, k);
      assert outs[..k] == previous[..k];
    } else {
      assert outs[..k] == previous;
    }
  }

  lemma TurnFields(v: AgentView, directive: string, previous: seq<AgentOutput>, elapsed: nat)
    ensures var o := Turn(v, directive, previous, elapsed);
      o.agentName == v.name && o.team == v.team && o.metadata.iterationNumber == 1 && o.processingTime == elapsed
  {
  }

  /** The last agent of a team run leaves the earlier outputs alone. */
  lemma TeamRunDropLast(vs: seq<AgentView>, directive: string, times: nat -> nat, k: nat)
    requires k < |vs|
    ensures TeamRun(vs, directive, times)[..k] == TeamRun(vs[..|vs| - 1], directive, times)[..k]
  {
    var previous := TeamRun(vs[..|vs| - 1], directive, times);
    assert TeamRun(vs, directive, times) == previous + [Turn(vs[|vs| - 1], directive, previous, times(|vs| - 1))];
  }

  /** Later agents do not change what earlier agents wrote. */
  lemma {:induction false} TeamRunPrefix(vs: seq<AgentView>, directive: string, times: nat -> nat, k: nat)
    requires k <= |vs|
    ensures TeamRun(vs[..k], directive, times) == TeamRun(vs, directive, times)[..k]
    decreases |vs|
  {
    if k < |vs| {
      var n := |vs| - 1;
      calc {
        TeamRun(vs[..k], directive, times);
        { assert vs[..n][..k] == vs[..k]; }
        TeamRun(vs[..n][..k], directive, times);
        { TeamRunPrefix(vs[..n], directive, times, k); }
        TeamRun(vs[..n], directive, times)[..k];
        { TeamRunDropLast(vs, directive, times, k); }
        TeamRun(vs, directive, times)[..k];
      }
    } else {
      assert vs[..k] == vs;
    }
  }

  /** The message agent `k` sends names every earlier teammate's output:
      its header line and its full content. */
  lemma TurnSeesEarlierOutputs(vs: seq<AgentView>, directive: string, times: nat -> nat, k: nat, j: nat)
    requires j < k < |vs|
    ensures var outs := TeamRun(vs, directive, times);
      Contains(UserMessage(TeamContext(directive, outs[..k]), directive), Section(outs[j]))
  {
    var outs := TeamRun(vs, directive, times);
    var previous := outs[..k];
    MessageMentions(directive, previous, j);
    assert previous[j] == outs[j];
  }

  lemma MessageMentions(directive: string, previous: seq<AgentOutput>, j: nat)
    requires j < |previous|
    ensures Contains(UserMessage(TeamContext(directive, previous), directive), Section(previous[j]))
  {
    var context := TeamContext(directive, previous);
    BuildContextMentions(context, j);
    ContainsAppend(BuildContext(context), Section(previous[j]), "\n\nDirective: " + directive);
    assert BuildContext(context) + ("\n\nDirective: " + directive) == UserMessage(context, directive);
  }

  /** Appending one agent to a team run appends its turn. */
  lemma TeamRunSnoc(vs: seq<AgentView>, directive: string, times: nat -> nat, i: nat)
    requires i < |vs|
    ensures TeamRun(vs[..i + 1], directive, times) ==
      TeamRun(vs[..i], directive, times) + [Turn(vs[i], directive, TeamRun(vs[..i], directive, times), times(i))]
  {
    assert vs[..i + 1][..i] == vs[..i];
  }

  /** The processing times of one team's agents. */
  function TimesOf(times: (Team, nat) -> nat, t: Team): nat -> nat {
    k => times(t, k)
  }

  /** The first agent of a team is told it starts the cycle. */
  lemma FirstTurnStarts(vs: seq<AgentView>, directive: string, times: nat -> nat)
    requires |vs| > 0
    ensures var outs := TeamRun(vs, directive, times);
      outs[0] == Turn(vs[0], directive, [], times(0)) &&
      BuildContext(TeamContext(directive, outs[..0])) == FirstAnalysis
  {
    TeamRunTurns(vs, directive, times, 0);
  }

  // ---------------------------------------------------------------------
  // The streak, the round booking and the history, on store maps
  // ---------------------------------------------------------------------

  /** `getCurrentStreak`: alpha's daily streak when positive, else omega's
      when positive, else none; a failing read gives none as well. */
  function CurrentStreak(m: map<string, Value>, c: Clock): (r: Option<Streak>)
    ensures r.Some? <==>
      StatsAt(m, Alpha, Daily, c).Some? && StatsAt(m, Omega, Daily, c).Some? &&
      (StatsAt(m, Alpha, Daily, c).value.winStreak > 0 || StatsAt(m, Omega, Daily, c).value.winStreak > 0)
    ensures r.Some? && r.value.team == Alpha ==> r.value.count == StatsAt(m, Alpha, Daily, c).value.winStreak
    ensures r.Some? && r.value.team != Alpha ==>
      r.value == Streak(Omega, StatsAt(m, Omega, Daily, c).value.winStreak) &&
      StatsAt(m, Alpha, Daily, c).value.winStreak == 0
  {
    var a, o := StatsAt(m, Alpha, Daily, c), StatsAt(m, Omega, Daily, c);
    if a.None? || o.None? then None
    else if a.value.winStreak > 0 then Some(Streak(Alpha, a.value.winStreak))
    else if o.value.winStreak > 0 then Some(Streak(Omega, o.value.winStreak))
    else None
  }

  /** The record `recordPerformance` appends for a team. */
  function RecordOf(t: Team, perf: TeamPerformance): Value {
    Json(RecordDoc(PerformanceRecord(t, perf.qualityScore, perf.speedScore,
      perf.collaborationScore, perf.innovationScore, perf.totalScore)))
  }

  /** The lists after `recordPerformance` appended Alpha's record and then
      Omega's to the daily records list, creating it when missing. */
  function WithRecords(lists: map<string, seq<Value>>, j: ModeratorJudgment, c: Clock): (r: map<string, seq<Value>>)
    ensures r.Keys == lists.Keys + {PerformanceKey(Daily, c)}
    ensures var key := PerformanceKey(Daily, c);
      r[key] == (if key in lists then lists[key] else []) +
        [RecordOf(Alpha, j.teamAlphaPerformance), RecordOf(Omega, j.teamOmegaPerformance)]
    ensures forall k :: k in lists && k != PerformanceKey(Daily, c) ==> r[k] == lists[k]
  {
    var key := PerformanceKey(Daily, c);
    lists[key := (if key in lists then lists[key] else []) +
      [RecordOf(Alpha, j.teamAlphaPerformance), RecordOf(Omega, j.teamOmegaPerformance)]]
  }

  /** The orchestrator's `recordPerformance` on the store's values: book
      both daily executions, then, only when both succeeded, the win. */
  function Round(m: map<string, Value>, j: ModeratorJudgment, c: Clock): (r: Run)
    ensures StatsAt(m, Alpha, Daily, c).None? || StatsAt(m, Omega, Daily, c).None? ==> !r.ok
  {
    var a := ExecutionStep(m, Alpha, j.teamAlphaPerformance.totalScore, Daily, c);
    var o := ExecutionStep(a.values, Omega, j.teamOmegaPerformance.totalScore, Daily, c);
    if a.ok && o.ok then
      ExecutionStepLaw(m, Alpha, j.teamAlphaPerformance.totalScore, Daily, c);
      ApplyWins(o.values, j.winningTeam, AllPeriods, c)
    else Run(o.values, false)
  }

  predicate AllReadable(m: map<string, Value>, c: Clock) {
    forall t, p :: Competitor(t) ==> StatsAt(m, t, p, c).Some?
  }

  /** One booked round, when every stats read succeeds: each team gets one
      more outcome in every period and one more execution in the daily
      period only. The daily average and best fold in the team's total,
      and the winner's wins, the loser's losses or both teams' ties grow
      by one. */
  lemma RoundLaw(m: map<string, Value>, j: ModeratorJudgment, c: Clock, t: Team, p: Period)
    requires AllReadable(m, c) && Competitor(t)
    ensures var r := Round(m, j, c);
      var before := StatsAt(m, t, p, c).value;
      var total := if t == Alpha then j.teamAlphaPerformance.totalScore else j.teamOmegaPerformance.totalScore;
      var booked := if p == Daily then AfterExecution(before, total) else before;
      r.ok && StatsAt(r.values, t, p, c) == Some(AfterOutcome(booked, j.winningTeam == Win(t), j.winningTeam == Tie))
  {
    var w := j.winningTeam;
    var sa, so := j.teamAlphaPerformance.totalScore, j.teamOmegaPerformance.totalScore;
    ExecutionStepLaw(m, Alpha, sa, Daily, c);
    var a := ExecutionStep(m, Alpha, sa, Daily, c);
    ExecutionStepLaw(a.values, Omega, so, Daily, c);
    var o := ExecutionStep(a.values, Omega, so, Daily, c);
    assert AllReadable(o.values, c) by {
      forall t', p' | Competitor(t')
        ensures StatsAt(o.values, t', p', c).Some?
      {
        if (t', p') != (Alpha, Daily) && (t', p') != (Omega, Daily) {
          assert StatsAt(o.values, t', p', c) == StatsAt(m, t', p', c);
        }
      }
    }
    assert Distinct(AllPeriods);
    ApplyWinsLaw(o.values, w, AllPeriods, c);
    assert p in AllPeriods;
    if t == Alpha && p == Daily {
      assert StatsAt(o.values, t, p, c) == StatsAt(a.values, t, p, c);
    } else if t == Omega && p == Daily {
      assert StatsAt(a.values, t, p, c) == StatsAt(m, t, p, c);
    } else {
      assert StatsAt(a.values, t, p, c) == StatsAt(m, t, p, c);
      assert StatsAt(o.values, t, p, c) == StatsAt(a.values, t, p, c);
    }
  }

  /** What a booked round means for the stored numbers: per period one more
      outcome, and executions grow on the daily record only. */
  lemma RoundCounts(m: map<string, Value>, j: ModeratorJudgment, c: Clock, t: Team, p: Period)
    requires AllReadable(m, c) && Competitor(t)
    ensures var r := Round(m, j, c);
      var before := StatsAt(m, t, p, c).value;
      r.ok && StatsAt(r.values, t, p, c).Some? &&
      Outcomes(StatsAt(r.values, t, p, c).value) == Outcomes(before) + 1 &&
      StatsAt(r.values, t, p, c).value.totalExecutions == before.totalExecutions + (if p == Daily then 1 else 0)
  {
    RoundLaw(m, j, c, t, p);
  }

  /** The streak the next directive's praise sees: after a decisive round
      it is the winner's, one longer than its daily streak was; after a tie
      there is none. */
  lemma StreakAfterRound(m: map<string, Value>, j: ModeratorJudgment, c: Clock)
    requires AllReadable(m, c)
    ensures var r := Round(m, j, c);
      var before := StatsAt(m, if j.winningTeam == Win(Omega) then Omega else Alpha, Daily, c).value;
      (j.winningTeam == Win(Alpha) || j.winningTeam == Win(Omega) ==>
        CurrentStreak(r.values, c) == Some(Streak(j.winningTeam.team, before.winStreak + 1))) &&
      (j.winningTeam == Tie ==> CurrentStreak(r.values, c).None?)
  {
    RoundLaw(m, j, c, Alpha, Daily);
    RoundLaw(m, j, c, Omega, Daily);
  }

  const HistoryPrefix := "history:directives:"

  /** `storeExecutionHistory`'s key. */
  function HistoryKey(executionId: string): (k: string)
    ensures HistoryPrefix <= k && k[|HistoryPrefix|..] == executionId
  {
    HistoryPrefix + executionId
  }

  /** A history entry never overwrites a stats record or a records list. */
  lemma HistoryKeyIsolated(executionId: string, t: Team, p: Period, c: Clock)
    ensures HistoryKey(executionId) != StatsKey(p, t, c)
    ensures HistoryKey(executionId) != PerformanceKey(p, c)
  {
    assert HistoryKey(executionId)[0] == 'h';
    assert StatsKey(p, t, c)[0] == 'p';
    assert PerformanceKey(p, c)[0] == 'p';
  }

  /** The ruleset a validation runs on: the cached one, else what loading
      gives. */
  function RulesetFor(cache: map<string, seq<Rule>>, source: string -> Option<seq<RuleConfig>>, name: string): seq<Rule> {
    if name in cache then cache[name] else Loaded(source(name))
  }

  /** The loop of `validateTeamOutputs`: every output validated in turn on
      one ruleset, which the first validation caches when it was not. */
  method ValidateOutputs(engine: RulesetEngine, outs: seq<AgentOutput>, name: string) returns (reports: seq<ValidationReport>)
    modifies engine
    ensures reports == Reports(outs, RulesetFor(old(engine.rulesets), engine.source, name))
    ensures engine.rulesets == old(engine.rulesets)[name := RulesetFor(old(engine.rulesets), engine.source, name)]
      || (|outs| == 0 && engine.rulesets == old(engine.rulesets))
  {
    ghost var rules := RulesetFor(engine.rulesets, engine.source, name);
    reports := [];
    var i := 0;
    while i < |outs|
      invariant 0 <= i <= |outs|
      invariant i > 0 ==> engine.rulesets == old(engine.rulesets)[name := rules]
      invariant i == 0 ==> engine.rulesets == old(engine.rulesets)
      invariant |reports| == i && forall k :: 0 <= k < i ==> reports[k] == ValidateSpec(outs[k], rules)
    {
      var report := engine.Validate(outs[i], name);
      assert engine.rulesets == old(engine.rulesets)[name := rules];
      assert report == ValidateSpec(outs[i], rules);
      reports := reports + [report];
      i := i + 1;
    }
  }

  /** `ValidateTeamOutputs` on values. */
  function Reports(outs: seq<AgentOutput>, rules: seq<Rule>): (rs: seq<ValidationReport>)
    ensures |rs| == |outs|
    ensures forall k :: 0 <= k < |outs| ==> rs[k] == ValidateSpec(outs[k], rules)
  {
    seq(|outs|, k requires 0 <= k < |outs| => ValidateSpec(outs[k], rules))
  }

  // ---------------------------------------------------------------------
  // The orchestrator
  // ---------------------------------------------------------------------

  /** Every agent of a team, in roster order. */
  predicate Staffed(team: seq<Agent>, t: Team) {
    |team| == 3 && forall k :: 0 <= k < 3 ==>
      team[k].name == Roster(t)[k].name && team[k].team == t && team[k].role == Roster(t)[k].role
  }

  predicate Disjoint(xs: seq<Agent>, ys: seq<Agent>) {
    forall a :: a in xs ==> a !in ys
  }

  /** The agent's prompt is cached: `execute` would send the cached prompt
      without loading it again. */
  predicate Settled(a: Agent)
    reads a
  {
    a.systemPrompt == a.PromptInUse()
  }

  /** The agent still shows view `v`, and once it has run it has `v`'s
      prompt cached. */
  ghost predicate Kept(a: Agent, v: AgentView, ran: bool)
    reads a
  {
    View(a) == v && (ran ==> a.systemPrompt == v.prompt)
  }

  /** One turn of a team run: the agent executes the directive with the
      outputs before it as context and keeps its view. */
  method TakeTurn(a: Agent, directive: string, previous: seq<AgentOutput>, elapsed: nat) returns (o: AgentOutput)
    modifies a
    ensures o == Turn(old(View(a)), directive, previous, elapsed)
    ensures View(a) == old(View(a))
    ensures Settled(a) && a.systemPrompt == old(View(a)).prompt
  {
    var context := AgentContext(directive, previous, 1);
    o := a.Execute(directive, context, elapsed);
  }

  /** One agent's warm-up run on an empty directive: its output is
      discarded, and what remains is the prompt it cached. */
  method WarmUp(a: Agent)
    modifies a
    ensures a.systemPrompt == old(a.PromptInUse())
    ensures View(a) == old(View(a))
  {
    var _ := a.Execute("", AgentContext("", [], 0), 0);
  }

  /** The agents of a team that was just initialised run with their cached
      prompts. */
  method InitializeTeam(team: seq<Agent>)
    modifies set a | a in team
    ensures forall a :: a in team ==> a.systemPrompt == old(a.PromptInUse()) && View(a) == old(View(a))
    ensures Views(team) == old(Views(team))
    ensures forall a :: a in team ==> Settled(a)
  {
    ghost var vs := Views(team);
    var i := 0;
    while i < |team|
      invariant 0 <= i <= |team|
      invariant forall k :: 0 <= k < |team| ==> View(team[k]) == vs[k]
      invariant forall k :: 0 <= k < i ==> team[k].systemPrompt == team[k].PromptInUse()
    {
      WarmUp(team[i]);
      i := i + 1;
    }
    SameViews(team, vs);
  }

  class CycleOrchestrator {
    const teamAlpha: seq<Agent>
    const teamOmega: seq<Agent>
    const teamUltimate: seq<Agent>
    /** The comparator's weights and the moderator's praise templates, as
        their constructors load them. */
    const weights: Weights
    const templates: PraiseTemplates
    const tracker: PerformanceTracker
    const rulesetEngine: RulesetEngine

    /** The process-wide store both the tracker and the history use. */
    function Redis(): RedisManager {
      tracker.redis
    }

    function AllAgents(): set<Agent> {
      set a | a in teamAlpha + teamOmega + teamUltimate
    }

    /** The three teams share no agent. */
    predicate Separate() {
      Disjoint(teamAlpha, teamOmega) && Disjoint(teamAlpha, teamUltimate) && Disjoint(teamOmega, teamUltimate)
    }

    /** The teams show the views `va`, `vo` and `vu`, and every agent holds
        its prompt cached. */
    ghost predicate Warm(va: seq<AgentView>, vo: seq<AgentView>, vu: seq<AgentView>)
      reads AllAgents()
    {
      Views(teamAlpha) == va && Views(teamOmega) == vo && Views(teamUltimate) == vu &&
      (forall a :: a in teamAlpha ==> Settled(a)) &&
      (forall a :: a in teamOmega ==> Settled(a)) &&
      (forall a :: a in teamUltimate ==> Settled(a))
    }

    predicate Valid() {
      Staffed(teamAlpha, Alpha) && Staffed(teamOmega, Omega) && Staffed(teamUltimate, Ultimate) && Separate()
    }

    constructor (llm: (string, string) -> Completion, prompts: (Team, string) -> string,
                 source: string -> Option<seq<RuleConfig>>, redis: RedisManager,
                 weights: Weights, templates: PraiseTemplates)
      ensures Valid()
      ensures this.weights == weights && this.templates == templates
      ensures tracker.redis == redis && fresh(tracker) && fresh(rulesetEngine)
      ensures rulesetEngine.rulesets == map[] && rulesetEngine.source == source
      ensures forall a :: a in AllAgents() ==> fresh(a) && a.llm == llm && a.prompts == prompts && a.systemPrompt == ""
    {
      tracker := new PerformanceTracker(redis);
      rulesetEngine := new RulesetEngine(source);
      var alpha, omega, ultimate := MakeTeams(llm, prompts);
      teamAlpha, teamOmega, teamUltimate := alpha, omega, ultimate;
      this.weights, this.templates := weights, templates;
    }

    /** `getCurrentStreak`. */
    function GetCurrentStreak(c: Clock): (r: Option<Streak>)
      reads Redis()
      ensures r == CurrentStreak(Redis().values, c)
      ensures r.Some? ==> Competitor(r.value.team) && r.value.count > 0
    {
      match (tracker.GetTeamStats(Alpha, Daily, c), tracker.GetTeamStats(Omega, Daily, c))
      case (Some(a), Some(o)) =>
        if a.winStreak > 0 then Some(Streak(Alpha, a.winStreak))
        else if o.winStreak > 0 then Some(Streak(Omega, o.winStreak))
        else None
      case _ => None
    }

    /** `initializeAgents`: every agent runs once on an empty directive,
        which caches its system prompt; outputs and failures are
        discarded. */
    method InitializeAgents()
      modifies AllAgents()
      ensures forall a :: a in AllAgents() ==> a.systemPrompt == old(a.PromptInUse())
      ensures Views(teamAlpha) == old(Views(teamAlpha)) && Views(teamOmega) == old(Views(teamOmega))
      ensures Views(teamUltimate) == old(Views(teamUltimate))
      ensures forall a :: a in teamAlpha + teamOmega + teamUltimate ==> Settled(a)
    {
      ghost var va, vo, vu := Views(teamAlpha), Views(teamOmega), Views(teamUltimate);
      var everyone := teamAlpha + teamOmega + teamUltimate;
      InitializeTeam(everyone);
      SameViews(teamAlpha, va);
      SameViews(teamOmega, vo);
      SameViews(teamUltimate, vu);
    }

    /** `executeTeam`. */
    method ExecuteTeam(team: seq<Agent>, directive: string, times: nat -> nat) returns (outs: seq<AgentOutput>)
      modifies set a | a in team
      ensures outs == TeamRun(old(Views(team)), directive, times)
      ensures forall a :: a in team ==> View(a) == old(View(a))
      ensures forall a :: a in team ==> Settled(a)
    {
      ghost var vs := Views(team);
      outs := [];
      var i := 0;
      while i < |team|
        invariant 0 <= i <= |team|
        invariant forall k :: 0 <= k < |team| ==> Kept(team[k], vs[k], k < i)
        invariant outs == TeamRun(vs[..i], directive, times)
      {
        label Before:
        var o := TakeTurn(team[i], directive, outs, times(i));
        forall k | 0 <= k < |team|
          ensures Kept(team[k], vs[k], k < i + 1)
        {
          assert old@Before(Kept(team[k], vs[k], k < i));
          if team[k] == team[i] {
            assert old@Before(View(team[i])) == vs[i];
          }
        }
        TeamRunSnoc(vs, directive, times, i);
        outs := outs + [o];
        i := i + 1;
      }
      assert vs[..i] == vs;
    }

    /** `validateTeamOutputs`. */
    method ValidateTeamOutputs(outs: seq<AgentOutput>, rulesetName: string) returns (reports: seq<ValidationReport>)
      modifies rulesetEngine
      ensures reports == Reports(outs, RulesetFor(old(rulesetEngine.rulesets), rulesetEngine.source, rulesetName))
      ensures rulesetEngine.rulesets == old(rulesetEngine.rulesets)[rulesetName :=
        RulesetFor(old(rulesetEngine.rulesets), rulesetEngine.source, rulesetName)]
        || (|outs| == 0 && rulesetEngine.rulesets == old(rulesetEngine.rulesets))
    {
      reports := ValidateOutputs(rulesetEngine, outs, rulesetName);
    }

    /** `recordPerformance`: both daily records and executions, then, when
        neither stats read failed, the win in every period. */
    method RecordPerformance(j: ModeratorJudgment, c: Clock) returns (ok: bool)
      modifies Redis()
      ensures Run(Redis().values, ok) == Round(old(Redis().values), j, c)
      ensures Redis().lists == WithRecords(old(Redis().lists), j, c)
      ensures Redis().timers == old(Redis().timers)
    {
      ghost var key, before := PerformanceKey(Daily, c), Redis().GetList(PerformanceKey(Daily, c));
      ghost var recordAlpha, recordOmega := RecordOf(Alpha, j.teamAlphaPerformance), RecordOf(Omega, j.teamOmegaPerformance);
      var okAlpha := tracker.RecordPerformance(Alpha, j.teamAlphaPerformance, Daily, c);
      assert Redis().GetList(key) == before + [recordAlpha];
      var okOmega := tracker.RecordPerformance(Omega, j.teamOmegaPerformance, Daily, c);
      assert Redis().lists == old(Redis().lists)[key := before + [recordAlpha] + [recordOmega]];
      assert before + [recordAlpha] + [recordOmega] == before + [recordAlpha, recordOmega];
      if okAlpha && okOmega {
        ok := tracker.RecordWin(j.winningTeam, j.teamAlphaPerformance.totalScore, j.teamOmegaPerformance.totalScore, c);
      } else {
        ok := false;
      }
    }

    /** `storeExecutionHistory`: the result under its history key, with a
        one-day expiry. */
    method StoreExecutionHistory(executionId: string, result: OrchestrationResult)
      modifies Redis()
      ensures Redis().values == old(Redis().values)[HistoryKey(executionId) := Json(HistoryDoc(result))]
      ensures Redis().lists == old(Redis().lists)
      ensures Redis().timers == old(Redis().timers) + multiset{HistoryKey(executionId)}
    {
      Redis().Set(HistoryKey(executionId), Json(HistoryDoc(result)), Some(86400));
    }

    /** The agent half of `executeDirective`: initialise every agent, then
        run alpha, omega and, when asked, ultimate. */
    method RunTeams(directive: string, includeUltimate: bool, times: (Team, nat) -> nat)
      returns (alpha: seq<AgentOutput>, omega: seq<AgentOutput>, ultimate: Option<seq<AgentOutput>>)
      requires Separate()
      modifies AllAgents()
      ensures Views(teamAlpha) == old(Views(teamAlpha)) && Views(teamOmega) == old(Views(teamOmega))
      ensures Views(teamUltimate) == old(Views(teamUltimate))
      ensures alpha == TeamRun(old(Views(teamAlpha)), directive, TimesOf(times, Alpha))
      ensures omega == TeamRun(old(Views(teamOmega)), directive, TimesOf(times, Omega))
      ensures ultimate.Some? <==> includeUltimate
      ensures includeUltimate ==> ultimate.value == TeamRun(old(Views(teamUltimate)), directive, TimesOf(times, Ultimate))
      ensures forall a :: a in teamAlpha ==> Settled(a)
      ensures forall a :: a in teamOmega ==> Settled(a)
      ensures forall a :: a in teamUltimate ==> Settled(a)
    {
      InitializeAgents();
      alpha := RunTeamBeside(teamAlpha, teamOmega, teamUltimate, directive, TimesOf(times, Alpha));
      omega := RunTeamBeside(teamOmega, teamAlpha, teamUltimate, directive, TimesOf(times, Omega));
      ultimate := None;
      if includeUltimate {
        var outs := RunTeamBeside(teamUltimate, teamAlpha, teamOmega, directive, TimesOf(times, Ultimate));
        ultimate := Some(outs);
      }
    }

    /** One team's run, which leaves every team's views as they were. */
    method RunTeamBeside(team: seq<Agent>, other1: seq<Agent>, other2: seq<Agent>, directive: string, times: nat -> nat)
      returns (outs: seq<AgentOutput>)
      requires Disjoint(team, other1) && Disjoint(team, other2)
      modifies set a | a in team
      ensures outs == TeamRun(old(Views(team)), directive, times)
      ensures Views(team) == old(Views(team))
      ensures Views(other1) == old(Views(other1)) && Views(other2) == old(Views(other2))
      ensures forall a :: a in team ==> Settled(a)
      ensures forall a :: a in other1 + other2 ==> a.systemPrompt == old(a.systemPrompt)
    {
      ghost var vs := Views(team);
      outs := ExecuteTeam(team, directive, times);
      SameViews(team, vs);
    }

    /** The validation half of `executeDirective`. */
    method ValidateAll(alpha: seq<AgentOutput>, omega: seq<AgentOutput>, ultimate: Option<seq<AgentOutput>>,
                       rulesetName: string)
      returns (alphaValidation: seq<ValidationReport>, omegaValidation: seq<ValidationReport>,
               ultimateValidation: Option<seq<ValidationReport>>)
      modifies rulesetEngine
      ensures var rules := RulesetFor(old(rulesetEngine.rulesets), rulesetEngine.source, rulesetName);
        alphaValidation == Reports(alpha, rules) && omegaValidation == Reports(omega, rules) &&
        (ultimateValidation.Some? <==> ultimate.Some?) &&
        (ultimate.Some? ==> ultimateValidation.value == Reports(ultimate.value, rules))
      ensures |alpha| > 0 ==>
        rulesetEngine.rulesets ==
          old(rulesetEngine.rulesets)[rulesetName := RulesetFor(old(rulesetEngine.rulesets), rulesetEngine.source, rulesetName)]
      ensures unchanged(AllAgents())
    {
      alphaValidation := ValidateTeamOutputs(alpha, rulesetName);
      omegaValidation := ValidateTeamOutputs(omega, rulesetName);
      ultimateValidation := None;
      if ultimate.Some? {
        var reports := ValidateTeamOutputs(ultimate.value, rulesetName);
        ultimateValidation := Some(reports);
      }
    }

    /** The store half of `executeDirective`: judge, book the round in
        competition mode, and store the history entry. */
    method Conclude(executionId: string, competitionMode: bool, c: Clock,
                    alpha: seq<AgentOutput>, omega: seq<AgentOutput>, ultimate: Option<seq<AgentOutput>>,
                    alphaValidation: seq<ValidationReport>, omegaValidation: seq<ValidationReport>,
                    ultimateValidation: Option<seq<ValidationReport>>) returns (r: Option<OrchestrationResult>)
      requires |alpha| > 0 && |omega| > 0 && |alphaValidation| > 0 && |omegaValidation| > 0
      modifies Redis()
      ensures r.Some? ==>
        r.value == OrchestrationResult(executionId, alpha, omega, ultimate,
          alphaValidation, omegaValidation, ultimateValidation, r.value.moderatorJudgment)
      ensures r.Some? ==>
        Some(r.value.moderatorJudgment) == JudgeSpec(weights, templates, alpha, omega,
          alphaValidation, omegaValidation, old(CurrentStreak(Redis().values, c)))
      ensures r.Some? ==>
        Redis().values == (if competitionMode then Round(old(Redis().values), r.value.moderatorJudgment, c).values
                           else old(Redis().values))[HistoryKey(executionId) := Json(HistoryDoc(r.value))]
      ensures r.Some? && !competitionMode ==> Redis().lists == old(Redis().lists)
      ensures r.Some? && competitionMode ==>
        Redis().lists == WithRecords(old(Redis().lists), r.value.moderatorJudgment, c)
      ensures r.Some? ==> Redis().timers == old(Redis().timers) + multiset{HistoryKey(executionId)}
      ensures r.None? ==> Redis().timers == old(Redis().timers)
      ensures unchanged(rulesetEngine)
    {
      var currentStreak := GetCurrentStreak(c);
      var judgment := Judge(weights, templates, alpha, omega, alphaValidation, omegaValidation, currentStreak);
      if judgment.None? {
        return None;
      }
      if competitionMode {
        var ok := RecordPerformance(judgment.value, c);
        if !ok {
          return None;
        }
      }
      var result := OrchestrationResult(executionId, alpha, omega, ultimate,
        alphaValidation, omegaValidation, ultimateValidation, judgment.value);
      StoreExecutionHistory(executionId, result);
      r := Some(result);
    }

    /** The first half of `executeDirective`: initialise the agents, run
        the teams and validate every output against the one ruleset. */
    method Compete(directive: string, rulesetName: string, includeUltimate: bool, times: (Team, nat) -> nat)
      returns (alpha: seq<AgentOutput>, omega: seq<AgentOutput>, ultimate: Option<seq<AgentOutput>>,
               alphaValidation: seq<ValidationReport>, omegaValidation: seq<ValidationReport>,
               ultimateValidation: Option<seq<ValidationReport>>)
      requires Separate()
      modifies AllAgents(), rulesetEngine
      ensures alpha == TeamRun(old(Views(teamAlpha)), directive, TimesOf(times, Alpha))
      ensures omega == TeamRun(old(Views(teamOmega)), directive, TimesOf(times, Omega))
      ensures ultimate.Some? <==> includeUltimate
      ensures includeUltimate ==> ultimate.value == TeamRun(old(Views(teamUltimate)), directive, TimesOf(times, Ultimate))
      ensures var rules := RulesetFor(old(rulesetEngine.rulesets), rulesetEngine.source, rulesetName);
        alphaValidation == Reports(alpha, rules) && omegaValidation == Reports(omega, rules) &&
        (ultimateValidation.Some? <==> includeUltimate) &&
        (includeUltimate ==> ultimateValidation.value == Reports(ultimate.value, rules))
      ensures |teamAlpha| > 0 ==>
        rulesetEngine.rulesets ==
          old(rulesetEngine.rulesets)[rulesetName := RulesetFor(old(rulesetEngine.rulesets), rulesetEngine.source, rulesetName)]
      ensures Warm(old(Views(teamAlpha)), old(Views(teamOmega)), old(Views(teamUltimate)))
    {
      ghost var cache := rulesetEngine.rulesets;
      ghost var va, vo, vu := Views(teamAlpha), Views(teamOmega), Views(teamUltimate);
      alpha, omega, ultimate := RunTeams(directive, includeUltimate, times);
      assert Warm(va, vo, vu);
      assert rulesetEngine.rulesets == cache;
      alphaValidation, omegaValidation, ultimateValidation := ValidateAll(alpha, omega, ultimate, rulesetName);
    }

    /** `executeDirective`. `executionId` stands for the generated id and
        `times(t, k)` for the k-th agent of team `t`'s processing time.
        `None` is a rejected call: the praise lookup or a stats read
        threw. */
    method ExecuteDirective(executionId: string, directive: string, rulesetName: string,
                            competitionMode: bool, includeUltimate: bool,
                            times: (Team, nat) -> nat, c: Clock) returns (r: Option<OrchestrationResult>)
      requires Separate() && |teamAlpha| == 3 && |teamOmega| == 3
      modifies AllAgents(), rulesetEngine, Redis()
      ensures r.Some? ==> r.value.executionId == executionId
      ensures r.Some? ==>
        r.value.alphaOutputs == TeamRun(old(Views(teamAlpha)), directive, TimesOf(times, Alpha)) &&
        r.value.omegaOutputs == TeamRun(old(Views(teamOmega)), directive, TimesOf(times, Omega))
      ensures r.Some? ==>
        (r.value.ultimateOutputs.Some? <==> includeUltimate) &&
        (r.value.ultimateValidation.Some? <==> includeUltimate)
      ensures r.Some? && includeUltimate ==>
        r.value.ultimateOutputs.value == TeamRun(old(Views(teamUltimate)), directive, TimesOf(times, Ultimate))
      ensures var rules := RulesetFor(old(rulesetEngine.rulesets), rulesetEngine.source, rulesetName);
        r.Some? ==>
          r.value.alphaValidation == Reports(r.value.alphaOutputs, rules) &&
          r.value.omegaValidation == Reports(r.value.omegaOutputs, rules) &&
          (includeUltimate ==> r.value.ultimateValidation.value == Reports(r.value.ultimateOutputs.value, rules))
      ensures r.Some? ==>
        Some(r.value.moderatorJudgment) == JudgeSpec(weights, templates, r.value.alphaOutputs, r.value.omegaOutputs,
          r.value.alphaValidation, r.value.omegaValidation, old(CurrentStreak(Redis().values, c)))
      ensures r.Some? ==> r.value.moderatorJudgment.winningTeam != Win(Ultimate)
      ensures r.Some? ==>
        Redis().values == (if competitionMode then Round(old(Redis().values), r.value.moderatorJudgment, c).values
                           else old(Redis().values))[HistoryKey(executionId) := Json(HistoryDoc(r.value))]
      ensures r.Some? && !competitionMode ==> Redis().lists == old(Redis().lists)
      ensures r.Some? && competitionMode ==>
        Redis().lists == WithRecords(old(Redis().lists), r.value.moderatorJudgment, c)
      ensures r.Some? ==> Redis().timers == old(Redis().timers) + multiset{HistoryKey(executionId)}
      ensures r.None? ==> Redis().timers == old(Redis().timers)
      ensures rulesetEngine.rulesets ==
        old(rulesetEngine.rulesets)[rulesetName := RulesetFor(old(rulesetEngine.rulesets), rulesetEngine.source, rulesetName)]
    {
      ghost var m, l, t := Redis().values, Redis().lists, Redis().timers;
      var alpha, omega, ultimate, alphaValidation, omegaValidation, ultimateValidation :=
        Compete(directive, rulesetName, includeUltimate, times);
      assert Redis().values == m && Redis().lists == l && Redis().timers == t;
      r := Conclude(executionId, competitionMode, c, alpha, omega, ultimate,
        alphaValidation, omegaValidation, ultimateValidation);
    }

    /** `getLeaderboard`. */
    function GetLeaderboard(c: Clock): (r: Option<Leaderboard>)
      reads Redis()
      ensures r == tracker.GetLeaderboard(c)
      ensures r.Some? ==> r.value.mvpAgents == []
    {
      tracker.GetLeaderboard(c)
    }

    /** `resetScores`. */
    method ResetScores(scope: Option<Period>, c: Clock)
      modifies Redis()
      ensures Redis().values == old(Redis().values) - ResetKeys(scope, c)
      ensures Redis().lists == old(Redis().lists) - ResetKeys(scope, c)
      ensures Redis().timers == old(Redis().timers)
    {
      tracker.ResetStats(scope, c);
    }
  }

  /** The three agents of a team, as the orchestrator's constructor builds
      them. */
  method MakeTeam(t: Team, llm: (string, string) -> Completion, prompts: (Team, string) -> string)
    returns (team: seq<Agent>)
    ensures Staffed(team, t)
    ensures forall a :: a in team ==> fresh(a) && a.llm == llm && a.prompts == prompts && a.systemPrompt == ""
  {
    team := MakeAgents(Roster(t), llm, prompts);
  }

  /** The three teams of the orchestrator's constructor: each staffed by
      its roster, no agent shared. */
  method MakeTeams(llm: (string, string) -> Completion, prompts: (Team, string) -> string)
    returns (alpha: seq<Agent>, omega: seq<Agent>, ultimate: seq<Agent>)
    ensures Staffed(alpha, Alpha) && Staffed(omega, Omega) && Staffed(ultimate, Ultimate)
    ensures Disjoint(alpha, omega) && Disjoint(alpha, ultimate) && Disjoint(omega, ultimate)
    ensures forall a :: a in alpha + omega + ultimate ==>
      fresh(a) && a.llm == llm && a.prompts == prompts && a.systemPrompt == ""
  {
    alpha := MakeTeam(Alpha, llm, prompts);
    omega := MakeTeam(Omega, llm, prompts);
    ultimate := MakeTeam(Ultimate, llm, prompts);
  }

  /** One fresh agent per spec of a three-agent roster, in roster order. */
  method MakeAgents(specs: seq<AgentSpec>, llm: (string, string) -> Completion, prompts: (Team, string) -> string)
    returns (team: seq<Agent>)
    requires |specs| == 3
    ensures |team| == 3
    ensures forall k :: 0 <= k < 3 ==>
      team[k].name == specs[k].name && team[k].team == specs[k].team && team[k].role == specs[k].role
    ensures forall a :: a in team ==> fresh(a) && a.llm == llm && a.prompts == prompts && a.systemPrompt == ""
  {
    var first := new Agent(specs[0].name, specs[0].team, specs[0].role, llm, prompts);
    var second := new Agent(specs[1].name, specs[1].team, specs[1].role, llm, prompts);
    var third := new Agent(specs[2].name, specs[2].team, specs[2].role, llm, prompts);
    team := [first, second, third];
  }
}
