# hustlecodex scoring engine, modelled in Dafny

This project models the core of hustlecodex's agent competition. Two teams
of three AI agents work on a directive: Alpha has Cipher, Specter and
Nexus; Omega has Quantum, Shadow and Apex. A third, cross-functional team,
Ultimate, can join them. Within a team the agents run one after another,
and each agent's prompt holds the analyses of its teammates before it. A
ruleset engine validates every output. The moderator scores each team on
four dimensions: quality, speed, collaboration and innovation. The
comparator turns those into a weighted total and picks a winner, or a tie
when the totals are within 2 points. The moderator also chooses a praise
template and decides whether the cycle may continue. The performance
tracker books executions, wins, losses, ties and win streaks per team in
daily, monthly and yearly buckets of an in-memory key/value store. The
orchestrator runs the whole cycle and files its result in the store's
history. The model also covers:

- the telemetry buffers (the metrics emitter and the logger), which keep
  the most recent entries first in, first out;
- the onboarding store of the web front end.

One Dafny module stands for each source file:

| module | file |
|---|---|
| `Store` | `lib/state/redis-manager.ts` |
| `Rulesets` | `lib/feedback/ruleset-engine.ts` |
| `Comparison` | `lib/feedback/comparator.ts` |
| `Moderation` | `lib/orchestration/moderator.ts` |
| `Tracking` | `lib/orchestration/performance-tracker.ts` |
| `Agents` | `lib/agents/base-agent.ts` and the nine team files |
| `Orchestration` | `lib/orchestration/cycle-orchestrator.ts` |
| `Metrics` | `lib/telemetry/metrics-emitter.ts` |
| `Logging` | `lib/telemetry/logger.ts` |
| `Onboarding` | `store/onboardingStore.ts` |

Shared helpers live in their own modules:

- `Wrappers`: the `Option` type.
- `Text`: JavaScript's `includes`, ASCII `toLowerCase`, `join`, and decimal digits as `parseInt` reads them.
- `Slices`: `Array.prototype.slice` with negative indices, the last-N window and the capped push.
- `Averages`: sums and means.
- `Types`: the records of `types/`.

Objects whose fields the source updates are classes, and their methods change
those fields:

- the store (`RedisManager`);
- the ruleset engine and its cache;
- the tracker;
- each agent and its lazily loaded system prompt;
- the orchestrator;
- the metrics emitter and the logger;
- the onboarding store.

Pure scoring code is functions. Every loop of the source is a method whose
contract ties it to a specification function:

- the rule loop in `validate`;
- the collaboration and innovation scans;
- the strength and improvement collection;
- the sequential team run.

The most important facts are proved about those functions:

- the scores stay in range;
- the totals are convex combinations of the four scores;
- the tie and winner rules hold in both directions;
- `shouldContinue` holds exactly when every report passed;
- the win streak counts the trailing wins;
- one round books exactly one outcome per team and period;
- the store keys of different teams and periods never collide;
- the telemetry buffers keep exactly the latest entries.

Several inputs are parameters of the model:

- The store's JSON encoding is abstracted by a `Value` datatype: a plain
  string or a document (stats, performance record, or execution record).
- Today's date is a `Clock` value.
- The LLM backend is a function from the system prompt and the user message
  to a completion.
- The prompt loader is a function from team and agent name to a prompt.
- The YAML sources are functions returning `None` when loading fails.
- The processing time of each turn is a parameter.
- The execution id is a parameter.

Two facts about the code that the model keeps:

- `extractConfidence` does not clamp: `Confidence: 150%` yields 150
  (lib/agents/base-agent.ts:81-90), and that output's quality score can
  exceed 100.
- The judgment confidence averages the two teams' mean validation scores
  (lib/orchestration/moderator.ts:319-322). It does not pool all reports
  together.

## Model

| member | source | states |
|---|---|---|
| Store.RedisManager.constructor | lib/state/redis-manager.ts:4-6 | The store starts with no values, no lists and no pending expiry timers. |
| Store.RedisManager.Get | lib/state/redis-manager.ts:8-10 | A key gives a value exactly when it is stored with a truthy (non-empty) value, and then that value; an empty string reads as absent. |
| Store.RedisManager.Set | lib/state/redis-manager.ts:12-20 | Overwrites one key, leaves the lists and every other key's reading unchanged, and schedules an expiry exactly when a non-zero expiry is given. |
| Store.RedisManager.Expire | lib/state/redis-manager.ts:16-18 | A pending timer firing deletes the key's value (even if it was overwritten since) and consumes that timer, leaving the lists alone. |
| Store.RedisManager.Delete | lib/state/redis-manager.ts:22-25 | Removes the key from both the values and the lists, so it no longer exists. |
| Store.RedisManager.Exists | lib/state/redis-manager.ts:27-29 | A key exists when it has a readable value or a non-empty list; a stored empty string exists although `Get` reads it as absent; a key that does not exist has no readable value and an empty list. |
| Store.RedisManager.AddToList | lib/state/redis-manager.ts:31-36 | Appends to the key's list, creating it when absent: the length grows by one and the old list is a prefix of the new one. |
| Store.RedisManager.GetList | lib/state/redis-manager.ts:38-40 | A present list reads as stored; a missing list reads as empty. |
| Store.RedisManager.GetListRange | lib/state/redis-manager.ts:42-48 | `end == -1` gives the list from `start` on, the last `-start` entries for a negative `start`; otherwise the entries from `start` up to and including `end`, negative positions counting from the end and clamped to the list, so that an `end` at or past the last entry reads to the end; a missing list gives empty. |
| Store.RedisManager.ListLength | lib/state/redis-manager.ts:50-52 | The length of the stored list, and 0 when there is none. |
| Store.RedisManager.Clear | lib/state/redis-manager.ts:55-58 | Empties the values and the lists; pending timers remain. |
| Rulesets.CreateCheckFunction | lib/feedback/ruleset-engine.ts:49-91 | A check built from configuration never throws. |
| Rulesets.ConfigCheck | lib/feedback/ruleset-engine.ts:49-91 | A rule whose kind and id match no built-in check accepts every output. |
| Rulesets.UnknownRulesPass | lib/feedback/ruleset-engine.ts:66-90 | A rule whose kind and id match none of the known checks always passes. |
| Rulesets.StructuredFormatCheck | lib/feedback/ruleset-engine.ts:60-64 | The structured-format rule passes exactly when the content contains `**`, `##` or `- `. |
| Rulesets.MinLengthWithoutBoundPasses | lib/feedback/ruleset-engine.ts:53-56 | A minimum-length rule whose bound is missing or zero (falsy) falls through to the always-pass default. |
| Rulesets.RulesFromConfig | lib/feedback/ruleset-engine.ts:30-39 | One rule per configured entry, in order, keeping its id, name, description, kind and severity, with the check `createCheckFunction` builds from that entry. |
| Rulesets.DefaultRules | lib/feedback/ruleset-engine.ts:93-114 | The fallback ruleset is exactly the two error rules: content of at least 100 characters, and confidence in (0, 100]. |
| Rulesets.Loaded | lib/feedback/ruleset-engine.ts:23-47 | A failed load installs the default rules; a parsed list installs one rule per entry, with its id and severity. |
| Rulesets.GetSuggestion | lib/feedback/ruleset-engine.ts:165-176 | Known rule ids get their own suggestion, any other id the generic one; never empty. |
| Rulesets.ResultFor | lib/feedback/ruleset-engine.ts:127-149 | A result carries the rule's id, name and severity; it passed exactly when the check returned true; a thrown check counts as failed; a suggestion is present exactly when it failed. |
| Rulesets.OverallScore | lib/feedback/ruleset-engine.ts:152 | The score lies in [0, 100], is 100 with no rules, and is otherwise the passed share of the rules times 100. |
| Rulesets.RunRules | lib/feedback/ruleset-engine.ts:123-150 | The loop yields one result per rule, in order, and counts the results that passed. |
| Rulesets.Results | lib/feedback/ruleset-engine.ts:126-150 | The results are the rules' individual results, position by position. |
| Rulesets.ValidateSpec | lib/feedback/ruleset-engine.ts:116-163 | The report names the output's agent and team and has one result per rule. |
| Rulesets.ReportPassedIff | lib/feedback/ruleset-engine.ts:152-162 | A report passes exactly when every error-severity rule's check passed; it names the output's team and agent, its score lies in [0, 100], and it has one result per rule. |
| Rulesets.CountPassedRules | lib/feedback/ruleset-engine.ts:139 | The passed count equals the number of rules whose check passed. |
| Rulesets.ShortOutputFailsDefaultRules | lib/feedback/ruleset-engine.ts:101 | A 50-character output fails the default ruleset, on the minimum-length rule. |
| Rulesets.RulesetEngine.constructor | lib/feedback/ruleset-engine.ts:20-21 | The engine starts with an empty ruleset cache. |
| Rulesets.RulesetEngine.LoadRuleset | lib/feedback/ruleset-engine.ts:23-47 | Caches the configured rules under the name, or the default rules when loading fails. |
| Rulesets.RulesetEngine.Validate | lib/feedback/ruleset-engine.ts:116-163 | Loads the ruleset only when it is not cached, and returns the report of the cached rules for the output. |
| Comparison.OrDefault | lib/feedback/comparator.ts:29-32 | A configured weight is used unless it is missing or zero, in which case the default applies. |
| Comparison.LoadScoringWeights | lib/feedback/comparator.ts:22-43 | The weights are the configured ones with per-field fallbacks, or the defaults 0.4/0.2/0.2/0.2 when the file cannot be read. |
| Comparison.ZeroWeightFallsBack | lib/feedback/comparator.ts:29-32 | A configured weight of 0, for any of the four scores, becomes that score's default (0.4 for quality, 0.2 for the others) and loads exactly as a missing weight would. |
| Comparison.CalculateTeamScore | lib/feedback/comparator.ts:140-147 | With non-negative weights summing to 1, the total lies between the smallest and the largest of the four scores. |
| Comparison.DefaultWeightsConvex | lib/feedback/comparator.ts:36-41 | The default weights are non-negative and sum to 1. |
| Comparison.BetterTeam | lib/feedback/comparator.ts:54-62 | A tie exactly when the totals differ by less than 2; otherwise the higher total wins; Ultimate never wins. |
| Comparison.Dimension | lib/feedback/comparator.ts:110-119 | A differentiator's gap is the absolute difference, and Alpha leads exactly when its score is strictly higher. |
| Comparison.Significant | lib/feedback/comparator.ts:122 | Keeps exactly the differentiators whose gap exceeds 5. |
| Comparison.InsertSorted | lib/feedback/comparator.ts:122 | Inserting into a list sorted by decreasing gap keeps it sorted. |
| Comparison.SortByGap | lib/feedback/comparator.ts:122 | The sort is a permutation of its input, ordered by decreasing gap. |
| Comparison.KeyDifferentiators | lib/feedback/comparator.ts:110-122 | The key differentiators are exactly the significant dimensions, as a permutation sorted by decreasing gap. |
| Comparison.GenerateReasoning | lib/feedback/comparator.ts:92-138 | A tie reports both totals; a win reports the winner's and the loser's totals, their margin, the winner's strengths, and the loser's improvements exactly when there are any. |
| Comparison.CompareTeams | lib/feedback/comparator.ts:45-90 | The result carries both totals and the per-dimension score pairs, and the winner follows the 2-point tie rule in both directions. |
| Comparison.FasterTeamWins | lib/feedback/comparator.ts:140-147 | With equal quality, collaboration and innovation, speed 99 against 0 wins under the default weights. |
| Moderation.QualityScore | lib/orchestration/moderator.ts:104-106 | With validation scores in [0, 100] and confidences at most 100, the quality score lies in [0, 100]. |
| Moderation.SpeedScore | lib/orchestration/moderator.ts:109-111 | The speed score lies in [0, 100] and is 0 exactly when the mean processing time is at least 10 seconds. |
| Moderation.CollaborationScore | lib/orchestration/moderator.ts:148-165 | The score lies in [70, 100], is 70 for one output or none, and reaches 100 exactly when at least three outputs build on their predecessor. |
| Moderation.CollaborationMonotone | lib/orchestration/moderator.ts:152-162 | One more output never lowers the collaboration score. |
| Moderation.AssessCollaboration | lib/orchestration/moderator.ts:148-165 | The loop computes the collaboration score. |
| Moderation.LengthBonus | lib/orchestration/moderator.ts:186-188 | The bonus is 0, 10 or 20: at least 10 exactly when the mean length exceeds 800, and 20 exactly when it exceeds 1200. |
| Moderation.InnovationScore | lib/orchestration/moderator.ts:167-191 | The score lies in [60, 100], is 60 with no keyword and no bonus, and reaches 100 exactly when five points per keyword hit plus the bonus reach 40. |
| Moderation.AssessInnovation | lib/orchestration/moderator.ts:167-191 | The nested keyword loops compute the innovation score. |
| Moderation.LabelsExact | lib/orchestration/moderator.ts:197-202 | A label is collected exactly when some entry satisfies the filter and the label is the prefix plus that entry's name. |
| Moderation.FirstMax | lib/orchestration/moderator.ts:206 | The reduction picks the first entry with the largest score. |
| Moderation.StrengthsExact | lib/orchestration/moderator.ts:193-212 | With some score at least 85, the strengths are exactly the "Excellent" labels of those scores; otherwise the single "Strong" label of the first highest score. |
| Moderation.ImprovementsExact | lib/orchestration/moderator.ts:214-225 | The improvements are exactly the "Enhance" labels of the scores below 70. |
| Moderation.CollectLabels | lib/orchestration/moderator.ts:197-202 | The loop collects the labels of the entries that pass the filter. |
| Moderation.IdentifyStrengths | lib/orchestration/moderator.ts:193-212 | The method computes the strengths. |
| Moderation.IdentifyImprovements | lib/orchestration/moderator.ts:214-225 | The method computes the improvements. |
| Moderation.Performance | lib/orchestration/moderator.ts:98-146 | A team's performance carries the team, the quality, speed, collaboration and innovation scores of its outputs, and a total that is the comparator's weighted sum of those four scores. |
| Moderation.CalculateTeamPerformance | lib/orchestration/moderator.ts:98-146 | The method computes the team's performance record. |
| Moderation.PerformanceInRange | lib/orchestration/moderator.ts:98-146 | With convex weights and in-range inputs, all four scores and the total lie in their ranges: quality and speed in [0, 100], collaboration in [70, 100], innovation in [60, 100], total in [0, 100]. |
| Moderation.UnclampedConfidenceLiftsQuality | lib/orchestration/moderator.ts:104-106 | A confidence of 150 with a perfect validation score gives a quality score of 120. |
| Moderation.PerformanceLabels | lib/orchestration/moderator.ts:131-134 | There is at least one strength, and the improvements name exactly the quality, speed or innovation scores below 70 (collaboration never qualifies). |
| Moderation.StreakLine | lib/orchestration/moderator.ts:288-293 | A streak line is added exactly when the current streak belongs to the winner and its count names a non-empty milestone. |
| Moderation.GeneratePraise | lib/orchestration/moderator.ts:259-296 | A tie uses the first tie template; a win uses the first decisive template when the margin exceeds 15 and the first close one otherwise; an empty bucket is the error path; a winner's streak line is appended. |
| Moderation.DefaultPraise | lib/orchestration/moderator.ts:35-45 | The built-in templates always produce praise, and a winner's streak line appears exactly at a streak of 3 or 5 held by the winner. |
| Moderation.CriticalFailureIff | lib/orchestration/moderator.ts:303-307 | A critical failure exists exactly when some report has a failed error-severity result. |
| Moderation.ShouldContinue | lib/orchestration/moderator.ts:298-310 | The cycle continues exactly when no report of either team has a critical failure. |
| Moderation.ContinueIffAllPassed | lib/orchestration/moderator.ts:298-310 | For reports built by the validator, the cycle continues exactly when every report passed. |
| Moderation.CalculateConfidence | lib/orchestration/moderator.ts:312-329 | The judgment confidence never exceeds 100. |
| Moderation.ConfidenceInRange | lib/orchestration/moderator.ts:312-329 | With non-negative validation scores, the confidence lies in [0, 100]. |
| Moderation.ConfidenceAveragesTeamMeans | lib/orchestration/moderator.ts:319-322 | One report of 100 and three of 0, with equal totals, give 35: the two team means are averaged, not the four reports. |
| Moderation.JudgeSpec | lib/orchestration/moderator.ts:49-96 | A judgment never names Ultimate, keeps its confidence at most 100, and declares a tie exactly when the two totals differ by less than 2. |
| Moderation.Judge | lib/orchestration/moderator.ts:49-96 | The method computes the judgment. |
| Moderation.JudgmentEmbedsPerformances | lib/orchestration/moderator.ts:57-95 | The judgment carries both teams' computed performances and the comparator's winner. |
| Moderation.IdenticalTeamsTie | lib/orchestration/moderator.ts:57-77 | Two teams with identical outputs and reports tie, and get the built-in tie praise. |
| Moderation.SameScoresSameTotal | lib/orchestration/moderator.ts:120-129 | The same outputs get the same total whichever team produced them. |
| Moderation.TotalIgnoresTeam | lib/feedback/comparator.ts:140-147 | The weighted total does not depend on the team field. |
| Tracking.StatsKeyInjective | lib/orchestration/performance-tracker.ts:154-167 | Under one date, different teams or periods get different stats keys. |
| Tracking.StatsKeyNotPerformanceKey | lib/orchestration/performance-tracker.ts:154-182 | A stats key is never a performance-record key. |
| Tracking.StatsKey | lib/orchestration/performance-tracker.ts:154-167 | Every stats key lies under `performance:`. |
| Tracking.PerformanceKey | lib/orchestration/performance-tracker.ts:169-182 | Every records key lies under `performance:records:`. |
| Tracking.StatsAt | lib/orchestration/performance-tracker.ts:93-113 | A missing key reads as the default stats; a stored stats document reads as itself. |
| Tracking.StatsAtOtherKey | lib/orchestration/performance-tracker.ts:93-99 | Writing any other key does not change what a team's stats read as. |
| Tracking.AfterExecution | lib/orchestration/performance-tracker.ts:53-57 | Booking an execution adds one execution and raises the best score to at least the new total (it becomes the old best or the new total), and changes nothing else. |
| Tracking.OnlineMean | lib/orchestration/performance-tracker.ts:55 | The running-average update gives the mean of all totals booked so far. |
| Tracking.OnlineBest | lib/orchestration/performance-tracker.ts:56 | The best-score update gives the maximum of all totals booked so far (0 when empty). |
| Tracking.ReplayLaw | lib/orchestration/performance-tracker.ts:45-60 | From the default stats, a run of executions counts them, averages their totals and keeps their best. |
| Tracking.OutcomeLaw | lib/orchestration/performance-tracker.ts:77-86 | Exactly one of wins, ties and losses grows by one, a win wins over a tie, the streak grows on a win and resets otherwise, and nothing else changes. |
| Tracking.AfterOutcome | lib/orchestration/performance-tracker.ts:77-86 | The streak grows by one on a win and is 0 after a tie or a loss. |
| Tracking.StreakCountsTrailingWins | lib/orchestration/performance-tracker.ts:77-86 | From the default stats, over any sequence of wins, ties and losses, the win streak equals the number of trailing wins, the wins, ties and losses count their own rounds, and together they count every round. |
| Tracking.WinStep | lib/orchestration/performance-tracker.ts:69-91 | Updating win stats succeeds exactly when the stats are readable, and then writes the updated stats under the team's key; a failed read writes nothing. |
| Tracking.ExecutionStep | lib/orchestration/performance-tracker.ts:45-60 | Updating the execution stats succeeds exactly when the stats are readable; a failed read writes nothing. |
| Tracking.ExecutionStepLaw | lib/orchestration/performance-tracker.ts:45-60 | A successful update books the execution for that team and period and leaves every other team and period unchanged. |
| Tracking.FailureSticks | lib/orchestration/performance-tracker.ts:62-67 | Once a read fails, the remaining periods are not processed. |
| Tracking.ApplyWins | lib/orchestration/performance-tracker.ts:62-67 | The period loop never removes a key. |
| Tracking.WinStepLaw | lib/orchestration/performance-tracker.ts:69-91 | A successful win update books the outcome for that team and period, and every other key is untouched. |
| Tracking.PeriodStepLaw | lib/orchestration/performance-tracker.ts:63-66 | One period books the outcome for both Alpha and Omega and touches only their two keys. |
| Tracking.ApplyWinsLaw | lib/orchestration/performance-tracker.ts:62-67 | Over distinct periods, every period listed books exactly one outcome per competing team, and nothing else changes. |
| Tracking.RecordWinLaw | lib/orchestration/performance-tracker.ts:62-67 | Recording a round adds one outcome for each competing team in every period: a win for the winner, a loss for the other team, a tie to both on a tie. |
| Tracking.ResetGivesDefault | lib/orchestration/performance-tracker.ts:141-152 | After a reset, the stats of every period in scope read as the defaults, and its performance records are gone. |
| Tracking.PeriodKeysMembers | lib/orchestration/performance-tracker.ts:144-151 | The keys deleted for a period include both teams' stats keys and the records key. |
| Tracking.PerformanceTracker.constructor | lib/orchestration/performance-tracker.ts:18-20 | The tracker works on the store it is given. |
| Tracking.PerformanceTracker.GetTeamStats | lib/orchestration/performance-tracker.ts:93-113 | Reads a team's stats from the store for the period. |
| Tracking.PerformanceTracker.UpdateTeamStats | lib/orchestration/performance-tracker.ts:45-60 | The store changes by the execution step alone, and the lists are untouched. |
| Tracking.PerformanceTracker.RecordPerformance | lib/orchestration/performance-tracker.ts:22-43 | Appends the performance record to the period's list, then applies the execution step. |
| Tracking.PerformanceTracker.UpdateWinStats | lib/orchestration/performance-tracker.ts:69-91 | The store changes by the win step alone. |
| Tracking.PerformanceTracker.RecordWin | lib/orchestration/performance-tracker.ts:62-67 | The store changes by the win steps over all three periods, for Alpha and then Omega in each. |
| Tracking.PerformanceTracker.GetLeaderboard | lib/orchestration/performance-tracker.ts:115-139 | The leaderboard exists exactly when all six stats are readable; it shows them per period and has no MVP agents. |
| Tracking.PerformanceTracker.ResetStats | lib/orchestration/performance-tracker.ts:141-152 | Deletes exactly both teams' stats keys and the records key of each period in scope, from the values and the lists. |
| Tracking.PerformanceTracker.ResetPeriod | lib/orchestration/performance-tracker.ts:144-151 | One period's pass deletes exactly Alpha's and Omega's stats keys and that period's records key, and leaves the expiry timers alone. |
| Agents.Sections | lib/agents/base-agent.ts:74-75 | One section per earlier output, in order. |
| Agents.BuildContextSnoc | lib/agents/base-agent.ts:69-79 | The first output replaces the first-analysis line with the header plus its section; each later output appends a newline and its section. |
| Agents.BuildContextMentions | lib/agents/base-agent.ts:74-78 | The context contains every earlier output's section. |
| Agents.BuildContext | lib/agents/base-agent.ts:69-79 | With no earlier outputs the context is the first-analysis line. |
| Agents.UserMessage | lib/agents/base-agent.ts:42 | The message is as long as the context, the 13-character directive separator and the directive together. |
| Agents.MessageShape | lib/agents/base-agent.ts:42 | The message starts with the context and ends with the directive; once an agent ran before, the context starts with the header. |
| Agents.SkipSpaces | lib/agents/base-agent.ts:83 | `\s*` stops at the first non-space character. |
| Agents.SkipDigits | lib/agents/base-agent.ts:83 | `\d+` stops at the first non-digit, after digits only. |
| Agents.MatchAt | lib/agents/base-agent.ts:83 | A match needs the word "confidence" (any case) at the position and captures a non-empty run of digits. |
| Agents.FirstMatch | lib/agents/base-agent.ts:83 | The search finds the leftmost match position, or reports that there is none. |
| Agents.ExtractConfidence | lib/agents/base-agent.ts:81-90 | With no match the confidence is 75; otherwise it is the leftmost match's digits read as a decimal number. |
| Agents.NoMentionDefaults | lib/agents/base-agent.ts:88-89 | Content that never mentions "confidence" gets 75. |
| Agents.ConfidenceLineRoundTrip | lib/agents/base-agent.ts:83-86 | Reading back `Confidence: n%` gives n, for every natural n. |
| Agents.UnclampedConfidence | lib/agents/base-agent.ts:84-86 | `Confidence: 150%` yields 150: the parsed value is not clamped. |
| Agents.UnanchoredMatch | lib/agents/base-agent.ts:83 | The pattern matches inside a longer phrase: `Statistical Confidence: 86%` yields 86. |
| Agents.OutputOf | lib/agents/base-agent.ts:54-66 | An output carries the agent's name and team, the response's content, the confidence parsed from it, the elapsed time, and the model, tokens and iteration number. |
| Agents.Agent.constructor | lib/agents/base-agent.ts:11-16 | An agent starts with its name, team, role and backend, and no system prompt. |
| Agents.Agent.PromptInUse | lib/agents/base-agent.ts:27-29 | An empty (falsy) prompt is loaded before use; a loaded prompt is kept. |
| Agents.Agent.Initialize | lib/agents/base-agent.ts:18-21 | Loads the prompt of the agent's team and lower-cased name. |
| Agents.Agent.Execute | lib/agents/base-agent.ts:23-67 | Loads the prompt if it is empty, sends it with the context and directive message, and returns the output of that response. |
| Agents.Roster | lib/orchestration/cycle-orchestrator.ts:44-63 | Each team has three agents of that team, in the fixed order given by the team files. |
| Orchestration.TeamRunTurns | lib/orchestration/cycle-orchestrator.ts:195-204 | The k-th output is the k-th agent's turn on the outputs before it, under its own name and team, at iteration 1. |
| Orchestration.TeamRun | lib/orchestration/cycle-orchestrator.ts:186-210 | A team run has one output per agent. |
| Orchestration.TeamRunPrefix | lib/orchestration/cycle-orchestrator.ts:192-206 | Running the first k agents gives the first k outputs of the full run. |
| Orchestration.TurnSeesEarlierOutputs | lib/orchestration/cycle-orchestrator.ts:197-203 | Every agent's message contains the section of every teammate who ran before it. |
| Orchestration.MessageMentions | lib/agents/base-agent.ts:42 | The user message contains every earlier output's section. |
| Orchestration.TeamRunSnoc | lib/orchestration/cycle-orchestrator.ts:195-206 | One more agent appends exactly its turn on the outputs so far. |
| Orchestration.FirstTurnStarts | lib/orchestration/cycle-orchestrator.ts:192-203 | The first agent sees no earlier output and gets the first-analysis context. |
| Orchestration.CurrentStreak | lib/orchestration/cycle-orchestrator.ts:235-255 | A streak is reported exactly when both daily stats are readable and one team has a positive streak; Alpha's takes precedence, and Omega's is used only when Alpha's is 0. |
| Orchestration.RoundLaw | lib/orchestration/cycle-orchestrator.ts:222-233 | Recording a round books the daily execution and then the outcome for each team in every period. |
| Orchestration.Round | lib/orchestration/cycle-orchestrator.ts:222-233 | When either team's daily stats cannot be read, the round fails and no win is recorded. |
| Orchestration.WithRecords | lib/orchestration/cycle-orchestrator.ts:224-227 | Booking the records appends Alpha's and then Omega's record to the daily records list, creating it when absent, and leaves every other list alone. |
| Orchestration.RoundCounts | lib/orchestration/cycle-orchestrator.ts:222-233 | After a round, every competing team's outcomes in every period grow by one, and its daily executions grow by one. |
| Orchestration.StreakAfterRound | lib/orchestration/cycle-orchestrator.ts:222-255 | After a win, the current streak is the winner's previous daily streak plus one; after a tie, there is none. |
| Orchestration.HistoryKeyIsolated | lib/orchestration/cycle-orchestrator.ts:262 | A history key never collides with a stats key or a records key. |
| Orchestration.HistoryKey | lib/orchestration/cycle-orchestrator.ts:262 | The key is the history prefix followed by the execution id, which reads back from it. |
| Orchestration.Reports | lib/orchestration/cycle-orchestrator.ts:212-220 | One report per output, in order, each validated against the same rules. |
| Orchestration.InitializeTeam | lib/orchestration/cycle-orchestrator.ts:178-184 | Warming up a team loads each agent's prompt if missing, so that each then holds the prompt it will use, and changes nothing else about the agents. |
| Orchestration.MakeTeam | lib/orchestration/cycle-orchestrator.ts:44-63 | Builds a team of fresh agents matching the roster, all sharing the backend and prompt loader. |
| Orchestration.MakeAgents | lib/orchestration/cycle-orchestrator.ts:44-63 | Three fresh agents with the names, team and roles of the given specs, in order. |
| Orchestration.MakeTeams | lib/orchestration/cycle-orchestrator.ts:44-63 | The three teams are fully staffed, pairwise disjoint, and made of fresh agents sharing the backend and prompt loader. |
| Orchestration.CycleOrchestrator.constructor | lib/orchestration/cycle-orchestrator.ts:40-70 | Three separate rosters of fresh agents, a fresh tracker over the given store, and an empty ruleset cache. |
| Orchestration.CycleOrchestrator.GetCurrentStreak | lib/orchestration/cycle-orchestrator.ts:235-255 | Reads the current streak from the store; a reported streak belongs to Alpha or Omega and is positive. |
| Orchestration.CycleOrchestrator.InitializeAgents | lib/orchestration/cycle-orchestrator.ts:178-184 | Every agent of the three teams has its prompt loaded and holds the prompt it will use, and otherwise the teams are unchanged. |
| Orchestration.TakeTurn | lib/orchestration/cycle-orchestrator.ts:197-204 | One agent's turn, given the outputs before it as context at iteration 1, yields the modelled turn output and leaves the agent's visible state as it was, with the prompt it used now held. |
| Orchestration.CycleOrchestrator.ExecuteTeam | lib/orchestration/cycle-orchestrator.ts:186-210 | The sequential loop yields the team run of the agents as they were, and afterwards each agent holds the prompt it used. |
| Orchestration.CycleOrchestrator.ValidateTeamOutputs | lib/orchestration/cycle-orchestrator.ts:212-220 | Validates every output against one ruleset, which is loaded once if it is not cached. |
| Orchestration.ValidateOutputs | lib/orchestration/cycle-orchestrator.ts:212-220 | The reports are those of every output against one ruleset; the cache gains that ruleset, or stays as it was when there are no outputs. |
| Orchestration.CycleOrchestrator.RecordPerformance | lib/orchestration/cycle-orchestrator.ts:222-233 | The store changes by one round; the daily records list gains Alpha's record and then Omega's. |
| Orchestration.CycleOrchestrator.StoreExecutionHistory | lib/orchestration/cycle-orchestrator.ts:257-264 | Writes the result under its history key and schedules that key's expiry. |
| Orchestration.CycleOrchestrator.RunTeams | lib/orchestration/cycle-orchestrator.ts:92-107 | Alpha and Omega always run, and Ultimate exactly when it is included, each on its own agents as they were; afterwards every agent of the three teams holds the prompt it used. |
| Orchestration.CycleOrchestrator.RunTeamBeside | lib/orchestration/cycle-orchestrator.ts:186-210 | A team's run leaves the other teams' agents unchanged, prompts included, and each agent of the running team then holds the prompt it used. |
| Orchestration.CycleOrchestrator.ValidateAll | lib/orchestration/cycle-orchestrator.ts:111-125 | Each team's outputs are validated against the same ruleset, and Ultimate's exactly when it ran; when Alpha produced outputs the cache then holds that ruleset under its name; no agent changes. |
| Orchestration.CycleOrchestrator.Conclude | lib/orchestration/cycle-orchestrator.ts:129-175 | The result is judged with the streak read before booking; in competition mode the round is booked and the daily records list gains both records, otherwise the store's lists are unchanged; a returned result is filed in the history with one new expiry timer; the ruleset cache is untouched. |
| Orchestration.CycleOrchestrator.Compete | lib/orchestration/cycle-orchestrator.ts:84-125 | The teams run and are validated against one ruleset, which the cache then holds under its name when Alpha has agents; afterwards every agent keeps its name, team, role and backend, and holds the prompt it used. |
| Orchestration.CycleOrchestrator.ExecuteDirective | lib/orchestration/cycle-orchestrator.ts:72-176 | The result carries the given id, the team runs, their reports and the moderator's judgment, which never names Ultimate; the store gains the round and the daily records only in competition mode, and the history entry with its expiry timer always; the ruleset cache then holds the ruleset under its name. |
| Orchestration.CycleOrchestrator.GetLeaderboard | lib/orchestration/cycle-orchestrator.ts:270-272 | Delegates to the tracker's leaderboard, which has no MVP agents. |
| Orchestration.CycleOrchestrator.ResetScores | lib/orchestration/cycle-orchestrator.ts:274-276 | Deletes exactly the keys the tracker's reset deletes, and leaves the pending timers alone. |
| Slices.SliceFromMinusLimit | lib/telemetry/metrics-emitter.ts:53 | `slice(-limit)` gives the last `limit` entries for a positive limit, everything for 0, and drops the first `-limit` entries for a negative limit. |
| Slices.SliceFrom | lib/telemetry/logger.ts:74 | `slice(start)` drops the first `start` entries, and for a negative `start` keeps the last `-start` entries. |
| Slices.Slice | lib/state/redis-manager.ts:42-48 | `slice(start, end)` returns the entries between the two positions read from the end when negative and clamped, empty when they cross; within bounds it is the ordinary subsequence, and an `end` at or past the length reads to the end. |
| Slices.PushBoundedKeepsLast | lib/telemetry/metrics-emitter.ts:32-37 | Push-then-shift keeps the buffer equal to the latest entries of the history, up to the capacity. |
| Slices.FilterAppend | lib/telemetry/metrics-emitter.ts:50 | Filtering distributes over concatenation. |
| Metrics.Selected | lib/telemetry/metrics-emitter.ts:47-51 | A non-empty name keeps exactly the metrics with that name; an absent or empty name keeps all of them. |
| Metrics.MetricsEmitter.constructor | lib/telemetry/metrics-emitter.ts:11-14 | The emitter starts empty. |
| Metrics.MetricsEmitter.Emit | lib/telemetry/metrics-emitter.ts:23-37 | Appends the metric and drops the oldest when over 5000, so the buffer stays the latest 5000 metrics emitted. |
| Metrics.MetricsEmitter.GetMetrics | lib/telemetry/metrics-emitter.ts:46-54 | The selected metrics, sliced from `-limit` as JavaScript does. |
| Metrics.MetricsEmitter.ClearMetrics | lib/telemetry/metrics-emitter.ts:56-58 | Empties the buffer. |
| Metrics.MetricsEmitter.RecordExecutionTime | lib/telemetry/metrics-emitter.ts:61-63 | Emits `execution_time.<operation>` in milliseconds. |
| Metrics.MetricsEmitter.RecordAPICall | lib/telemetry/metrics-emitter.ts:65-69 | Emits the call, cost and tokens metrics, in that order, tagged with the provider; they are the buffer's last three entries. |
| Metrics.MetricsEmitter.RecordWin | lib/telemetry/metrics-emitter.ts:71-73 | Emits one `team_win` count tagged with the team. |
| Metrics.MetricsEmitter.RecordScore | lib/telemetry/metrics-emitter.ts:75-77 | Emits one `team_score` in points tagged with the team. |
| Metrics.APICallMetrics | lib/telemetry/metrics-emitter.ts:66-68 | Three metrics, each tagged with the provider. |
| Metrics.RecentMetrics | lib/telemetry/metrics-emitter.ts:46-54 | An unnamed query with a limit up to 5000 returns the `limit` most recently emitted metrics. |
| Metrics.BufferBounded | lib/telemetry/metrics-emitter.ts:32-37 | The buffer never exceeds 5000 and is the tail of everything emitted, in arrival order. |
| Metrics.NamedQueryGrows | lib/telemetry/metrics-emitter.ts:49-51 | A new metric extends a named selection exactly when it has that name. |
| Metrics.LatestOfName | lib/telemetry/metrics-emitter.ts:46-54 | A query for the newest metric's name with limit 1 returns that metric. |
| Logging.Selected | lib/telemetry/logger.ts:67-72 | A level keeps exactly the entries at that level; no level keeps all of them. |
| Logging.Logger.constructor | lib/telemetry/logger.ts:15-20 | The logger starts empty. |
| Logging.Logger.Log | lib/telemetry/logger.ts:45-58 | Appends the entry and drops the oldest when over 1000, so the buffer stays the latest 1000 entries logged. |
| Logging.Logger.LogDebug | lib/telemetry/logger.ts:29-31 | Logs at Debug. |
| Logging.Logger.LogInfo | lib/telemetry/logger.ts:33-35 | Logs at Info. |
| Logging.Logger.LogWarn | lib/telemetry/logger.ts:37-39 | Logs at Warn. |
| Logging.Logger.LogError | lib/telemetry/logger.ts:41-43 | Logs at Error. |
| Logging.Logger.GetLogs | lib/telemetry/logger.ts:67-75 | The selected entries, sliced from `-limit` as JavaScript does. |
| Logging.Logger.ClearLogs | lib/telemetry/logger.ts:77-79 | Empties the buffer. |
| Logging.RecentLogs | lib/telemetry/logger.ts:67-75 | A query without a level and with a limit up to 1000 returns the `limit` most recent entries. |
| Logging.BufferBounded | lib/telemetry/logger.ts:53-58 | The buffer never exceeds 1000 and is the tail of everything logged, in order. |
| Logging.LevelQueryGrows | lib/telemetry/logger.ts:70-72 | A new entry extends a level's selection exactly when it is at that level. |
| Logging.LatestOfLevel | lib/telemetry/logger.ts:67-75 | A query for the newest entry's level with limit 1 returns that entry. |
| Onboarding.ReplaceAt | store/onboardingStore.ts:136-139 | An index in range replaces that goal; any other index leaves the goals unchanged. |
| Onboarding.RemoveAt | store/onboardingStore.ts:141-144 | An index in range removes exactly that goal; any other index leaves the goals unchanged. |
| Onboarding.Connect | store/onboardingStore.ts:146-153 | Every entry of the platform becomes connected under the username; the other entries and the order are untouched. |
| Onboarding.Disconnect | store/onboardingStore.ts:155-162 | Every entry of the platform becomes disconnected with no username; the other entries are untouched. |
| Onboarding.RemoveAddedGoal | store/onboardingStore.ts:131-144 | Removing the goal just added restores the goals. |
| Onboarding.ReplaceAtLaws | store/onboardingStore.ts:136-139 | Replacing a goal by itself changes nothing, and of two replacements at one index the second wins. |
| Onboarding.DisconnectAfterConnect | store/onboardingStore.ts:146-162 | Disconnecting after connecting is the same as just disconnecting. |
| Onboarding.ConnectOverrides | store/onboardingStore.ts:146-153 | A second connection of a platform overrides the first. |
| Onboarding.ConnectionsCommute | store/onboardingStore.ts:146-162 | Edits to different platforms commute. |
| Onboarding.InitialConnectionsShape | store/onboardingStore.ts:114-118 | The initial list names each platform exactly once, all disconnected and without usernames. |
| Onboarding.OnboardingStore.constructor | store/onboardingStore.ts:107-119 | The store starts in the initial state. |
| Onboarding.OnboardingStore.SetCurrentStep | store/onboardingStore.ts:121 | Only the step changes. |
| Onboarding.OnboardingStore.MarkWelcomeSeen | store/onboardingStore.ts:123 | Only the welcome flag changes, to true. |
| Onboarding.OnboardingStore.SelectPath | store/onboardingStore.ts:125 | Only the selected path changes. |
| Onboarding.OnboardingStore.SelectAvatar | store/onboardingStore.ts:127 | Only the selected avatar changes. |
| Onboarding.OnboardingStore.SetUsername | store/onboardingStore.ts:129 | Only the username changes. |
| Onboarding.OnboardingStore.AddGoal | store/onboardingStore.ts:131-134 | Only the goals change: the goal is appended. |
| Onboarding.OnboardingStore.UpdateGoal | store/onboardingStore.ts:136-139 | Only the goals change, by the indexed replacement. |
| Onboarding.OnboardingStore.RemoveGoal | store/onboardingStore.ts:141-144 | Only the goals change, by the indexed removal. |
| Onboarding.OnboardingStore.ConnectSocial | store/onboardingStore.ts:146-153 | Only the connections change, by connecting the platform. |
| Onboarding.OnboardingStore.DisconnectSocial | store/onboardingStore.ts:155-162 | Only the connections change, by disconnecting the platform. |
| Onboarding.OnboardingStore.CompleteOnboarding | store/onboardingStore.ts:164 | Only the completion flag changes, to true. |
| Onboarding.OnboardingStore.ResetOnboarding | store/onboardingStore.ts:166-180 | The state returns to the initial state. |

## Left out

- Console and file output, `Date.now` timestamps and `lastUpdated` fields are not modelled. The clock enters only as the `Clock` date used by the store keys.
- Execution ids use `Date.now` and `Math.random`, so the id is a parameter of `ExecuteDirective`.
- Concurrency is not modelled. The `Promise.all` branches of the orchestrator and tracker run sequentially in source order. The team runs and validations touch disjoint state. The two branches of `recordPerformance` (lib/orchestration/cycle-orchestrator.ts:224-227) both append to the same daily list; each branch's `addToList` runs before that branch's first `await`, so the list ends the same as in source order.
- The singletons (`getRedisInstance`, `getInstance`) are not modelled. Each object is constructed once and passed to its users.
- The API handlers and front-end components that call this core, and their input checks, are not part of this model.
- The YAML files are not modelled. The YAML sources are function parameters whose `None` result means loading failed.
- The LLM integration layer and prompt files are not part of this model. The LLM backend and the prompt loader are total function parameters: the mock backend never throws, and `loadPrompt` falls back to a default prompt when a file is missing.
- Default arguments are explicit parameters of the model: `competitionMode = true` (lib/orchestration/cycle-orchestrator.ts:75), `limit = 100` (lib/telemetry/logger.ts:67, lib/telemetry/metrics-emitter.ts:46) and `unit = 'count'` (lib/telemetry/metrics-emitter.ts:23).
- The narratives are not modelled as text: the moderator's synthesis, the comparator's reasoning, praise placeholder substitution and `toFixed` formatting. `GenerateReasoning` and `GeneratePraise` return the chosen parts (totals, margin, differentiators, template, streak line) rather than the strings.
- The timed expiry (`setTimeout`) is the `Expire` method, which the environment may call for any pending timer. Wall-clock time is not modelled.
- String lengths count `char`s, not UTF-16 code units. `toLowerCase` folds ASCII letters only. `\s` is JavaScript's full whitespace set, listed in `Agents.IsSpace`.
- `parseInt` is unbounded. Very long digit runs lose no precision, unlike in JavaScript.
- The `llm` rule kind's heuristics are modelled as written. A check that rejects its promise is the `Throw` outcome; the built-in checks never produce it.
- The logger's context and the metric tags are maps from strings to strings. Arbitrary JSON context values are not modelled.
- `updateGoal` and `removeGoal` take an integer index. A fractional index, which matches no position, is not modelled.
- The onboarding store's `persist` middleware (local storage) and the avatar catalogue are not modelled.
- Orchestration.CycleOrchestrator.ExecuteDirective: does not restate the agents' state afterwards (views unchanged, each holding the prompt it used). `Compete`, its first half, states it, and the second half touches only the store; carrying the agent facts through the store half is beyond the solver's budget here.
- Orchestration.CycleOrchestrator.ExecuteDirective: requires only that the three teams are separate and that Alpha and Omega have three agents. It does not require the exact roster that `MakeTeam` builds.
- Orchestration.CycleOrchestrator.Conclude: a rejected call is `None`, with no promise about the store. This covers an empty praise bucket, where `template.replace` throws, and an unreadable stats value during booking, where `JSON.parse` throws. Partial writes made before the failure are not described.
- The Ultimate team is a third `Team` value, although the source types it outside `TeamType`. The comparator and tracker never give it a result.
- Moderation.CalculateConfidence: its own contract gives only the upper bound. The lower bound is `ConfidenceInRange`, under non-negative validation scores.
