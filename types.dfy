/** The records the competition engine passes around (types/agents.ts,
    types/feedback.ts, types/performance.ts), and the values kept in the
    key/value store. */
module Types {
  import opened Wrappers

  /** The team an agent belongs to. `TeamType` names only alpha and omega;
      the third roster stamps its outputs with `'ultimate'`. */
  datatype Team = Alpha | Omega | Ultimate

  function TeamName(t: Team): string {
    match t
    case Alpha => "alpha"
    case Omega => "omega"
    case Ultimate => "ultimate"
  }

  /** `TeamType | 'tie'`: the outcome of one comparison. */
  datatype Verdict = Win(team: Team) | Tie

  datatype Severity = Error | Warning | Info

  /** The known fields of `AgentOutput.metadata`. */
  datatype OutputMetadata = OutputMetadata(model: string, tokens: nat, iterationNumber: nat)

  /** One agent's answer. `confidence` is what `parseInt` read from the text,
      so it is a natural number with no upper bound. */
  datatype AgentOutput = AgentOutput(
    agentName: string,
    team: Team,
    content: string,
    confidence: nat,
    processingTime: nat,
    metadata: OutputMetadata)

  datatype AgentContext = AgentContext(
    directive: string,
    previousOutputs: seq<AgentOutput>,
    iterationNumber: nat)

  datatype FeedbackResult = FeedbackResult(
    passed: bool,
    ruleName: string,
    ruleId: string,
    severity: Severity,
    message: string,
    suggestion: Option<string>)

  datatype ValidationReport = ValidationReport(
    team: Team,
    agentName: string,
    passed: bool,
    results: seq<FeedbackResult>,
    overallScore: real)

  datatype TeamPerformance = TeamPerformance(
    team: Team,
    qualityScore: real,
    speedScore: real,
    collaborationScore: real,
    innovationScore: real,
    totalScore: real,
    strengths: seq<string>,
    improvements: seq<string>)

  /** One entry of the "key differentiators" list. */
  datatype Differentiator = Differentiator(name: string, diff: real, leader: Team)

  /** What the reasoning text says, without its number formatting. */
  datatype Reasoning =
    | TieReasoning(alphaTotal: real, omegaTotal: real)
    | WinReasoning(
        winner: Team,
        winnerTotal: real,
        loserTotal: real,
        margin: real,
        differentiators: seq<Differentiator>,
        winnerStrengths: seq<string>,
        loserImprovements: Option<seq<string>>)

  datatype ScorePair = ScorePair(alpha: real, omega: real)

  datatype ComparisonDetails = ComparisonDetails(
    quality: ScorePair,
    speed: ScorePair,
    collaboration: ScorePair,
    innovation: ScorePair)

  datatype ComparisonResult = ComparisonResult(
    betterTeam: Verdict,
    alphaScore: real,
    omegaScore: real,
    reasoning: Reasoning,
    details: ComparisonDetails)

  /** Which template list the praise message was taken from. */
  datatype Bucket = TieBucket | Decisive | Close

  /** The praise message: the chosen template (before its placeholders are
      filled in) and the streak-milestone line appended to it, if any. */
  datatype Praise = Praise(bucket: Bucket, template: string, streakLine: Option<string>)

  /** The `currentStreak` hint. */
  datatype Streak = Streak(team: Team, count: nat)

  /** The moderator's judgment; the fixed synthesis prose is not kept. */
  datatype ModeratorJudgment = ModeratorJudgment(
    winningTeam: Verdict,
    teamAlphaPerformance: TeamPerformance,
    teamOmegaPerformance: TeamPerformance,
    reasoning: Reasoning,
    praiseMessage: Praise,
    shouldContinue: bool,
    confidence: real)

  datatype Period = Daily | Monthly | Yearly

  function PeriodName(p: Period): string {
    match p
    case Daily => "daily"
    case Monthly => "monthly"
    case Yearly => "yearly"
  }

  datatype TeamStats = TeamStats(
    team: Team,
    wins: nat,
    losses: nat,
    ties: nat,
    averageScore: real,
    totalExecutions: nat,
    winStreak: nat,
    bestScore: real)

  datatype PerformanceRecord = PerformanceRecord(
    team: Team,
    qualityScore: real,
    speedScore: real,
    collaborationScore: real,
    innovationScore: real,
    totalScore: real)

  datatype TeamPair = TeamPair(alpha: TeamStats, omega: TeamStats)

  datatype MvpAgent = MvpAgent(agentName: string, team: Team, score: real, wins: nat)

  datatype Leaderboard = Leaderboard(
    daily: TeamPair,
    monthly: TeamPair,
    yearly: TeamPair,
    mvpAgents: seq<MvpAgent>)

  /** The full record of one orchestration cycle. */
  datatype OrchestrationResult = OrchestrationResult(
    executionId: string,
    alphaOutputs: seq<AgentOutput>,
    omegaOutputs: seq<AgentOutput>,
    ultimateOutputs: Option<seq<AgentOutput>>,
    alphaValidation: seq<ValidationReport>,
    omegaValidation: seq<ValidationReport>,
    ultimateValidation: Option<seq<ValidationReport>>,
    moderatorJudgment: ModeratorJudgment)

  /** A document the core serialises with `JSON.stringify`. */
  datatype Doc =
    | StatsDoc(stats: TeamStats)
    | RecordDoc(record: PerformanceRecord)
    | HistoryDoc(result: OrchestrationResult)

  /** A string held by the store: either arbitrary text, or the JSON text of
      a document (which is never empty, so never falsy). */
  datatype Value = Text(text: string) | Json(doc: Doc)
}
