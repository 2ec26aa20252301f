/** The performance tracker (lib/orchestration/performance-tracker.ts): per
    team and per period it keeps win/loss/tie counters, the win streak, a
    running average and the best score, as JSON under date-suffixed keys of
    the store. */
module Tracking {
  import opened Wrappers
  import opened Types
  import opened Store
  import opened Averages

  /** The three date suffixes of "now": the UTC date `YYYY-MM-DD`
      (`toISOString`), the local `YYYY-MM` and the local `YYYY`. */
  datatype Clock = Clock(day: string, month: string, year: string)

  function Suffix(c: Clock, p: Period): string {
    match p
    case Daily => c.day
    case Monthly => c.month
    case Yearly => c.year
  }

  const StatsPrefix := "performance:"

  const RecordsPrefix := StatsPrefix + "records:"

  /** `getStatsKey`: a key under `performance:` but outside the records
      keys. */
  function StatsKey(p: Period, t: Team, c: Clock): (k: string)
    ensures StatsPrefix <= k
  {
    StatsPrefix + PeriodName(p) + ":" + TeamName(t) + ":" + Suffix(c, p)
  }

  /** `getPerformanceKey`: a key under `performance:records:`. */
  function PerformanceKey(p: Period, c: Clock): (k: string)
    ensures RecordsPrefix <= k
  {
    RecordsPrefix + PeriodName(p) + ":" + Suffix(c, p)
  }

  /** Different (period, team) pairs never share a stats key, whatever the
      date suffixes are. */
  lemma StatsKeyInjective(p1: Period, t1: Team, p2: Period, t2: Team, c: Clock)
    ensures StatsKey(p1, t1, c) == StatsKey(p2, t2, c) ==> p1 == p2 && t1 == t2
  {
    var k1, k2 := StatsKey(p1, t1, c), StatsKey(p2, t2, c);
    if k1 == k2 {
      assert k1[12] == PeriodName(p1)[0];
      assert k2[12] == PeriodName(p2)[0];
      assert p1 == p2;
      var at := 13 + |PeriodName(p1)|;
      assert k1[at] == TeamName(t1)[0];
      assert k2[at] == TeamName(t2)[0];
    }
  }

  /** A stats key is never a records key. */
  lemma StatsKeyNotPerformanceKey(p1: Period, t: Team, p2: Period, c: Clock)
    ensures StatsKey(p1, t, c) != PerformanceKey(p2, c)
  {
    assert StatsKey(p1, t, c)[12] == PeriodName(p1)[0];
    assert PerformanceKey(p2, c)[12] == 'r';
  }

  // ---------------------------------------------------------------------
  // The stats record and its updates
  // ---------------------------------------------------------------------

  /** The zeroed stats `getTeamStats` returns when nothing is stored. */
  function DefaultStats(t: Team): TeamStats {
    TeamStats(t, 0, 0, 0, 0.0, 0, 0, 0.0)
  }

  /** What `JSON.parse` of a stored value gives as stats; `None` for a value
      that is not the JSON of a stats record (the parse throws, or yields
      something that is not a stats record). */
  function ParseStats(v: Value): Option<TeamStats> {
    if v.Json? && v.doc.StatsDoc? then Some(v.doc.stats) else None
  }

  /** The stats a store map yields for a key: the stored record, the zeroed
      default when the key is absent or holds the empty string, and `None`
      when the stored value does not parse as stats. */
  function StatsAt(m: map<string, Value>, t: Team, p: Period, c: Clock): (r: Option<TeamStats>)
    ensures StatsKey(p, t, c) !in m ==> r == Some(DefaultStats(t))
    ensures StatsKey(p, t, c) in m && m[StatsKey(p, t, c)].Json? && m[StatsKey(p, t, c)].doc.StatsDoc? ==>
      r == Some(m[StatsKey(p, t, c)].doc.stats)
  {
    var key := StatsKey(p, t, c);
    if key in m && Truthy(m[key]) then ParseStats(m[key]) else Some(DefaultStats(t))
  }

  /** Writes to other keys do not change a team's stats. */
  lemma StatsAtOtherKey(m: map<string, Value>, k: string, v: Value, t: Team, p: Period, c: Clock)
    requires k != StatsKey(p, t, c)
    ensures StatsAt(m[k := v], t, p, c) == StatsAt(m, t, p, c)
  {
  }

  /** The bookkeeping of `updateTeamStats` for one execution with total
      score `total`. */
  function AfterExecution(s: TeamStats, total: real): (r: TeamStats)
    ensures r.totalExecutions == s.totalExecutions + 1
    ensures r.bestScore >= s.bestScore && r.bestScore >= total
    ensures r.bestScore == s.bestScore || r.bestScore == total
    ensures r.(averageScore := s.averageScore, totalExecutions := s.totalExecutions, bestScore := s.bestScore) == s
  {
    var n := s.totalExecutions + 1;
    s.(totalExecutions := n,
       averageScore := (s.averageScore * ((n - 1) as real) + total) / (n as real),
       bestScore := if s.bestScore >= total then s.bestScore else total)
  }

  /** The running average is the mean of all totals seen so far. */
  lemma OnlineMean(s: TeamStats, xs: seq<real>, total: real)
    requires s.totalExecutions == |xs|
    requires |xs| > 0 ==> s.averageScore == Mean(xs)
    ensures AfterExecution(s, total).averageScore == Mean(xs + [total])
  {
    SumSnoc(xs, total);
    var n := |xs| as real;
    if |xs| > 0 {
      assert s.averageScore * n == Sum(xs);
    } else {
      assert xs + [total] == [total];
      assert Sum([total]) == total by {
        assert [total][..0] == [];
      }
    }
  }

  /** The best score is the largest total seen, starting from 0. */
  function Best(xs: seq<real>): (m: real)
    ensures m >= 0.0 && forall k :: 0 <= k < |xs| ==> xs[k] <= m
    ensures m == 0.0 || exists k :: 0 <= k < |xs| && xs[k] == m
  {
    if xs == [] then 0.0
    else
      var b := Best(xs[..|xs| - 1]);
      if b >= xs[|xs| - 1] then b else xs[|xs| - 1]
  }

  lemma OnlineBest(s: TeamStats, xs: seq<real>, total: real)
    requires s.bestScore == Best(xs)
    ensures AfterExecution(s, total).bestScore == Best(xs + [total])
  {
    assert (xs + [total])[..|xs|] == xs;
  }

  /** Replaying a sequence of totals from the zeroed default gives their
      count, their mean and their maximum (floored at 0). */
  function Replay(t: Team, xs: seq<real>): TeamStats {
    if xs == [] then DefaultStats(t) else AfterExecution(Replay(t, xs[..|xs| - 1]), xs[|xs| - 1])
  }

  lemma {:induction false} ReplayLaw(t: Team, xs: seq<real>)
    ensures Replay(t, xs).totalExecutions == |xs|
    ensures |xs| > 0 ==> Replay(t, xs).averageScore == Mean(xs)
    ensures Replay(t, xs).bestScore == Best(xs)
  {
    if xs != [] {
      var init := xs[..|xs| - 1];
      ReplayLaw(t, init);
      OnlineMean(Replay(t, init), init, xs[|xs| - 1]);
      OnlineBest(Replay(t, init), init, xs[|xs| - 1]);
      assert init + [xs[|xs| - 1]] == xs;
    }
  }

  /** The bookkeeping of `updateWinStats`: the streak grows on a win and is
      0 after any other outcome. */
  function AfterOutcome(s: TeamStats, isWin: bool, isTie: bool): (r: TeamStats)
    ensures r.winStreak == (if isWin then s.winStreak + 1 else 0)
  {
    if isWin then s.(wins := s.wins + 1, winStreak := s.winStreak + 1)
    else if isTie then s.(ties := s.ties + 1, winStreak := 0)
    else s.(losses := s.losses + 1, winStreak := 0)
  }

  function Outcomes(s: TeamStats): nat {
    s.wins + s.losses + s.ties
  }

  /** Every outcome adds exactly one to wins + losses + ties: to wins on a
      win, to ties on a tie, to losses otherwise. The streak grows on a win
      and is 0 after any other outcome, and no other field changes. */
  lemma OutcomeLaw(s: TeamStats, isWin: bool, isTie: bool)
    ensures var r := AfterOutcome(s, isWin, isTie);
      Outcomes(r) == Outcomes(s) + 1 &&
      (r.wins == s.wins + 1 <==> isWin) &&
      (r.ties == s.ties + 1 <==> !isWin && isTie) &&
      (r.losses == s.losses + 1 <==> !isWin && !isTie) &&
      r.winStreak == (if isWin then s.winStreak + 1 else 0) &&
      r.(wins := s.wins, losses := s.losses, ties := s.ties, winStreak := s.winStreak) == s
  {
  }

  /** What one round means for one team. */
  datatype RoundOutcome = Won | Tied | Lost

  /** The `isWin` and `isTie` flags `recordWin` passes for an outcome. */
  function ApplyOutcome(s: TeamStats, o: RoundOutcome): TeamStats {
    AfterOutcome(s, o == Won, o == Tied)
  }

  /** The current streak after a run of outcomes counts the wins since the
      last tie or loss. */
  function TrailingWins(rounds: seq<RoundOutcome>): (n: nat)
    ensures n <= |rounds|
  {
    if rounds == [] || rounds[|rounds| - 1] != Won then 0
    else TrailingWins(rounds[..|rounds| - 1]) + 1
  }

  /** How many of the rounds had outcome `o`. */
  function CountOf(rounds: seq<RoundOutcome>, o: RoundOutcome): (n: nat)
    ensures n <= |rounds|
  {
    if rounds == [] then 0
    else CountOf(rounds[..|rounds| - 1], o) + (if rounds[|rounds| - 1] == o then 1 else 0)
  }

  function ReplayOutcomes(s: TeamStats, rounds: seq<RoundOutcome>): TeamStats {
    if rounds == [] then s
    else ApplyOutcome(ReplayOutcomes(s, rounds[..|rounds| - 1]), rounds[|rounds| - 1])
  }

  /** Replaying wins, ties and losses from the default stats counts each
      kind of outcome, so the three counters add up to the rounds played,
      and leaves as the streak the number of trailing wins. */
  lemma {:induction false} StreakCountsTrailingWins(t: Team, rounds: seq<RoundOutcome>)
    ensures ReplayOutcomes(DefaultStats(t), rounds).winStreak == TrailingWins(rounds)
    ensures ReplayOutcomes(DefaultStats(t), rounds).wins == CountOf(rounds, Won)
    ensures ReplayOutcomes(DefaultStats(t), rounds).ties == CountOf(rounds, Tied)
    ensures ReplayOutcomes(DefaultStats(t), rounds).losses == CountOf(rounds, Lost)
    ensures Outcomes(ReplayOutcomes(DefaultStats(t), rounds)) == |rounds|
  {
    if rounds != [] {
      var init := rounds[..|rounds| - 1];
      StreakCountsTrailingWins(t, init);
      CountsCover(init);
      CountsCover(rounds);
    }
  }

  /** Every round has exactly one of the three outcomes. */
  lemma {:induction false} CountsCover(rounds: seq<RoundOutcome>)
    ensures CountOf(rounds, Won) + CountOf(rounds, Tied) + CountOf(rounds, Lost) == |rounds|
  {
    if rounds != [] {
      CountsCover(rounds[..|rounds| - 1]);
    }
  }

  // ---------------------------------------------------------------------
  // Store-level specification of `recordWin`
  // ---------------------------------------------------------------------

  /** The store after a sequence of writes, and whether all of them ran
      (the first failing read aborts the rest). */
  datatype Run = Run(values: map<string, Value>, ok: bool)

  /** One `updateWinStats` on a store map. */
  function WinStep(m: map<string, Value>, t: Team, isWin: bool, isTie: bool, p: Period, c: Clock): (r: Run)
    ensures r.ok <==> StatsAt(m, t, p, c).Some?
    ensures r.ok ==> r.values == m[StatsKey(p, t, c) := Json(StatsDoc(AfterOutcome(StatsAt(m, t, p, c).value, isWin, isTie)))]
    ensures !r.ok ==> r.values == m
  {
    match StatsAt(m, t, p, c)
    case None => Run(m, false)
    case Some(s) => Run(m[StatsKey(p, t, c) := Json(StatsDoc(AfterOutcome(s, isWin, isTie)))], true)
  }

  /** One `updateTeamStats` on a store map. */
  function ExecutionStep(m: map<string, Value>, t: Team, total: real, p: Period, c: Clock): (r: Run)
    ensures r.ok <==> StatsAt(m, t, p, c).Some?
    ensures !r.ok ==> r.values == m
  {
    match StatsAt(m, t, p, c)
    case None => Run(m, false)
    case Some(s) => Run(m[StatsKey(p, t, c) := Json(StatsDoc(AfterExecution(s, total)))], true)
  }

  /** A successful `updateTeamStats` books one execution into that team's
      stats for that period, and changes no other team's or period's
      stats. */
  lemma ExecutionStepLaw(m: map<string, Value>, t: Team, total: real, p: Period, c: Clock)
    requires StatsAt(m, t, p, c).Some?
    ensures var r := ExecutionStep(m, t, total, p, c);
      r.ok && StatsAt(r.values, t, p, c) == Some(AfterExecution(StatsAt(m, t, p, c).value, total)) &&
      (forall t', p' :: (t', p') != (t, p) ==> StatsAt(r.values, t', p', c) == StatsAt(m, t', p', c))
  {
    var r := ExecutionStep(m, t, total, p, c);
    var key := StatsKey(p, t, c);
    forall t', p' | (t', p') != (t, p)
      ensures StatsAt(r.values, t', p', c) == StatsAt(m, t', p', c)
    {
      StatsKeyInjective(p', t', p, t, c);
      StatsAtOtherKey(m, key, r.values[key], t', p', c);
    }
  }

  /** One iteration of the period loop: alpha, then omega. */
  function PeriodStep(m: map<string, Value>, winner: Verdict, p: Period, c: Clock): Run {
    var a := WinStep(m, Alpha, winner == Win(Alpha), winner == Tie, p, c);
    if !a.ok then a else WinStep(a.values, Omega, winner == Win(Omega), winner == Tie, p, c)
  }

  /** The period loop over `ps`, stopping at the first failure. It never
      removes a key. */
  function ApplyWins(m: map<string, Value>, winner: Verdict, ps: seq<Period>, c: Clock): (r: Run)
    ensures m.Keys <= r.values.Keys
  {
    if ps == [] then Run(m, true)
    else
      var r := ApplyWins(m, winner, ps[..|ps| - 1], c);
      if !r.ok then r else PeriodStep(r.values, winner, ps[|ps| - 1], c)
  }

  lemma ApplyWinsStep(m: map<string, Value>, winner: Verdict, ps: seq<Period>, i: nat, c: Clock)
    requires i < |ps|
    ensures var r := ApplyWins(m, winner, ps[..i], c);
      ApplyWins(m, winner, ps[..i + 1], c) == if !r.ok then r else PeriodStep(r.values, winner, ps[i], c)
  {
    assert ps[..i + 1][..i] == ps[..i];
  }

  const AllPeriods := [Daily, Monthly, Yearly]

  /** Once a step fails, running more periods changes nothing. */
  lemma {:induction false} FailureSticks(m: map<string, Value>, winner: Verdict, ps: seq<Period>, i: nat, c: Clock)
    requires i <= |ps|
    requires !ApplyWins(m, winner, ps[..i], c).ok
    ensures ApplyWins(m, winner, ps, c) == ApplyWins(m, winner, ps[..i], c)
  {
    if i < |ps| {
      assert ps[..|ps| - 1][..i] == ps[..i];
      FailureSticks(m, winner, ps[..|ps| - 1], i, c);
    } else {
      assert ps[..i] == ps;
    }
  }

  predicate Competitor(t: Team) {
    t == Alpha || t == Omega
  }

  /** Both teams' stats keys of each period in `ps`. */
  function StatsKeys(ps: seq<Period>, c: Clock): set<string> {
    if ps == [] then {}
    else StatsKeys(ps[..|ps| - 1], c) + {StatsKey(ps[|ps| - 1], Alpha, c), StatsKey(ps[|ps| - 1], Omega, c)}
  }

  predicate Distinct(ps: seq<Period>) {
    forall i, j :: 0 <= i < j < |ps| ==> ps[i] != ps[j]
  }

  /** One successful `updateWinStats` changes that team's stats in that
      period by one outcome, and nothing else. */
  lemma WinStepLaw(m: map<string, Value>, t: Team, isWin: bool, isTie: bool, p: Period, c: Clock)
    requires StatsAt(m, t, p, c).Some?
    ensures var r := WinStep(m, t, isWin, isTie, p, c);
      r.ok && StatsAt(r.values, t, p, c) == Some(AfterOutcome(StatsAt(m, t, p, c).value, isWin, isTie)) &&
      (forall t', p' :: (t', p') != (t, p) ==> StatsAt(r.values, t', p', c) == StatsAt(m, t', p', c)) &&
      (forall k :: k != StatsKey(p, t, c) ==> (k in r.values <==> k in m) && (k in m ==> r.values[k] == m[k]))
  {
    var r := WinStep(m, t, isWin, isTie, p, c);
    var key := StatsKey(p, t, c);
    forall t', p' | (t', p') != (t, p)
      ensures StatsAt(r.values, t', p', c) == StatsAt(m, t', p', c)
    {
      StatsKeyInjective(p', t', p, t, c);
      StatsAtOtherKey(m, key, r.values[key], t', p', c);
    }
  }

  /** One iteration of the period loop when both reads succeed. */
  lemma PeriodStepLaw(m: map<string, Value>, winner: Verdict, p: Period, c: Clock)
    requires StatsAt(m, Alpha, p, c).Some? && StatsAt(m, Omega, p, c).Some?
    ensures var r := PeriodStep(m, winner, p, c);
      r.ok &&
      (forall t, p' :: StatsAt(r.values, t, p', c) ==
        if p' == p && Competitor(t)
        then Some(AfterOutcome(StatsAt(m, t, p, c).value, winner == Win(t), winner == Tie))
        else StatsAt(m, t, p', c)) &&
      (forall k :: k !in StatsKeys([p], c) ==> (k in r.values <==> k in m) && (k in m ==> r.values[k] == m[k]))
  {
    WinStepLaw(m, Alpha, winner == Win(Alpha), winner == Tie, p, c);
    var a := WinStep(m, Alpha, winner == Win(Alpha), winner == Tie, p, c);
    assert StatsAt(a.values, Omega, p, c) == StatsAt(m, Omega, p, c);
    WinStepLaw(a.values, Omega, winner == Win(Omega), winner == Tie, p, c);
    var r := WinStep(a.values, Omega, winner == Win(Omega), winner == Tie, p, c);
    forall t, p'
      ensures StatsAt(r.values, t, p', c) ==
        if p' == p && Competitor(t)
        then Some(AfterOutcome(StatsAt(m, t, p, c).value, winner == Win(t), winner == Tie))
        else StatsAt(m, t, p', c)
    {
      if (t, p') != (Omega, p) {
        assert StatsAt(r.values, t, p', c) == StatsAt(a.values, t, p', c);
      }
    }
    assert [p][..0] == [];
  }

  /** What the period loop does when every read succeeds: each competing
      team's stats in each period of `ps` take exactly one outcome (a win
      for the winner, a loss for the other, a tie for both), and every
      other key keeps its value. */
  lemma {:induction false} ApplyWinsLaw(m: map<string, Value>, winner: Verdict, ps: seq<Period>, c: Clock)
    requires Distinct(ps)
    requires forall t, p :: Competitor(t) ==> StatsAt(m, t, p, c).Some?
    ensures var r := ApplyWins(m, winner, ps, c);
      r.ok &&
      (forall t, p :: StatsAt(r.values, t, p, c) ==
        if p in ps && Competitor(t)
        then Some(AfterOutcome(StatsAt(m, t, p, c).value, winner == Win(t), winner == Tie))
        else StatsAt(m, t, p, c)) &&
      (forall k :: k !in StatsKeys(ps, c) ==> (k in r.values <==> k in m) && (k in m ==> r.values[k] == m[k]))
  {
    if ps != [] {
      var n := |ps| - 1;
      var init, last := ps[..n], ps[n];
      assert ps == init + [last];
      assert Distinct(init);
      assert last !in init;
      ApplyWinsLaw(m, winner, init, c);
      var r := ApplyWins(m, winner, init, c);
      PeriodStepLaw(r.values, winner, last, c);
      assert [last][..0] == [];
    }
  }

  /** `recordWin` when every stats read succeeds: for both teams and all
      three periods, the winner gains a win, the loser a loss, both a tie
      on a tie, and wins + losses + ties grows by exactly one. */
  lemma RecordWinLaw(m: map<string, Value>, winner: Verdict, c: Clock, t: Team, p: Period)
    requires forall t, p :: Competitor(t) ==> StatsAt(m, t, p, c).Some?
    requires Competitor(t)
    ensures var r := ApplyWins(m, winner, AllPeriods, c);
      r.ok && StatsAt(r.values, t, p, c).Some? &&
      Outcomes(StatsAt(r.values, t, p, c).value) == Outcomes(StatsAt(m, t, p, c).value) + 1 &&
      (winner == Win(t) ==> StatsAt(r.values, t, p, c).value.wins == StatsAt(m, t, p, c).value.wins + 1) &&
      (winner.Win? && winner.team != t ==> StatsAt(r.values, t, p, c).value.losses == StatsAt(m, t, p, c).value.losses + 1) &&
      (winner == Tie ==> StatsAt(r.values, t, p, c).value.ties == StatsAt(m, t, p, c).value.ties + 1)
  {
    assert Distinct(AllPeriods);
    ApplyWinsLaw(m, winner, AllPeriods, c);
    assert p in AllPeriods;
    OutcomeLaw(StatsAt(m, t, p, c).value, winner == Win(t), winner == Tie);
  }

  /** The keys `resetStats` deletes for a scope. */
  function ResetPeriods(scope: Option<Period>): seq<Period> {
    match scope
    case None => AllPeriods
    case Some(p) => [p]
  }

  function ResetKeys(scope: Option<Period>, c: Clock): set<string> {
    PeriodKeys(ResetPeriods(scope), c)
  }

  /** After a reset every team's stats in the reset periods are the zeroed
      default, and its records list is gone. */
  lemma ResetGivesDefault(m: map<string, Value>, scope: Option<Period>, c: Clock, t: Team, p: Period)
    requires Competitor(t) && p in ResetPeriods(scope)
    ensures StatsAt(m - ResetKeys(scope, c), t, p, c) == Some(DefaultStats(t))
    ensures PerformanceKey(p, c) !in m - ResetKeys(scope, c)
  {
    PeriodKeysMembers(ResetPeriods(scope), c, t, p);
  }

  // ---------------------------------------------------------------------
  // The tracker
  // ---------------------------------------------------------------------

  class PerformanceTracker {
    const redis: RedisManager

    constructor (redis: RedisManager)
      ensures this.redis == redis
    {
      this.redis := redis;
    }

    /** `getTeamStats`: reads through `get`, writes nothing. */
    function GetTeamStats(t: Team, p: Period, c: Clock): (r: Option<TeamStats>)
      reads redis
      ensures r == StatsAt(redis.values, t, p, c)
    {
      match redis.Get(StatsKey(p, t, c))
      case None => Some(DefaultStats(t))
      case Some(data) => ParseStats(data)
    }

    /** `updateTeamStats`; `ok` is false when reading the old stats threw,
        and then nothing is written. */
    method UpdateTeamStats(t: Team, perf: TeamPerformance, p: Period, c: Clock) returns (ok: bool)
      modifies redis
      ensures Run(redis.values, ok) == ExecutionStep(old(redis.values), t, perf.totalScore, p, c)
      ensures redis.lists == old(redis.lists) && redis.timers == old(redis.timers)
    {
      var stats := GetTeamStats(t, p, c);
      if stats.None? {
        return false;
      }
      var updated := AfterExecution(stats.value, perf.totalScore);
      redis.Set(StatsKey(p, t, c), Json(StatsDoc(updated)), None);
      ok := true;
    }

    /** `recordPerformance`: append the record to the period's list, then
        update the stats. The record is appended even when the stats update
        fails. */
    method RecordPerformance(t: Team, perf: TeamPerformance, p: Period, c: Clock) returns (ok: bool)
      modifies redis
      ensures var record := Json(RecordDoc(PerformanceRecord(t, perf.qualityScore, perf.speedScore,
          perf.collaborationScore, perf.innovationScore, perf.totalScore)));
        redis.lists == old(redis.lists)[PerformanceKey(p, c) := old(redis.GetList(PerformanceKey(p, c))) + [record]]
      ensures Run(redis.values, ok) == ExecutionStep(old(redis.values), t, perf.totalScore, p, c)
      ensures redis.timers == old(redis.timers)
    {
      var record := PerformanceRecord(t, perf.qualityScore, perf.speedScore,
        perf.collaborationScore, perf.innovationScore, perf.totalScore);
      redis.AddToList(PerformanceKey(p, c), Json(RecordDoc(record)));
      ok := UpdateTeamStats(t, perf, p, c);
    }

    /** `updateWinStats`. */
    method UpdateWinStats(t: Team, isWin: bool, isTie: bool, p: Period, c: Clock) returns (ok: bool)
      modifies redis
      ensures Run(redis.values, ok) == WinStep(old(redis.values), t, isWin, isTie, p, c)
      ensures redis.lists == old(redis.lists) && redis.timers == old(redis.timers)
    {
      var stats := GetTeamStats(t, p, c);
      if stats.None? {
        return false;
      }
      redis.Set(StatsKey(p, t, c), Json(StatsDoc(AfterOutcome(stats.value, isWin, isTie))), None);
      ok := true;
    }

    /** `recordWin`: the period loop, alpha then omega in each period. The
        scores are accepted and ignored, as in the source. */
    method RecordWin(winner: Verdict, alphaScore: real, omegaScore: real, c: Clock) returns (ok: bool)
      modifies redis
      ensures Run(redis.values, ok) == ApplyWins(old(redis.values), winner, AllPeriods, c)
      ensures redis.lists == old(redis.lists) && redis.timers == old(redis.timers)
    {
      var periods := AllPeriods;
      ok := true;
      var i := 0;
      while i < |periods| && ok
        invariant 0 <= i <= |periods|
        invariant Run(redis.values, ok) == ApplyWins(old(redis.values), winner, periods[..i], c)
        invariant redis.lists == old(redis.lists) && redis.timers == old(redis.timers)
      {
        ApplyWinsStep(old(redis.values), winner, periods, i, c);
        var p := periods[i];
        ok := UpdateWinStats(Alpha, winner == Win(Alpha), winner == Tie, p, c);
        if ok {
          ok := UpdateWinStats(Omega, winner == Win(Omega), winner == Tie, p, c);
        }
        i := i + 1;
      }
      if !ok {
        FailureSticks(old(redis.values), winner, periods, i, c);
      } else {
        assert periods[..i] == periods;
      }
    }

    /** `getLeaderboard`: the six stats records; it fails when any read
        fails (`Promise.all`), and the MVP list is always empty. */
    function GetLeaderboard(c: Clock): (r: Option<Leaderboard>)
      reads redis
      ensures r.Some? <==> forall t, p :: Competitor(t) ==> GetTeamStats(t, p, c).Some?
      ensures r.Some? ==>
        r.value.mvpAgents == [] &&
        r.value.daily == TeamPair(GetTeamStats(Alpha, Daily, c).value, GetTeamStats(Omega, Daily, c).value) &&
        r.value.monthly == TeamPair(GetTeamStats(Alpha, Monthly, c).value, GetTeamStats(Omega, Monthly, c).value) &&
        r.value.yearly == TeamPair(GetTeamStats(Alpha, Yearly, c).value, GetTeamStats(Omega, Yearly, c).value)
    {
      var da, do, ma, mo, ya, yo := GetTeamStats(Alpha, Daily, c), GetTeamStats(Omega, Daily, c),
        GetTeamStats(Alpha, Monthly, c), GetTeamStats(Omega, Monthly, c),
        GetTeamStats(Alpha, Yearly, c), GetTeamStats(Omega, Yearly, c);
      if da.Some? && do.Some? && ma.Some? && mo.Some? && ya.Some? && yo.Some? then
        Some(Leaderboard(TeamPair(da.value, do.value), TeamPair(ma.value, mo.value),
          TeamPair(ya.value, yo.value), []))
      else
        assert !(forall t, p :: Competitor(t) ==> GetTeamStats(t, p, c).Some?) by {
          if da.None? { assert !GetTeamStats(Alpha, Daily, c).Some?; }
        }
        None
    }

    /** `resetStats`: for each period of the scope, delete both teams'
        stats keys and the records list. */
    method ResetStats(scope: Option<Period>, c: Clock)
      modifies redis
      ensures redis.values == old(redis.values) - ResetKeys(scope, c)
      ensures redis.lists == old(redis.lists) - ResetKeys(scope, c)
      ensures redis.timers == old(redis.timers)
    {
      var periods := ResetPeriods(scope);
      var i := 0;
      while i < |periods|
        invariant 0 <= i <= |periods|
        invariant redis.values == old(redis.values) - PeriodKeys(periods[..i], c)
        invariant redis.lists == old(redis.lists) - PeriodKeys(periods[..i], c)
        invariant redis.timers == old(redis.timers)
      {
        PeriodKeysStep(periods, i, c);
        ResetPeriod(periods[i], c);
        RemoveMore(old(redis.values), PeriodKeys(periods[..i], c), PeriodKeySet(periods[i], c));
        RemoveMore(old(redis.lists), PeriodKeys(periods[..i], c), PeriodKeySet(periods[i], c));
        i := i + 1;
      }
      assert periods[..i] == periods;
    }

    /** One period of `resetStats`: each team's stats key, then the records
        list. */
    method ResetPeriod(p: Period, c: Clock)
      modifies redis
      ensures redis.values == old(redis.values) - PeriodKeySet(p, c)
      ensures redis.lists == old(redis.lists) - PeriodKeySet(p, c)
      ensures redis.timers == old(redis.timers)
    {
      var teams := [Alpha, Omega];
      var j := 0;
      while j < |teams|
        invariant 0 <= j <= |teams|
        invariant redis.values == old(redis.values) - TeamKeys(p, teams[..j], c)
        invariant redis.lists == old(redis.lists) - TeamKeys(p, teams[..j], c)
        invariant redis.timers == old(redis.timers)
      {
        var key := StatsKey(p, teams[j], c);
        TeamKeysStep(p, teams, j, c);
        redis.Delete(key);
        RemoveMore(old(redis.values), TeamKeys(p, teams[..j], c), {key});
        RemoveMore(old(redis.lists), TeamKeys(p, teams[..j], c), {key});
        j := j + 1;
      }
      TeamKeysBoth(p, c);
      var perfKey := PerformanceKey(p, c);
      redis.Delete(perfKey);
      RemoveMore(old(redis.values), TeamKeys(p, teams, c), {perfKey});
      RemoveMore(old(redis.lists), TeamKeys(p, teams, c), {perfKey});
    }
  }

  lemma RemoveMore<V>(m: map<string, V>, a: set<string>, b: set<string>)
    ensures m - a - b == m - (a + b)
  {
  }

  /** The stats keys of `teams` in period `p`. */
  function TeamKeys(p: Period, teams: seq<Team>, c: Clock): set<string> {
    if teams == [] then {} else TeamKeys(p, teams[..|teams| - 1], c) + {StatsKey(p, teams[|teams| - 1], c)}
  }

  lemma TeamKeysStep(p: Period, teams: seq<Team>, j: nat, c: Clock)
    requires j < |teams|
    ensures TeamKeys(p, teams[..j + 1], c) == TeamKeys(p, teams[..j], c) + {StatsKey(p, teams[j], c)}
  {
    assert teams[..j + 1][..j] == teams[..j];
  }

  lemma PeriodKeysStep(ps: seq<Period>, i: nat, c: Clock)
    requires i < |ps|
    ensures PeriodKeys(ps[..i + 1], c) == PeriodKeys(ps[..i], c) + PeriodKeySet(ps[i], c)
  {
    assert ps[..i + 1][..i] == ps[..i];
  }

  lemma TeamKeysBoth(p: Period, c: Clock)
    ensures [Alpha, Omega][..2] == [Alpha, Omega]
    ensures TeamKeys(p, [Alpha, Omega], c) + {PerformanceKey(p, c)} == PeriodKeySet(p, c)
  {
    assert [Alpha, Omega][..1] == [Alpha] && [Alpha][..0] == [];
    assert TeamKeys(p, [Alpha], c) == {StatsKey(p, Alpha, c)};
    assert TeamKeys(p, [Alpha, Omega], c) == {StatsKey(p, Alpha, c), StatsKey(p, Omega, c)};
  }

  /** Both teams' stats keys and the records key of each period in `ps`. */
  function PeriodKeys(ps: seq<Period>, c: Clock): set<string> {
    if ps == [] then {}
    else
      PeriodKeys(ps[..|ps| - 1], c) + PeriodKeySet(ps[|ps| - 1], c)
  }

  /** Both teams' stats keys and the records key of period `p`. */
  function PeriodKeySet(p: Period, c: Clock): set<string> {
    {StatsKey(p, Alpha, c), StatsKey(p, Omega, c), PerformanceKey(p, c)}
  }

  lemma {:induction false} PeriodKeysMembers(ps: seq<Period>, c: Clock, t: Team, p: Period)
    requires Competitor(t) && p in ps
    ensures StatsKey(p, t, c) in PeriodKeys(ps, c) && PerformanceKey(p, c) in PeriodKeys(ps, c)
  {
    if p != ps[|ps| - 1] {
      assert ps == ps[..|ps| - 1] + [ps[|ps| - 1]];
      PeriodKeysMembers(ps[..|ps| - 1], c, t, p);
    }
  }
}
