/** The logger: an in-memory buffer of the most recent log entries, first
    in, first out, and the query over it. */
module Logging {
  import opened Wrappers
  import opened Slices

  /** The buffer's capacity. */
  const MaxLogs: nat := 1000

  datatype LogLevel = Debug | Info | Warn | Error

  /** One entry; the timestamp is not modelled, and the context record is
      modelled as string-valued. */
  datatype LogEntry = LogEntry(level: LogLevel, message: string, context: Option<map<string, string>>)

  function LevelIs(level: LogLevel): LogEntry -> bool {
    (e: LogEntry) => e.level == level
  }

  /** The entries a query looks at: those of the given level, or all of
      them when no level is given (every level is a non-empty string, so a
      given level always filters). */
  function Selected(logs: seq<LogEntry>, level: Option<LogLevel>): (r: seq<LogEntry>)
    ensures level.None? ==> r == logs
    ensures level.Some? ==> forall k :: 0 <= k < |r| ==> r[k].level == level.value && r[k] in logs
    ensures level.Some? ==> forall k :: 0 <= k < |logs| && logs[k].level == level.value ==> logs[k] in r
  {
    if level.Some? then Filter(logs, LevelIs(level.value)) else logs
  }

  class Logger {
    var logs: seq<LogEntry>
    /** Every entry logged since construction or the last clear. */
    ghost var history: seq<LogEntry>

    /** The buffer holds the latest `MaxLogs` entries of the history. */
    ghost predicate Valid()
      reads this
    {
      logs == LastN(history, MaxLogs)
    }

    constructor ()
      ensures Valid() && logs == [] && history == []
    {
      logs := [];
      history := [];
    }

    /** `log`: push, then drop the oldest entry when over capacity. */
    method Log(level: LogLevel, message: string, context: Option<map<string, string>>)
      requires Valid()
      modifies this
      ensures Valid()
      ensures history == old(history) + [LogEntry(level, message, context)]
      ensures logs == PushBounded(old(logs), LogEntry(level, message, context), MaxLogs)
    {
      var e := LogEntry(level, message, context);
      PushBoundedKeepsLast(history, e, MaxLogs);
      logs := logs + [e];
      if |logs| > MaxLogs {
        logs := logs[1..];
      }
      history := history + [e];
    }

    /** `debug`. */
    method LogDebug(message: string, context: Option<map<string, string>>)
      requires Valid()
      modifies this
      ensures Valid()
      ensures history == old(history) + [LogEntry(Debug, message, context)]
    {
      Log(Debug, message, context);
    }

    /** `info`. */
    method LogInfo(message: string, context: Option<map<string, string>>)
      requires Valid()
      modifies this
      ensures Valid()
      ensures history == old(history) + [LogEntry(Info, message, context)]
    {
      Log(Info, message, context);
    }

    /** `warn`. */
    method LogWarn(message: string, context: Option<map<string, string>>)
      requires Valid()
      modifies this
      ensures Valid()
      ensures history == old(history) + [LogEntry(Warn, message, context)]
    {
      Log(Warn, message, context);
    }

    /** `error`. */
    method LogError(message: string, context: Option<map<string, string>>)
      requires Valid()
      modifies this
      ensures Valid()
      ensures history == old(history) + [LogEntry(Error, message, context)]
    {
      Log(Error, message, context);
    }

    /** `getLogs(level, limit)`: the selected entries, then `slice(-limit)`. */
    function GetLogs(level: Option<LogLevel>, limit: int): (r: seq<LogEntry>)
      reads this
      ensures limit >= 1 ==> r == LastN(Selected(logs, level), limit)
      ensures limit == 0 ==> r == Selected(logs, level)
      ensures limit < 0 ==> r == Selected(logs, level)[Min(-limit, |Selected(logs, level)|)..]
    {
      SliceFromMinusLimit(Selected(logs, level), limit);
      SliceFrom(Selected(logs, level), -limit)
    }

    /** `clearLogs`. */
    method ClearLogs()
      modifies this
      ensures Valid() && logs == [] && history == []
    {
      logs := [];
      history := [];
    }
  }

  /** A query without a level and with a limit up to the capacity returns
      the `limit` most recently logged entries. */
  lemma RecentLogs(l: Logger, limit: int)
    requires l.Valid() && 1 <= limit <= MaxLogs
    ensures l.GetLogs(None, limit) == LastN(l.history, limit)
  {
    LastNOfLastN(l.history, MaxLogs, limit);
  }

  /** The buffer never exceeds its capacity and is a suffix of the history. */
  lemma BufferBounded(l: Logger)
    requires l.Valid()
    ensures |l.logs| <= MaxLogs
    ensures l.logs == l.history[|l.history| - |l.logs|..]
  {
  }

  /** Logging one more entry extends the level query of the history by that
      entry when the level matches, and leaves it as it was otherwise. */
  lemma LevelQueryGrows(history: seq<LogEntry>, e: LogEntry, level: LogLevel)
    ensures Selected(history + [e], Some(level)) ==
      Selected(history, Some(level)) + (if e.level == level then [e] else [])
  {
    FilterAppend(history, [e], LevelIs(level));
    assert [e][..0] == [];
  }

  /** The latest entry of any level is the last entry of its level's query. */
  lemma LatestOfLevel(l: Logger)
    requires l.Valid() && |l.logs| > 0
    ensures var e := l.logs[|l.logs| - 1];
      l.GetLogs(Some(e.level), 1) == [e]
  {
    var e := l.logs[|l.logs| - 1];
    var before := l.logs[..|l.logs| - 1];
    assert l.logs == before + [e];
    LevelQueryGrows(before, e, e.level);
  }
}
