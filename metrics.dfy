/** The metrics emitter: an in-memory buffer of the most recent metrics,
    first in, first out, and the query over it. */
module Metrics {
  import opened Wrappers
  import opened Slices

  /** The buffer's capacity. */
  const MaxMetrics: nat := 5000

  /** One metric; the timestamp is not modelled. */
  datatype Metric = Metric(name: string, value: real, unit: string, tags: Option<map<string, string>>)

  function NameIs(name: string): Metric -> bool {
    (m: Metric) => m.name == name
  }

  /** The entries a query looks at: only those with the given name when a
      name is given, and all of them when it is absent or empty (both are
      falsy). */
  function Selected(ms: seq<Metric>, name: Option<string>): (r: seq<Metric>)
    ensures name.None? || name.value == "" ==> r == ms
    ensures name.Some? && name.value != "" ==>
      forall k :: 0 <= k < |r| ==> r[k].name == name.value && r[k] in ms
    ensures name.Some? && name.value != "" ==>
      forall k :: 0 <= k < |ms| && ms[k].name == name.value ==> ms[k] in r
  {
    if name.Some? && name.value != "" then Filter(ms, NameIs(name.value)) else ms
  }

  /** The tags the helpers attach: a single entry. */
  function Tag(key: string, value: string): Option<map<string, string>> {
    Some(map[key := value])
  }

  class MetricsEmitter {
    var metrics: seq<Metric>
    /** Every metric emitted since construction or the last clear. */
    ghost var history: seq<Metric>

    /** The buffer holds the latest `MaxMetrics` metrics of the history. */
    ghost predicate Valid()
      reads this
    {
      metrics == LastN(history, MaxMetrics)
    }

    constructor ()
      ensures Valid() && metrics == [] && history == []
    {
      metrics := [];
      history := [];
    }

    /** `emit`: push, then drop the oldest entry when over capacity. */
    method Emit(name: string, value: real, unit: string, tags: Option<map<string, string>>)
      requires Valid()
      modifies this
      ensures Valid()
      ensures history == old(history) + [Metric(name, value, unit, tags)]
      ensures metrics == PushBounded(old(metrics), Metric(name, value, unit, tags), MaxMetrics)
    {
      var m := Metric(name, value, unit, tags);
      PushBoundedKeepsLast(history, m, MaxMetrics);
      metrics := metrics + [m];
      if |metrics| > MaxMetrics {
        metrics := metrics[1..];
      }
      history := history + [m];
    }

    /** `getMetrics(name, limit)`: the selected entries, then `slice(-limit)`. */
    function GetMetrics(name: Option<string>, limit: int): (r: seq<Metric>)
      reads this
      ensures limit >= 1 ==> r == LastN(Selected(metrics, name), limit)
      ensures limit == 0 ==> r == Selected(metrics, name)
      ensures limit < 0 ==> r == Selected(metrics, name)[Min(-limit, |Selected(metrics, name)|)..]
    {
      SliceFromMinusLimit(Selected(metrics, name), limit);
      SliceFrom(Selected(metrics, name), -limit)
    }

    /** `clearMetrics`. */
    method ClearMetrics()
      modifies this
      ensures Valid() && metrics == [] && history == []
    {
      metrics := [];
      history := [];
    }

    /** `recordExecutionTime`. */
    method RecordExecutionTime(operation: string, timeMs: real, tags: Option<map<string, string>>)
      requires Valid()
      modifies this
      ensures Valid()
      ensures history == old(history) + [Metric("execution_time." + operation, timeMs, "ms", tags)]
    {
      Emit("execution_time." + operation, timeMs, "ms", tags);
    }

    /** `recordAPICall`: three metrics, in this order, all tagged with the
        provider; they are the buffer's last three entries. */
    method RecordAPICall(provider: string, cost: real, tokens: real)
      requires Valid()
      modifies this
      ensures Valid()
      ensures history == old(history) + APICallMetrics(provider, cost, tokens)
      ensures |metrics| >= 3 && metrics[|metrics| - 3..] == APICallMetrics(provider, cost, tokens)
    {
      ghost var h := history;
      ghost var ms := APICallMetrics(provider, cost, tokens);
      Emit("api_call", 1.0, "count", Tag("provider", provider));
      Emit("api_cost", cost, "usd", Tag("provider", provider));
      Emit("api_tokens", tokens, "tokens", Tag("provider", provider));
      AppendThree(h, ms);
      LastNEnds(h, ms, MaxMetrics);
    }

    /** `recordWin`. */
    method RecordWin(team: string)
      requires Valid()
      modifies this
      ensures Valid()
      ensures history == old(history) + [Metric("team_win", 1.0, "count", Tag("team", team))]
    {
      Emit("team_win", 1.0, "count", Tag("team", team));
    }

    /** `recordScore`. */
    method RecordScore(team: string, score: real)
      requires Valid()
      modifies this
      ensures Valid()
      ensures history == old(history) + [Metric("team_score", score, "points", Tag("team", team))]
    {
      Emit("team_score", score, "points", Tag("team", team));
    }
  }

  /** The three metrics `recordAPICall` emits. */
  function APICallMetrics(provider: string, cost: real, tokens: real): (ms: seq<Metric>)
    ensures |ms| == 3
    ensures forall k :: 0 <= k < 3 ==> ms[k].tags == Tag("provider", provider)
  {
    [Metric("api_call", 1.0, "count", Tag("provider", provider)),
     Metric("api_cost", cost, "usd", Tag("provider", provider)),
     Metric("api_tokens", tokens, "tokens", Tag("provider", provider))]
  }

  lemma AppendThree(h: seq<Metric>, ms: seq<Metric>)
    requires |ms| == 3
    ensures h + [ms[0]] + [ms[1]] + [ms[2]] == h + ms
  {
    assert ms == [ms[0], ms[1], ms[2]];
  }

  /** A query without a name and with a limit up to the capacity returns
      the `limit` most recently emitted metrics: the buffer drops only
      entries older than those. */
  lemma RecentMetrics(e: MetricsEmitter, limit: int)
    requires e.Valid() && 1 <= limit <= MaxMetrics
    ensures e.GetMetrics(None, limit) == LastN(e.history, limit)
  {
    LastNOfLastN(e.history, MaxMetrics, limit);
  }

  /** The buffer never exceeds its capacity, and it is a suffix of the
      history, so it keeps arrival order. */
  lemma BufferBounded(e: MetricsEmitter)
    requires e.Valid()
    ensures |e.metrics| <= MaxMetrics
    ensures e.metrics == e.history[|e.history| - |e.metrics|..]
  {
  }

  /** A named query over a buffer that has not yet dropped anything sees
      every metric of that name emitted, in order: emitting one more metric
      extends it by that metric when the name matches, and leaves it as it
      was otherwise. */
  lemma NamedQueryGrows(history: seq<Metric>, m: Metric, name: string)
    requires name != ""
    ensures Selected(history + [m], Some(name)) ==
      Selected(history, Some(name)) + (if m.name == name then [m] else [])
  {
    FilterAppend(history, [m], NameIs(name));
    assert [m][..0] == [];
  }

  /** The latest metric is the last entry of the query for its name. */
  lemma LatestOfName(e: MetricsEmitter)
    requires e.Valid() && |e.metrics| > 0 && e.metrics[|e.metrics| - 1].name != ""
    ensures var m := e.metrics[|e.metrics| - 1];
      e.GetMetrics(Some(m.name), 1) == [m]
  {
    var m := e.metrics[|e.metrics| - 1];
    var before := e.metrics[..|e.metrics| - 1];
    assert e.metrics == before + [m];
    NamedQueryGrows(before, m, m.name);
  }
}
