/** Objective True Replay metrics: reading, comparing and deciding on them. Exact arithmetic. */
module ReplayMetrics {
  import opened Basics

  datatype Metric =
    | InteractionTurns | ToolCallCount | TotalTokens | ElapsedSeconds | InputTokens | OutputTokens | ApiCalls

  const REPLAY_METRICS: seq<Metric> :=
    [InteractionTurns, ToolCallCount, TotalTokens, ElapsedSeconds, InputTokens, OutputTokens, ApiCalls]

  lemma EveryMetricListed(m: Metric)
    ensures m in REPLAY_METRICS
  {
    match m
    case InteractionTurns => assert REPLAY_METRICS[0] == m;
    case ToolCallCount => assert REPLAY_METRICS[1] == m;
    case TotalTokens => assert REPLAY_METRICS[2] == m;
    case ElapsedSeconds => assert REPLAY_METRICS[3] == m;
    case InputTokens => assert REPLAY_METRICS[4] == m;
    case OutputTokens => assert REPLAY_METRICS[5] == m;
    case ApiCalls => assert REPLAY_METRICS[6] == m;
  }

  /** What a report may hold under a metric's name. */
  datatype Value = Number(n: real) | Boolean(b: bool) | NotFinite | Other

  function MetricNumber(v: Value): Option<real> {
    if v.Number? && v.n >= 0.0 then Some(v.n) else None
  }

  /** Available figures; a metric that is absent is unavailable. */
  type Figures = f: map<Metric, real> | forall m | m in f :: f[m] >= 0.0 witness map[]

  /** One branch's observations: its metrics, and the tool calls its messages show, if they show any trace. */
  datatype Observed = Observed(metrics: map<Metric, Value>, toolTrace: Option<nat>)

  /** The figure `branch_efficiency` reports for a metric. */
  function Reading(b: Observed, m: Metric): Option<real> {
    var v := Reported(b.metrics, m);
    if v.None? && m == ToolCallCount && b.toolTrace.Some? then Some(b.toolTrace.value as real) else v
  }

  function Efficiency(b: Observed): Figures {
    map m: Metric | Reading(b, m).Some? :: Reading(b, m).value
  }

  /** The figure under a metric, if it is available. */
  function Figure(f: Figures, m: Metric): Option<real> {
    if m in f then Some(f[m]) else None
  }

  /** What the raw metrics say, before the tool trace is looked at. */
  function Reported(metrics: map<Metric, Value>, m: Metric): Option<real> {
    if m in metrics then MetricNumber(metrics[m]) else None
  }

  /** The loop over the metric names: keep what is a nonnegative finite number. */
  method ReadMetrics(metrics: map<Metric, Value>, keys: seq<Metric>) returns (f: Figures)
    ensures forall m :: Figure(f, m) == if m in keys then Reported(metrics, m) else None
  {
    f := map[];
    for i := 0 to |keys|
      invariant forall m :: Figure(f, m) == if m in keys[..i] then Reported(metrics, m) else None
    {
      var value := Reported(metrics, keys[i]);
      if value.Some? {
        f := f[keys[i] := value.value];
      }
      assert keys[..i + 1] == keys[..i] + [keys[i]];
    }
  }

  method BranchEfficiency(b: Observed) returns (f: Figures)
    ensures f == Efficiency(b)
    ensures forall m ::
              Figure(f, m) == if m in b.metrics && b.metrics[m].Number? && b.metrics[m].n >= 0.0 then Some(b.metrics[m].n)
                              else if m == ToolCallCount && b.toolTrace.Some? then Some(b.toolTrace.value as real) else None
  {
    f := ReadMetrics(b.metrics, REPLAY_METRICS);
    forall m: Metric ensures Figure(f, m) == Reported(b.metrics, m) { EveryMetricListed(m); }
    if ToolCallCount !in f && b.toolTrace.Some? {
      f := f[ToolCallCount := b.toolTrace.value as real];
    }
    SameFigures(f, b);
  }

  lemma SameFigures(f: Figures, b: Observed)
    requires forall m :: Figure(f, m) == Reading(b, m)
    ensures f == Efficiency(b)
  {
    var e := Efficiency(b);
    forall m: Metric ensures m in f <==> m in e { assert Figure(f, m) == Reading(b, m); }
    forall m: Metric | m in f ensures f[m] == e[m] { assert Figure(f, m) == Reading(b, m); }
  }

  datatype Change = Improved | Regressed | Unchanged | Unavailable

  function Compare(base: Figures, cand: Figures, m: Metric): Change {
    if m !in base || m !in cand then Unavailable
    else if base[m] > cand[m] then Improved
    else if base[m] < cand[m] then Regressed
    else Unchanged
  }

  /** The metrics of a list whose comparison came out as `change`, in list order. */
  function Select(base: Figures, cand: Figures, ms: seq<Metric>, change: Change): seq<Metric> {
    if ms == [] then []
    else
      var rest := Select(base, cand, ms[..|ms| - 1], change);
      if Compare(base, cand, ms[|ms| - 1]) == change then rest + [ms[|ms| - 1]] else rest
  }

  lemma {:induction false} SelectIs(base: Figures, cand: Figures, ms: seq<Metric>, change: Change, m: Metric)
    ensures m in Select(base, cand, ms, change) <==> m in ms && Compare(base, cand, m) == change
  {
    if ms != [] {
      SelectIs(base, cand, ms[..|ms| - 1], change, m);
      assert ms == ms[..|ms| - 1] + [ms[|ms| - 1]];
    }
  }

  datatype Verdict = Accept | Reject | Inconclusive

  datatype Policy = Policy(accepted: bool, verdict: Verdict, noRegression: bool, basis: string, decisive: seq<Metric>)

  const SECONDARY: seq<Metric> := [ToolCallCount, TotalTokens]

  /** Interaction turns decide first; on a tie tool calls and tokens decide together. */
  function Objective(base: Figures, cand: Figures): (p: Policy)
    ensures p.accepted <==> p.verdict == Accept
    ensures p.noRegression <==> p.verdict != Reject
  {
    var better := Select(base, cand, SECONDARY, Improved);
    var worse := Select(base, cand, SECONDARY, Regressed);
    match Compare(base, cand, InteractionTurns)
    case Improved => Policy(true, Accept, true, "interaction_turns_decreased", [InteractionTurns])
    case Regressed => Policy(false, Reject, false, "interaction_turns_increased", [InteractionTurns])
    case _ =>
      if better != [] && worse == [] then Policy(true, Accept, true, "secondary_metrics_decreased", better)
      else if worse != [] then Policy(false, Reject, false, "secondary_metrics_increased", worse)
      else if forall m | m in REPLAY_METRICS :: Compare(base, cand, m) == Unavailable
      then Policy(false, Inconclusive, true, "metrics_unavailable", [])
      else Policy(false, Inconclusive, true, "all_metrics_unchanged", [])
  }

  method ObjectiveDecision(base: Figures, cand: Figures)
    returns (p: Policy, improved: seq<Metric>, regressed: seq<Metric>, same: seq<Metric>)
    ensures p == Objective(base, cand)
    ensures improved == Select(base, cand, REPLAY_METRICS, Improved)
    ensures regressed == Select(base, cand, REPLAY_METRICS, Regressed)
    ensures same == Select(base, cand, REPLAY_METRICS, Unchanged)
  {
    improved, regressed, same := [], [], [];
    for i := 0 to |REPLAY_METRICS|
      invariant improved == Select(base, cand, REPLAY_METRICS[..i], Improved)
      invariant regressed == Select(base, cand, REPLAY_METRICS[..i], Regressed)
      invariant same == Select(base, cand, REPLAY_METRICS[..i], Unchanged)
    {
      assert REPLAY_METRICS[..i + 1][..i] == REPLAY_METRICS[..i];
      var name := REPLAY_METRICS[i];
      match Compare(base, cand, name) {
        case Improved => improved := improved + [name];
        case Regressed => regressed := regressed + [name];
        case Unchanged => same := same + [name];
        case Unavailable =>
      }
    }
    assert REPLAY_METRICS[..|REPLAY_METRICS|] == REPLAY_METRICS;
    var better, worse := Select(base, cand, SECONDARY, Improved), Select(base, cand, SECONDARY, Regressed);
    var turns := Compare(base, cand, InteractionTurns);
    if turns == Improved {
      p := Policy(true, Accept, true, "interaction_turns_decreased", [InteractionTurns]);
    } else if turns == Regressed {
      p := Policy(false, Reject, false, "interaction_turns_increased", [InteractionTurns]);
    } else if better != [] && worse == [] {
      p := Policy(true, Accept, true, "secondary_metrics_decreased", better);
    } else if worse != [] {
      p := Policy(false, Reject, false, "secondary_metrics_increased", worse);
    } else {
      NoneCompared(base, cand);
      var none := improved == [] && regressed == [] && same == [];
      p := Policy(false, Inconclusive, true, if none then "metrics_unavailable" else "all_metrics_unchanged", []);
    }
  }

  /** The three lists are empty together exactly when nothing could be compared. */
  lemma NoneCompared(base: Figures, cand: Figures)
    ensures Select(base, cand, REPLAY_METRICS, Improved) == Select(base, cand, REPLAY_METRICS, Regressed)
            == Select(base, cand, REPLAY_METRICS, Unchanged) == []
            <==> forall m | m in REPLAY_METRICS :: Compare(base, cand, m) == Unavailable
  {
    forall m: Metric, c: Change
      ensures m in Select(base, cand, REPLAY_METRICS, c) <==> m in REPLAY_METRICS && Compare(base, cand, m) == c
    {
      SelectIs(base, cand, REPLAY_METRICS, c, m);
    }
    forall c: Change | Select(base, cand, REPLAY_METRICS, c) != []
      ensures exists m :: m in REPLAY_METRICS && Compare(base, cand, m) == c
    {
      var m := Select(base, cand, REPLAY_METRICS, c)[0];
      assert m in Select(base, cand, REPLAY_METRICS, c);
      assert m in REPLAY_METRICS && Compare(base, cand, m) == c;
    }
  }

  // ---- the figures that decide ----

  /** The three deciding metrics of a branch whose figures are all there. */
  datatype Effort = Effort(turns: real, tools: real, tokens: real)

  predicate Complete(f: Figures) {
    InteractionTurns in f && ToolCallCount in f && TotalTokens in f
  }

  function EffortOf(f: Figures): Effort
    requires Complete(f)
  {
    Effort(f[InteractionTurns], f[ToolCallCount], f[TotalTokens])
  }

  /** `c` needs less effort than `b`: fewer turns, or as many and less of the rest without more of either. */
  predicate Less(c: Effort, b: Effort) {
    || c.turns < b.turns
    || (c.turns == b.turns && c.tools <= b.tools && c.tokens <= b.tokens && (c.tools < b.tools || c.tokens < b.tokens))
  }

  /** `c` needs more: more turns, or as many and more tool calls or more tokens. */
  predicate More(c: Effort, b: Effort) {
    c.turns > b.turns || (c.turns == b.turns && (c.tools > b.tools || c.tokens > b.tokens))
  }

  /** Both branches report the metric, and the second reports less of it. */
  predicate Drops(f: Figures, g: Figures, m: Metric) {
    m in f && m in g && g[m] < f[m]
  }

  lemma SecondarySelects(base: Figures, cand: Figures, change: Change)
    ensures Select(base, cand, SECONDARY, change) == []
            <==> Compare(base, cand, ToolCallCount) != change && Compare(base, cand, TotalTokens) != change
  {
    SelectIs(base, cand, SECONDARY, change, ToolCallCount);
    SelectIs(base, cand, SECONDARY, change, TotalTokens);
    assert SECONDARY[0] in SECONDARY && SECONDARY[1] in SECONDARY;
    if Select(base, cand, SECONDARY, change) != [] {
      SelectIs(base, cand, SECONDARY, change, Select(base, cand, SECONDARY, change)[0]);
    }
  }

  /** The comparison of any two branches, whatever figures they have: turns decide alone, else tool calls and tokens. */
  lemma ObjectiveMeans(base: Figures, cand: Figures)
    ensures Objective(base, cand).verdict == Accept <==>
              || Drops(base, cand, InteractionTurns)
              || (&& !Drops(cand, base, InteractionTurns)
                  && (Drops(base, cand, ToolCallCount) || Drops(base, cand, TotalTokens))
                  && !Drops(cand, base, ToolCallCount) && !Drops(cand, base, TotalTokens))
    ensures Objective(base, cand).verdict == Reject <==>
              || Drops(cand, base, InteractionTurns)
              || (&& !Drops(base, cand, InteractionTurns)
                  && (Drops(cand, base, ToolCallCount) || Drops(cand, base, TotalTokens)))
  {
    SecondarySelects(base, cand, Improved);
    SecondarySelects(base, cand, Regressed);
    hide Select;
  }

  /** A comparison blames missing figures exactly when the branches have no metric in common. */
  lemma UnavailableExactly(base: Figures, cand: Figures)
    ensures Objective(base, cand).basis == "metrics_unavailable" <==> base.Keys !! cand.Keys
  {
    hide Select;
    var words := ["metrics_unavailable", "interaction_turns_decreased", "interaction_turns_increased",
                  "secondary_metrics_decreased", "secondary_metrics_increased", "all_metrics_unchanged"];
    assert forall i | 1 <= i < |words| :: words[i] != words[0];
    SecondarySelects(base, cand, Improved);
    SecondarySelects(base, cand, Regressed);
    forall m: Metric ensures m in REPLAY_METRICS { EveryMetricListed(m); }
    if base.Keys !! cand.Keys {
      forall m: Metric ensures Compare(base, cand, m) == Unavailable { assert m !in base.Keys || m !in cand.Keys; }
    } else {
      var m :| m in base.Keys && m in cand.Keys;
      assert Compare(base, cand, m) != Unavailable;
    }
  }

  /** With the deciding figures at hand: less effort accepts, more of anything that counts rejects, the same ties. */
  lemma ObjectiveIsLess(base: Figures, cand: Figures)
    requires Complete(base) && Complete(cand)
    ensures Objective(base, cand).verdict == Accept <==> Less(EffortOf(cand), EffortOf(base))
    ensures Objective(base, cand).verdict == Reject <==> More(EffortOf(cand), EffortOf(base))
    ensures Less(EffortOf(base), EffortOf(cand)) ==> Objective(base, cand).verdict == Reject
    ensures Objective(base, cand).verdict == Inconclusive <==> EffortOf(base) == EffortOf(cand)
  {
    ObjectiveMeans(base, cand);
    hide Objective;
  }
}
