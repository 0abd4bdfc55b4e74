/** One verdict per case, and one verdict over many cases. */
module ReplayAggregate {
  import opened Basics
  import opened ReplayMetrics
  import opened ReplayPolicy
  import opened Text

  /** One branch of a case as the replay loop leaves it. */
  datatype Branch = Branch(ok: bool, observed: Observed, report: Raw)

  /** A branch that ended well has counted its interactions. */
  predicate FromRunBranch(b: Branch) {
    b.ok ==> Reading(b.observed, InteractionTurns).Some?
  }

  /** A case's result: an evaluation, or the record kept when its execution raised. */
  datatype Outcome =
    | Evaluated(policy: Policy, base: Figures, cand: Figures, baseReport: Report, candReport: Report)
    | Failed

  function VerdictOf(o: Outcome): Verdict {
    if o.Evaluated? then o.policy.verdict else Inconclusive
  }

  function AcceptedOf(o: Outcome): bool {
    o.Evaluated? && o.policy.accepted
  }

  predicate Countable(f: Figures) {
    ToolCallCount in f && TotalTokens in f
  }

  /** The verdict of one case: a failed branch or a missing figure overrides the comparison. */
  function CaseOutcome(checks: seq<Check>, b: Branch, c: Branch): Outcome {
    var base, cand := Efficiency(b.observed), Efficiency(c.observed);
    var br, cr := Normalize(b.report, checks), Normalize(c.report, checks);
    var policy := Progressive(base, cand, Summarize(br), Summarize(cr));
    var basis := if !b.ok || !c.ok then "branch_failure" else "metrics_unavailable";
    Evaluated(
      if b.ok && c.ok && Countable(base) && Countable(cand) then policy
      else Policy(false, Inconclusive, false, basis, policy.decisive),
      base, cand, br, cr)
  }

  method EvaluateCase(checks: seq<Check>, b: Branch, c: Branch) returns (o: Outcome)
    ensures o == CaseOutcome(checks, b, c)
  {
    var br, bu := NormalizeReport(b.report, checks);
    var cr, cu := NormalizeReport(c.report, checks);
    var base := BranchEfficiency(b.observed);
    var cand := BranchEfficiency(c.observed);
    var policy := Progressive(base, cand, Summary(|br.items|, bu == 0, br.judge), Summary(|cr.items|, cu == 0, cr.judge));
    if !Countable(base) || !Countable(cand) {
      policy := policy.(accepted := false, verdict := Inconclusive, noRegression := false, basis := "metrics_unavailable");
    }
    if !b.ok || !c.ok {
      policy := policy.(accepted := false, verdict := Inconclusive, noRegression := false, basis := "branch_failure");
    }
    o := Evaluated(policy, base, cand, br, cr);
  }

  /** Both branches ended well, every deciding figure is there and both judges answered. */
  predicate Comparable(b: Branch, c: Branch, o: Outcome)
    requires o.Evaluated?
  {
    && b.ok && c.ok && Complete(o.base) && Complete(o.cand)
    && o.baseReport.judge == Model && o.candReport.judge == Model
  }

  /** When a case rejects: the candidate alone missed its checklist, or no checklist decides and it took more of something. */
  predicate Lost(o: Outcome)
    requires o.Evaluated? && Complete(o.base) && Complete(o.cand)
  {
    if AllSatisfied(o.candReport)
    then (AllSatisfied(o.baseReport) || o.candReport.items == []) && More(EffortOf(o.cand), EffortOf(o.base))
    else AllSatisfied(o.baseReport)
  }

  /** When it accepts: the candidate alone met a checklist, or no checklist decides and it took less. */
  predicate Better(o: Outcome)
    requires o.Evaluated? && Complete(o.base) && Complete(o.cand)
  {
    && AllSatisfied(o.candReport)
    && (AllSatisfied(o.baseReport) || o.candReport.items == [] ==> Less(EffortOf(o.cand), EffortOf(o.base)))
  }

  /**
   A case's verdict in terms of its branches: accepted or rejected only if both ended well, can be compared and were
   judged; a branch that failed, a missing figure or judge, and a tie leave it inconclusive.
   */
  lemma {:induction false} CaseVerdict(checks: seq<Check>, b: Branch, c: Branch)
    requires FromRunBranch(b) && FromRunBranch(c)
    ensures var o := CaseOutcome(checks, b, c);
            && o.Evaluated?
            && (VerdictOf(o) == Accept <==> Comparable(b, c, o) && Better(o))
            && (VerdictOf(o) == Reject <==> Comparable(b, c, o) && Lost(o))
            && (!b.ok || !c.ok ==> o.policy.basis == "branch_failure")
            && (b.ok && c.ok && !(Complete(o.base) && Complete(o.cand)) ==> o.policy.basis == "metrics_unavailable")
  {
    hide Progressive, Normalize, Less, More;
    var o := CaseOutcome(checks, b, c);
    if b.ok && c.ok && Countable(o.base) && Countable(o.cand) {
      var br, cr := Summarize(o.baseReport), Summarize(o.candReport);
      ProgressiveAccepts(o.base, o.cand, br, cr);
      ProgressiveRejects(o.base, o.cand, br, cr);
      ObjectiveIsLess(o.base, o.cand);
    }
    hide Objective;
  }

  // ---- sums over cases ----

  function Plus(f: Figures, g: Figures): Figures {
    map m | m in f && m in g :: f[m] + g[m]
  }

  lemma PlusAt(f: Figures, g: Figures, m: Metric)
    ensures Figure(Plus(f, g), m) == if m in f && m in g then Some(f[m] + g[m]) else None
  {
  }

  /** Sums of the figures every case has. */
  function SumFigures(fs: seq<Figures>): Figures
    requires fs != []
  {
    if |fs| == 1 then fs[0] else Plus(SumFigures(fs[..|fs| - 1]), fs[|fs| - 1])
  }

  function Raised(totals: Figures, f: Figures, m: Metric): Option<real>
    requires m in f
  {
    Some(f[m] + if m in totals then totals[m] else 0.0)
  }

  /** One case's figures go into the running totals, or into the set of what is unavailable. */
  method AddFigures(totals: Figures, unavailable: set<Metric>, f: Figures)
    returns (t: Figures, u: set<Metric>)
    ensures forall m :: m in u <==> m in unavailable || m !in f
    ensures forall m :: Figure(t, m) == if m in f then Raised(totals, f, m) else Figure(totals, m)
  {
    forall m: Metric ensures m in REPLAY_METRICS { EveryMetricListed(m); }
    t, u := AddEach(REPLAY_METRICS, totals, unavailable, f);
  }

  method AddEach(keys: seq<Metric>, totals: Figures, unavailable: set<Metric>, f: Figures)
    returns (t: Figures, u: set<Metric>)
    requires forall i, j | 0 <= i < j < |keys| :: keys[i] != keys[j]
    ensures forall m :: m in u <==> m in unavailable || (m in keys && m !in f)
    ensures forall m :: Figure(t, m) == if m in keys && m in f then Raised(totals, f, m) else Figure(totals, m)
  {
    t, u := totals, unavailable;
    for i := 0 to |keys|
      invariant forall m :: m in u <==> m in unavailable || (m in keys[..i] && m !in f)
      invariant forall m :: Figure(t, m) == if m in keys[..i] && m in f then Raised(totals, f, m) else Figure(totals, m)
    {
      assert keys[..i + 1] == keys[..i] + [keys[i]];
      if keys[i] !in f {
        u := u + {keys[i]};
      } else {
        assert Figure(t, keys[i]) == Figure(totals, keys[i]);
        t := t[keys[i] := f[keys[i]] + if keys[i] in t then t[keys[i]] else 0.0];
      }
    }
    assert keys[..|keys|] == keys;
  }

  method TotalFigures(fs: seq<Figures>) returns (t: Figures)
    requires fs != []
    ensures t == SumFigures(fs)
  {
    var totals: Figures, unavailable := map[], {};
    for i := 0 to |fs|
      invariant i == 0 ==> totals == map[] && unavailable == {}
      invariant i > 0 ==> forall m :: m in unavailable || Figure(totals, m).Some?
      invariant i > 0 ==>
        forall m :: Figure(SumFigures(fs[..i]), m) == if m in unavailable then None else Figure(totals, m)
    {
      ghost var before, gone := totals, unavailable;
      totals, unavailable := AddFigures(totals, unavailable, fs[i]);
      assert fs[..i + 1][..i] == fs[..i];
      if i > 0 {
        forall m
          ensures Figure(SumFigures(fs[..i + 1]), m) == if m in unavailable then None else Figure(totals, m)
        {
          assert Figure(SumFigures(fs[..i]), m) == if m in gone then None else Figure(before, m);
          PlusAt(SumFigures(fs[..i]), fs[i], m);
        }
      }
    }
    assert fs[..|fs|] == fs;
    t := map m | m in totals && m !in unavailable :: totals[m];
    forall m: Metric ensures Figure(t, m) == Figure(SumFigures(fs), m) {}
    SameMap(t, SumFigures(fs));
  }

  lemma SameMap(f: Figures, g: Figures)
    requires forall m :: Figure(f, m) == Figure(g, m)
    ensures f == g
  {
    forall m: Metric ensures m in f <==> m in g { assert Figure(f, m) == Figure(g, m); }
    forall m: Metric | m in f ensures f[m] == g[m] { assert Figure(f, m) == Figure(g, m); }
  }

  // ---- one decision over all cases ----

  /** A run's decision; a run in which no case was evaluated has no verdict of its own. */
  datatype Decision = Decision(accepted: bool, verdict: Option<Verdict>, noRegression: bool)

  function OnlyEvaluated(outputs: seq<Outcome>): (os: seq<Outcome>)
    ensures forall o :: o in os <==> o in outputs && o.Evaluated?
    ensures |os| <= |outputs|
    ensures |os| == |outputs| <==> Failed !in outputs
    ensures Failed !in outputs ==> os == outputs
  {
    if outputs == [] then []
    else
      assert outputs == outputs[..|outputs| - 1] + [outputs[|outputs| - 1]];
      var rest := OnlyEvaluated(outputs[..|outputs| - 1]);
      if outputs[|outputs| - 1].Failed? then rest else rest + [outputs[|outputs| - 1]]
  }

  predicate AllEvaluated(os: seq<Outcome>) {
    forall i | 0 <= i < |os| :: os[i].Evaluated?
  }

  function Bases(os: seq<Outcome>): (fs: seq<Figures>)
    requires AllEvaluated(os)
    ensures |fs| == |os| && forall i | 0 <= i < |os| :: fs[i] == os[i].base
  {
    seq(|os|, i requires 0 <= i < |os| => os[i].base)
  }

  function Cands(os: seq<Outcome>): (fs: seq<Figures>)
    requires AllEvaluated(os)
    ensures |fs| == |os| && forall i | 0 <= i < |os| :: fs[i] == os[i].cand
  {
    seq(|os|, i requires 0 <= i < |os| => os[i].cand)
  }

  /** A saved case carries its normalised report, which the aggregation normalises again without the checklist. */
  function ReadBack(r: Report): Report {
    Normalize(Raw(r.items, r.judge), [])
  }

  function BaseReports(os: seq<Outcome>): (rs: seq<Report>)
    requires AllEvaluated(os)
    ensures |rs| == |os| && forall i | 0 <= i < |os| :: rs[i] == ReadBack(os[i].baseReport)
  {
    seq(|os|, i requires 0 <= i < |os| => ReadBack(os[i].baseReport))
  }

  function CandReports(os: seq<Outcome>): (rs: seq<Report>)
    requires AllEvaluated(os)
    ensures |rs| == |os| && forall i | 0 <= i < |os| :: rs[i] == ReadBack(os[i].candReport)
  {
    seq(|os|, i requires 0 <= i < |os| => ReadBack(os[i].candReport))
  }

  /** The decision on the summed figures and merged checklists of the evaluated cases. */
  function Summed(os: seq<Outcome>): Policy
    requires os != [] && AllEvaluated(os)
  {
    Progressive(SumFigures(Bases(os)), SumFigures(Cands(os)), Merge(BaseReports(os)), Merge(CandReports(os)))
  }

  function Windows(outputs: seq<Outcome>): Decision {
    var os := OnlyEvaluated(outputs);
    if os == [] then Decision(false, None, false)
    else
      var p := Summed(os);
      var all := Failed !in outputs;
      Decision(p.accepted && all, Some(if !all && p.verdict == Accept then Inconclusive else p.verdict), p.noRegression && all)
  }

  predicate AnyIs(outputs: seq<Outcome>, v: Verdict) {
    exists o :: o in outputs && VerdictOf(o) == v
  }

  /** `aggregate_results`: a rejected, inconclusive or failed case overrides the summed decision. */
  function Aggregate(outputs: seq<Outcome>): Decision {
    if AnyIs(outputs, Reject) then Decision(false, Some(Reject), false)
    else if AnyIs(outputs, Inconclusive) then Decision(false, Some(Inconclusive), false)
    else Windows(outputs)
  }

  method MergeReports(rs: seq<Report>) returns (m: Summary)
    ensures m == Merge(seq(|rs|, i requires 0 <= i < |rs| => ReadBack(rs[i])))
  {
    var raws := seq(|rs|, i requires 0 <= i < |rs| => Raw(rs[i].items, rs[i].judge));
    m := AggregateChecklists(raws);
    assert seq(|raws|, i requires 0 <= i < |raws| => Normalize(raws[i], []))
        == seq(|rs|, i requires 0 <= i < |rs| => ReadBack(rs[i]));
  }

  method KeepEvaluated(outputs: seq<Outcome>) returns (os: seq<Outcome>)
    ensures os == OnlyEvaluated(outputs)
  {
    os := [];
    for i := 0 to |outputs|
      invariant os == OnlyEvaluated(outputs[..i])
    {
      assert outputs[..i + 1][..i] == outputs[..i];
      if outputs[i].Evaluated? {
        os := os + [outputs[i]];
      }
    }
    assert outputs[..|outputs|] == outputs;
  }

  method AggregateWindows(outputs: seq<Outcome>) returns (d: Decision)
    ensures d == Windows(outputs)
  {
    hide Normalize, Progressive, Merge, SumFigures, OnlyEvaluated;
    var evaluated := KeepEvaluated(outputs);
    if evaluated == [] {
      return Decision(false, None, false);
    }
    assert forall i | 0 <= i < |evaluated| :: evaluated[i] in evaluated;
    var all := |evaluated| == |outputs|;
    var base := TotalFigures(Bases(evaluated));
    var cand := TotalFigures(Cands(evaluated));
    var brs := seq(|evaluated|, i requires 0 <= i < |evaluated| => evaluated[i].baseReport);
    var crs := seq(|evaluated|, i requires 0 <= i < |evaluated| => evaluated[i].candReport);
    var b := MergeReports(brs);
    var c := MergeReports(crs);
    assert seq(|brs|, i requires 0 <= i < |brs| => ReadBack(brs[i])) == BaseReports(evaluated);
    assert seq(|crs|, i requires 0 <= i < |crs| => ReadBack(crs[i])) == CandReports(evaluated);
    var policy := Progressive(base, cand, b, c);
    var verdict := policy.verdict;
    if !all && verdict == Accept {
      verdict := Inconclusive;
    }
    d := Decision(policy.accepted && all, Some(verdict), policy.noRegression && all);
  }

  method AggregateResults(outputs: seq<Outcome>) returns (d: Decision)
    ensures d == Aggregate(outputs)
  {
    hide Windows;
    d := AggregateWindows(outputs);
    var rejected, unclear := false, false;
    for i := 0 to |outputs|
      invariant rejected <==> exists j :: 0 <= j < i && VerdictOf(outputs[j]) == Reject
      invariant unclear <==> exists j :: 0 <= j < i && VerdictOf(outputs[j]) == Inconclusive
    {
      rejected := rejected || VerdictOf(outputs[i]) == Reject;
      unclear := unclear || VerdictOf(outputs[i]) == Inconclusive;
    }
    if rejected {
      d := d.(accepted := false, verdict := Some(Reject), noRegression := false);
    } else if unclear {
      d := d.(accepted := false, verdict := Some(Inconclusive), noRegression := false);
    }
  }

  // ---- the decision is a fold of the case verdicts ----

  function Worse(v: Verdict, w: Verdict): Verdict {
    if v == Reject || w == Reject then Reject
    else if v == Inconclusive || w == Inconclusive then Inconclusive
    else Accept
  }

  function Fold(outputs: seq<Outcome>): Verdict {
    if outputs == [] then Accept else Worse(Fold(outputs[..|outputs| - 1]), VerdictOf(outputs[|outputs| - 1]))
  }

  lemma {:induction false} FoldMeans(outputs: seq<Outcome>)
    ensures Fold(outputs) == Reject <==> AnyIs(outputs, Reject)
    ensures Fold(outputs) == Accept <==> forall o | o in outputs :: VerdictOf(o) == Accept
  {
    if outputs != [] {
      var last := outputs[|outputs| - 1];
      FoldMeans(outputs[..|outputs| - 1]);
      assert forall o :: o in outputs <==> o in outputs[..|outputs| - 1] || o == last;
    }
  }

  lemma SingleFold(o: Outcome)
    ensures Fold([o]) == VerdictOf(o)
  {
    assert [o][..0] == [];
  }

  /** The results a run can hold: evaluations of branches that came from the replay loop, and failure records. */
  ghost predicate Possible(o: Outcome) {
    o.Failed? || exists checks, b, c :: FromRunBranch(b) && FromRunBranch(c) && o == CaseOutcome(checks, b, c)
  }

  /** What the aggregation reads back from a saved case is what the evaluation saw. */
  lemma ReadBackUnchanged(checks: seq<Check>, b: Branch, c: Branch)
    ensures var o := CaseOutcome(checks, b, c);
            ReadBack(o.baseReport) == o.baseReport && ReadBack(o.candReport) == o.candReport
  {
    hide Progressive;
    NormalizeTwice(b.report, checks);
    NormalizeTwice(c.report, checks);
  }

  /** Why a case was accepted: the candidate met its checklist, and the baseline either missed its own or took more effort. */
  predicate Won(o: Outcome) {
    && o.Evaluated?
    && Complete(o.base) && Complete(o.cand)
    && o.baseReport.judge == Model && o.candReport.judge == Model
    && ReadBack(o.baseReport) == o.baseReport && ReadBack(o.candReport) == o.candReport
    && AllSatisfied(o.candReport)
    && (AllSatisfied(o.baseReport) || o.candReport.items == [] ==> Less(EffortOf(o.cand), EffortOf(o.base)))
  }

  lemma AcceptedWon(o: Outcome)
    requires Possible(o)
    ensures VerdictOf(o) == Accept ==> Won(o)
    ensures AcceptedOf(o) <==> VerdictOf(o) == Accept
  {
    hide CaseOutcome, Won;
    if o.Evaluated? {
      var checks, b, c :| FromRunBranch(b) && FromRunBranch(c) && o == CaseOutcome(checks, b, c);
      AcceptedCase(checks, b, c);
    }
  }

  lemma {:induction false} AcceptedCase(checks: seq<Check>, b: Branch, c: Branch)
    requires FromRunBranch(b) && FromRunBranch(c)
    ensures var o := CaseOutcome(checks, b, c);
            (VerdictOf(o) == Accept ==> Won(o)) && (AcceptedOf(o) <==> VerdictOf(o) == Accept)
  {
    hide Progressive, Normalize, Less;
    ReadBackUnchanged(checks, b, c);
    var o := CaseOutcome(checks, b, c);
    if b.ok && c.ok && Countable(o.base) && Countable(o.cand) {
      ProgressiveAccepts(o.base, o.cand, Summarize(o.baseReport), Summarize(o.candReport));
    }
  }

  /** Less effort in every case is less effort in the sum. */
  lemma {:induction false} LessAdds(fs: seq<Figures>, gs: seq<Figures>)
    requires |fs| == |gs| > 0
    requires forall i | 0 <= i < |fs| :: Complete(fs[i]) && Complete(gs[i])
    ensures Complete(SumFigures(fs)) && Complete(SumFigures(gs))
    ensures (forall i | 0 <= i < |fs| :: Less(EffortOf(gs[i]), EffortOf(fs[i])))
            ==> Less(EffortOf(SumFigures(gs)), EffortOf(SumFigures(fs)))
  {
    if |fs| > 1 {
      LessAdds(fs[..|fs| - 1], gs[..|fs| - 1]);
    }
  }

  /** A case the candidate won by its checklist alone. */
  predicate WonByChecklist(o: Outcome)
    requires o.Evaluated?
  {
    !AllSatisfied(o.baseReport) && o.candReport.items != []
  }

  lemma MergedWon(os: seq<Outcome>)
    requires AllEvaluated(os) && forall i | 0 <= i < |os| :: Won(os[i])
    ensures Merge(BaseReports(os)).judge == Model && Merge(CandReports(os)).judge == Model
    ensures Merge(CandReports(os)).passed
    ensures (exists i :: 0 <= i < |os| && WonByChecklist(os[i]))
            ==> Merge(BaseReports(os)).total > 0 && !Merge(BaseReports(os)).passed && Merge(CandReports(os)).total > 0
  {
    hide Merge, Less, Complete, ReadBack;
    var bs, cs := BaseReports(os), CandReports(os);
    MergeMeans(bs);
    MergeMeans(cs);
    if i :| 0 <= i < |os| && WonByChecklist(os[i]) {
      assert bs[i] in bs && cs[i] in cs;
      assert bs[i].items != [];
    }
  }

  /** Unanimous accepts survive the summing: the totals and the merged checklists accept too. */
  lemma Unanimous(os: seq<Outcome>)
    requires os != [] && AllEvaluated(os) && forall i | 0 <= i < |os| :: Won(os[i])
    ensures Summed(os).verdict == Accept
  {
    MergedWon(os);
    hide Progressive, Merge, Less, SumFigures, AllSatisfied, Complete;
    LessAdds(Bases(os), Cands(os));
    ProgressiveAccepts(SumFigures(Bases(os)), SumFigures(Cands(os)), Merge(BaseReports(os)), Merge(CandReports(os)));
  }

  lemma UnanimousWindows(outputs: seq<Outcome>)
    requires outputs != [] && AllEvaluated(outputs) && Summed(outputs).verdict == Accept
    ensures Windows(outputs) == Decision(true, Some(Accept), true)
  {
    hide Progressive, Merge, SumFigures, OnlyEvaluated;
    assert Failed !in outputs;
  }

  /** Summing figures and merging checklists, overrides included, is a fold of the case verdicts. */
  lemma {:induction false} AggregateIsFold(outputs: seq<Outcome>)
    requires outputs != [] && forall o | o in outputs :: Possible(o)
    ensures Aggregate(outputs).verdict == Some(Fold(outputs))
    ensures Aggregate(outputs).accepted <==> Fold(outputs) == Accept
    ensures Aggregate(outputs).noRegression <==> Fold(outputs) == Accept
  {
    FoldMeans(outputs);
    hide Won, Summed, Possible, Fold, Windows;
    if Fold(outputs) == Accept {
      forall i | 0 <= i < |outputs| ensures Won(outputs[i]) {
        assert outputs[i] in outputs;
        AcceptedWon(outputs[i]);
      }
      AllWon(outputs);
      Unanimous(outputs);
      UnanimousWindows(outputs);
      assert !AnyIs(outputs, Reject) && !AnyIs(outputs, Inconclusive);
    } else {
      assert AnyIs(outputs, Reject) || AnyIs(outputs, Inconclusive);
    }
  }

  lemma AllWon(outputs: seq<Outcome>)
    requires forall i | 0 <= i < |outputs| :: Won(outputs[i])
    ensures AllEvaluated(outputs)
  {
    assert forall i | 0 <= i < |outputs| :: Won(outputs[i]);
  }

  /** The order of the cases does not matter, and a run of one case answers as the fold does. */
  lemma {:induction false} VerdictIgnoresOrder(outputs: seq<Outcome>, others: seq<Outcome>)
    requires outputs != [] && forall o | o in outputs :: Possible(o)
    requires multiset(outputs) == multiset(others)
    ensures Aggregate(outputs) == Aggregate(others)
    ensures |outputs| == 1 ==> VerdictOf(outputs[0]) == Fold(outputs) && AcceptedOf(outputs[0]) == Aggregate(outputs).accepted
  {
    assert forall o :: o in outputs <==> o in multiset(outputs);
    assert forall o :: o in others <==> o in multiset(others);
    assert others != [] by { assert outputs[0] in others; }
    hide Possible, Aggregate, Fold;
    AggregateIsFold(outputs);
    AggregateIsFold(others);
    FoldMeans(outputs);
    FoldMeans(others);
    if |outputs| == 1 {
      assert Fold(outputs) == VerdictOf(outputs[0]) by { SingleFold(outputs[0]); }
      AcceptedWon(outputs[0]);
    }
  }

  // ---- the summed decision on its own ----

  predicate BaseMissed(outputs: seq<Outcome>) {
    exists o :: o in outputs && o.Evaluated? && !AllSatisfied(o.baseReport)
  }

  predicate CandMissed(outputs: seq<Outcome>) {
    exists o :: o in outputs && o.Evaluated? && !AllSatisfied(o.candReport)
  }

  predicate CandJudged(outputs: seq<Outcome>) {
    exists o :: o in outputs && o.Evaluated? && o.candReport.items != []
  }

  /** A checklist with entries went without its judge. */
  predicate Unjudged(outputs: seq<Outcome>) {
    exists o :: o in outputs && o.Evaluated? &&
      ((o.baseReport.items != [] && o.baseReport.judge == Missing) || (o.candReport.items != [] && o.candReport.judge == Missing))
  }

  /** The reports that go into the sum are those of the evaluated cases. */
  lemma ReportsSummed(outputs: seq<Outcome>)
    requires forall o | o in outputs :: Possible(o)
    ensures var os := OnlyEvaluated(outputs);
            && AllEvaluated(os)
            && (forall r :: r in BaseReports(os) <==> exists o :: o in outputs && o.Evaluated? && o.baseReport == r)
            && (forall r :: r in CandReports(os) <==> exists o :: o in outputs && o.Evaluated? && o.candReport == r)
  {
    var os := OnlyEvaluated(outputs);
    hide OnlyEvaluated, CaseOutcome, ReadBack;
    assert forall i | 0 <= i < |os| :: os[i] in os;
    forall o | o in outputs && o.Evaluated?
      ensures ReadBack(o.baseReport) == o.baseReport && ReadBack(o.candReport) == o.candReport
    {
      var checks, b, c :| FromRunBranch(b) && FromRunBranch(c) && o == CaseOutcome(checks, b, c);
      ReadBackUnchanged(checks, b, c);
    }
    hide Possible;
    forall o | o in outputs && o.Evaluated? ensures o.baseReport in BaseReports(os) && o.candReport in CandReports(os) {
      var i :| 0 <= i < |os| && os[i] == o;
      assert BaseReports(os)[i] == o.baseReport && CandReports(os)[i] == o.candReport;
    }
  }

  lemma MergedMeans(outputs: seq<Outcome>, bs: seq<Report>, cs: seq<Report>)
    requires forall r :: r in bs <==> exists o :: o in outputs && o.Evaluated? && o.baseReport == r
    requires forall r :: r in cs <==> exists o :: o in outputs && o.Evaluated? && o.candReport == r
    ensures Merge(bs).judge == Missing || Merge(cs).judge == Missing <==> Unjudged(outputs)
    ensures (Merge(bs).passed <==> !BaseMissed(outputs)) && (Merge(cs).passed <==> !CandMissed(outputs))
    ensures Merge(cs).total > 0 <==> CandJudged(outputs)
    ensures (!Merge(bs).passed ==> Merge(bs).total > 0) && (!Merge(cs).passed ==> Merge(cs).total > 0)
  {
    MergeMeans(bs);
    MergeMeans(cs);
    Short(bs);
    Short(cs);
    hide Merge, AllSatisfied;
  }

  lemma Short(rs: seq<Report>)
    ensures !Merge(rs).passed ==> Merge(rs).total > 0
  {
    MergeMeans(rs);
  }

  /**
   The summed decision before any override, which is also what a run over several windows answers: none without an
   evaluated case; rejected if the candidate alone missed a checklist, or none is decisive and the summed figures
   reject; accepted if every case was evaluated and the candidate alone met all, or the summed figures accept.
   */
  lemma WindowsExactly(outputs: seq<Outcome>)
    requires forall o | o in outputs :: Possible(o)
    ensures var d, os := Windows(outputs), OnlyEvaluated(outputs);
            && (d.verdict == None <==> forall o | o in outputs :: o.Failed?)
            && (d.accepted <==> d.verdict == Some(Accept))
            && (Failed in outputs ==> !d.accepted && !d.noRegression)
            && (os != [] ==>
                && AllEvaluated(os)
                && var v := Objective(SumFigures(Bases(os)), SumFigures(Cands(os))).verdict;
                   var alone := BaseMissed(outputs) && CandJudged(outputs);
                   && (d.verdict == Some(Reject) <==>
                         !Unjudged(outputs) && if CandMissed(outputs) then !BaseMissed(outputs) else !alone && v == Reject)
                   && (d.verdict == Some(Accept) <==>
                         Failed !in outputs && !Unjudged(outputs) && !CandMissed(outputs) && (alone || v == Accept)))
  {
    var os := OnlyEvaluated(outputs);
    ReportsSummed(outputs);
    MergedMeans(outputs, BaseReports(os), CandReports(os));
    if os != [] { assert os[0] in outputs; } else { assert forall o | o in outputs :: o !in os; }
    hide Merge, SumFigures, OnlyEvaluated, Possible, Objective, BaseMissed, CandMissed, CandJudged, Unjudged;
  }

  // ---- one case alone and one case aggregated ----

  /** A single case's own no-regression flag: everything that decides was there, and nothing got worse. */
  lemma NoRegressionMeans(base: Figures, cand: Figures, b: Summary, c: Summary)
    requires Complete(base) && Complete(cand)
    ensures var p := Progressive(base, cand, b, c);
            p.verdict == Inconclusive && p.noRegression <==>
              && b.judge == Model && c.judge == Model && (c.total > 0 ==> c.passed)
              && !(c.total > 0 && b.total > 0 && !b.passed) && EffortOf(base) == EffortOf(cand)
  {
    ObjectiveIsLess(base, cand);
    hide Objective;
  }

  /** Both checklists that there are have been met, and both branches took the same effort. */
  predicate Tied(o: Outcome) {
    && o.Evaluated? && Complete(o.base) && Complete(o.cand)
    && o.baseReport.judge == Model && o.candReport.judge == Model
    && AllSatisfied(o.candReport) && (AllSatisfied(o.baseReport) || o.candReport.items == [])
    && EffortOf(o.base) == EffortOf(o.cand)
  }

  lemma TieKeepsNoRegression(checks: seq<Check>, b: Branch, c: Branch)
    requires FromRunBranch(b) && FromRunBranch(c)
    ensures var o := CaseOutcome(checks, b, c);
            VerdictOf(o) == Inconclusive && o.policy.noRegression <==> b.ok && c.ok && Tied(o)
  {
    hide Progressive, Normalize;
    var o := CaseOutcome(checks, b, c);
    if b.ok && c.ok && Countable(o.base) && Countable(o.cand) {
      NoRegressionMeans(o.base, o.cand, Summarize(o.baseReport), Summarize(o.candReport));
    }
  }

  lemma SingleAggregate(o: Outcome)
    requires Possible(o)
    ensures Aggregate([o]).noRegression <==> VerdictOf(o) == Accept
  {
    hide Possible, Aggregate, Fold;
    AggregateIsFold([o]);
    SingleFold(o);
  }

  lemma {:induction false} PossibleCase(checks: seq<Check>, b: Branch, c: Branch)
    requires FromRunBranch(b) && FromRunBranch(c)
    ensures Possible(CaseOutcome(checks, b, c))
    ensures var p := CaseOutcome(checks, b, c).policy; (p.verdict == Accept ==> p.noRegression) && (p.verdict == Reject ==> !p.noRegression)
  {
    hide Normalize, Efficiency;
  }

  /**
   A run of one case returns the case's own flags, which differ from those of its aggregate in `noRegression`
   exactly when the case is a tie: both branches ended well, all that is judged is met and the efforts are equal.
   */
  lemma {:induction false} ShortcutDiffersExactly(checks: seq<Check>, b: Branch, c: Branch)
    requires FromRunBranch(b) && FromRunBranch(c)
    ensures var o := CaseOutcome(checks, b, c);
            o.policy.noRegression != Aggregate([o]).noRegression <==> b.ok && c.ok && Tied(o)
  {
    PossibleCase(checks, b, c);
    TieKeepsNoRegression(checks, b, c);
    SingleAggregate(CaseOutcome(checks, b, c));
    hide Possible, Aggregate, Tied, CaseOutcome;
  }

  const ONE_CHECK: seq<Check> := [Check("a", "answer")]

  /** A branch that met its only requirement. */
  function MetBranch(): Branch {
    Branch(true,
           Observed(map[InteractionTurns := Number(1.0), ToolCallCount := Number(0.0), TotalTokens := Number(7.0)], None),
           Raw([Item("a", true, "seen")], Model))
  }

  lemma MetReport()
    ensures Normalize(MetBranch().report, ONE_CHECK) == Report([Item("a", true, "seen")], Model)
  {
    assert HasText("seen") by { assert !IsSpace("seen"[0]); }
    assert Lookup([Item("a", true, "seen")], "a") == Some(Item("a", true, "seen"));
    hide HasText, Lookup;
    assert Ids(ONE_CHECK) == ["a"];
    assert JudgedAll(["a"], MetBranch().report.items) == [Item("a", true, "seen")];
  }

  lemma MetFigures()
    ensures FromRunBranch(MetBranch()) && Complete(Efficiency(MetBranch().observed))
  {
  }

  /** Such a tie: two branches with the same counts that both met the only requirement. */
  lemma ATieDiffers()
    ensures var o := CaseOutcome(ONE_CHECK, MetBranch(), MetBranch());
            o.policy.noRegression != Aggregate([o]).noRegression
  {
    MetReport();
    MetFigures();
    hide Normalize, Efficiency, Progressive, Aggregate, FromRunBranch;
    ShortcutDiffersExactly(ONE_CHECK, MetBranch(), MetBranch());
  }
}
