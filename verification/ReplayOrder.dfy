/** Acceptance over a baseline is a strict partial order in which nothing improves for ever. */
module ReplayOrder {
  import opened ReplayMetrics
  import opened ReplayPolicy

  /** One treatment's replay: its figures and its checklist. */
  datatype Side = Side(figures: Figures, checklist: Summary)

  /** The deciding figures are there, the judge answered and there was something to judge. */
  predicate Comparable(s: Side) {
    Complete(s.figures) && s.checklist.judge == Model && s.checklist.total > 0
  }

  function VerdictOver(base: Side, cand: Side): Verdict {
    Progressive(base.figures, cand.figures, base.checklist, cand.checklist).verdict
  }

  predicate Beats(cand: Side, base: Side) {
    VerdictOver(base, cand) == Accept
  }

  lemma BeatsMeans(cand: Side, base: Side)
    requires Comparable(cand) && Comparable(base)
    ensures Beats(cand, base) <==>
            cand.checklist.passed && (!base.checklist.passed || Less(EffortOf(cand.figures), EffortOf(base.figures)))
  {
    ProgressiveAccepts(base.figures, cand.figures, base.checklist, cand.checklist);
  }

  /** A treatment never beats itself, and what it beats is rejected against it. */
  lemma SwappedRejects(cand: Side, base: Side)
    requires Comparable(cand) && Comparable(base)
    ensures !Beats(cand, cand)
    ensures Beats(cand, base) ==> VerdictOver(cand, base) == Reject
  {
    BeatsMeans(cand, base);
    BeatsMeans(cand, cand);
    ObjectiveIsLess(cand.figures, base.figures);
    hide Objective;
  }

  lemma BeatsTransitive(a: Side, b: Side, c: Side)
    requires Comparable(a) && Comparable(b) && Comparable(c)
    requires Beats(a, b) && Beats(b, c)
    ensures Beats(a, c)
  {
    BeatsMeans(a, b);
    BeatsMeans(b, c);
    BeatsMeans(a, c);
    hide Beats;
  }

  // ---- descent ----

  predicate Whole(x: real) {
    x == x.Floor as real
  }

  /** Counts, as the runtimes report them. */
  predicate Counted(s: Side) {
    Comparable(s) && Whole(s.figures[InteractionTurns]) && Whole(s.figures[ToolCallCount]) && Whole(s.figures[TotalTokens])
  }

  function Incomplete(s: Side): nat {
    if s.checklist.passed then 0 else 1
  }

  function Turns(s: Side): nat
    requires Counted(s)
  {
    s.figures[InteractionTurns].Floor
  }

  function Spent(s: Side): nat
    requires Counted(s)
  {
    s.figures[ToolCallCount].Floor + s.figures[TotalTokens].Floor
  }

  /** Each acceptance goes strictly down in (checklist incomplete, turns, tool calls and tokens). */
  lemma BeatsDescends(cand: Side, base: Side)
    requires Counted(cand) && Counted(base) && Beats(cand, base)
    ensures Incomplete(cand) == 0
    ensures || Incomplete(base) == 1
            || Turns(cand) < Turns(base)
            || (Turns(cand) == Turns(base) && Spent(cand) < Spent(base))
  {
    BeatsMeans(cand, base);
  }

  lemma {:induction false} ChainEnds(f: nat -> Side, n: nat)
    requires forall i: nat :: Counted(f(i))
    requires Incomplete(f(n)) == 0
    ensures exists i: nat :: !Beats(f(i + 1), f(i))
    decreases Turns(f(n)), Spent(f(n))
  {
    if Beats(f(n + 1), f(n)) {
      BeatsDescends(f(n + 1), f(n));
      ChainEnds(f, n + 1);
    }
  }

  /** Replacing a treatment by one accepted over it cannot go on for ever. */
  lemma NoEndlessImprovement(f: nat -> Side)
    requires forall i: nat :: Counted(f(i))
    ensures exists i: nat :: !Beats(f(i + 1), f(i))
  {
    if Beats(f(1), f(0)) {
      BeatsDescends(f(1), f(0));
      ChainEnds(f, 1);
    } else {
      assert !Beats(f(0 + 1), f(0));
    }
  }
}
