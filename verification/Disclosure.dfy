/** The replay loop of one branch: it reveals unmet requirements in batches, against any agent and any judge. */
module Disclosure {
  import opened Basics
  import opened ReplayMetrics
  import opened ReplayPolicy
  import ReplayAggregate

  // ---- choosing what to disclose ----

  /** The judge's word on an id: the last entry under it, or unmet. */
  predicate Met(items: seq<Item>, id: string) {
    items != [] && (if items[|items| - 1].id == id then items[|items| - 1].satisfied else Met(items[..|items| - 1], id))
  }

  /** An id is met exactly if the last entry under it says so; entries under other ids do not count. */
  lemma {:induction false} MetMeans(items: seq<Item>, id: string)
    ensures Met(items, id) <==>
              exists k :: 0 <= k < |items| && items[k].id == id && items[k].satisfied && forall j | k < j < |items| :: items[j].id != id
  {
    if items != [] {
      var front, last := items[..|items| - 1], items[|items| - 1];
      if last.id != id {
        MetMeans(front, id);
        if Met(front, id) {
          var k :| 0 <= k < |front| && front[k].id == id && front[k].satisfied && forall j | k < j < |front| :: front[j].id != id;
          assert items[k].id == id && forall j | k < j < |items| :: items[j].id != id;
        }
        if k :| 0 <= k < |items| && items[k].id == id && items[k].satisfied && forall j | k < j < |items| :: items[j].id != id {
          assert front[k].id == id && forall j | k < j < |front| :: front[j].id != id;
        }
      }
    }
  }

  predicate Open(items: seq<Item>, hidden: set<string>, c: Check) {
    !Met(items, c.id) && c.id !in hidden
  }

  /** The unmet entries whose id is not hidden, in checklist order. */
  function OpenChecks(checklist: seq<Check>, items: seq<Item>, hidden: set<string>): (r: seq<Check>)
    ensures |r| <= |checklist|
    ensures forall c :: c in r <==> c in checklist && Open(items, hidden, c)
  {
    if checklist == [] then []
    else
      var last := checklist[|checklist| - 1];
      assert checklist == checklist[..|checklist| - 1] + [last];
      var rest := OpenChecks(checklist[..|checklist| - 1], items, hidden);
      if Open(items, hidden, last) then rest + [last] else rest
  }

  function Take<T>(xs: seq<T>, n: nat): (r: seq<T>)
    ensures |r| <= n && r <= xs
    ensures n > 0 && r == [] ==> xs == []
    ensures forall x | x in r :: x in xs
  {
    if |xs| <= n then xs else xs[..n]
  }

  /** `select_disclosure_items`: what is unmet and not yet disclosed, else what is unmet. */
  function Select(checklist: seq<Check>, items: seq<Item>, disclosed: set<string>, batchSize: int): seq<Check> {
    var batch := Take(OpenChecks(checklist, items, disclosed), Max(1, batchSize));
    if batch != [] then batch else Take(OpenChecks(checklist, items, {}), Max(1, batchSize))
  }

  /** A batch has one to `batchSize` unmet entries, none only if nothing is unmet, and repeats only when it must. */
  lemma SelectFacts(checklist: seq<Check>, items: seq<Item>, disclosed: set<string>, batchSize: int)
    ensures var batch := Select(checklist, items, disclosed, batchSize);
            && |batch| <= Max(1, batchSize)
            && (batch == [] <==> forall c | c in checklist :: Met(items, c.id))
            && (forall c | c in batch :: c in checklist && !Met(items, c.id))
            && ((exists c :: c in batch && c.id in disclosed)
                ==> forall c | c in checklist && !Met(items, c.id) :: c.id in disclosed)
  {
    var undisclosed, unmet := OpenChecks(checklist, items, disclosed), OpenChecks(checklist, items, {});
    assert unmet == [] || unmet[0] in unmet;
    assert undisclosed == [] || undisclosed[0] in undisclosed;
    if c :| c in checklist && !Met(items, c.id) {
      assert c in unmet;
    }
    if c :| c in checklist && !Met(items, c.id) && c.id !in disclosed {
      assert c in undisclosed;
    }
  }

  // ---- the loop ----

  datatype Judgement = Judgement(items: seq<Item>, judge: Judge, allSatisfied: bool)

  /** Where the rest of a judged round is cut short: by the timeout before or after the verdict is read, or in the feedback. */
  datatype Cut = Uncut | AfterJudging | BeforeSelecting | InFeedback

  datatype Observation = Observation(metrics: Figures, toolTrace: Option<nat>)

  /** What the outside does in one round. */
  datatype Round =
    | NoAnswer
    | NoJudgement(seen: Observation)
    | Judged(seen: Observation, judgement: Judgement, cut: Cut)

  const RUNTIME_METRICS: seq<Metric> := [ToolCallCount, TotalTokens, InputTokens, OutputTokens, ApiCalls]

  function RoundMetrics(o: Observation): Figures {
    if o.toolTrace.Some? then o.metrics[ToolCallCount := o.toolTrace.value as real] else o.metrics
  }

  /** A branch's result. */
  datatype Run = Run(
    ok: bool, completed: bool, interactions: nat, totals: Figures,
    judgements: seq<Judgement>, disclosures: seq<seq<Check>>)

  function IdsIn(batch: seq<Check>): set<string> {
    set c | c in batch :: c.id
  }

  function DisclosedIds(disclosures: seq<seq<Check>>): set<string> {
    if disclosures == [] then {}
    else DisclosedIds(disclosures[..|disclosures| - 1]) + IdsIn(disclosures[|disclosures| - 1])
  }

  /** How a round ends: with a batch to disclose next, or the branch stops. */
  datatype Ending = Continue(batch: seq<Check>) | Stop(ok: bool, completed: bool)

  function EndOf(r: Round, turn: nat, limit: int, checklist: seq<Check>, disclosed: set<string>, batchSize: int): Ending {
    if !r.Judged? || r.judgement.judge == Missing || r.cut == AfterJudging then Stop(false, false)
    else if r.judgement.allSatisfied then Stop(true, true)
    else if turn >= limit then Stop(true, false)
    else if r.cut == BeforeSelecting then Stop(false, false)
    else
      var batch := Select(checklist, r.judgement.items, disclosed, batchSize);
      if batch == [] then Stop(true, false) else if r.cut == InFeedback then Stop(false, false) else Continue(batch)
  }

  predicate AllSay(world: nat -> Round, n: nat, m: Metric) {
    forall t: nat | t < n :: !world(t).NoAnswer? && m in RoundMetrics(world(t).seen)
  }

  function Total(world: nat -> Round, n: nat, m: Metric): real
    requires AllSay(world, n, m)
  {
    if n == 0 then 0.0 else Total(world, n - 1, m) + RoundMetrics(world(n - 1).seen)[m]
  }

  function Rounds(limit: int): nat {
    Max(1, Min(20, limit))
  }

  /** What a branch is run with. */
  datatype Setup = Setup(checklist: seq<Check>, limit: int, batchSize: int)

  function Next(s: Setup, world: nat -> Round, disclosures: seq<seq<Check>>): Ending {
    EndOf(world(|disclosures|), |disclosures| + 1, s.limit, s.checklist, DisclosedIds(disclosures), s.batchSize)
  }

  ghost predicate Disclosed(s: Setup, world: nat -> Round, disclosures: seq<seq<Check>>, t: nat)
    requires t < |disclosures|
  {
    Next(s, world, disclosures[..t]) == Continue(disclosures[t])
  }

  /** Every disclosure follows from its round; the judgements of all judged rounds are on record. */
  ghost predicate Follows(s: Setup, world: nat -> Round, judgements: seq<Judgement>, disclosures: seq<seq<Check>>) {
    && |disclosures| <= |judgements|
    && (forall t | 0 <= t < |judgements| :: world(t).Judged? && judgements[t] == world(t).judgement)
    && (forall t: nat | t < |disclosures| :: Disclosed(s, world, disclosures, t))
  }

  lemma FollowsOn(s: Setup, world: nat -> Round, judgements: seq<Judgement>, disclosures: seq<seq<Check>>, batch: seq<Check>)
    requires Follows(s, world, judgements, disclosures)
    requires |disclosures| < |judgements| && Next(s, world, disclosures) == Continue(batch)
    ensures Follows(s, world, judgements, disclosures + [batch])
    ensures DisclosedIds(disclosures + [batch]) == DisclosedIds(disclosures) + IdsIn(batch)
  {
    hide Next;
    var all := disclosures + [batch];
    assert all[..|disclosures|] == disclosures;
    forall t: nat | t < |all| ensures Disclosed(s, world, all, t) {
      if t < |disclosures| {
        assert all[..t] == disclosures[..t];
        assert Disclosed(s, world, disclosures, t);
      }
    }
  }

  /** How the run came to its end, `ok` being how it stood before the session was closed. */
  ghost predicate Ended(s: Setup, world: nat -> Round, ok: bool, r: Run) {
    var t := |r.disclosures|;
    if t == Rounds(s.limit) then ok && !r.completed && r.interactions == t && |r.judgements| == t
    else
      && t < Rounds(s.limit)
      && Next(s, world, r.disclosures) == Stop(ok, r.completed)
      && r.interactions == (if world(t).NoAnswer? then t else t + 1)
      && |r.judgements| == (if world(t).Judged? then t + 1 else t)
  }

  // ---- totals ----

  /** The running totals after `n` rounds, metric by metric. */
  ghost predicate TotalledAt(world: nat -> Round, n: nat, totals: Figures, unavailable: set<Metric>, m: Metric) {
    && (m in unavailable <==> m in RUNTIME_METRICS && !AllSay(world, n, m))
    && (m in RUNTIME_METRICS && n > 0 && AllSay(world, n, m) ==> Figure(totals, m) == Some(Total(world, n, m)))
    && (m !in RUNTIME_METRICS || n == 0 ==> Figure(totals, m) == None)
  }

  ghost predicate Totalled(world: nat -> Round, n: nat, totals: Figures, unavailable: set<Metric>) {
    forall m :: TotalledAt(world, n, totals, unavailable, m)
  }

  function FinalTotals(totals: Figures, unavailable: set<Metric>): Figures {
    map m | m in totals && m !in unavailable :: totals[m]
  }

  lemma FinalTotalsMean(world: nat -> Round, n: nat, totals: Figures, unavailable: set<Metric>)
    requires Totalled(world, n, totals, unavailable)
    ensures SumsOf(world, n, FinalTotals(totals, unavailable))
  {
    hide Total, AllSay, RUNTIME_METRICS;
    forall m ensures SumAt(world, n, FinalTotals(totals, unavailable), m) {
      assert TotalledAt(world, n, totals, unavailable, m);
    }
  }

  /** A total is there exactly when every one of the `n` rounds reported the metric, and then it is the sum. */
  ghost predicate SumAt(world: nat -> Round, n: nat, f: Figures, m: Metric) {
    Figure(f, m) == if m in RUNTIME_METRICS && n > 0 && AllSay(world, n, m) then Some(Total(world, n, m)) else None
  }

  ghost predicate SumsOf(world: nat -> Round, n: nat, f: Figures) {
    forall m :: SumAt(world, n, f, m)
  }

  method AddRound(world: nat -> Round, n: nat, totals: Figures, unavailable: set<Metric>)
    returns (t: Figures, u: set<Metric>)
    requires !world(n).NoAnswer? && Totalled(world, n, totals, unavailable)
    ensures Totalled(world, n + 1, t, u)
  {
    var f := RoundMetrics(world(n).seen);
    t, u := ReplayAggregate.AddEach(RUNTIME_METRICS, totals, unavailable, f);
    hide RUNTIME_METRICS;
    ghost var next := n + 1;
    forall m ensures TotalledAt(world, next, t, u, m) {
      assert TotalledAt(world, n, totals, unavailable, m);
      TotalledNext(world, n, totals, unavailable, t, u, m);
    }
  }

  lemma TotalledNext(
    world: nat -> Round, n: nat, totals: Figures, unavailable: set<Metric>, t: Figures, u: set<Metric>, m: Metric)
    requires !world(n).NoAnswer? && TotalledAt(world, n, totals, unavailable, m)
    requires m in u <==> m in unavailable || (m in RUNTIME_METRICS && m !in RoundMetrics(world(n).seen))
    requires Figure(t, m) == if m in RUNTIME_METRICS && m in RoundMetrics(world(n).seen)
                             then ReplayAggregate.Raised(totals, RoundMetrics(world(n).seen), m) else Figure(totals, m)
    ensures TotalledAt(world, n + 1, t, u, m)
  {
    hide RUNTIME_METRICS, RoundMetrics;
    assert AllSay(world, n + 1, m) <==> AllSay(world, n, m) && m in RoundMetrics(world(n).seen);
    if m in RUNTIME_METRICS && AllSay(world, n + 1, m) {
      assert Total(world, n + 1, m) == Total(world, n, m) + RoundMetrics(world(n).seen)[m];
      assert n > 0 ==> Figure(totals, m) == Some(totals[m]);
    }
  }

  /** `run_branch`; `ready` says that there is a query and the session opened, `closes` that it closed again. */
  method RunBranch(s: Setup, world: nat -> Round, ready: bool, closes: bool) returns (r: Run)
    ensures !ready || s.checklist == [] ==> r == Run(false, false, 0, map[], [], [])
    ensures ready && s.checklist != [] ==>
              Follows(s, world, r.judgements, r.disclosures) &&
              exists ok :: Ended(s, world, ok, r) && r.ok == (ok && closes)
    ensures SumsOf(world, r.interactions, r.totals)
  {
    if !ready || s.checklist == [] {
      return Run(false, false, 0, map[], [], []);
    }
    hide Select, DisclosedIds, Totalled, SumsOf, FinalTotals;
    var totals: Figures, unavailable: set<Metric> := map[], {};
    var disclosedIds: set<string>, disclosures: seq<seq<Check>>, judgements: seq<Judgement> := {}, [], [];
    var interactions, completed, ok := 0, false, false;
    assert Totalled(world, 0, map[], {}) && DisclosedIds([]) == {} by { NothingYet(world); }
    var turn := 1;
    while turn <= Rounds(s.limit)
      invariant !ok && !completed && turn == |disclosures| + 1 == |judgements| + 1 == interactions + 1 <= Rounds(s.limit) + 1
      invariant disclosedIds == DisclosedIds(disclosures)
      invariant Follows(s, world, judgements, disclosures)
      invariant Totalled(world, interactions, totals, unavailable)
    {
      var round := world(turn - 1);
      if round.NoAnswer? {
        break;
      }
      totals, unavailable := AddRound(world, interactions, totals, unavailable);
      interactions := interactions + 1;
      if round.NoJudgement? {
        break;
      }
      judgements := judgements + [round.judgement];
      if round.judgement.judge == Missing || round.cut == AfterJudging {
        break;
      }
      if round.judgement.allSatisfied {
        ok, completed := true, true;
        break;
      }
      if turn >= s.limit {
        ok := true;
        break;
      }
      if round.cut == BeforeSelecting {
        break;
      }
      var selected := Select(s.checklist, round.judgement.items, disclosedIds, s.batchSize);
      if selected == [] {
        ok := true;
        break;
      }
      if round.cut == InFeedback {
        break;
      }
      FollowsOn(s, world, judgements, disclosures, selected);
      disclosures := disclosures + [selected];
      disclosedIds := disclosedIds + IdsIn(selected);
      turn := turn + 1;
    }
    ok := ok || turn > Rounds(s.limit);
    FinalTotalsMean(world, interactions, totals, unavailable);
    r := Run(ok && closes, completed, interactions, FinalTotals(totals, unavailable), judgements, disclosures);
    assert Ended(s, world, ok, r);
  }

  lemma NothingYet(world: nat -> Round)
    ensures Totalled(world, 0, map[], {}) && SumsOf(world, 0, map[]) && DisclosedIds([]) == {}
  {
  }

  // ---- nothing unmet waits for ever ----

  /** How many of the first entries have been disclosed. */
  function CountDisclosed(checklist: seq<Check>, disclosed: set<string>): nat {
    if checklist == [] then 0
    else CountDisclosed(checklist[..|checklist| - 1], disclosed) + if checklist[|checklist| - 1].id in disclosed then 1 else 0
  }

  /** Disclosing the first `n` open entries raises the count by at least `n`. */
  lemma {:induction false} CountGrows(
    checklist: seq<Check>, items: seq<Item>, before: set<string>, after: set<string>, n: nat)
    requires before <= after && n <= |OpenChecks(checklist, items, before)|
    requires forall c | c in OpenChecks(checklist, items, before)[..n] :: c.id in after
    ensures CountDisclosed(checklist, after) >= CountDisclosed(checklist, before) + n
  {
    if checklist != [] {
      var front, last := checklist[..|checklist| - 1], checklist[|checklist| - 1];
      var r, open := OpenChecks(front, items, before), OpenChecks(checklist, items, before);
      if n <= |r| {
        assert open[..n] == r[..n];
        CountGrows(front, items, before, after, n);
      } else {
        assert open == r + [last] && open[n - 1] == last && open[n - 1] in open[..n];
        assert r[..n - 1] <= open[..n];
        CountGrows(front, items, before, after, n - 1);
      }
    }
  }

  lemma {:induction false} OpenPrefix(checklist: seq<Check>, p: nat, items: seq<Item>, hidden: set<string>)
    requires p < |checklist| && Open(items, hidden, checklist[p])
    ensures OpenChecks(checklist[..p], items, hidden) + [checklist[p]] <= OpenChecks(checklist, items, hidden)
  {
    if p == |checklist| - 1 {
    } else {
      var front := checklist[..|checklist| - 1];
      assert front[..p] == checklist[..p];
      OpenPrefix(front, p, items, hidden);
    }
  }

  /** A batch that passes over an open entry discloses `batchSize` earlier ones. */
  lemma PassedOver(s: Setup, p: nat, items: seq<Item>, disclosed: set<string>)
    requires p < |s.checklist| && Open(items, disclosed, s.checklist[p])
    requires s.checklist[p].id !in IdsIn(Select(s.checklist, items, disclosed, s.batchSize))
    ensures CountDisclosed(s.checklist[..p], disclosed + IdsIn(Select(s.checklist, items, disclosed, s.batchSize)))
            >= CountDisclosed(s.checklist[..p], disclosed) + Max(1, s.batchSize)
  {
    var b := Max(1, s.batchSize);
    var open := OpenChecks(s.checklist, items, disclosed);
    var earlier := OpenChecks(s.checklist[..p], items, disclosed);
    OpenPrefix(s.checklist, p, items, disclosed);
    var batch := Select(s.checklist, items, disclosed, s.batchSize);
    assert batch == Take(open, b);
    assert open[|earlier|] == s.checklist[p];
    assert |earlier| >= b;
    assert earlier[..b] == batch;
    CountGrows(s.checklist[..p], items, disclosed, disclosed + IdsIn(batch), b);
  }

  lemma CountAtMost(checklist: seq<Check>, disclosed: set<string>)
    ensures CountDisclosed(checklist, disclosed) <= |checklist|
  {
  }

  /** After `t` disclosures an entry that stayed unmet has been disclosed, or `t` full batches of earlier ones have. */
  lemma {:induction false} KeepsUp(
    s: Setup, world: nat -> Round, judgements: seq<Judgement>, disclosures: seq<seq<Check>>, p: nat, t: nat)
    requires Follows(s, world, judgements, disclosures) && p < |s.checklist| && t <= |disclosures|
    requires forall j | 0 <= j < t :: !Met(judgements[j].items, s.checklist[p].id)
    ensures || s.checklist[p].id in DisclosedIds(disclosures[..t])
            || CountDisclosed(s.checklist[..p], DisclosedIds(disclosures[..t])) >= t * Max(1, s.batchSize)
  {
    if t > 0 {
      KeepsUp(s, world, judgements, disclosures, p, t - 1);
      var before := DisclosedIds(disclosures[..t - 1]);
      OneDisclosure(s, world, judgements, disclosures, t - 1);
      hide DisclosedIds, CountDisclosed, Select, Follows;
      if s.checklist[p].id !in DisclosedIds(disclosures[..t]) {
        PassedOver(s, p, judgements[t - 1].items, before);
        OneMore(t, Max(1, s.batchSize));
      }
    }
  }

  lemma OneMore(t: nat, b: nat)
    requires t > 0
    ensures t * b == (t - 1) * b + b
  {
  }

  lemma OneDisclosure(s: Setup, world: nat -> Round, judgements: seq<Judgement>, disclosures: seq<seq<Check>>, t: nat)
    requires Follows(s, world, judgements, disclosures) && t < |disclosures|
    ensures DisclosedIds(disclosures[..t + 1]) == DisclosedIds(disclosures[..t]) + IdsIn(disclosures[t])
    ensures disclosures[t] == Select(s.checklist, judgements[t].items, DisclosedIds(disclosures[..t]), s.batchSize)
  {
    hide Select;
    assert disclosures[..t + 1][..t] == disclosures[..t];
    assert Disclosed(s, world, disclosures, t);
  }

  /** The entry at position `p`, as long as it stays unmet, is disclosed by round p / batchSize + 1, whatever the judge does. */
  lemma DisclosedInTime(s: Setup, world: nat -> Round, judgements: seq<Judgement>, disclosures: seq<seq<Check>>, p: nat)
    requires Follows(s, world, judgements, disclosures) && p < |s.checklist|
    requires p / Max(1, s.batchSize) + 1 <= |disclosures|
    requires forall j | 0 <= j <= p / Max(1, s.batchSize) :: !Met(judgements[j].items, s.checklist[p].id)
    ensures s.checklist[p].id in DisclosedIds(disclosures[..p / Max(1, s.batchSize) + 1])
  {
    var b := Max(1, s.batchSize);
    var t := p / b + 1;
    KeepsUp(s, world, judgements, disclosures, p, t);
    assert t * b > p by { assert p == b * (p / b) + p % b; assert t * b == b * (p / b) + b; }
    CountAtMost(s.checklist[..p], DisclosedIds(disclosures[..t]));
  }

  /** No batch repeats an entry while an unmet one is still undisclosed. */
  lemma RepeatsOnlyAtTheEnd(
    s: Setup, world: nat -> Round, judgements: seq<Judgement>, disclosures: seq<seq<Check>>, t: nat, c: Check, other: Check)
    requires Follows(s, world, judgements, disclosures) && t < |disclosures|
    requires c in disclosures[t] && other in s.checklist && !Met(judgements[t].items, other.id)
    ensures c in s.checklist && !Met(judgements[t].items, c.id)
    ensures c.id in DisclosedIds(disclosures[..t]) ==> other.id in DisclosedIds(disclosures[..t])
  {
    assert Disclosed(s, world, disclosures, t);
    SelectFacts(s.checklist, judgements[t].items, DisclosedIds(disclosures[..t]), s.batchSize);
  }

  // ---- what a run hands to the evaluation ----

  function RawOf(r: Run): Raw {
    if r.judgements == [] then Raw([], Missing)
    else Raw(r.judgements[|r.judgements| - 1].items, r.judgements[|r.judgements| - 1].judge)
  }

  /** The branch record: turns are counted, other metrics carry their totals. */
  function BranchOf(r: Run, toolTrace: Option<nat>): ReplayAggregate.Branch {
    var values := map m | m in r.totals :: Number(r.totals[m]);
    ReplayAggregate.Branch(r.ok, Observed(values[InteractionTurns := Number(r.interactions as real)], toolTrace), RawOf(r))
  }

  /** A run that ended well held at least one interaction, was judged in every round, and its turns are counted. */
  lemma GoodRun(s: Setup, world: nat -> Round, ok: bool, r: Run, toolTrace: Option<nat>)
    requires Follows(s, world, r.judgements, r.disclosures) && Ended(s, world, ok, r) && (r.ok ==> ok)
    ensures ReplayAggregate.FromRunBranch(BranchOf(r, toolTrace))
    ensures r.ok ==> 0 < r.interactions == |r.judgements| <= 20 && r.interactions <= Max(1, s.limit)
    ensures r.ok ==> RawOf(r).judge == Model
    ensures r.ok && !r.completed && r.interactions < Rounds(s.limit)
            ==> forall c | c in s.checklist :: Met(RawOf(r).items, c.id)
  {
    var t := |r.disclosures|;
    if r.ok {
      if t == Rounds(s.limit) {
        assert Disclosed(s, world, r.disclosures, t - 1);
      } else {
        SelectFacts(s.checklist, world(t).judgement.items, DisclosedIds(r.disclosures), s.batchSize);
      }
    }
  }

  // ---- when a run is good ----

  /** Round `t` was answered, judged by the model, and not cut short before its verdict was read. */
  predicate Clean(world: nat -> Round, t: nat) {
    world(t).Judged? && world(t).judgement.judge == Model && world(t).cut != AfterJudging
  }

  predicate AllMet(checklist: seq<Check>, items: seq<Item>) {
    forall c | c in checklist :: Met(items, c.id)
  }

  /** The last round stops the run well: all is satisfied, the limit is reached, nothing is unmet, or it was the twentieth. */
  predicate StopsWell(s: Setup, world: nat -> Round, n: nat)
    requires n > 0
  {
    var last := world(n - 1);
    && last.Judged?
    && (|| last.judgement.allSatisfied || n >= s.limit
        || (last.cut != BeforeSelecting
            && (AllMet(s.checklist, last.judgement.items) || (n >= 20 && last.cut != InFeedback))))
  }

  lemma EndMeans(s: Setup, world: nat -> Round, disclosures: seq<seq<Check>>)
    ensures var e, t := Next(s, world, disclosures), |disclosures|;
            && (e.Continue? <==> Clean(world, t) && !world(t).judgement.allSatisfied && t + 1 < s.limit && world(t).cut == Uncut
                                 && !AllMet(s.checklist, world(t).judgement.items))
            && (e.Stop? && e.completed ==> e.ok)
            && (e == Stop(true, true) <==> Clean(world, t) && world(t).judgement.allSatisfied)
            && (e == Stop(true, false) <==>
                  && Clean(world, t) && !world(t).judgement.allSatisfied
                  && (t + 1 >= s.limit || (world(t).cut != BeforeSelecting && AllMet(s.checklist, world(t).judgement.items))))
  {
    if world(|disclosures|).Judged? {
      SelectFacts(s.checklist, world(|disclosures|).judgement.items, DisclosedIds(disclosures), s.batchSize);
    }
  }

  lemma RoundsMean(limit: int)
    ensures Rounds(limit) == if limit < 1 then 1 else if limit > 20 then 20 else limit
  {
  }

  /**
   When a run ends well, before its session is closed: it held a round, every round was clean, and the last one stops
   it well. It is complete exactly if it ends well with everything satisfied.
   */
  lemma GoodExactly(s: Setup, world: nat -> Round, ok: bool, r: Run)
    requires Follows(s, world, r.judgements, r.disclosures) && Ended(s, world, ok, r)
    ensures ok <==>
              && r.interactions > 0 && (forall t: nat | t < r.interactions :: Clean(world, t))
              && StopsWell(s, world, r.interactions)
    ensures r.completed <==> ok && world(r.interactions - 1).judgement.allSatisfied
  {
    var d := |r.disclosures|;
    RoundsMean(s.limit);
    hide Rounds, Next, Select;
    forall t: nat | t < d
      ensures Clean(world, t) && !world(t).judgement.allSatisfied && t + 1 < s.limit && world(t).cut == Uncut
              && !AllMet(s.checklist, world(t).judgement.items)
    {
      assert Disclosed(s, world, r.disclosures, t);
      EndMeans(s, world, r.disclosures[..t]);
    }
    EndMeans(s, world, r.disclosures);
    hide Follows, Clean, AllMet;
    if d == Rounds(s.limit) {
      assert Clean(world, d - 1);
      assert d >= 20;
    } else if !world(d).NoAnswer? {
      assert r.interactions == d + 1;
      if ok {
        forall t: nat | t < r.interactions ensures Clean(world, t) {}
      } else if Clean(world, d) {
        assert !StopsWell(s, world, d + 1);
      }
    } else if d > 0 {
      assert r.interactions == d && Clean(world, d - 1);
    }
  }
}
