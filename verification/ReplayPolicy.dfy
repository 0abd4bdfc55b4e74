/** Checklist reports and the checklist-first decision of True Replay. */
module ReplayPolicy {
  import opened Basics
  import opened ReplayMetrics
  import opened Text

  /** A checklist entry of a case. */
  datatype Check = Check(id: string, text: string)

  /** One judged entry as a report carries it; `satisfied` is the judge's literal `true`. */
  datatype Item = Item(id: string, satisfied: bool, evidence: string)

  datatype Judge = Model | Missing

  /** A branch's raw checklist report: whatever the judge returned. */
  datatype Raw = Raw(items: seq<Item>, judge: Judge)

  datatype Report = Report(items: seq<Item>, judge: Judge)

  predicate AllSatisfied(r: Report) {
    forall x | x in r.items :: x.satisfied
  }

  /** The last raw entry under an id wins. */
  function Lookup(items: seq<Item>, id: string): Option<Item> {
    if items == [] then None
    else if items[|items| - 1].id == id && id != "" then Some(items[|items| - 1])
    else Lookup(items[..|items| - 1], id)
  }

  /** An entry counts as satisfied only with evidence. */
  function Judged(id: string, found: Option<Item>): Item {
    if found.None? then Item(id, false, "")
    else Item(id, found.value.satisfied && HasText(found.value.evidence), found.value.evidence)
  }

  function JudgedAll(ids: seq<string>, items: seq<Item>): seq<Item> {
    if ids == [] then [] else [Judged(ids[0], Lookup(items, ids[0]))] + JudgedAll(ids[1..], items)
  }

  function Checked(items: seq<Item>): seq<Item> {
    if items == [] then [] else [Judged(items[0].id, Some(items[0]))] + Checked(items[1..])
  }

  function Ids(checks: seq<Check>): seq<string> {
    if checks == [] then [] else [checks[0].id] + Ids(checks[1..])
  }

  /** `normalize_checklist_report`: against an expected checklist, or of the raw items alone. */
  function Normalize(raw: Raw, expected: seq<Check>): Report {
    Report(if expected != [] then JudgedAll(Ids(expected), raw.items) else Checked(raw.items), raw.judge)
  }

  method NormalizeItems(raw: seq<Item>, expected: seq<Check>) returns (items: seq<Item>)
    ensures items == if expected != [] then JudgedAll(Ids(expected), raw) else Checked(raw)
  {
    items := [];
    if expected != [] {
      hide Lookup, Judged;
      for i := 0 to |expected|
        invariant items + JudgedAll(Ids(expected[i..]), raw) == JudgedAll(Ids(expected), raw)
      {
        assert expected[i..][1..] == expected[i + 1..];
        items := items + [Judged(expected[i].id, Lookup(raw, expected[i].id))];
      }
    } else {
      hide Judged;
      for i := 0 to |raw|
        invariant items + Checked(raw[i..]) == Checked(raw)
      {
        assert raw[i..][1..] == raw[i + 1..];
        items := items + [Judged(raw[i].id, Some(raw[i]))];
      }
    }
  }

  method NormalizeReport(raw: Raw, expected: seq<Check>) returns (r: Report, unmet: nat)
    ensures r == Normalize(raw, expected)
    ensures unmet == 0 <==> AllSatisfied(r)
  {
    var items := NormalizeItems(raw.items, expected);
    r := Report(items, raw.judge);
    unmet := 0;
    for i := 0 to |items|
      invariant unmet == 0 <==> forall j | 0 <= j < i :: items[j].satisfied
    {
      if !items[i].satisfied {
        unmet := unmet + 1;
      }
    }
  }

  lemma {:induction false} CheckedTwice(items: seq<Item>)
    ensures Checked(Checked(items)) == Checked(items)
  {
    if items != [] { CheckedTwice(items[1..]); }
  }

  lemma {:induction false} JudgedThenChecked(ids: seq<string>, items: seq<Item>)
    ensures Checked(JudgedAll(ids, items)) == JudgedAll(ids, items)
  {
    if ids != [] { JudgedThenChecked(ids[1..], items); }
  }

  /** Normalising a normalised report without a checklist changes nothing. */
  lemma NormalizeTwice(raw: Raw, expected: seq<Check>)
    ensures var r := Normalize(raw, expected); Normalize(Raw(r.items, r.judge), []) == r
  {
    CheckedTwice(raw.items);
    JudgedThenChecked(Ids(expected), raw.items);
  }

  // ---- the decision ----

  /** What the decision looks at in a checklist: of one case, or merged over cases. */
  datatype Summary = Summary(total: nat, passed: bool, judge: Judge)

  function Summarize(r: Report): Summary {
    Summary(|r.items|, AllSatisfied(r), r.judge)
  }

  /** `progressive_replay_decision`: checklists first, then the objective comparison. */
  function Progressive(base: Figures, cand: Figures, b: Summary, c: Summary): (p: Policy)
    ensures p.accepted <==> p.verdict == Accept
    ensures p.accepted ==> p.noRegression
  {
    var policy := Objective(base, cand);
    if b.judge == Missing || c.judge == Missing then Policy(false, Inconclusive, false, "checklist_judge_unavailable", [])
    else if c.total > 0 && b.total > 0 && !c.passed && !b.passed
    then Policy(false, Inconclusive, false, "both_checklists_incomplete", [])
    else if c.total > 0 && !c.passed then Policy(false, Reject, false, "candidate_checklist_incomplete", [])
    else if c.total > 0 && b.total > 0 && !b.passed then Policy(true, Accept, true, "candidate_only_completed_checklist", [])
    else policy
  }

  /** The candidate wins by completing a checklist the baseline did not complete, or else by needing less effort. */
  lemma ProgressiveAccepts(base: Figures, cand: Figures, b: Summary, c: Summary)
    requires Complete(base) && Complete(cand)
    ensures Progressive(base, cand, b, c).verdict == Accept <==>
            && b.judge == Model && c.judge == Model
            && (c.total > 0 ==> c.passed)
            && ((c.total > 0 && b.total > 0 && !b.passed) || Less(EffortOf(cand), EffortOf(base)))
  {
    ObjectiveIsLess(base, cand);
    hide Objective, Less;
  }

  /** The checklists leave the decision open: the candidate met what there is, and so did the baseline unless one has none. */
  predicate Open(b: Summary, c: Summary) {
    (c.total > 0 ==> c.passed) && (c.total > 0 && b.total > 0 ==> b.passed)
  }

  /** When the candidate is rejected: it alone missed its checklist, or nothing is missed and the comparison rejects it. */
  lemma ProgressiveRejects(base: Figures, cand: Figures, b: Summary, c: Summary)
    ensures Progressive(base, cand, b, c).verdict == Reject <==>
            && b.judge == Model && c.judge == Model
            && (|| (c.total > 0 && !c.passed && (b.total > 0 ==> b.passed))
                || (Open(b, c) && Objective(base, cand).verdict == Reject))
  {
    hide Objective;
  }

  /** When nothing is decided: a judge is missing, both missed their checklists, or nothing is missed and the comparison ties. */
  lemma ProgressiveTies(base: Figures, cand: Figures, b: Summary, c: Summary)
    ensures Progressive(base, cand, b, c).verdict == Inconclusive <==>
            || b.judge == Missing || c.judge == Missing
            || (c.total > 0 && b.total > 0 && !c.passed && !b.passed)
            || (Open(b, c) && Objective(base, cand).verdict == Inconclusive)
  {
    hide Objective;
  }

  /** A raw entry that counts: the judge's literal yes, with evidence. */
  predicate Attests(x: Item) {
    x.satisfied && HasText(x.evidence)
  }

  /** The last raw entry under the id, which is not empty, attests it. */
  predicate Attested(items: seq<Item>, id: string) {
    id != "" && exists k | 0 <= k < |items| ::
      items[k].id == id && Attests(items[k]) && forall j | k < j < |items| :: items[j].id != id
  }

  lemma {:induction false} LookupIsLast(items: seq<Item>, id: string)
    requires id != ""
    ensures Lookup(items, id).Some? && Attests(Lookup(items, id).value) <==> Attested(items, id)
    ensures Lookup(items, id).Some? ==> Lookup(items, id).value.id == id
  {
    if items != [] {
      var front, last := items[..|items| - 1], items[|items| - 1];
      if last.id == id {
        assert Attested(items, id) <==> Attests(last);
      } else {
        LookupIsLast(front, id);
        if Attested(front, id) {
          var k :| 0 <= k < |front| && front[k].id == id && Attests(front[k]) && forall j | k < j < |front| :: front[j].id != id;
          assert items[k].id == id && forall j | k < j < |items| :: items[j].id != id;
        }
        if Attested(items, id) {
          var k :| 0 <= k < |items| && items[k].id == id && Attests(items[k]) && forall j | k < j < |items| :: items[j].id != id;
          assert front[k].id == id && forall j | k < j < |front| :: front[j].id != id;
        }
      }
    }
  }

  lemma FirstAndRest(first: Item, rest: seq<Item>)
    ensures (forall x | x in [first] + rest :: x.satisfied) <==> first.satisfied && forall x | x in rest :: x.satisfied
  {
    assert first in [first] + rest && forall x | x in rest :: x in [first] + rest;
  }

  lemma {:induction false} JudgedMeans(ids: seq<string>, items: seq<Item>)
    ensures (forall x | x in JudgedAll(ids, items) :: x.satisfied) <==> forall id | id in ids :: Attested(items, id)
  {
    if ids != [] {
      JudgedMeans(ids[1..], items);
      var first := Judged(ids[0], Lookup(items, ids[0]));
      assert first.satisfied <==> Attested(items, ids[0]) by {
        if ids[0] == "" { NoLookup(items); } else { LookupIsLast(items, ids[0]); }
      }
      FirstAndRest(first, JudgedAll(ids[1..], items));
      hide Judged, Lookup, Attested;
      assert ids == [ids[0]] + ids[1..];
      assert forall id :: id in ids <==> id == ids[0] || id in ids[1..];
    }
  }

  lemma {:induction false} NoLookup(items: seq<Item>)
    ensures Lookup(items, "") == None
  {
    if items != [] { NoLookup(items[..|items| - 1]); }
  }

  lemma {:induction false} CheckedMeans(items: seq<Item>)
    ensures (forall x | x in Checked(items) :: x.satisfied) <==> forall x | x in items :: Attests(x)
  {
    if items != [] {
      CheckedMeans(items[1..]);
      FirstAndRest(Judged(items[0].id, Some(items[0])), Checked(items[1..]));
      assert Judged(items[0].id, Some(items[0])).satisfied <==> Attests(items[0]);
      hide Judged, Attests;
      assert forall x :: x in items <==> x == items[0] || x in items[1..];
    }
  }

  lemma {:induction false} IdsMean(items: seq<Item>, checks: seq<Check>)
    ensures (forall id | id in Ids(checks) :: Attested(items, id)) <==> forall c | c in checks :: Attested(items, c.id)
    ensures checks != [] ==> Ids(checks) != []
  {
    hide Attested;
    if checks != [] {
      IdsMean(items, checks[1..]);
      assert forall c :: c in checks <==> c == checks[0] || c in checks[1..];
      var ids := Ids(checks);
      assert ids[0] == checks[0].id && ids[1..] == Ids(checks[1..]);
      assert forall id :: id in ids <==> id == ids[0] || id in ids[1..];
    }
  }

  /**
   When a branch has met its checklist: each expected entry has an id under which the judge's last word is yes, with
   evidence. Without an expected checklist every raw entry must attest itself.
   */
  lemma MetExactly(raw: Raw, expected: seq<Check>)
    ensures AllSatisfied(Normalize(raw, expected)) <==>
            if expected != [] then forall c | c in expected :: Attested(raw.items, c.id)
            else forall x | x in raw.items :: Attests(x)
  {
    JudgedMeans(Ids(expected), raw.items);
    CheckedMeans(raw.items);
    IdsMean(raw.items, expected);
    hide Attested, Attests, JudgedAll, Checked, Ids;
  }

  /** Merge the reports of one branch over all cases; empty reports are left out. */
  function Merge(reports: seq<Report>): Summary {
    if reports == [] then Summary(0, true, Model)
    else
      var rest := Merge(reports[..|reports| - 1]);
      var r := reports[|reports| - 1];
      if |r.items| == 0 then rest
      else Summary(rest.total + |r.items|, rest.passed && AllSatisfied(r), if r.judge == Missing then Missing else rest.judge)
  }

  /** `aggregate_case_checklists` over the raw reports the cases carry. */
  method AggregateChecklists(raws: seq<Raw>) returns (s: Summary)
    ensures s == Merge(seq(|raws|, i requires 0 <= i < |raws| => Normalize(raws[i], [])))
  {
    hide AllSatisfied, Normalize;
    var total: nat, passed, judge := 0, true, Model;
    ghost var all := seq(|raws|, i requires 0 <= i < |raws| => Normalize(raws[i], []));
    for i := 0 to |raws|
      invariant Summary(total, passed, judge) == Merge(all[..i])
    {
      assert all[..i + 1][..i] == all[..i];
      var r, unmet := NormalizeReport(raws[i], []);
      if |r.items| > 0 {
        total := total + |r.items|;
        passed := passed && unmet == 0;
        judge := if r.judge == Missing then Missing else judge;
      }
    }
    assert all[..|raws|] == all;
    s := Summary(total, passed, judge);
  }

  /** What the merged summary means for the reports that went into it. */
  lemma {:induction false} MergeMeans(reports: seq<Report>)
    ensures Merge(reports).passed <==> forall r | r in reports :: AllSatisfied(r)
    ensures Merge(reports).judge == Missing <==> exists r :: r in reports && r.items != [] && r.judge == Missing
    ensures Merge(reports).total == 0 <==> forall r | r in reports :: r.items == []
  {
    if reports != [] {
      var last := reports[|reports| - 1];
      MergeMeans(reports[..|reports| - 1]);
      assert reports == reports[..|reports| - 1] + [last];
      assert forall r :: r in reports <==> r in reports[..|reports| - 1] || r == last;
    }
  }
}
