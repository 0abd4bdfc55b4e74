/** A session is split along the boundaries; its turns, messages and counts are kept, and its parts are told apart. */
module SessionSplit {
  import opened Basics
  import opened Numerals
  import opened Boundaries
  import opened BoundaryMeaning
  import opened LateSegments

  /** A turn, with the counts its metrics report (0 where there are none) and the tool calls it lists. */
  datatype Turn = Turn(
    messages: seq<string>, toolCallCount: int, toolCalls: nat, apiCalls: int, input: int, output: int, total: int)

  /** What adds up over turns; `reported` is the sum of the total tokens the turns report. */
  datatype Counts = Counts(turns: nat, messages: nat, toolCalls: int, apiCalls: int, input: int, output: int, reported: int)

  /** A session's metrics. */
  datatype Metrics = Metrics(turns: nat, messages: nat, toolCalls: int, apiCalls: int, input: int, output: int, total: int)

  datatype Session = Session(
    id: string, turns: seq<Turn>, messages: seq<string>, metrics: Metrics, splitFrom: string, candidate: string)

  function ToolCalls(t: Turn): int {
    if t.toolCallCount != 0 then t.toolCallCount else t.toolCalls
  }

  function MessagesOf(turns: seq<Turn>): seq<string> {
    if turns == [] then [] else turns[0].messages + MessagesOf(turns[1..])
  }

  function Add(a: Counts, b: Counts): Counts {
    Counts(a.turns + b.turns, a.messages + b.messages, a.toolCalls + b.toolCalls, a.apiCalls + b.apiCalls,
           a.input + b.input, a.output + b.output, a.reported + b.reported)
  }

  function One(t: Turn): Counts {
    Counts(1, |t.messages|, ToolCalls(t), t.apiCalls, t.input, t.output, t.total)
  }

  const NONE := Counts(0, 0, 0, 0, 0, 0, 0)

  /** The counts over some turns. */
  function Measure(turns: seq<Turn>): Counts {
    if turns == [] then NONE else Add(One(turns[0]), Measure(turns[1..]))
  }

  /** Input plus output tokens stand in where no total is reported. */
  function TotalTokens(c: Counts): int {
    if c.reported != 0 then c.reported else c.input + c.output
  }

  function MetricsOf(turns: seq<Turn>): Metrics {
    var c := Measure(turns);
    Metrics(c.turns, c.messages, c.toolCalls, c.apiCalls, c.input, c.output, TotalTokens(c))
  }

  /** `xs[lo:hi]` for indices that are not negative. */
  function Slice<T>(xs: seq<T>, lo: nat, hi: nat): seq<T> {
    if hi <= lo || |xs| <= lo then [] else if hi <= |xs| then xs[lo..hi] else xs[lo..]
  }

  /** `s[:k]`; a negative `k` counts from the end. */
  function Prefix(s: string, k: int): string {
    if k >= |s| then s else if k >= 0 then s[..k] else if |s| + k >= 0 then s[..|s| + k] else ""
  }

  function Suffix(start: nat, end: nat): string {
    "_s" + Padded(start) + "-" + Padded(end)
  }

  function SegmentId(base: string, start: nat, end: nat): string {
    Prefix(base, 200 - |Suffix(start, end)|) + Suffix(start, end)
  }

  function BaseId(s: Session): string {
    if s.id == "" then "session" else s.id
  }

  function BuildSegment(s: Session, turns: seq<Turn>, start: nat, end: nat): Session {
    Session(SegmentId(BaseId(s), start, end), turns, MessagesOf(turns), MetricsOf(turns), BaseId(s), s.candidate)
  }

  function BoundariesFor(reply: Option<seq<Entry>>, n: int): seq<Span> {
    if reply.Some? then Coerced(reply.value, n) else []
  }

  /** Each segment's turns. */
  function Parts(turns: seq<Turn>, f: seq<Span>): (ps: seq<seq<Turn>>)
    requires Chain(f, |turns|)
    ensures |ps| == |f|
    ensures forall i | 0 <= i < |f| :: f[i].end >= 0 && ps[i] == Slice(turns, f[i].start - 1, f[i].end)
  {
    seq(|f|, i requires 0 <= i < |f| => Slice(turns, f[i].start - 1, f[i].end))
  }

  /** No model, or a reply that could not be used, is no reply. */
  function Split(s: Session, enabled: bool, reply: Option<seq<Entry>>): seq<Session> {
    if !enabled || s.splitFrom != "" || s.candidate != "" || s.turns == [] then [s]
    else
      var f := BoundariesFor(reply, |s.turns|);
      BoundariesChain(s, reply);
      if |f| <= 1 then [s]
      else
        var ps := Parts(s.turns, f);
        seq(|f|, i requires 0 <= i < |f| => BuildSegment(s, ps[i], f[i].start, f[i].end))
  }

  lemma BoundariesChain(s: Session, reply: Option<seq<Entry>>)
    requires s.turns != []
    ensures var f := BoundariesFor(reply, |s.turns|);
            Chain(f, |s.turns|) && (f != [] ==> Last(f).end == |s.turns|)
  {
    if reply.Some? && Parse(reply.value, |s.turns|) != [] {
      CoercedChain(reply.value, |s.turns|);
    }
  }

  // ---- conservation ----

  lemma SlicesJoin<T>(xs: seq<T>, middle: nat, end: nat)
    requires middle <= end || |xs| <= end
    ensures Slice(xs, 0, middle) + Slice(xs, middle, end) == Slice(xs, 0, end)
  {
  }

  lemma FlattenOne<T>(xs: seq<T>)
    ensures Flatten([xs]) == xs
  {
    assert [xs][1..] == [];
  }

  lemma {:induction false} PartsConcatenate(turns: seq<Turn>, f: seq<Span>, k: nat)
    requires Chain(f, |turns|) && k <= |f|
    ensures Flatten(Parts(turns, f)[..k]) == if k == 0 then [] else Slice(turns, 0, f[k - 1].end)
  {
    var ps := Parts(turns, f);
    if k > 0 {
      PartsConcatenate(turns, f, k - 1);
      assert ps[..k] == ps[..k - 1] + [ps[k - 1]];
      FlattenConcat(ps[..k - 1], [ps[k - 1]]);
      FlattenOne(ps[k - 1]);
      var before := if k == 1 then 0 else f[k - 2].end;
      assert f[k - 1].start == before + 1 by { if k > 1 { assert f[k - 2 + 1].start == f[k - 2].end + 1; } }
      hide Flatten, Parts, Chain;
      SlicesJoin(turns, before, f[k - 1].end);
    }
  }

  lemma PartsJoin(turns: seq<Turn>, f: seq<Span>)
    requires Chain(f, |turns|) && f != [] && Last(f).end == |turns|
    ensures Flatten(Parts(turns, f)) == turns
  {
    PartsConcatenate(turns, f, |f|);
    assert Parts(turns, f)[..|f|] == Parts(turns, f);
  }

  function TurnsOf(parts: seq<Session>): (r: seq<seq<Turn>>)
    ensures |r| == |parts| && forall i | 0 <= i < |r| :: r[i] == parts[i].turns
  {
    seq(|parts|, i requires 0 <= i < |parts| => parts[i].turns)
  }

  lemma SplitIsUsable(s: Session, enabled: bool, reply: Option<seq<Entry>>)
    requires Split(s, enabled, reply) != [s]
    ensures s.turns != [] && reply.Some? && Parse(reply.value, |s.turns|) != []
    ensures BoundariesFor(reply, |s.turns|) == Coerced(reply.value, |s.turns|) != []
    ensures |Split(s, enabled, reply)| == |BoundariesFor(reply, |s.turns|)|
  {
  }

  /**
   When a session is split: splitting is on, it is neither a part nor a candidate's, and the reply makes more than one
   segment of its turns. Then there are as many parts as segments, each marked with where it comes from.
   */
  lemma SplitExactly(s: Session, enabled: bool, reply: Option<seq<Entry>>)
    ensures Split(s, enabled, reply) != [s] <==>
              && enabled && s.splitFrom == "" && s.candidate == "" && s.turns != []
              && reply.Some? && Usable(reply.value, |s.turns|) != []
              && var es := Usable(reply.value, |s.turns|); es[0].start > 1 || Beyond(es[1..], es[0].end, |s.turns|)
    ensures Split(s, enabled, reply) != [s] ==> |Split(s, enabled, reply)| == |Coerced(reply.value, |s.turns|)| > 1
  {
    if s.turns != [] && reply.Some? {
      UsableReady(reply.value, |s.turns|);
      if Parse(reply.value, |s.turns|) != [] { SeveralExactly(reply.value, |s.turns|); }
    }
    hide Usable, Beyond, Parts, Parse, Fill, Order, Sort, SegmentId, MessagesOf, MetricsOf;
  }

  lemma PartsTurns(s: Session, enabled: bool, reply: Option<seq<Entry>>)
    requires Split(s, enabled, reply) != [s] && Chain(BoundariesFor(reply, |s.turns|), |s.turns|)
    ensures TurnsOf(Split(s, enabled, reply)) == Parts(s.turns, BoundariesFor(reply, |s.turns|))
  {
    hide Coerced, Parts, SegmentId, MessagesOf, MetricsOf, Chain;
  }

  /** Whatever the reply, the parts' turns are the session's turns, in order, each once. */
  lemma TurnsConserved(s: Session, enabled: bool, reply: Option<seq<Entry>>)
    ensures Flatten(TurnsOf(Split(s, enabled, reply))) == s.turns
  {
    hide BoundariesFor, Split, Parts, Chain, Flatten;
    var parts := Split(s, enabled, reply);
    if parts == [s] {
      assert TurnsOf([s]) == [s.turns];
      FlattenOne(s.turns);
    } else {
      var f := BoundariesFor(reply, |s.turns|);
      SplitIsUsable(s, enabled, reply);
      BoundariesChain(s, reply);
      PartsTurns(s, enabled, reply);
      PartsJoin(s.turns, f);
    }
  }

  lemma {:induction false} MessagesConcat(a: seq<Turn>, b: seq<Turn>)
    ensures MessagesOf(a + b) == MessagesOf(a) + MessagesOf(b)
  {
    if a == [] {
      assert a + b == b;
    } else {
      assert (a + b)[1..] == a[1..] + b;
      MessagesConcat(a[1..], b);
    }
  }

  function TotalCounts(parts: seq<seq<Turn>>): Counts {
    if parts == [] then NONE else Add(Measure(parts[0]), TotalCounts(parts[1..]))
  }

  function AllMessages(parts: seq<seq<Turn>>): seq<string> {
    if parts == [] then [] else MessagesOf(parts[0]) + AllMessages(parts[1..])
  }

  lemma AddZero(c: Counts)
    ensures Add(NONE, c) == c
  {
  }

  lemma {:induction false} MeasureCounts(turns: seq<Turn>)
    ensures Measure(turns).turns == |turns| && Measure(turns).messages == |MessagesOf(turns)|
  {
    if turns != [] { MeasureCounts(turns[1..]); }
  }

  /** A column summed over the turns. */
  function Column(turns: seq<Turn>, f: Turn -> int): int {
    if turns == [] then 0 else f(turns[0]) + Column(turns[1..], f)
  }

  /** Each count is the sum of its own column; a turn that counts no tool calls counts the ones it lists. */
  lemma {:induction false} MeasureColumns(turns: seq<Turn>)
    ensures var c := Measure(turns);
            && c.input == Column(turns, (t: Turn) => t.input) && c.output == Column(turns, (t: Turn) => t.output)
            && c.apiCalls == Column(turns, (t: Turn) => t.apiCalls) && c.reported == Column(turns, (t: Turn) => t.total)
            && c.toolCalls == Column(turns, (t: Turn) => if t.toolCallCount == 0 then t.toolCalls else t.toolCallCount)
  {
    if turns != [] { MeasureColumns(turns[1..]); }
  }

  lemma AddAssociates(a: Counts, b: Counts, c: Counts)
    ensures Add(Add(a, b), c) == Add(a, Add(b, c))
  {
  }

  lemma {:induction false} MeasureConcat(a: seq<Turn>, b: seq<Turn>)
    ensures Measure(a + b) == Add(Measure(a), Measure(b))
  {
    hide One, Add;
    if a == [] {
      assert a + b == b;
      AddZero(Measure(b));
    } else {
      assert (a + b)[1..] == a[1..] + b && (a + b)[0] == a[0];
      MeasureConcat(a[1..], b);
      AddAssociates(One(a[0]), Measure(a[1..]), Measure(b));
    }
  }

  lemma {:induction false} TotalsConcatenate(parts: seq<seq<Turn>>)
    ensures Measure(Flatten(parts)) == TotalCounts(parts)
    ensures MessagesOf(Flatten(parts)) == AllMessages(parts)
  {
    if parts != [] {
      TotalsConcatenate(parts[1..]);
      MeasureConcat(parts[0], Flatten(parts[1..]));
      MessagesConcat(parts[0], Flatten(parts[1..]));
    }
  }

  function Sums(parts: seq<Session>): Metrics {
    if parts == [] then Metrics(0, 0, 0, 0, 0, 0, 0)
    else
      var m, rest := parts[0].metrics, Sums(parts[1..]);
      Metrics(m.turns + rest.turns, m.messages + rest.messages, m.toolCalls + rest.toolCalls, m.apiCalls + rest.apiCalls,
              m.input + rest.input, m.output + rest.output, m.total + rest.total)
  }

  function MessagesIn(parts: seq<Session>): seq<string> {
    if parts == [] then [] else parts[0].messages + MessagesIn(parts[1..])
  }

  /** The input and output tokens of the parts in which no total is reported. */
  function Unreported(parts: seq<seq<Turn>>): int {
    if parts == [] then 0
    else
      var c := Measure(parts[0]);
      (if c.reported == 0 then c.input + c.output else 0) + Unreported(parts[1..])
  }

  predicate Agrees(m: Metrics, c: Counts) {
    && m.turns == c.turns && m.messages == c.messages && m.toolCalls == c.toolCalls && m.apiCalls == c.apiCalls
    && m.input == c.input && m.output == c.output
  }

  /** Summed over the parts, reported totals and stand-ins come apart. */
  lemma {:induction false} SumsMeasure(parts: seq<Session>)
    requires forall i | 0 <= i < |parts| :: parts[i].metrics == MetricsOf(parts[i].turns)
    ensures Agrees(Sums(parts), TotalCounts(TurnsOf(parts)))
    ensures Sums(parts).total == TotalCounts(TurnsOf(parts)).reported + Unreported(TurnsOf(parts))
  {
    hide Measure;
    if parts != [] {
      SumsMeasure(parts[1..]);
      assert TurnsOf(parts)[1..] == TurnsOf(parts[1..]);
    }
  }

  lemma {:induction false} MessagesMeasure(parts: seq<Session>)
    requires forall i | 0 <= i < |parts| :: parts[i].messages == MessagesOf(parts[i].turns)
    ensures MessagesIn(parts) == AllMessages(TurnsOf(parts))
  {
    if parts != [] {
      MessagesMeasure(parts[1..]);
      assert TurnsOf(parts)[1..] == TurnsOf(parts[1..]);
    }
  }

  /** The parts' messages are the messages of all turns in order, and their counts add up to the whole session's. */
  lemma CountsConserved(s: Session, enabled: bool, reply: Option<seq<Entry>>)
    requires Split(s, enabled, reply) != [s]
    ensures MessagesIn(Split(s, enabled, reply)) == MessagesOf(s.turns)
    ensures Agrees(Sums(Split(s, enabled, reply)), Measure(s.turns))
  {
    var parts := Split(s, enabled, reply);
    TurnsConserved(s, enabled, reply);
    hide Measure;
    SumsMeasure(parts);
    MessagesMeasure(parts);
    TotalsConcatenate(TurnsOf(parts));
  }

  /** No count of tokens is negative. */
  predicate Nonnegative(turns: seq<Turn>) {
    forall t | t in turns :: t.total >= 0 && t.input >= 0 && t.output >= 0
  }

  lemma {:induction false} NonnegativeCounts(turns: seq<Turn>)
    requires Nonnegative(turns)
    ensures Measure(turns).reported >= 0
  {
    if turns != [] { NonnegativeCounts(turns[1..]); }
  }

  /** Where nothing is reported at all, nothing is reported in any part. */
  lemma {:induction false} NothingReported(parts: seq<seq<Turn>>)
    requires forall p | p in parts :: Measure(p).reported >= 0
    ensures TotalCounts(parts).reported >= 0
    ensures TotalCounts(parts).reported == 0 ==> Unreported(parts) == TotalCounts(parts).input + TotalCounts(parts).output
  {
    hide Measure;
    if parts != [] { NothingReported(parts[1..]); }
  }

  lemma {:induction false} InsideFlatten(parts: seq<seq<Turn>>, p: seq<Turn>, t: Turn)
    requires p in parts && t in p
    ensures t in Flatten(parts)
  {
    if p != parts[0] { InsideFlatten(parts[1..], p, t); }
  }

  /**
   The parts' total tokens add up to the whole's exactly when nothing is counted twice or left out: if any total is
   reported, the parts without one have no other tokens; if the reported totals cancel out, the parts that report
   one have none. With no negative counts: no turn reports a total, or the parts without one have no tokens.
   */
  lemma {:induction false} TotalsConservedExactly(s: Session, enabled: bool, reply: Option<seq<Entry>>)
    requires Split(s, enabled, reply) != [s]
    ensures var parts, c := Split(s, enabled, reply), Measure(s.turns);
            var u := Unreported(TurnsOf(parts));
            && (Sums(parts).total == MetricsOf(s.turns).total <==> u == if c.reported != 0 then 0 else c.input + c.output)
            && (Nonnegative(s.turns) ==>
                  (Sums(parts).total == MetricsOf(s.turns).total <==> c.reported == 0 || u == 0))
  {
    var parts := Split(s, enabled, reply);
    TurnsConserved(s, enabled, reply);
    SumsMeasure(parts);
    TotalsConcatenate(TurnsOf(parts));
    if Nonnegative(s.turns) {
      forall p | p in TurnsOf(parts) ensures Measure(p).reported >= 0 {
        forall t | t in p ensures t in s.turns { InsideFlatten(TurnsOf(parts), p, t); }
        NonnegativeCounts(p);
      }
      NothingReported(TurnsOf(parts));
    }
    hide Measure, Split, Unreported, TotalCounts, Sums, Flatten;
  }

  /** The reply that puts two turns into a segment each. */
  function Halves(): seq<Span> {
    [Span(1, 1, ""), Span(2, 2, "")]
  }

  lemma HalvesReply()
    ensures BoundariesFor(Some(Reply(Halves())), 2) == Halves()
  {
    PartitionIsKept(Halves(), 2);
  }

  lemma HalvesSplit(s: Session, a: Turn, b: Turn)
    requires s.turns == [a, b] && s.splitFrom == "" && s.candidate == ""
    ensures var parts := Split(s, true, Some(Reply(Halves())));
            |parts| == 2 && TurnsOf(parts) == [[a], [b]]
  {
    HalvesReply();
    hide BoundariesFor, SegmentId, MetricsOf, Reply;
    BoundariesChain(s, Some(Reply(Halves())));
    assert s.turns[0..1] == [a] && s.turns[1..2] == [b];
  }

  lemma MeasureTwo(a: Turn, b: Turn)
    ensures Measure([a]) == One(a) && Measure([b]) == One(b) && Measure([a, b]) == Add(One(a), One(b))
    ensures Unreported([[a], [b]]) == (if a.total == 0 then a.input + a.output else 0) + if b.total == 0 then b.input + b.output else 0
  {
    assert [a][1..] == [] && [b][1..] == [] && [a, b][1..] == [b];
    assert Measure([a]) == One(a) && Measure([b]) == One(b);
    assert [[a], [b]][1..] == [[b]] && [[b]][1..] == [];
    assert Unreported([[b]]) == if b.total == 0 then b.input + b.output else 0;
  }

  /** A turn that reports a total beside one that only reports its tokens: split apart, the latter's are counted too. */
  lemma {:induction false} TotalsDiffer(s: Session, a: Turn, b: Turn)
    requires s.turns == [a, b] && s.splitFrom == "" && s.candidate == ""
    requires a.total != 0 && b.total == 0 && b.input + b.output != 0
    ensures var parts := Split(s, true, Some(Reply(Halves())));
            parts != [s] && Sums(parts).total != MetricsOf(s.turns).total
  {
    HalvesSplit(s, a, b);
    MeasureTwo(a, b);
    TotalsConservedExactly(s, true, Some(Reply(Halves())));
    hide Split, Sums, Unreported, Measure;
  }

  /** Such a session: ten reported tokens and one input token become eleven instead of ten. */
  lemma TotalsCanDiffer()
    ensures exists s, reply :: Split(s, true, reply) != [s] && Sums(Split(s, true, reply)).total != MetricsOf(s.turns).total
  {
    hide Split, Sums, MetricsOf;
    var a, b := Turn([], 0, 0, 0, 0, 0, 10), Turn([], 0, 0, 0, 1, 0, 0);
    TotalsDiffer(Session("", [a, b], [], Metrics(0, 0, 0, 0, 0, 0, 0), "", ""), a, b);
  }

  // ---- identity of the parts ----

  function BeforeNumerals(base: string, start: nat, end: nat): string {
    Prefix(base, 200 - |Suffix(start, end)|) + "_"
  }

  lemma IdParts(base: string, start: nat, end: nat)
    ensures SegmentId(base, start, end)
            == (BeforeNumerals(base, start, end) + ['s'] + Padded(start)) + ['-'] + Padded(end)
    ensures AllDigits(Padded(start)) && Number(Padded(start)) == start
    ensures AllDigits(Padded(end)) && Number(Padded(end)) == end
  {
    PaddedReads(start);
    PaddedReads(end);
    hide Padded, Prefix, Number;
  }

  /** An id shows where its segment starts and ends, however long the session's own id was. */
  lemma IdShowsRange(a: string, start: nat, end: nat, b: string, from: nat, to: nat)
    requires SegmentId(a, start, end) == SegmentId(b, from, to)
    ensures start == from && end == to
  {
    IdParts(a, start, end);
    IdParts(b, from, to);
    hide SegmentId, Padded, BeforeNumerals, AllDigits, Number;
    var p, q := BeforeNumerals(a, start, end), BeforeNumerals(b, from, to);
    CutNumeral(p + ['s'] + Padded(start), Padded(end), q + ['s'] + Padded(from), Padded(to), '-');
    CutNumeral(p, Padded(start), q, Padded(from), 's');
  }

  predicate DistinctIds(parts: seq<Session>) {
    forall i, j | 0 <= i < j < |parts| :: parts[i].id != parts[j].id
  }

  /** Two parts share an id when their segments have the same range, and only then. */
  lemma SameIdSameRange(s: Session, enabled: bool, reply: Option<seq<Entry>>, i: nat, j: nat)
    requires Split(s, enabled, reply) != [s] && i < |Split(s, enabled, reply)| && j < |Split(s, enabled, reply)|
    ensures var f, parts := BoundariesFor(reply, |s.turns|), Split(s, enabled, reply);
            |f| == |parts| && (parts[i].id == parts[j].id <==> SameRange(f[i], f[j]))
  {
    var f, parts := BoundariesFor(reply, |s.turns|), Split(s, enabled, reply);
    BoundariesChain(s, reply);
    hide BoundariesFor;
    assert parts[i].id == SegmentId(BaseId(s), f[i].start, f[i].end);
    assert parts[j].id == SegmentId(BaseId(s), f[j].start, f[j].end);
    hide Split, SegmentId;
    if parts[i].id == parts[j].id {
      IdShowsRange(BaseId(s), f[i].start, f[i].end, BaseId(s), f[j].start, f[j].end);
    }
  }

  /**
   The parts' ids are pairwise distinct exactly when the turns are used up early, or of the usable entries that start
   after the last turn at most two start together, and two right after it only with another one further on.
   */
  lemma DistinctIdsExactly(s: Session, enabled: bool, reply: Option<seq<Entry>>)
    requires Split(s, enabled, reply) != [s]
    ensures reply.Some?
    ensures DistinctIds(Split(s, enabled, reply)) <==>
            var n := |s.turns|; UsedUp(Usable(reply.value, n), false, n) || Apart(Usable(reply.value, n), n)
  {
    SplitIsUsable(s, enabled, reply);
    var parts, f := Split(s, enabled, reply), BoundariesFor(reply, |s.turns|);
    RangesExactly(reply.value, |s.turns|);
    hide Split, BoundariesFor, Coerced, UsedUp, Apart, Usable, Parse;
    forall i, j | 0 <= i < |parts| && 0 <= j < |parts|
      ensures parts[i].id == parts[j].id <==> SameRange(f[i], f[j])
    {
      SameIdSameRange(s, enabled, reply, i, j);
    }
    hide SameRange;
  }

  /** Whatever the reply, parts that share an id hold no turn: those with turns are always told apart. */
  lemma SharedIdIsEmpty(s: Session, enabled: bool, reply: Option<seq<Entry>>, i: nat, j: nat)
    requires i < j < |Split(s, enabled, reply)| && Split(s, enabled, reply)[i].id == Split(s, enabled, reply)[j].id
    ensures Split(s, enabled, reply)[i].turns == Split(s, enabled, reply)[j].turns == []
  {
    SplitIsUsable(s, enabled, reply);
    var n, f := |s.turns|, BoundariesFor(reply, |s.turns|);
    SameIdSameRange(s, enabled, reply, i, j);
    BoundariesChain(s, reply);
    CoercedStarts(reply.value, n, n + 1);
    SameRangeIsLate(f, n, i, j);
    hide BoundariesFor, Coerced, Sorted, Usable, Parse, Starters, UsedUp, SegmentId, MessagesOf, MetricsOf;
  }

  /** Two entries that both start right after the last turn: the second and the third part share an id and are empty. */
  lemma TwinParts(s: Session, a: Entry, b: Entry)
    requires s.turns != [] && s.splitFrom == "" && s.candidate == ""
    requires Accepted(a) && Accepted(b) && a.start == b.start == |s.turns| + 1
    ensures var parts := Split(s, true, Some([a, b]));
            |parts| == 3 && parts[1].id == parts[2].id && parts[1].turns == parts[2].turns == []
  {
    TwinSegments(|s.turns|, a, b);
    hide Coerced, SegmentId, CleanTopic, MessagesOf, MetricsOf;
    BoundariesChain(s, Some([a, b]));
  }

  // ---- splitting again ----

  /** Every session split in turn, each with the answer its own model call gives. */
  function SplitEach(sessions: seq<Session>, enabled: bool, answer: Session -> Option<seq<Entry>>): seq<Session> {
    if sessions == [] then []
    else Split(sessions[0], enabled, answer(sessions[0])) + SplitEach(sessions[1..], enabled, answer)
  }

  lemma {:induction false} MarkedStay(parts: seq<Session>, enabled: bool, answer: Session -> Option<seq<Entry>>)
    requires forall i | 0 <= i < |parts| :: parts[i].splitFrom != ""
    ensures SplitEach(parts, enabled, answer) == parts
  {
    if parts != [] {
      assert parts == [parts[0]] + parts[1..];
      MarkedStay(parts[1..], enabled, answer);
    }
  }

  /** The parts go through a second split unchanged, whatever the model would say of each of them. */
  lemma {:induction false} SplitOnce(
    s: Session, enabled: bool, reply: Option<seq<Entry>>, again: bool, answer: Session -> Option<seq<Entry>>)
    requires Split(s, enabled, reply) != [s]
    ensures SplitEach(Split(s, enabled, reply), again, answer) == Split(s, enabled, reply)
    ensures forall part | part in Split(s, enabled, reply) :: part.splitFrom == BaseId(s)
  {
    MarkedStay(Split(s, enabled, reply), again, answer);
  }
}
