/** Topic boundaries: arbitrary intervals proposed by a model become segments of the turns 1..n. */
module Boundaries {
  import opened Basics
  import opened Text

  /** One entry of a reply; an entry without two whole numbers is unusable. */
  datatype Entry = Entry(start: int, end: int, topic: string) | Unusable

  datatype Span = Span(start: int, end: int, topic: string) {
    predicate Covers(t: int) {
      start <= t <= end
    }
  }

  function Clip(end: int, n: int): int {
    Min(end, n)
  }

  function CleanTopic(topic: string): string {
    var s := Strip(topic);
    if |s| <= 80 then s else s[..80]
  }

  predicate Accepted(e: Entry) {
    e.Entry? && 1 <= e.start <= e.end
  }

  function ParseEntry(e: Entry, n: int): Span
    requires Accepted(e)
  {
    Span(e.start, Clip(e.end, n), CleanTopic(e.topic))
  }

  /** The accepted entries, clipped, in the order of the reply. */
  function Parse(entries: seq<Entry>, n: int): seq<Span> {
    if entries == [] then []
    else
      var rest := Parse(entries[..|entries| - 1], n);
      var e := entries[|entries| - 1];
      if Accepted(e) then rest + [ParseEntry(e, n)] else rest
  }

  // ---- sorting by start, stably ----

  function Insert(sorted: seq<Span>, e: Span): seq<Span> {
    if sorted == [] || sorted[|sorted| - 1].start <= e.start then sorted + [e]
    else Insert(sorted[..|sorted| - 1], e) + [sorted[|sorted| - 1]]
  }

  function Sort(spans: seq<Span>): seq<Span> {
    if spans == [] then [] else Insert(Sort(spans[..|spans| - 1]), spans[|spans| - 1])
  }

  predicate Sorted(spans: seq<Span>) {
    forall i, j | 0 <= i < j < |spans| :: spans[i].start <= spans[j].start
  }

  /** The spans with one given start, in order. */
  function StartingAt(spans: seq<Span>, start: int): seq<Span> {
    if spans == [] then []
    else
      var rest := StartingAt(spans[..|spans| - 1], start);
      if spans[|spans| - 1].start == start then rest + [spans[|spans| - 1]] else rest
  }

  lemma {:induction false} InsertSorts(sorted: seq<Span>, e: Span)
    requires Sorted(sorted)
    ensures Sorted(Insert(sorted, e))
    ensures forall x :: x in Insert(sorted, e) <==> x in sorted || x == e
  {
    if sorted != [] && sorted[|sorted| - 1].start > e.start {
      var front, last := sorted[..|sorted| - 1], sorted[|sorted| - 1];
      InsertSorts(front, e);
      assert sorted == front + [last];
      forall i | 0 <= i < |Insert(front, e)| ensures Insert(front, e)[i].start <= last.start {
        assert Insert(front, e)[i] in Insert(front, e);
      }
    }
  }

  lemma {:induction false} InsertIsStable(sorted: seq<Span>, e: Span, k: int)
    ensures StartingAt(Insert(sorted, e), k) == StartingAt(sorted + [e], k)
  {
    assert (sorted + [e])[..|sorted|] == sorted;
    if sorted != [] && sorted[|sorted| - 1].start > e.start {
      var front, last := sorted[..|sorted| - 1], sorted[|sorted| - 1];
      InsertIsStable(front, e, k);
      assert (Insert(front, e) + [last])[..|Insert(front, e)|] == Insert(front, e);
      assert (front + [e])[..|front|] == front;
    }
  }

  lemma StartingAtNext(spans: seq<Span>, e: Span, k: int)
    ensures StartingAt(spans + [e], k) == StartingAt(spans, k) + if e.start == k then [e] else []
  {
    assert (spans + [e])[..|spans|] == spans;
  }

  /** `Sort` sorts by start and keeps entries with equal starts in the order of the reply. */
  lemma {:induction false} SortIsStable(spans: seq<Span>)
    ensures Sorted(Sort(spans))
    ensures forall x :: x in Sort(spans) <==> x in spans
    ensures forall k :: StartingAt(Sort(spans), k) == StartingAt(spans, k)
  {
    if spans != [] {
      var front, last := spans[..|spans| - 1], spans[|spans| - 1];
      SortIsStable(front);
      InsertSorts(Sort(front), last);
      assert spans == front + [last];
      hide Sorted, Insert, StartingAt;
      forall k ensures StartingAt(Sort(spans), k) == StartingAt(spans, k) {
        InsertIsStable(Sort(front), last, k);
        StartingAtNext(Sort(front), last, k);
        StartingAtNext(front, last, k);
      }
    }
  }

  // ---- clipping overlaps ----

  function LastEnd(spans: seq<Span>): int {
    if spans == [] then 0 else spans[|spans| - 1].end
  }

  /** The first loop, from the state `ordered` on. */
  function Order(es: seq<Span>, n: int, ordered: seq<Span>): seq<Span> {
    if es == [] then ordered
    else if ordered != [] && es[0].start <= LastEnd(ordered) then
      var start := LastEnd(ordered) + 1;
      if start > n then ordered
      else if es[0].end < start then Order(es[1..], n, ordered)
      else Order(es[1..], n, ordered + [Span(start, Clip(es[0].end, n), es[0].topic)])
    else Order(es[1..], n, ordered + [Span(es[0].start, Clip(es[0].end, n), es[0].topic)])
  }

  // ---- filling holes ----

  function Stretch(filled: seq<Span>, end: int): seq<Span> {
    if filled == [] then [Span(1, end, "")] else filled[|filled| - 1 := filled[|filled| - 1].(end := end)]
  }

  /** The second loop and what follows it, from the state `(filled, covered)` on. */
  function Fill(os: seq<Span>, n: int, filled: seq<Span>, covered: int): seq<Span> {
    if os == [] then if covered < n then Stretch(filled, n) else filled
    else
      var f := if os[0].start > covered + 1 then Stretch(filled, os[0].start - 1) else filled;
      Fill(os[1..], n, f + [os[0]], os[0].end)
  }

  function Coerced(entries: seq<Entry>, n: int): seq<Span> {
    var parsed := Parse(entries, n);
    if parsed == [] then [] else Fill(Order(Sort(parsed), n, []), n, [], 0)
  }

  method ClipOverlaps(sorted: seq<Span>, n: int) returns (ordered: seq<Span>)
    ensures ordered == Order(sorted, n, [])
  {
    ordered := [];
    for i := 0 to |sorted|
      invariant Order(sorted[i..], n, ordered) == Order(sorted, n, [])
    {
      assert sorted[i..][1..] == sorted[i + 1..];
      var start := sorted[i].start;
      if ordered != [] && start <= ordered[|ordered| - 1].end {
        start := ordered[|ordered| - 1].end + 1;
        if start > n {
          break;
        }
        if sorted[i].end < start {
          continue;
        }
      }
      ordered := ordered + [Span(start, Clip(sorted[i].end, n), sorted[i].topic)];
    }
  }

  method FillHoles(ordered: seq<Span>, n: int) returns (filled: seq<Span>)
    ensures filled == Fill(ordered, n, [], 0)
  {
    filled := [];
    var covered := 0;
    for i := 0 to |ordered|
      invariant Fill(ordered[i..], n, filled, covered) == Fill(ordered, n, [], 0)
    {
      assert ordered[i..][0] == ordered[i] && ordered[i..][1..] == ordered[i + 1..];
      if ordered[i].start > covered + 1 {
        if filled != [] {
          filled := filled[|filled| - 1 := filled[|filled| - 1].(end := ordered[i].start - 1)];
        } else {
          filled := [Span(1, ordered[i].start - 1, "")];
        }
      }
      filled := filled + [ordered[i]];
      covered := ordered[i].end;
    }
    if covered < n {
      if filled != [] {
        filled := filled[|filled| - 1 := filled[|filled| - 1].(end := n)];
      } else {
        filled := [Span(1, n, "")];
      }
    }
  }

  /** `_coerce_boundaries`, from the reply's list of segments on. */
  method CoerceBoundaries(entries: seq<Entry>, n: int) returns (filled: seq<Span>)
    ensures filled == Coerced(entries, n)
  {
    var parsed: seq<Span> := [];
    for i := 0 to |entries|
      invariant parsed == Parse(entries[..i], n)
    {
      assert entries[..i + 1][..i] == entries[..i];
      if !entries[i].Entry? {
        continue;
      }
      if entries[i].start < 1 || entries[i].end < entries[i].start {
        continue;
      }
      parsed := parsed + [Span(entries[i].start, Clip(entries[i].end, n), CleanTopic(entries[i].topic))];
    }
    assert entries[..|entries|] == entries;
    if parsed == [] {
      return [];
    }
    var ordered := ClipOverlaps(Sort(parsed), n);
    filled := FillHoles(ordered, n);
  }
}
