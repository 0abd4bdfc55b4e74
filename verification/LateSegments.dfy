/** Segments that start after the last turn: how many a reply leaves, and when two of them have the same range. */
module LateSegments {
  import opened Boundaries
  import opened BoundaryMeaning

  /** How many spans start at `k`. */
  function Starters(spans: seq<Span>, k: int): nat {
    |StartingAt(spans, k)|
  }

  lemma {:induction false} StartersConcat(a: seq<Span>, b: seq<Span>, k: int)
    ensures Starters(a + b, k) == Starters(a, k) + Starters(b, k)
  {
    if b == [] {
      assert a + b == a;
    } else {
      var front, last := b[..|b| - 1], b[|b| - 1];
      assert a + b == (a + front) + [last] && b == front + [last];
      StartersConcat(a, front, k);
      StartingAtNext(a + front, last, k);
      StartingAtNext(front, last, k);
    }
  }

  lemma StartersOne(e: Span, k: int)
    ensures Starters([e], k) == if e.start == k then 1 else 0
  {
    StartingAtNext([], e, k);
    assert [] + [e] == [e];
  }

  lemma StartersNone(k: int)
    ensures Starters([], k) == 0
  {
  }

  lemma StartersFirst(es: seq<Span>, k: int)
    requires es != []
    ensures Starters(es, k) == (if es[0].start == k then 1 else 0) + Starters(es[1..], k)
  {
    assert es == [es[0]] + es[1..];
    StartersConcat([es[0]], es[1..], k);
    StartersOne(es[0], k);
  }

  lemma StartersAppend(os: seq<Span>, e: Span, k: int)
    ensures Starters(os + [e], k) == Starters(os, k) + if e.start == k then 1 else 0
  {
    StartersConcat(os, [e], k);
    StartersOne(e, k);
  }

  // ---- the first loop keeps the late starts, unless it breaks ----

  lemma UsedUpLate(es: seq<Span>, filled: bool, n: int)
    requires es != [] && Sorted(es) && (es[0].start > n || (filled && !UsedUp(es, filled, n)))
    ensures es[0].start > n && !UsedUp(es[1..], true, n)
  {
    forall j | 0 <= j < |es| ensures es[j].start > n {
      assert j == 0 || es[0].start <= es[j].start;
    }
  }

  /** A step that does not break adds a late start exactly if its entry has it. */
  lemma StepStarters(e: Span, n: int, os: seq<Span>, k: int)
    requires Clipped(e, n) && LastEnd(os) <= n < k && OrderOne(e, n, os).Some?
    ensures Starters(OrderOne(e, n, os).value, k) == Starters(os, k) + if e.start == k then 1 else 0
  {
    hide Starters;
    var os' := OrderOne(e, n, os).value;
    if os' != os { StartersAppend(os, os'[|os|], k); }
  }

  lemma StepGoesOn(es: seq<Span>, n: int, os: seq<Span>)
    requires n >= 1 && es != [] && Sorted(es) && Clipped(es[0], n) && LastEnd(os) <= n
    requires !UsedUp(es, LastEnd(os) == n, n)
    ensures OrderOne(es[0], n, os).Some?
    ensures !UsedUp(es[1..], LastEnd(OrderOne(es[0], n, os).value) == n, n)
  {
    if es[0].start > n || LastEnd(os) == n {
      UsedUpLate(es, LastEnd(os) == n, n);
      assert LastEnd(OrderOne(es[0], n, os).value) == n;
    } else {
      UsedUpNext(es, n);
      hide UsedUp, Sorted;
    }
  }

  lemma {:induction false} OrderStarters(es: seq<Span>, n: int, os: seq<Span>, low: int, k: int)
    requires n >= 1 && Ready(es, n, low) && Stepping(os, n) && Solid(os, low) && k > n
    requires !UsedUp(es, LastEnd(os) == n, n)
    ensures Starters(Order(es, n, os), k) == Starters(os, k) + Starters(es, k)
  {
    hide Starters, Order, OrderOne, UsedUp, Solid;
    if es == [] {
      StartersNone(k);
      OrderNone(n, os);
    } else {
      OrderUnfolds(es, n, os);
      StepGoesOn(es, n, os);
      OneStep(es[0], n, os, low);
      StepStarters(es[0], n, os, k);
      StartersFirst(es, k);
      hide Stepping;
      OrderStarters(es[1..], n, OrderOne(es[0], n, os).value, es[0].start, k);
    }
  }

  lemma OrderNone(n: int, os: seq<Span>)
    ensures Order([], n, os) == os
  {
  }

  lemma SortedAppend(os: seq<Span>, e: Span)
    requires Sorted(os) && (os != [] ==> Last(os).start <= e.start)
    ensures Sorted(os + [e])
  {
    forall i | 0 <= i < |os| ensures os[i].start <= e.start {
      assert i == |os| - 1 || os[i].start <= Last(os).start;
    }
  }

  lemma StepSorted(e: Span, n: int, os: seq<Span>, low: int)
    requires Stepping(os, n) && Sorted(os) && Clipped(e, n) && low <= e.start && OrderOne(e, n, os).Some?
    requires os != [] && Last(os).start > n ==> Last(os).start <= low
    ensures var os' := OrderOne(e, n, os).value;
            Sorted(os') && (os' != [] && Last(os').start > n ==> Last(os').start <= e.start)
  {
    var os' := OrderOne(e, n, os).value;
    if os' != os {
      hide Sorted;
      SortedAppend(os, os'[|os|]);
    }
  }

  /** The last span of the first loop's state starts no later than the next entry, or in time. */
  lemma {:induction false} OrderSorted(es: seq<Span>, n: int, os: seq<Span>, low: int)
    requires Ready(es, n, low) && Stepping(os, n) && Solid(os, low) && Sorted(os)
    requires os != [] && Last(os).start > n ==> Last(os).start <= low
    ensures Sorted(Order(es, n, os))
  {
    if es != [] {
      OrderUnfolds(es, n, os);
      var next := OrderOne(es[0], n, os);
      if next.Some? {
        OneStep(es[0], n, os, low);
        StepSorted(es[0], n, os, low);
        hide Solid, Stepping, Order, OrderOne;
        OrderSorted(es[1..], n, next.value, es[0].start);
      }
    }
  }

  // ---- the second loop moves no start ----

  lemma StretchStarts(filled: seq<Span>, end: int, k: int)
    requires k > 1
    ensures Starters(Stretch(filled, end), k) == Starters(filled, k)
    ensures Sorted(filled) ==> Sorted(Stretch(filled, end))
    ensures Stretch(filled, end) != [] && Last(Stretch(filled, end)).start == if filled == [] then 1 else Last(filled).start
  {
    if filled == [] {
      StartersOne(Span(1, end, ""), k);
    } else {
      var front, last := filled[..|filled| - 1], Last(filled);
      assert filled == front + [last] && Stretch(filled, end) == front + [last.(end := end)];
      StartersAppend(front, last, k);
      StartersAppend(front, last.(end := end), k);
    }
  }

  lemma {:induction false} FillStarts(os: seq<Span>, n: int, filled: seq<Span>, covered: int, k: int)
    requires k > 1
    ensures Starters(Fill(os, n, filled, covered), k) == Starters(filled, k) + Starters(os, k)
    ensures Sorted(filled) && Sorted(os) && (os != [] ==> (if filled == [] then 1 else Last(filled).start) <= os[0].start)
            ==> Sorted(Fill(os, n, filled, covered))
  {
    hide Starters, Stretch;
    if os == [] {
      StartersNone(k);
      if covered < n { StretchStarts(filled, n, k); }
    } else {
      var f := Bridged(filled, covered, os[0]);
      if os[0].start > covered + 1 { StretchStarts(filled, os[0].start - 1, k); }
      StartersAppend(f, os[0], k);
      StartersFirst(os, k);
      FillNext(os, n, filled, covered);
      FillStarts(os[1..], n, f + [os[0]], os[0].end, k);
    }
  }

  // ---- segments with the same range ----

  predicate SameRange(a: Span, b: Span) {
    a.start == b.start && a.end == b.end
  }

  predicate RangesDistinct(f: seq<Span>) {
    forall i, j | 0 <= i < j < |f| :: !SameRange(f[i], f[j])
  }

  /**
   After the last turn at most two spans start together, and two at the first place there only with another span
   starting further on.
   */
  ghost predicate Apart(spans: seq<Span>, n: int) {
    && (forall k | k > n :: Starters(spans, k) <= 2)
    && (Starters(spans, n + 1) == 2 ==> exists k | k > n + 1 :: Starters(spans, k) > 0)
  }

  /** The first and the last span that start at `k`. */
  lemma {:induction false} Ends(f: seq<Span>, k: int) returns (i: nat, j: nat)
    requires Starters(f, k) >= 1
    ensures i <= j < |f| && f[i].start == f[j].start == k && j + 1 - i >= Starters(f, k)
  {
    var front, last := f[..|f| - 1], f[|f| - 1];
    assert f == front + [last];
    StartersAppend(front, last, k);
    j := |f| - 1;
    i := j;
    if Starters(front, k) >= 1 {
      var first, before := Ends(front, k);
      if last.start == k { i := first; } else { i, j := first, before; }
    }
  }

  lemma {:induction false} RunCounts(f: seq<Span>, i: nat, j: nat, k: int)
    requires i <= j < |f| && forall m | i <= m <= j :: f[m].start == k
    ensures Starters(f, k) >= j + 1 - i
    decreases |f|
  {
    var front, last := f[..|f| - 1], f[|f| - 1];
    assert f == front + [last];
    StartersAppend(front, last, k);
    if i < j {
      RunCounts(front, i, if j == |f| - 1 then j - 1 else j, k);
    } else if j < |f| - 1 {
      RunCounts(front, i, j, k);
    }
  }

  /** Two segments of the same range start after the last turn and hold no turn. */
  lemma SameRangeIsLate(f: seq<Span>, n: int, i: nat, j: nat)
    requires Chain(f, n) && Sorted(f) && i < j < |f| && SameRange(f[i], f[j])
    ensures f[i].start > n && f[i].end == f[i].start - 1 && f[i + 1].start == f[i].start
  {
    assert f[i].start <= f[i + 1].start <= f[j].start by { assert i + 1 == j || f[i + 1].start <= f[j].start; }
    assert f[i + 1].start == f[i].end + 1;
  }

  lemma TwinsCrowd(f: seq<Span>, n: int, i: nat, j: nat)
    requires Chain(f, n) && Sorted(f) && f != [] && Last(f).end == n && i < j < |f| && SameRange(f[i], f[j])
    ensures !Apart(f, n)
  {
    hide Starters;
    SameRangeIsLate(f, n, i, j);
    var k := f[i].start;
    if j < |f| - 1 {
      assert f[j + 1].start == f[j].end + 1;
      RunCounts(f, i, j + 1, k);
      assert Starters(f, k) > 2;
    } else {
      RunCounts(f, i, j, k);
      if later: int :| later > n + 1 && Starters(f, later) > 0 {
        var a, b := Ends(f, later);
        assert a == |f| - 1 || f[a].start <= Last(f).start;
      }
    }
  }

  lemma CrowdTwins(f: seq<Span>, n: int, k: int)
    requires Chain(f, n) && Sorted(f) && k > n && Starters(f, k) > 2
    ensures !RangesDistinct(f)
  {
    hide Starters;
    var i, j := Ends(f, k);
    assert f[i].start <= f[i + 1].start <= f[j].start && f[i + 1].start <= f[i + 2].start <= f[j].start;
    assert f[i + 1].start == f[i].end + 1 && f[i + 1 + 1].start == f[i + 1].end + 1;
    assert SameRange(f[i], f[i + 1]);
  }

  lemma LastPairTwins(f: seq<Span>, n: int)
    requires Chain(f, n) && Sorted(f) && f != [] && Last(f).end == n
    requires Starters(f, n + 1) == 2 && forall k | k > n + 1 :: Starters(f, k) == 0
    ensures !RangesDistinct(f)
  {
    hide Starters;
    var i, j := Ends(f, n + 1);
    var m := |f| - 1;
    RunCounts(f, m, m, f[m].start);
    assert f[j].start <= f[m].start by { assert j == m || f[j].start <= f[m].start; }
    assert f[m].start == n + 1;
    assert f[i].start <= f[i + 1].start <= f[j].start by { assert i + 1 == j || f[i + 1].start <= f[j].start; }
    assert f[i + 1].start == f[i].end + 1;
    assert SameRange(f[i], f[m]);
  }

  lemma ApartExactly(f: seq<Span>, n: int)
    requires Chain(f, n) && Sorted(f) && f != [] && Last(f).end == n
    ensures RangesDistinct(f) <==> Apart(f, n)
  {
    if !RangesDistinct(f) {
      var i, j :| 0 <= i < j < |f| && SameRange(f[i], f[j]);
      TwinsCrowd(f, n, i, j);
    }
    if !Apart(f, n) {
      hide Starters, RangesDistinct;
      if k :| k > n && Starters(f, k) > 2 {
        CrowdTwins(f, n, k);
      } else {
        LastPairTwins(f, n);
      }
    }
  }

  // ---- replies ----

  /** The first loop over a usable reply. */
  lemma OrderedStarts(es: seq<Span>, n: int, k: int)
    requires n >= 1 && Ready(es, n, 1) && es != [] && k > n
    ensures var os := Order(es, n, []);
            && os != [] && Sorted(os) && os[0].start >= 1
            && (!UsedUp(es, false, n) ==> Starters(os, k) == Starters(es, k))
  {
    var os := Order(es, n, []);
    hide Order, UsedUp, Starters, Ready;
    OrderNonempty(es, n);
    OrderKeepsTopics(es, n, [], 1, 1);
    OrderSorted(es, n, [], 1);
    StartersNone(k);
    if !UsedUp(es, false, n) { OrderStarters(es, n, [], 1, k); }
  }

  lemma CoercedStarts(entries: seq<Entry>, n: int, k: int)
    requires n >= 1 && Parse(entries, n) != [] && k > n
    ensures Sorted(Coerced(entries, n))
    ensures !UsedUp(Usable(entries, n), false, n) ==> Starters(Coerced(entries, n), k) == Starters(Usable(entries, n), k)
  {
    hide Order, Fill, Parse, Sort, UsedUp, Starters, Ready;
    UsableReady(entries, n);
    OrderedStarts(Usable(entries, n), n, k);
    FillStarts(Order(Usable(entries, n), n, []), n, [], 0, k);
    StartersNone(k);
  }

  lemma PartitionDistinct(f: seq<Span>, n: int)
    requires Partition(f, n)
    ensures RangesDistinct(f)
  {
    forall i, j | 0 <= i < j < |f| ensures !SameRange(f[i], f[j]) {
      EndsGrow(f, n, i, j);
    }
  }

  lemma ApartSame(a: seq<Span>, b: seq<Span>, n: int)
    requires forall k | k > n :: Starters(a, k) == Starters(b, k)
    ensures Apart(a, n) <==> Apart(b, n)
  {
    hide Starters;
  }

  /**
   No two segments have the same range exactly when the turns are used up early, or the usable entries that start
   after the last turn lie apart.
   */
  lemma RangesExactly(entries: seq<Entry>, n: int)
    requires n >= 1 && Parse(entries, n) != []
    ensures RangesDistinct(Coerced(entries, n)) <==>
            UsedUp(Usable(entries, n), false, n) || Apart(Usable(entries, n), n)
  {
    var f, es := Coerced(entries, n), Usable(entries, n);
    hide Coerced, Usable, UsedUp, Apart, RangesDistinct, Partition, Inside, Starters, Parse;
    if UsedUp(es, false, n) {
      WhenPartition(entries, n);
      PartitionDistinct(f, n);
    } else {
      CoercedChain(entries, n);
      forall k | k > n ensures Sorted(f) && Starters(f, k) == Starters(es, k) {
        CoercedStarts(entries, n, k);
      }
      CoercedStarts(entries, n, n + 1);
      ApartSame(f, es, n);
      ApartExactly(f, n);
    }
  }

  lemma ParseTwo(a: Entry, b: Entry, n: int)
    requires Accepted(a) && Accepted(b)
    ensures Parse([a, b], n) == [ParseEntry(a, n), ParseEntry(b, n)]
  {
    assert [a, b][..1] == [a] && [a][..0] == [];
    assert Parse([a], n) == [ParseEntry(a, n)];
  }

  lemma SortTwo(p: Span, q: Span)
    requires p.start <= q.start
    ensures Sort([p, q]) == [p, q]
  {
    assert [p, q][..1] == [p] && [p][..0] == [];
    assert Sort([p]) == [p];
  }

  lemma OrderTwo(p: Span, q: Span, n: int)
    requires n >= 1 && p.start == q.start == n + 1 && p.end == q.end == n
    ensures Order([p, q], n, []) == [p, q]
  {
    hide Order;
    assert [p, q][1..] == [q] && [q][1..] == [] && [] + [p] == [p] && [p] + [q] == [p, q];
    OrderUnfolds([p, q], n, []);
    OrderUnfolds([q], n, [p]);
    OrderNone(n, [p, q]);
  }

  lemma FillTwo(p: Span, q: Span, n: int)
    requires n >= 1 && p.start == q.start == n + 1 && p.end == q.end == n
    ensures Fill([p, q], n, [], 0) == [Span(1, n, ""), p, q]
  {
    hide Fill;
    assert [p, q][1..] == [q] && [q][1..] == [];
    FillNext([p, q], n, [], 0);
    assert Bridged([], 0, p) + [p] == [Span(1, n, ""), p];
    FillNext([q], n, [Span(1, n, ""), p], n);
    assert Bridged([Span(1, n, ""), p], n, q) + [q] == [Span(1, n, ""), p, q];
    FillEnds(n, [Span(1, n, ""), p, q], n);
  }

  /** Two entries that both start right after the last turn become two segments of the same range. */
  lemma TwinSegments(n: int, a: Entry, b: Entry)
    requires n >= 1 && Accepted(a) && Accepted(b) && a.start == b.start == n + 1
    ensures Coerced([a, b], n) == [Span(1, n, ""), Span(n + 1, n, CleanTopic(a.topic)), Span(n + 1, n, CleanTopic(b.topic))]
  {
    hide CleanTopic, Parse, Sort, Order, Fill;
    var p, q := ParseEntry(a, n), ParseEntry(b, n);
    ParseTwo(a, b, n);
    SortTwo(p, q);
    OrderTwo(p, q, n);
    FillTwo(p, q, n);
  }
}
