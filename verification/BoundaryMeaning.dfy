/** What the coerced boundaries mean, turn by turn, and when they partition the turns. */
module BoundaryMeaning {
  import opened Basics
  import opened Text
  import opened Boundaries

  /** The topic of the first span that covers turn `t`. */
  function TopicOf(spans: seq<Span>, t: int): Option<string> {
    if spans == [] then None
    else if spans[0].Covers(t) then Some(spans[0].topic)
    else TopicOf(spans[1..], t)
  }

  lemma {:induction false} TopicOfConcat(a: seq<Span>, b: seq<Span>, t: int)
    ensures TopicOf(a + b, t) == if TopicOf(a, t).Some? then TopicOf(a, t) else TopicOf(b, t)
  {
    if a == [] {
      assert a + b == b;
    } else {
      assert (a + b)[1..] == a[1..] + b;
      TopicOfConcat(a[1..], b, t);
    }
  }

  lemma {:induction false} Uncovered(spans: seq<Span>, t: int)
    ensures TopicOf(spans, t).None? <==> forall i | 0 <= i < |spans| :: !spans[i].Covers(t)
  {
    if spans != [] {
      Uncovered(spans[1..], t);
      assert forall i | 0 < i < |spans| :: spans[i] == spans[1..][i - 1];
    }
  }

  /** The topic turn `t` has or takes over from the turns before it, above `floor`; `x` is the topic at `floor`. */
  function Inherited(spans: seq<Span>, t: int, floor: int, x: string): string
    decreases t - floor
  {
    if t <= floor then x
    else if TopicOf(spans, t).Some? then TopicOf(spans, t).value
    else Inherited(spans, t - 1, floor, x)
  }

  /** The topic of the first span that covers the turn, else that of the turn before it, else none. */
  function TopicAt(spans: seq<Span>, t: int): string {
    Inherited(spans, t, 0, "")
  }

  // ---- the first loop keeps every turn's first topic ----

  predicate Clipped(e: Span, n: int) {
    1 <= e.start && e.end <= n && (if e.start <= n then e.start <= e.end else e.end == n)
  }

  predicate Ready(es: seq<Span>, n: int, low: int) {
    Sorted(es) && forall i | 0 <= i < |es| :: Clipped(es[i], n) && low <= es[i].start
  }

  /** One span after the other, without overlap. */
  predicate Stepping(os: seq<Span>, n: int) {
    && (forall i | 0 <= i < |os| :: Clipped(os[i], n))
    && (forall i, j | 0 <= i < j < |os| :: os[i].end < os[j].start)
  }

  /** From `low` on there is no hole up to the end. */
  ghost predicate Solid(os: seq<Span>, low: int) {
    forall t | low <= t <= LastEnd(os) :: TopicOf(os, t).Some?
  }

  /** How one entry changes the state of the first loop; None where the loop breaks. */
  function OrderOne(e: Span, n: int, os: seq<Span>): Option<seq<Span>> {
    if os != [] && e.start <= LastEnd(os) then
      var start := LastEnd(os) + 1;
      if start > n then None
      else if e.end < start then Some(os)
      else Some(os + [Span(start, e.end, e.topic)])
    else Some(os + [e])
  }

  lemma OrderUnfolds(es: seq<Span>, n: int, os: seq<Span>)
    requires es != [] && es[0].end <= n
    ensures Order(es, n, os) ==
            if OrderOne(es[0], n, os).None? then os else Order(es[1..], n, OrderOne(es[0], n, os).value)
  {
  }

  lemma OneStep(e: Span, n: int, os: seq<Span>, low: int)
    requires Stepping(os, n) && Solid(os, low) && Clipped(e, n) && low <= e.start
    requires OrderOne(e, n, os).Some?
    ensures var os' := OrderOne(e, n, os).value; os <= os' && Stepping(os', n) && Solid(os', e.start)
  {
    var os' := OrderOne(e, n, os).value;
    if os' != os {
      var e' := os'[|os|];
      assert os' == os + [e'];
      forall i | 0 <= i < |os| ensures os[i].end < e'.start {
        assert i == |os| - 1 || os[i].end < os[|os| - 1].start;
      }
      forall t | e.start <= t <= LastEnd(os') ensures TopicOf(os', t).Some? {
        TopicOfConcat(os, [e'], t);
      }
    }
  }

  lemma OneStepTopic(e: Span, rest: seq<Span>, n: int, os: seq<Span>, low: int, t: int)
    requires Solid(os, low) && Clipped(e, n) && low <= e.start
    requires OrderOne(e, n, os).Some?
    ensures TopicOf(OrderOne(e, n, os).value + rest, t) == TopicOf(os + ([e] + rest), t)
  {
    var os' := OrderOne(e, n, os).value;
    TopicOfConcat(os', rest, t);
    TopicOfConcat(os, [e] + rest, t);
    TopicOfConcat([e], rest, t);
    if os' != os {
      TopicOfConcat(os, [os'[|os|]], t);
    }
  }

  lemma BreakTopic(es: seq<Span>, n: int, os: seq<Span>, low: int, t: int)
    requires es != [] && Ready(es, n, low) && Stepping(os, n) && Solid(os, low) && t <= n
    requires OrderOne(es[0], n, os).None?
    ensures TopicOf(os + es, t) == TopicOf(os, t)
  {
    TopicOfConcat(os, es, t);
    if TopicOf(os, t).None? {
      assert t < es[0].start;
      Uncovered(es, t);
    }
  }

  lemma {:induction false} OrderKeepsTopics(es: seq<Span>, n: int, os: seq<Span>, low: int, t: int)
    requires Ready(es, n, low) && Stepping(os, n) && Solid(os, low) && t <= n
    ensures os <= Order(es, n, os) && Stepping(Order(es, n, os), n)
    ensures TopicOf(Order(es, n, os), t) == TopicOf(os + es, t)
  {
    if es == [] {
      assert os + es == os;
    } else {
      OrderUnfolds(es, n, os);
      var next := OrderOne(es[0], n, os);
      if next.None? {
        BreakTopic(es, n, os, low, t);
      } else {
        OneStep(es[0], n, os, low);
        OneStepTopic(es[0], es[1..], n, os, low, t);
        assert [es[0]] + es[1..] == es;
        OrderKeepsTopics(es[1..], n, next.value, es[0].start, t);
      }
    }
  }

  // ---- when a start beyond the last turn survives ----

  predicate Inside(os: seq<Span>, n: int) {
    forall i | 0 <= i < |os| :: os[i].start <= n
  }

  /** Some entry that starts in time comes after the turns are used up. */
  predicate UsedUp(es: seq<Span>, filled: bool, n: int) {
    exists j | 0 <= j < |es| :: es[j].start <= n && (filled || exists i | 0 <= i < j :: es[i].end == n)
  }

  lemma UsedUpNext(es: seq<Span>, n: int)
    requires es != [] && es[0].start <= n
    ensures UsedUp(es, false, n) <==> UsedUp(es[1..], es[0].end == n, n)
  {
    var rest := es[1..];
    if UsedUp(es, false, n) {
      var j :| 0 <= j < |es| && es[j].start <= n && exists i | 0 <= i < j :: es[i].end == n;
      var i :| 0 <= i < j && es[i].end == n;
      assert rest[j - 1] == es[j];
      if i > 0 { assert rest[i - 1].end == n; }
    }
    if UsedUp(rest, es[0].end == n, n) {
      var j :| 0 <= j < |rest| && rest[j].start <= n && (es[0].end == n || exists i | 0 <= i < j :: rest[i].end == n);
      assert es[j + 1].start <= n;
      if es[0].end != n {
        var i :| 0 <= i < j && rest[i].end == n;
        assert es[i + 1].end == n;
      }
    }
  }

  lemma InsideTail(es: seq<Span>, n: int)
    requires es != []
    ensures Inside(es, n) <==> es[0].start <= n && Inside(es[1..], n)
  {
    assert forall i | 0 < i < |es| :: es[i] == es[1..][i - 1];
  }

  lemma BeyondStays(es: seq<Span>, n: int, os: seq<Span>, low: int)
    requires es != [] && n >= 1 && Ready(es, n, low) && Stepping(os, n) && Solid(os, low)
    requires es[0].start > n
    ensures !Inside(Order(es, n, os), n) && !UsedUp(es, LastEnd(os) == n, n)
  {
    OrderUnfolds(es, n, os);
    var next := OrderOne(es[0], n, os);
    OneStep(es[0], n, os, low);
    hide Solid, Stepping;
    OrderKeepsTopics(es[1..], n, next.value, es[0].start, 1);
    hide Order;
    assert Order(es, n, os)[|os|] == next.value[|os|] == es[0];
  }

  lemma {:induction false} OrderInside(es: seq<Span>, n: int, os: seq<Span>, low: int)
    requires n >= 1 && Ready(es, n, low) && Stepping(os, n) && Solid(os, low) && Inside(os, n)
    ensures Inside(Order(es, n, os), n) <==> Inside(es, n) || UsedUp(es, LastEnd(os) == n, n)
  {
    if es != [] {
      InsideTail(es, n);
      if es[0].start > n {
        BeyondStays(es, n, os, low);
      } else {
        OrderUnfolds(es, n, os);
        var next := OrderOne(es[0], n, os);
        if LastEnd(os) == n {
          assert UsedUp(es, true, n);
        } else {
          OneStep(es[0], n, os, low);
          UsedUpNext(es, n);
          hide Stepping, Solid, UsedUp, Order;
          OrderInside(es[1..], n, next.value, es[0].start);
        }
      }
    }
  }

  // ---- the second loop passes each topic on to the turns after it ----

  function Last(filled: seq<Span>): Span
    requires filled != []
  {
    filled[|filled| - 1]
  }

  /** The state of the second loop: everything before the last segment lies before its start. */
  predicate Held(filled: seq<Span>, covered: int, n: int) {
    if filled == [] then covered == 0
    else
      && Last(filled).end == covered
      && (if Last(filled).start <= covered then forall i | 0 <= i < |filled| - 1 :: filled[i].end < Last(filled).start
          else covered >= n)
  }

  function LastTopic(filled: seq<Span>): string {
    if filled == [] then "" else Last(filled).topic
  }

  lemma HeldTopics(filled: seq<Span>, covered: int, n: int, t: int)
    requires Held(filled, covered, n) && covered < t <= n
    ensures TopicOf(filled, t) == None
  {
    Uncovered(filled, t);
  }

  lemma StretchTopics(filled: seq<Span>, covered: int, n: int, end: int, t: int)
    requires Held(filled, covered, n) && covered < end && 1 <= t <= n
    ensures TopicOf(Stretch(filled, end), t) ==
            if t <= covered then TopicOf(filled, t) else if t <= end then Some(LastTopic(filled)) else None
  {
    if filled != [] {
      var front, last := filled[..|filled| - 1], Last(filled);
      assert filled == front + [last] && Stretch(filled, end) == front + [last.(end := end)];
      TopicOfConcat(front, [last], t);
      TopicOfConcat(front, [last.(end := end)], t);
      if covered < t { Uncovered(front, t); }
    }
  }

  function Bridged(filled: seq<Span>, covered: int, o: Span): seq<Span> {
    if o.start > covered + 1 then Stretch(filled, o.start - 1) else filled
  }

  lemma BridgedHeld(filled: seq<Span>, covered: int, n: int, o: Span)
    requires Held(filled, covered, n) && covered < o.start && covered <= n && Clipped(o, n)
    ensures Held(Bridged(filled, covered, o) + [o], o.end, n)
  {
    var f := Bridged(filled, covered, o);
    assert Last(f + [o]) == o;
    if o.start <= o.end {
      forall i | 0 <= i < |f| ensures (f + [o])[i].end < o.start {}
    }
  }

  lemma BridgedTopics(filled: seq<Span>, covered: int, n: int, o: Span, t: int)
    requires Held(filled, covered, n) && covered < o.start && covered <= n && Clipped(o, n) && 1 <= t <= n
    ensures TopicOf(Bridged(filled, covered, o) + [o], t) ==
            if t <= covered then TopicOf(filled, t)
            else if t < o.start then Some(LastTopic(filled))
            else if t <= o.end then Some(o.topic) else None
  {
    var f := Bridged(filled, covered, o);
    TopicOfConcat(f, [o], t);
    if o.start > covered + 1 {
      StretchTopics(filled, covered, n, o.start - 1, t);
    } else if covered < t {
      HeldTopics(filled, covered, n, t);
    }
  }

  lemma {:induction false} InheritedGap(os: seq<Span>, n: int, t: int, floor: int, x: string)
    requires Stepping(os, n) && t <= n && (os != [] ==> t < os[0].start)
    ensures Inherited(os, t, floor, x) == x
    decreases t - floor
  {
    if t > floor {
      Uncovered(os, t);
      InheritedGap(os, n, t - 1, floor, x);
    }
  }

  lemma {:induction false} InheritedNext(os: seq<Span>, n: int, t: int, floor: int, x: string)
    requires Stepping(os, n) && os != [] && floor < os[0].start && os[0].end <= t <= n && os[0].start <= os[0].end
    ensures Inherited(os, t, floor, x) == Inherited(os[1..], t, os[0].end, os[0].topic)
    decreases t
  {
    if t > os[0].end {
      InheritedNext(os, n, t - 1, floor, x);
    }
  }

  lemma {:induction false} FillTopics(os: seq<Span>, n: int, filled: seq<Span>, covered: int, t: int)
    requires n >= 1 && Stepping(os, n) && Held(filled, covered, n) && covered <= n && 1 <= t <= n
    requires os != [] ==> covered < os[0].start
    ensures TopicOf(Fill(os, n, filled, covered), t) ==
            if t <= covered then TopicOf(filled, t) else Some(Inherited(os, t, covered, LastTopic(filled)))
  {
    if os == [] {
      InheritedGap(os, n, t, covered, LastTopic(filled));
      if covered < n { StretchTopics(filled, covered, n, n, t); }
    } else {
      var o, f := os[0], Bridged(filled, covered, os[0]) + [os[0]];
      BridgedHeld(filled, covered, n, o);
      BridgedTopics(filled, covered, n, o, t);
      FillTopics(os[1..], n, f, o.end, t);
      if covered < t {
        if t < o.start {
          InheritedGap(os, n, t, covered, LastTopic(filled));
        } else if t > o.end {
          InheritedNext(os, n, t, covered, LastTopic(filled));
        }
      }
    }
  }

  lemma {:induction false} InheritedSame(a: seq<Span>, b: seq<Span>, t: int)
    requires forall u | u <= t :: TopicOf(a, u) == TopicOf(b, u)
    ensures TopicAt(a, t) == TopicAt(b, t)
    decreases t
  {
    if t > 0 { InheritedSame(a, b, t - 1); }
  }

  // ---- the result as a chain of segments ----

  /** The usable entries of a reply in stable start order. */
  function Usable(entries: seq<Entry>, n: int): seq<Span> {
    Sort(Parse(entries, n))
  }

  lemma {:induction false} ParseClipped(entries: seq<Entry>, n: int)
    requires n >= 1
    ensures forall e | e in Parse(entries, n) :: Clipped(e, n)
  {
    if entries != [] { ParseClipped(entries[..|entries| - 1], n); }
  }

  lemma UsableReady(entries: seq<Entry>, n: int)
    requires n >= 1
    ensures Ready(Usable(entries, n), n, 1)
    ensures Usable(entries, n) == [] <==> Parse(entries, n) == []
  {
    var p := Parse(entries, n);
    ParseClipped(entries, n);
    SortIsStable(p);
    forall i | 0 <= i < |Sort(p)| ensures Clipped(Sort(p)[i], n) { assert Sort(p)[i] in Sort(p); }
    if p != [] { assert p[0] in Sort(p); }
  }

  /** Every turn gets the topic of the first usable entry that covers it, else the topic of the turn before. */
  lemma TurnTopic(entries: seq<Entry>, n: int, t: int)
    requires 1 <= t <= n && Parse(entries, n) != []
    ensures TopicOf(Coerced(entries, n), t) == Some(TopicAt(Usable(entries, n), t))
  {
    var es := Usable(entries, n);
    UsableReady(entries, n);
    var os := Order(es, n, []);
    assert [] + es == es;
    forall u | u <= n ensures TopicOf(os, u) == TopicOf(es, u) {
      OrderKeepsTopics(es, n, [], 1, u);
    }
    OrderKeepsTopics(es, n, [], 1, t);
    FillTopics(os, n, [], 0, t);
    InheritedSame(os, es, t);
  }

  // ---- partition ----

  /** Segments that follow each other from turn 1 on; only one that starts after the last turn can be empty. */
  predicate Chain(f: seq<Span>, n: int) {
    && (f != [] ==> f[0].start == 1)
    && (forall i | 0 <= i < |f| - 1 :: f[i + 1].start == f[i].end + 1)
    && (forall i | 0 <= i < |f| :: f[i].start >= 1 && (f[i].start <= f[i].end || (n < f[i].start && n <= f[i].end)))
  }

  predicate Partition(f: seq<Span>, n: int) {
    && f != [] && f[0].start == 1 && Last(f).end == n
    && (forall i | 0 <= i < |f| :: f[i].start <= f[i].end)
    && (forall i | 0 <= i < |f| - 1 :: f[i + 1].start == f[i].end + 1)
  }

  predicate Nonempty(f: seq<Span>) {
    forall i | 0 <= i < |f| :: f[i].start <= f[i].end
  }

  lemma BridgedChain(filled: seq<Span>, covered: int, n: int, o: Span)
    requires 0 <= covered <= n && Chain(filled, n) && Clipped(o, n) && covered < o.start
    requires if filled == [] then covered == 0 else Last(filled).end == covered
    ensures Chain(Bridged(filled, covered, o) + [o], n)
    ensures Nonempty(filled) && o.start <= n ==> Nonempty(Bridged(filled, covered, o) + [o])
  {
    if o.start > covered + 1 { StretchChain(filled, covered, n, o.start - 1); }
    AppendChain(Bridged(filled, covered, o), n, o);
  }

  lemma StretchChain(filled: seq<Span>, covered: int, n: int, end: int)
    requires 0 <= covered < end && Chain(filled, n)
    requires if filled == [] then covered == 0 else Last(filled).end == covered
    ensures var f := Stretch(filled, end);
            f != [] && Chain(f, n) && Last(f).end == end && (Nonempty(filled) ==> Nonempty(f))
  {
  }

  lemma AppendChain(f: seq<Span>, n: int, o: Span)
    requires Chain(f, n) && Clipped(o, n)
    requires if f == [] then o.start == 1 else Last(f).end == o.start - 1
    ensures Chain(f + [o], n)
    ensures Nonempty(f) && o.start <= n ==> Nonempty(f + [o])
  {
    var g := f + [o];
    forall i | 0 <= i < |g| - 1 ensures g[i + 1].start == g[i].end + 1 {
      assert i == |f| - 1 || f[i + 1].start == f[i].end + 1;
    }
  }

  lemma {:induction false} FillChain(os: seq<Span>, n: int, filled: seq<Span>, covered: int)
    requires n >= 1 && Stepping(os, n) && 0 <= covered <= n && Chain(filled, n)
    requires if filled == [] then covered == 0 else Last(filled).end == covered
    requires os != [] ==> covered < os[0].start
    ensures var r := Fill(os, n, filled, covered); r != [] && Chain(r, n) && Last(r).end == n
    ensures var r := Fill(os, n, filled, covered); r != [] && (os != [] || filled != [] ==>
            Last(r).start == if os != [] then Last(os).start else Last(filled).start)
    ensures Inside(os, n) && Nonempty(filled) ==> Nonempty(Fill(os, n, filled, covered))
  {
    hide Fill, Chain, Nonempty;
    if os == [] {
      FillEnds(n, filled, covered);
      if covered < n { StretchChain(filled, covered, n, n); }
    } else {
      var g := Bridged(filled, covered, os[0]) + [os[0]];
      BridgedChain(filled, covered, n, os[0]);
      InsideTail(os, n);
      FillNext(os, n, filled, covered);
      assert Last(g) == os[0] && Stepping(os[1..], n) && (os[1..] != [] ==> os[0].end < os[1..][0].start);
      hide Inside, Bridged, Stepping;
      FillChain(os[1..], n, g, os[0].end);
    }
  }

  lemma FillEnds(n: int, filled: seq<Span>, covered: int)
    ensures Fill([], n, filled, covered) == if covered < n then Stretch(filled, n) else filled
  {
  }

  lemma FillNext(os: seq<Span>, n: int, filled: seq<Span>, covered: int)
    requires os != []
    ensures Fill(os, n, filled, covered) == Fill(os[1..], n, Bridged(filled, covered, os[0]) + [os[0]], os[0].end)
  {
  }

  /** Before any condition: the segments chain up from turn 1, and the last one ends with the last turn. */
  lemma CoercedChain(entries: seq<Entry>, n: int)
    requires n >= 1 && Parse(entries, n) != []
    ensures var f := Coerced(entries, n); f != [] && Chain(f, n) && Last(f).end == n
  {
    var es := Usable(entries, n);
    UsableReady(entries, n);
    OrderKeepsTopics(es, n, [], 1, 1);
    FillChain(Order(es, n, []), n, [], 0);
  }

  /**
   The segments partition the turns exactly when every usable entry starts in time, or when the turns are used up
   early: an entry reaching the last turn comes, in start order, before another one that starts in time.
   */
  lemma WhenPartition(entries: seq<Entry>, n: int)
    requires n >= 1 && Parse(entries, n) != []
    ensures Partition(Coerced(entries, n), n) <==>
            Inside(Usable(entries, n), n) || UsedUp(Usable(entries, n), false, n)
  {
    var es := Usable(entries, n);
    UsableReady(entries, n);
    var os := Order(es, n, []);
    OrderKeepsTopics(es, n, [], 1, 1);
    OrderNonempty(es, n);
    OrderInside(es, n, [], 1);
    FillChain(os, n, [], 0);
    LastBeyond(os, n);
    ChainPartition(Coerced(entries, n), n);
    hide Chain, Partition, Nonempty, Order, Stepping, Fill, UsedUp, Inside, Ready, Parse, Sort;
  }

  lemma ChainPartition(f: seq<Span>, n: int)
    requires f != [] && Chain(f, n) && Last(f).end == n
    ensures Partition(f, n) <==> Nonempty(f)
  {
  }

  lemma LastBeyond(os: seq<Span>, n: int)
    requires os != [] && Stepping(os, n)
    ensures Inside(os, n) <==> Last(os).start <= n
  {
    if i :| 0 <= i < |os| && os[i].start > n {
      assert i == |os| - 1 || os[i].end < Last(os).start;
    }
  }

  lemma OrderNonempty(es: seq<Span>, n: int)
    requires n >= 1 && es != [] && Ready(es, n, 1)
    ensures Order(es, n, []) != []
  {
    OrderUnfolds(es, n, []);
    OneStep(es[0], n, [], 1);
    OrderKeepsTopics(es[1..], n, OrderOne(es[0], n, []).value, es[0].start, 1);
  }

  // ---- how many segments ----

  /** Some span comes after `end`: one reaches further, or where the turns are used up, the next one starts beyond them. */
  predicate Beyond(es: seq<Span>, end: int, n: int) {
    es != [] && if end >= n then es[0].start > end else exists i :: 0 <= i < |es| && es[i].end > end
  }

  lemma {:induction false} OrderGrows(es: seq<Span>, n: int, os: seq<Span>, low: int)
    requires Ready(es, n, low) && os != [] && LastEnd(os) <= n
    ensures |Order(es, n, os)| >= |os|
    ensures |Order(es, n, os)| > |os| <==> Beyond(es, LastEnd(os), n)
  {
    if es != [] {
      var e := es[0];
      assert Clipped(e, n);
      assert forall i | 0 < i < |es| :: es[i] == es[1..][i - 1];
      OrderUnfolds(es, n, os);
      var next := OrderOne(e, n, os);
      if next.Some? {
        OrderGrows(es[1..], n, next.value, low);
        hide Order;
        if e.start <= LastEnd(os) && e.end <= LastEnd(os) {
          assert next.value == os;
        }
      }
    }
  }

  lemma {:induction false} FillLength(os: seq<Span>, n: int, filled: seq<Span>, covered: int)
    requires filled != []
    ensures |Fill(os, n, filled, covered)| == |filled| + |os|
  {
    if os != [] {
      FillNext(os, n, filled, covered);
      FillLength(os[1..], n, Bridged(filled, covered, os[0]) + [os[0]], os[0].end);
    }
  }

  /**
   A reply makes more than one segment exactly when its first usable entry starts late, or another one comes after the
   first: it reaches further, or where the first reaches the last turn, the second starts beyond that.
   */
  lemma SeveralExactly(entries: seq<Entry>, n: int)
    requires n >= 1 && Parse(entries, n) != []
    ensures var es := Usable(entries, n);
            es != [] && (|Coerced(entries, n)| > 1 <==> es[0].start > 1 || Beyond(es[1..], es[0].end, n))
  {
    var es := Usable(entries, n);
    UsableReady(entries, n);
    OrderUnfolds(es, n, []);
    assert Clipped(es[0], n);
    assert [] + [es[0]] == [es[0]];
    OrderGrows(es[1..], n, [es[0]], 1);
    var os := Order(es, n, []);
    OrderStarts(es[1..], n, [es[0]]);
    FillNext(os, n, [], 0);
    FillLength(os[1..], n, Bridged([], 0, os[0]) + [os[0]], os[0].end);
    hide Order, Fill, Beyond;
  }

  lemma {:induction false} OrderStarts(es: seq<Span>, n: int, os: seq<Span>)
    requires os != [] && forall i | 0 <= i < |es| :: es[i].end <= n
    ensures os <= Order(es, n, os)
  {
    if es != [] {
      OrderUnfolds(es, n, os);
      if OrderOne(es[0], n, os).Some? { OrderStarts(es[1..], n, OrderOne(es[0], n, os).value); }
    }
  }

  // ---- fixed points ----

  /** No topic has more than 80 characters or whitespace around it. */
  predicate CleanTopics(f: seq<Span>) {
    forall i | 0 <= i < |f| :: |f[i].topic| <= 80 && Stripped(f[i].topic)
  }

  lemma TopicIsKept(topic: string)
    requires |topic| <= 80 && Stripped(topic)
    ensures CleanTopic(topic) == topic
  {
    StripResult(topic);
  }

  function Reply(f: seq<Span>): (entries: seq<Entry>)
    ensures |entries| == |f| && forall i | 0 <= i < |f| :: entries[i] == Entry(f[i].start, f[i].end, f[i].topic)
  {
    seq(|f|, i requires 0 <= i < |f| => Entry(f[i].start, f[i].end, f[i].topic))
  }

  lemma {:induction false} EndsGrow(f: seq<Span>, n: int, i: nat, j: nat)
    requires Partition(f, n) && i <= j < |f|
    ensures f[i].start <= f[j].start && f[i].end <= f[j].end <= n && (i < j ==> f[i].end < f[j].start)
    decreases |f| - i
  {
    if i < j {
      EndsGrow(f, n, i + 1, j);
    } else if j < |f| - 1 {
      EndsGrow(f, n, i + 1, |f| - 1);
    }
  }

  lemma {:induction false} ParsePartition(f: seq<Span>, n: int, k: nat)
    requires Partition(f, n) && CleanTopics(f) && k <= |f|
    ensures Parse(Reply(f)[..k], n) == f[..k]
  {
    if k > 0 {
      ParsePartition(f, n, k - 1);
      assert Reply(f)[..k][..k - 1] == Reply(f)[..k - 1];
      EndsGrow(f, n, 0, k - 1);
      TopicIsKept(f[k - 1].topic);
      assert f[..k] == f[..k - 1] + [f[k - 1]];
    }
  }

  lemma {:induction false} SortPartition(f: seq<Span>, n: int, k: nat)
    requires Partition(f, n) && k <= |f|
    ensures Sort(f[..k]) == f[..k]
  {
    if k > 0 {
      SortPartition(f, n, k - 1);
      assert f[..k][..k - 1] == f[..k - 1];
      assert f[..k] == f[..k - 1] + [f[k - 1]];
      if k > 1 { EndsGrow(f, n, k - 2, k - 1); }
    }
  }

  lemma {:induction false} OrderPartition(f: seq<Span>, n: int, k: nat)
    requires Partition(f, n) && k <= |f|
    ensures Order(f[k..], n, f[..k]) == f
    decreases |f| - k
  {
    if k < |f| {
      EndsGrow(f, n, k, k);
      assert f[k..][1..] == f[k + 1..] && f[..k] + [f[k]] == f[..k + 1];
      assert Span(f[k].start, Clip(f[k].end, n), f[k].topic) == f[k];
      OrderPartition(f, n, k + 1);
    } else {
      assert f[..k] == f;
    }
  }

  lemma {:induction false} FillPartition(f: seq<Span>, n: int, k: nat)
    requires Partition(f, n) && k <= |f|
    ensures Fill(f[k..], n, f[..k], if k == 0 then 0 else f[k - 1].end) == f
    decreases |f| - k
  {
    if k < |f| {
      assert f[k..][1..] == f[k + 1..] && f[..k] + [f[k]] == f[..k + 1];
      FillPartition(f, n, k + 1);
    } else {
      assert f[..k] == f;
    }
  }

  /** A reply that already partitions the turns, with clean topics, is taken as it is. */
  lemma PartitionIsKept(f: seq<Span>, n: int)
    requires Partition(f, n) && CleanTopics(f)
    ensures Coerced(Reply(f), n) == f
  {
    assert Reply(f)[..|f|] == Reply(f) && f[..|f|] == f && f[0..] == f && f[..0] == [];
    ParsePartition(f, n, |f|);
    SortPartition(f, n, |f|);
    OrderPartition(f, n, 0);
    FillPartition(f, n, 0);
  }

  lemma ParseOne(e: Entry, n: int)
    requires Accepted(e)
    ensures Parse([e], n) == [ParseEntry(e, n)]
  {
    assert [e][..0] == [];
  }

  lemma SortOne(p: Span)
    ensures Sort([p]) == [p]
  {
    assert [p][..0] == [];
  }

  lemma OrderOneSpan(p: Span, n: int)
    requires p.end <= n
    ensures Order([p], n, []) == [p]
  {
    assert [p][1..] == [];
  }

  lemma FillLate(p: Span, n: int)
    requires n >= 1 && p.start > n && p.end == n
    ensures Fill([p], n, [], 0) == [Span(1, p.start - 1, ""), p]
  {
    assert [p][1..] == [];
  }

  /** One entry that starts beyond the last turn: the answer has a segment past the end and an empty one. */
  lemma LateStartBreaksPartition(start: int, end: int, topic: string, n: int)
    requires 1 <= n < start <= end
    ensures var f := Coerced([Entry(start, end, topic)], n);
            f == [Span(1, start - 1, ""), Span(start, n, CleanTopic(topic))] && !Partition(f, n)
  {
    hide CleanTopic, Parse, Sort, Order, Fill;
    var p := Span(start, n, CleanTopic(topic));
    ParseOne(Entry(start, end, topic), n);
    SortOne(p);
    OrderOneSpan(p, n);
    FillLate(p, n);
  }
}
