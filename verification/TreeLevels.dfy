/** `tree_levels`: merging any number of sources with Compile calls of bounded fan-in. */
module TreeLevels {
  import opened Basics
  import opened Numerals

  datatype Group = Group(key: string, inputs: seq<string>, output: string)

  function Name(work: string, level: nat, index: nat): string {
    work + "/merge-" + Decimal(level) + "-" + Decimal(index)
  }

  function Key(level: nat, index: nat): string {
    "merge:" + Decimal(level) + ":" + Decimal(index)
  }

  /** The groups of one level, from group number `index` on. */
  function Groups(roots: seq<string>, fanIn: nat, work: string, level: nat, index: nat): seq<Group>
    requires fanIn >= 1
    decreases |roots|
  {
    if roots == [] then []
    else
      var n := Min(fanIn, |roots|);
      [Group(Key(level, index), roots[..n], Name(work, level, index))] + Groups(roots[n..], fanIn, work, level, index + 1)
  }

  function Outputs(groups: seq<Group>): seq<string> {
    if groups == [] then [] else [groups[0].output] + Outputs(groups[1..])
  }

  /** How many groups of at most `d` it takes to hold `n` roots. */
  function Ceil(n: nat, d: nat): nat
    requires d >= 1
  {
    if n == 0 then 0 else if n <= d then 1 else 1 + Ceil(n - d, d)
  }

  /** ... which is division rounded up. */
  lemma {:induction false} CeilIsDivision(n: nat, d: nat)
    requires d >= 1
    ensures n <= d * Ceil(n, d)
    ensures n >= 1 ==> d * (Ceil(n, d) - 1) < n
  {
    if n > d {
      CeilIsDivision(n - d, d);
      assert d * Ceil(n, d) == d + d * Ceil(n - d, d);
      assert d * (Ceil(n, d) - 1) == d + d * (Ceil(n - d, d) - 1);
    }
  }

  lemma {:induction false} GroupCount(roots: seq<string>, fanIn: nat, work: string, level: nat, index: nat)
    requires fanIn >= 1
    ensures |Groups(roots, fanIn, work, level, index)| == Ceil(|roots|, fanIn)
    decreases |roots|
  {
    if roots != [] {
      GroupCount(roots[Min(fanIn, |roots|)..], fanIn, work, level, index + 1);
    }
  }

  lemma {:induction false} OutputCount(groups: seq<Group>)
    ensures |Outputs(groups)| == |groups|
  {
    if groups != [] { OutputCount(groups[1..]); }
  }

  /** Merging shrinks a level that is too wide. */
  lemma {:induction false} CeilShrinks(n: nat, d: nat)
    requires n >= 2 && d >= 2
    ensures 1 <= Ceil(n, d) < n
  {
    if n > d + 1 { CeilShrinks(n - d, d); }
  }

  /** All levels: merges until at most `fanIn` roots are left, then one publish group. */
  function Levels(roots: seq<string>, fanIn: nat, work: string, level: nat): seq<seq<Group>>
    requires fanIn >= 2
    decreases |roots|
  {
    if |roots| <= fanIn then [[Group("publish", roots, "")]]
    else
      var groups := Groups(roots, fanIn, work, level, 0);
      GroupCount(roots, fanIn, work, level, 0);
      OutputCount(groups);
      CeilShrinks(|roots|, fanIn);
      [groups] + Levels(Outputs(groups), fanIn, work, level + 1)
  }

  lemma {:induction false} OutputsAppend(groups: seq<Group>, g: Group)
    ensures Outputs(groups + [g]) == Outputs(groups) + [g.output]
  {
    if groups != [] {
      assert (groups + [g])[1..] == groups[1..] + [g];
      OutputsAppend(groups[1..], g);
    }
  }

  /** `index` is where chunk `c` begins. */
  predicate Begins(index: nat, c: nat, d: nat) {
    index == c * d
  }

  lemma ChunkStep(index: nat, c: nat, d: nat)
    requires d >= 1 && Begins(index, c, d)
    ensures index / d == c && Begins(index + d, c + 1, d)
  {
    var q, r := index / d, index % d;
    assert index == q * d + r;
    if q < c { Product(q + 1, c, d); }
    if q > c { Product(c + 1, q, d); }
  }

  lemma Product(a: nat, b: nat, d: nat)
    requires a <= b
    ensures a * d <= b * d && (a - 1) * d == a * d - d
  {
  }

  /** Cutting off one more chunk. */
  lemma GroupsStep(roots: seq<string>, fanIn: nat, work: string, level: nat, c: nat, index: nat, end: nat, groups: seq<Group>)
    requires fanIn >= 1 && index < |roots| && end == Min(index + fanIn, |roots|)
    ensures var group := Group(Key(level, c), roots[index..end], Name(work, level, c));
            groups + Groups(roots[index..], fanIn, work, level, c)
            == (groups + [group]) + Groups(roots[end..], fanIn, work, level, c + 1)
  {
    var rest := roots[index..];
    var group := Group(Key(level, c), roots[index..end], Name(work, level, c));
    assert rest[..end - index] == roots[index..end] && rest[end - index..] == roots[end..];
    assert Groups(rest, fanIn, work, level, c) == [group] + Groups(roots[end..], fanIn, work, level, c + 1);
  }

  /** The inner loop: cut one level into groups; `outputs` are the roots of the next level. */
  method BuildLevel(roots: seq<string>, fanIn: nat, work: string, level: nat)
    returns (groups: seq<Group>, outputs: seq<string>)
    requires fanIn >= 1
    ensures groups == Groups(roots, fanIn, work, level, 0)
    ensures outputs == Outputs(groups)
  {
    hide Begins, Groups, Name, Key, Outputs;
    groups, outputs := [], [];
    var index := 0;
    ghost var c: nat := 0;
    LoopStarts(roots, fanIn, work, level);
    while index < |roots|
      invariant Begins(index, c, fanIn)
      invariant groups + Groups(roots[Min(index, |roots|)..], fanIn, work, level, c) == Groups(roots, fanIn, work, level, 0)
      invariant outputs == Outputs(groups)
    {
      ChunkStep(index, c, fanIn);
      var end := if index + fanIn <= |roots| then index + fanIn else |roots|;
      var group := Group(Key(level, index / fanIn), roots[index..end], Name(work, level, index / fanIn));
      GroupsStep(roots, fanIn, work, level, c, index, end, groups);
      OutputsAppend(groups, group);
      groups, outputs := groups + [group], outputs + [group.output];
      index := index + fanIn;
      c := c + 1;
    }
    LoopEnds(roots, fanIn, work, level, c, groups);
  }

  lemma LoopStarts(roots: seq<string>, fanIn: nat, work: string, level: nat)
    requires fanIn >= 1
    ensures Begins(0, 0, fanIn) && Outputs([]) == []
    ensures [] + Groups(roots[Min(0, |roots|)..], fanIn, work, level, 0) == Groups(roots, fanIn, work, level, 0)
  {
    assert roots[0..] == roots;
  }

  lemma LoopEnds(roots: seq<string>, fanIn: nat, work: string, level: nat, c: nat, groups: seq<Group>)
    requires fanIn >= 1
    ensures groups + Groups(roots[|roots|..], fanIn, work, level, c) == groups
  {
  }

  method TreeLevels(sources: seq<string>, fanIn: nat, work: string) returns (levels: seq<seq<Group>>)
    requires fanIn >= 2
    ensures levels == Levels(sources, fanIn, work, 0)
  {
    var level, roots := 0, sources;
    levels := [];
    while |roots| > fanIn
      invariant levels + Levels(roots, fanIn, work, level) == Levels(sources, fanIn, work, 0)
      decreases |roots|
    {
      var groups, outputs := BuildLevel(roots, fanIn, work, level);
      GroupCount(roots, fanIn, work, level, 0);
      OutputCount(groups);
      CeilShrinks(|roots|, fanIn);
      assert levels + ([groups] + Levels(outputs, fanIn, work, level + 1)) == (levels + [groups]) + Levels(outputs, fanIn, work, level + 1);
      levels := levels + [groups];
      roots := outputs;
      level := level + 1;
    }
    levels := levels + [[Group("publish", roots, "")]];
  }

  // ---- names ----

  lemma NameInjective(work: string, l: nat, i: nat, m: nat, j: nat)
    requires Name(work, l, i) == Name(work, m, j)
    ensures l == m && i == j
  {
    DecimalReads(l);
    DecimalReads(m);
    DecimalReads(i);
    DecimalReads(j);
    CutNumeral(work + "/merge-" + Decimal(l), Decimal(i), work + "/merge-" + Decimal(m), Decimal(j), '-');
    var p := work + "/merge-";
    assert (p + Decimal(l))[|p|..] == Decimal(l) && (p + Decimal(m))[|p|..] == Decimal(m);
  }

  /** Group `n` of a level has the level's `index + n`-th name and key and between 1 and `fanIn` inputs. */
  lemma {:induction false} GroupAt(roots: seq<string>, fanIn: nat, work: string, level: nat, index: nat, n: nat)
    requires fanIn >= 1 && n < |Groups(roots, fanIn, work, level, index)|
    ensures var g := Groups(roots, fanIn, work, level, index)[n];
            g.output == Name(work, level, index + n) && g.key == Key(level, index + n) && 1 <= |g.inputs| <= fanIn
    decreases |roots|
  {
    if n > 0 {
      GroupAt(roots[Min(fanIn, |roots|)..], fanIn, work, level, index + 1, n - 1);
    }
  }

  /** Every group of a merge level is a group of that level's number; the last level is the publish group. */
  lemma {:induction false} LevelAt(roots: seq<string>, fanIn: nat, work: string, level: nat, l: nat, n: nat)
    requires fanIn >= 2
    requires l < |Levels(roots, fanIn, work, level)| && n < |Levels(roots, fanIn, work, level)[l]|
    ensures var g := Levels(roots, fanIn, work, level)[l][n];
            && |g.inputs| <= fanIn && (roots != [] ==> 1 <= |g.inputs|)
            && (l < |Levels(roots, fanIn, work, level)| - 1 ==> g.output == Name(work, level + l, n) && g.key == Key(level + l, n))
            && (l == |Levels(roots, fanIn, work, level)| - 1 ==> n == 0 && g.key == "publish" && g.output == "")
    decreases |roots|
  {
    if |roots| > fanIn {
      var groups := Groups(roots, fanIn, work, level, 0);
      GroupCount(roots, fanIn, work, level, 0);
      OutputCount(groups);
      CeilShrinks(|roots|, fanIn);
      FirstLevel(roots, fanIn, work, level);
      hide Levels, Groups, Outputs, Name, Key;
      if l == 0 {
        GroupAt(roots, fanIn, work, level, 0, n);
      } else {
        LevelAt(Outputs(groups), fanIn, work, level + 1, l - 1, n);
      }
    }
  }

  lemma FirstLevel(roots: seq<string>, fanIn: nat, work: string, level: nat)
    requires fanIn >= 2 && |roots| > fanIn
    ensures var groups, levels := Groups(roots, fanIn, work, level, 0), Levels(roots, fanIn, work, level);
            && Outputs(groups) != [] && levels != [] && levels[0] == groups
            && levels[1..] == Levels(Outputs(groups), fanIn, work, level + 1) != []
  {
    NextLevel(map[], roots, fanIn, work, level);
    OnePublish(Outputs(Groups(roots, fanIn, work, level, 0)), fanIn, work, level + 1);
  }

  /** No two merge groups of one plan write to the same place. */
  lemma OutputsDistinct(sources: seq<string>, fanIn: nat, work: string, l: nat, i: nat, m: nat, j: nat)
    requires fanIn >= 2
    requires l < |Levels(sources, fanIn, work, 0)| - 1 && i < |Levels(sources, fanIn, work, 0)[l]|
    requires m < |Levels(sources, fanIn, work, 0)| - 1 && j < |Levels(sources, fanIn, work, 0)[m]|
    requires Levels(sources, fanIn, work, 0)[l][i].output == Levels(sources, fanIn, work, 0)[m][j].output
    ensures l == m && i == j
  {
    LevelAt(sources, fanIn, work, 0, l, i);
    LevelAt(sources, fanIn, work, 0, m, j);
    NameInjective(work, l, i, m, j);
  }

  lemma KeyInjective(l: nat, i: nat, m: nat, j: nat)
    requires Key(l, i) == Key(m, j)
    ensures l == m && i == j
  {
    DecimalReads(l);
    DecimalReads(m);
    DecimalReads(i);
    DecimalReads(j);
    var p := "merge:";
    CutNumeral(p + Decimal(l), Decimal(i), p + Decimal(m), Decimal(j), ':');
    assert (p + Decimal(l))[|p|..] == Decimal(l) && (p + Decimal(m))[|p|..] == Decimal(m);
  }

  /** ... and no two groups of one plan share a stage key, the publish group included. */
  lemma KeysDistinct(sources: seq<string>, fanIn: nat, work: string, l: nat, i: nat, m: nat, j: nat)
    requires fanIn >= 2
    requires l < |Levels(sources, fanIn, work, 0)| && i < |Levels(sources, fanIn, work, 0)[l]|
    requires m < |Levels(sources, fanIn, work, 0)| && j < |Levels(sources, fanIn, work, 0)[m]|
    requires Levels(sources, fanIn, work, 0)[l][i].key == Levels(sources, fanIn, work, 0)[m][j].key
    ensures l == m && i == j
  {
    var levels := Levels(sources, fanIn, work, 0);
    LevelAt(sources, fanIn, work, 0, l, i);
    LevelAt(sources, fanIn, work, 0, m, j);
    OnePublish(sources, fanIn, work, 0);
    hide Levels, Key;
    if l < |levels| - 1 && m < |levels| - 1 {
      KeyInjective(l, i, m, j);
    } else if l < |levels| - 1 {
      NoKeyIsPublish(l, i);
    } else if m < |levels| - 1 {
      NoKeyIsPublish(m, j);
    }
  }

  lemma NoKeyIsPublish(level: nat, index: nat)
    ensures Key(level, index) != "publish"
  {
    assert Key(level, index)[0] == 'm' && "publish"[0] == 'p';
  }

  // ---- depth ----

  function Power(b: nat, e: nat): nat {
    if e == 0 then 1 else b * Power(b, e - 1)
  }

  lemma {:induction false} Depth(roots: seq<string>, fanIn: nat, work: string, level: nat)
    requires fanIn >= 2
    ensures |Levels(roots, fanIn, work, level)| >= 1
    ensures |roots| <= Power(fanIn, |Levels(roots, fanIn, work, level)|)
    ensures |Levels(roots, fanIn, work, level)| > 1 ==> |roots| > Power(fanIn, |Levels(roots, fanIn, work, level)| - 1)
    decreases |roots|
  {
    assert Power(fanIn, 1) == fanIn * Power(fanIn, 0) == fanIn;
    if |roots| > fanIn {
      var groups := Groups(roots, fanIn, work, level, 0);
      GroupCount(roots, fanIn, work, level, 0);
      OutputCount(groups);
      CeilShrinks(|roots|, fanIn);
      CeilIsDivision(|roots|, fanIn);
      Depth(Outputs(groups), fanIn, work, level + 1);
      var d, c := |Levels(Outputs(groups), fanIn, work, level + 1)|, Ceil(|roots|, fanIn);
      Scale(fanIn, c, Power(fanIn, d));
      if d > 1 { Scale(fanIn, Power(fanIn, d - 1), c - 1); }
    }
  }

  lemma Scale(f: nat, a: nat, b: nat)
    requires a <= b
    ensures f * a <= f * b
  {
  }

  lemma {:induction false} PowerGrows(b: nat, d: nat, e: nat)
    requires b >= 1 && d <= e
    ensures Power(b, d) <= Power(b, e)
    decreases e
  {
    if d < e {
      PowerGrows(b, d, e - 1);
      Scale(Power(b, e - 1), 1, b);
    }
  }

  /** The number of merge levels is the least L such that the sources fit into fanIn^(L+1). */
  lemma MergeLevels(sources: seq<string>, fanIn: nat, work: string, l: nat)
    requires fanIn >= 2
    ensures |sources| <= Power(fanIn, l + 1) <==> |Levels(sources, fanIn, work, 0)| - 1 <= l
  {
    var merges := |Levels(sources, fanIn, work, 0)| - 1;
    Depth(sources, fanIn, work, 0);
    if merges <= l { PowerGrows(fanIn, merges + 1, l + 1); } else { PowerGrows(fanIn, l + 1, merges); }
  }

  // ---- what running the plan produces ----

  /** What each place holds: the source contents merged into it, in order. */
  type Store = map<string, seq<string>>

  function Gather(store: Store, inputs: seq<string>): seq<string>
    requires forall x | x in inputs :: x in store
  {
    if inputs == [] then [] else store[inputs[0]] + Gather(store, inputs[1..])
  }

  lemma {:induction false} GatherConcat(store: Store, a: seq<string>, b: seq<string>)
    requires forall x | x in a + b :: x in store
    ensures (forall x | x in a :: x in store) && (forall x | x in b :: x in store)
    ensures Gather(store, a + b) == Gather(store, a) + Gather(store, b)
  {
    assert forall x | x in a :: x in a + b;
    assert forall x | x in b :: x in a + b;
    if a == [] {
      assert a + b == b;
    } else {
      assert (a + b)[1..] == a[1..] + b;
      GatherConcat(store, a[1..], b);
    }
  }

  lemma {:induction false} GatherSame(store: Store, store': Store, inputs: seq<string>)
    requires forall x | x in inputs :: x in store && x in store' && store'[x] == store[x]
    ensures Gather(store', inputs) == Gather(store, inputs)
  {
    if inputs != [] { GatherSame(store, store', inputs[1..]); }
  }

  /** Run the groups of a level in order: each writes the merge of its inputs to its output. */
  function Execute(store: Store, groups: seq<Group>): Store
    decreases |groups|
  {
    if groups == [] then store
    else if forall x | x in groups[0].inputs :: x in store
    then Execute(store[groups[0].output := Gather(store, groups[0].inputs)], groups[1..])
    else store
  }

  /** No root is a name this level still has to write, from group `index` on. */
  ghost predicate Untaken(roots: seq<string>, work: string, level: nat, index: nat) {
    forall j: nat | j >= index :: Name(work, level, j) !in roots
  }

  /** One group runs: its output is written from inputs that are there. */
  lemma ExecuteFirst(store: Store, roots: seq<string>, fanIn: nat, work: string, level: nat, index: nat)
    requires fanIn >= 1 && roots != [] && forall x | x in roots :: x in store
    ensures var n := Min(fanIn, |roots|);
            && (forall x | x in roots[..n] :: x in store)
            && Execute(store, Groups(roots, fanIn, work, level, index))
               == Execute(store[Name(work, level, index) := Gather(store, roots[..n])],
                          Groups(roots[n..], fanIn, work, level, index + 1))
            && Outputs(Groups(roots, fanIn, work, level, index))
               == [Name(work, level, index)] + Outputs(Groups(roots[n..], fanIn, work, level, index + 1))
  {
    hide Name, Gather, Key;
    var n := Min(fanIn, |roots|);
    var groups := Groups(roots, fanIn, work, level, index);
    assert groups[0].inputs == roots[..n] && groups[1..] == Groups(roots[n..], fanIn, work, level, index + 1);
  }

  /** The rest of a level does not write to what it still reads. */
  lemma UntakenNext(roots: seq<string>, fanIn: nat, work: string, level: nat, index: nat)
    requires fanIn >= 1 && roots != [] && Untaken(roots, work, level, index)
    ensures Untaken(roots[Min(fanIn, |roots|)..], work, level, index + 1)
    ensures Name(work, level, index) !in roots
    ensures forall j: nat | j >= index + 1 :: Name(work, level, index) != Name(work, level, j)
  {
    var n := Min(fanIn, |roots|);
    forall j: nat | j >= index + 1 ensures Name(work, level, index) != Name(work, level, j) {
      if Name(work, level, index) == Name(work, level, j) { NameInjective(work, level, index, level, j); }
    }
    assert forall x | x in roots[n..] :: x in roots;
  }

  /** A level writes its own names only. */
  lemma {:induction false} ExecuteFrame(
    store: Store, roots: seq<string>, fanIn: nat, work: string, level: nat, index: nat, x: string)
    requires fanIn >= 1 && (forall r | r in roots :: r in store)
    requires x in store && forall j: nat | j >= index :: x != Name(work, level, j)
    ensures var after := Execute(store, Groups(roots, fanIn, work, level, index)); x in after && after[x] == store[x]
    decreases |roots|
  {
    if roots != [] {
      var n := Min(fanIn, |roots|);
      ExecuteFirst(store, roots, fanIn, work, level, index);
      hide Execute, Groups, Name, Gather;
      ExecuteFrame(store[Name(work, level, index) := Gather(store, roots[..n])], roots[n..], fanIn, work, level, index + 1, x);
    }
  }

  /** A level keeps the contents of its roots: its outputs hold the same, in the same order. */
  lemma {:induction false} ExecuteLevel(store: Store, roots: seq<string>, fanIn: nat, work: string, level: nat, index: nat)
    requires fanIn >= 1 && (forall x | x in roots :: x in store) && Untaken(roots, work, level, index)
    ensures var groups := Groups(roots, fanIn, work, level, index);
            var after := Execute(store, groups);
            && (forall x | x in Outputs(groups) :: x in after)
            && Gather(after, Outputs(groups)) == Gather(store, roots)
    decreases |roots|
  {
    if roots != [] {
      var n, out := Min(fanIn, |roots|), Name(work, level, index);
      ExecuteFirst(store, roots, fanIn, work, level, index);
      UntakenNext(roots, fanIn, work, level, index);
      var store1 := store[out := Gather(store, roots[..n])];
      var rest := Outputs(Groups(roots[n..], fanIn, work, level, index + 1));
      var after := Execute(store1, Groups(roots[n..], fanIn, work, level, index + 1));
      ExecuteLevel(store1, roots[n..], fanIn, work, level, index + 1);
      ExecuteFrame(store1, roots[n..], fanIn, work, level, index + 1, out);
      hide Execute, Groups, Name, Untaken, Outputs;
      SplitGather(store, store1, after, roots, n, out, rest);
    }
  }

  lemma SplitGather(
    store: Store, store1: Store, after: Store, roots: seq<string>, n: nat, out: string, rest: seq<string>)
    requires n <= |roots| && (forall x | x in roots :: x in store) && out !in roots
    requires forall x | x in roots[..n] :: x in store
    requires store1 == store[out := Gather(store, roots[..n])]
    requires (forall x | x in roots[n..] :: x in store1) && (forall x | x in rest :: x in after)
    requires Gather(after, rest) == Gather(store1, roots[n..])
    requires out in after && after[out] == store1[out]
    ensures forall x | x in [out] + rest :: x in after
    ensures Gather(after, [out] + rest) == Gather(store, roots)
  {
    assert forall x | x in roots[n..] :: x in roots;
    GatherSame(store, store1, roots[n..]);
    assert roots == roots[..n] + roots[n..];
    GatherConcat(store, roots[..n], roots[n..]);
    assert ([out] + rest)[1..] == rest;
  }

  function ExecuteAll(store: Store, levels: seq<seq<Group>>): Store
    decreases |levels|
  {
    if levels == [] then store else ExecuteAll(Execute(store, levels[0]), levels[1..])
  }

  lemma {:induction false} OutputsAreNames(roots: seq<string>, fanIn: nat, work: string, level: nat, index: nat, x: string)
    requires fanIn >= 1 && x in Outputs(Groups(roots, fanIn, work, level, index))
    ensures exists j: nat :: x == Name(work, level, j)
    decreases |roots|
  {
    if x != Name(work, level, index) {
      OutputsAreNames(roots[Min(fanIn, |roots|)..], fanIn, work, level, index + 1, x);
    }
  }

  /** The merge levels of a plan, without the publish level, executed in order. */
  function Merged(store: Store, roots: seq<string>, fanIn: nat, work: string, level: nat): Store
    requires fanIn >= 2
  {
    var levels := Levels(roots, fanIn, work, level);
    if levels == [] then store else ExecuteAll(store, levels[..|levels| - 1])
  }

  /** The publish group's inputs. */
  function Published(roots: seq<string>, fanIn: nat, work: string, level: nat): seq<string>
    requires fanIn >= 2
  {
    var levels := Levels(roots, fanIn, work, level);
    if levels == [] || levels[|levels| - 1] == [] then [] else levels[|levels| - 1][0].inputs
  }

  lemma LastLevel(store: Store, roots: seq<string>, fanIn: nat, work: string, level: nat)
    requires fanIn >= 2 && |roots| <= fanIn
    ensures Merged(store, roots, fanIn, work, level) == store && Published(roots, fanIn, work, level) == roots
  {
    assert Levels(roots, fanIn, work, level)[..0] == [];
  }

  lemma NextLevel(store: Store, roots: seq<string>, fanIn: nat, work: string, level: nat)
    requires fanIn >= 2 && |roots| > fanIn
    ensures var groups := Groups(roots, fanIn, work, level, 0);
            && |Outputs(groups)| < |roots|
            && Merged(store, roots, fanIn, work, level) == Merged(Execute(store, groups), Outputs(groups), fanIn, work, level + 1)
            && Published(roots, fanIn, work, level) == Published(Outputs(groups), fanIn, work, level + 1)
  {
    hide Execute, Groups, Outputs;
    var groups := Groups(roots, fanIn, work, level, 0);
    GroupCount(roots, fanIn, work, level, 0);
    OutputCount(groups);
    CeilShrinks(|roots|, fanIn);
    var rest := Levels(Outputs(groups), fanIn, work, level + 1);
    Depth(Outputs(groups), fanIn, work, level + 1);
    var levels := Levels(roots, fanIn, work, level);
    assert levels == [groups] + rest && levels[..|levels| - 1] == [groups] + rest[..|rest| - 1];
    assert ([groups] + rest[..|rest| - 1])[1..] == rest[..|rest| - 1];
  }

  /** A level's outputs are not names of later levels. */
  lemma UntakenAbove(roots: seq<string>, fanIn: nat, work: string, level: nat, l: nat)
    requires fanIn >= 1 && l > level
    ensures Untaken(Outputs(Groups(roots, fanIn, work, level, 0)), work, l, 0)
  {
    forall j: nat ensures Name(work, l, j) !in Outputs(Groups(roots, fanIn, work, level, 0)) {
      if Name(work, l, j) in Outputs(Groups(roots, fanIn, work, level, 0)) {
        OutputsAreNames(roots, fanIn, work, level, 0, Name(work, l, j));
        var k: nat :| Name(work, l, j) == Name(work, level, k);
        NameInjective(work, l, j, level, k);
      }
    }
  }

  /** All merge levels together keep the contents: what is published is what the roots held, in order. */
  lemma {:induction false} RunLevels(store: Store, roots: seq<string>, fanIn: nat, work: string, level: nat)
    requires fanIn >= 2 && (forall x | x in roots :: x in store)
    requires forall l: nat | l >= level :: Untaken(roots, work, l, 0)
    ensures var after, publish := Merged(store, roots, fanIn, work, level), Published(roots, fanIn, work, level);
            (forall x | x in publish :: x in after) && Gather(after, publish) == Gather(store, roots)
    decreases |roots|
  {
    hide Merged, Published, Gather, Execute, Groups, Outputs, Untaken;
    if |roots| <= fanIn {
      LastLevel(store, roots, fanIn, work, level);
    } else {
      var groups := Groups(roots, fanIn, work, level, 0);
      NextLevel(store, roots, fanIn, work, level);
      ExecuteLevel(store, roots, fanIn, work, level, 0);
      forall l: nat | l >= level + 1 ensures Untaken(Outputs(groups), work, l, 0) {
        UntakenAbove(roots, fanIn, work, level, l);
      }
      RunLevels(Execute(store, groups), Outputs(groups), fanIn, work, level + 1);
    }
  }

  /** ... and they write merge names of their own root only. */
  lemma {:induction false} RunFrame(store: Store, roots: seq<string>, fanIn: nat, work: string, level: nat, x: string)
    requires fanIn >= 2 && (forall r | r in roots :: r in store) && (forall l: nat | l >= level :: Untaken(roots, work, l, 0))
    requires x in store && forall l: nat, j: nat | l >= level :: x != Name(work, l, j)
    ensures var after := Merged(store, roots, fanIn, work, level); x in after && after[x] == store[x]
    decreases |roots|
  {
    hide Merged, Published, Gather, Execute, Groups, Outputs, Untaken, Name;
    if |roots| <= fanIn {
      LastLevel(store, roots, fanIn, work, level);
    } else {
      var groups := Groups(roots, fanIn, work, level, 0);
      NextLevel(store, roots, fanIn, work, level);
      ExecuteLevel(store, roots, fanIn, work, level, 0);
      ExecuteFrame(store, roots, fanIn, work, level, 0, x);
      forall l: nat | l >= level + 1 ensures Untaken(Outputs(groups), work, l, 0) {
        UntakenAbove(roots, fanIn, work, level, l);
      }
      RunFrame(Execute(store, groups), Outputs(groups), fanIn, work, level + 1, x);
    }
  }

  /** Each source holds itself. */
  function Leaves(sources: seq<string>): Store {
    map x | x in sources :: [x]
  }

  lemma {:induction false} GatherLeaves(store: Store, sources: seq<string>)
    requires forall x | x in sources :: x in store && store[x] == [x]
    ensures Gather(store, sources) == sources
  {
    if sources != [] { GatherLeaves(store, sources[1..]); }
  }

  /** Running the whole plan publishes every source exactly once and in order. */
  lemma Lossless(sources: seq<string>, fanIn: nat, work: string)
    requires fanIn >= 2 && forall l: nat, j: nat :: Name(work, l, j) !in sources
    ensures var levels := Levels(sources, fanIn, work, 0);
            var after := ExecuteAll(Leaves(sources), levels[..|levels| - 1]);
            var publish := levels[|levels| - 1];
            && |publish| == 1 && publish[0].key == "publish"
            && (forall x | x in publish[0].inputs :: x in after)
            && Gather(after, publish[0].inputs) == sources
  {
    hide Levels, ExecuteAll, Gather, Name;
    var levels := Levels(sources, fanIn, work, 0);
    RunLevels(Leaves(sources), sources, fanIn, work, 0);
    GatherLeaves(Leaves(sources), sources);
    Depth(sources, fanIn, work, 0);
    OnePublish(sources, fanIn, work, 0);
    LevelAt(sources, fanIn, work, 0, |levels| - 1, 0);
  }

  lemma {:induction false} OnePublish(roots: seq<string>, fanIn: nat, work: string, level: nat)
    requires fanIn >= 2
    ensures var levels := Levels(roots, fanIn, work, level); levels != [] && |levels[|levels| - 1]| == 1
    decreases |roots|
  {
    if |roots| > fanIn {
      NextLevel(map[], roots, fanIn, work, level);
      OnePublish(Outputs(Groups(roots, fanIn, work, level, 0)), fanIn, work, level + 1);
    }
  }
}
