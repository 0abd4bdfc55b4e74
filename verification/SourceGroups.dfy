/** The three ways the pipeline groups staged sources for Compile: batches, hash partitions, or one merge tree. */
module SourceGroups {
  import opened Basics
  import opened Numerals
  import opened TreeLevels

  // ---- where sources live ----

  /** A source as the pipeline stages it: a user's directory under a hexadecimal hash, or the baseline copy. */
  datatype Source = UserDir(root: string, hash: string) | Baseline(root: string)

  predicate HexDigit(c: char) {
    '0' <= c <= '9' || 'a' <= c <= 'f'
  }

  predicate ValidSource(s: Source) {
    s.UserDir? ==> forall i | 0 <= i < |s.hash| :: HexDigit(s.hash[i])
  }

  function Uri(s: Source): string {
    match s
    case UserDir(root, hash) => root + "/users/" + hash
    case Baseline(root) => root + "/baseline"
  }

  /** A dash, and only digits after it. */
  predicate NumeralTail(u: string) {
    exists k :: 0 <= k < |u| - 1 && u[k] == '-' && forall i | k < i < |u| :: IsDigit(u[i])
  }

  lemma OutputHasTail(work: string, level: nat, index: nat)
    ensures NumeralTail(Name(work, level, index))
  {
    var p := work + "/merge-" + Decimal(level);
    DecimalReads(index);
    DecimalNonempty(index);
    assert Name(work, level, index)[|p|] == '-';
  }

  lemma SourceHasNoTail(s: Source)
    requires ValidSource(s)
    ensures !NumeralTail(Uri(s))
  {
    var u := Uri(s);
    match s
    case Baseline(root) => assert u[|u| - 1] == 'e';
    case UserDir(root, hash) =>
      var slash := |root| + 6;
      assert u[slash] == '/' && forall i | slash < i < |u| :: u[i] == hash[i - slash - 1];
      forall k | 0 <= k < |u| - 1 ensures !(u[k] == '-' && forall i | k < i < |u| :: IsDigit(u[i])) {
        assert k > slash ==> HexDigit(u[k]);
        assert k < slash ==> !IsDigit(u[slash]);
      }
  }

  /** What follows the last dash of a merge output's name is a number; of a source's name it is not. */
  lemma SourceIsNoOutput(s: Source, work: string, level: nat, index: nat)
    requires ValidSource(s)
    ensures Uri(s) != Name(work, level, index)
  {
    SourceHasNoTail(s);
    OutputHasTail(work, level, index);
  }

  lemma DecimalNonempty(n: nat)
    ensures Decimal(n) != ""
  {
  }

  function Uris(sources: seq<Source>): (us: seq<string>)
    ensures |us| == |sources| && forall i | 0 <= i < |us| :: us[i] == Uri(sources[i])
  {
    seq(|sources|, i requires 0 <= i < |sources| => Uri(sources[i]))
  }

  /** One merge tree over the staged sources publishes every one of them exactly once and in order. */
  lemma TreeLosesNothing(sources: seq<Source>, fanIn: nat, work: string)
    requires fanIn >= 2 && forall i | 0 <= i < |sources| :: ValidSource(sources[i])
    ensures var levels := Levels(Uris(sources), fanIn, work, 0);
            var after := ExecuteAll(Leaves(Uris(sources)), levels[..|levels| - 1]);
            var publish := levels[|levels| - 1];
            && |publish| == 1 && (forall x | x in publish[0].inputs :: x in after)
            && Gather(after, publish[0].inputs) == Uris(sources)
  {
    forall l: nat, j: nat ensures Name(work, l, j) !in Uris(sources) {
      forall i | 0 <= i < |sources| ensures Uris(sources)[i] != Name(work, l, j) {
        SourceIsNoOutput(sources[i], work, l, j);
      }
    }
    hide Uris;
    Lossless(Uris(sources), fanIn, work);
  }

  // ---- batches ----

  /** Cuts the selection into consecutive slices of `size`; the last may be shorter. */
  function Batches(selected: seq<string>, size: nat): seq<seq<string>>
    requires size >= 1
    decreases |selected|
  {
    if selected == [] then []
    else [selected[..Min(size, |selected|)]] + Batches(selected[Min(size, |selected|)..], size)
  }

  lemma {:induction false} BatchSizes(selected: seq<string>, size: nat)
    requires size >= 1
    ensures forall i | 0 <= i < |Batches(selected, size)| :: 1 <= |Batches(selected, size)[i]| <= size
    ensures |Batches(selected, size)| == Ceil(|selected|, size)
    decreases |selected|
  {
    if selected != [] { BatchSizes(selected[Min(size, |selected|)..], size); }
  }

  /** The batches hold the selected sources once each and in order. */
  lemma {:induction false} BatchesLoseNothing(selected: seq<string>, size: nat)
    requires size >= 1
    ensures Flatten(Batches(selected, size)) == selected
    decreases |selected|
  {
    if selected != [] {
      var n := Min(size, |selected|);
      var head, tail := selected[..n], selected[n..];
      BatchesLoseNothing(tail, size);
      assert Batches(selected, size) == [head] + Batches(tail, size);
      FlattenFirst(head, Batches(tail, size));
      hide Batches, Flatten;
      assert head + tail == selected;
    }
  }

  lemma FlattenFirst(x: seq<string>, xss: seq<seq<string>>)
    ensures Flatten([x] + xss) == x + Flatten(xss)
  {
    assert ([x] + xss)[1..] == xss;
  }

  // ---- partitions ----

  /** The sources that fall into one bucket, in order. */
  function InBucket(sources: seq<string>, bucket: string -> nat, b: nat): seq<string> {
    if sources == [] then []
    else
      var rest := InBucket(sources[..|sources| - 1], bucket, b);
      if bucket(sources[|sources| - 1]) == b then rest + [sources[|sources| - 1]] else rest
  }

  method PartitionSources(sources: seq<string>, bucket: string -> nat) returns (partitions: map<nat, seq<string>>)
    ensures forall b :: b in partitions <==> exists s :: s in sources && bucket(s) == b
    ensures forall b | b in partitions :: partitions[b] == InBucket(sources, bucket, b) != []
  {
    partitions := map[];
    for i := 0 to |sources|
      invariant forall b :: b in partitions <==> exists s :: s in sources[..i] && bucket(s) == b
      invariant forall b | b !in partitions :: InBucket(sources[..i], bucket, b) == []
      invariant forall b | b in partitions :: partitions[b] == InBucket(sources[..i], bucket, b) != []
    {
      var s := sources[i];
      assert sources[..i + 1] == sources[..i] + [s] && sources[..i + 1][..i] == sources[..i];
      assert s in sources[..i + 1];
      partitions := partitions[bucket(s) := (if bucket(s) in partitions then partitions[bucket(s)] else []) + [s]];
    }
    assert sources[..|sources|] == sources;
  }

  /** The contents of some buckets, one after the other. */
  function InBuckets(sources: seq<string>, bucket: string -> nat, buckets: seq<nat>): seq<string> {
    if buckets == [] then [] else InBuckets(sources, bucket, buckets[..|buckets| - 1]) + InBucket(sources, bucket, buckets[|buckets| - 1])
  }

  predicate Distinct(buckets: seq<nat>) {
    forall i, j | 0 <= i < j < |buckets| :: buckets[i] != buckets[j]
  }

  /** One more source lands in exactly one of distinct buckets. */
  lemma {:induction false} OneMoreSource(sources: seq<string>, s: string, bucket: string -> nat, buckets: seq<nat>)
    requires Distinct(buckets)
    ensures multiset(InBuckets(sources + [s], bucket, buckets)) ==
            multiset(InBuckets(sources, bucket, buckets)) + if bucket(s) in buckets then multiset{s} else multiset{}
  {
    if buckets != [] {
      var front, b := buckets[..|buckets| - 1], buckets[|buckets| - 1];
      OneMoreSource(sources, s, bucket, front);
      assert (sources + [s])[..|sources|] == sources;
      assert buckets == front + [b];
      assert bucket(s) == b ==> bucket(s) !in front;
    }
  }

  /** Together the partitions hold every source exactly as often as it was staged. */
  lemma {:induction false} PartitionsLoseNothing(sources: seq<string>, bucket: string -> nat, buckets: seq<nat>)
    requires Distinct(buckets) && forall s | s in sources :: bucket(s) in buckets
    ensures multiset(InBuckets(sources, bucket, buckets)) == multiset(sources)
  {
    if sources == [] {
      EmptyBuckets(bucket, buckets);
    } else {
      var front, s := sources[..|sources| - 1], sources[|sources| - 1];
      assert sources == front + [s];
      PartitionsLoseNothing(front, bucket, buckets);
      OneMoreSource(front, s, bucket, buckets);
    }
  }

  lemma {:induction false} EmptyBuckets(bucket: string -> nat, buckets: seq<nat>)
    ensures InBuckets([], bucket, buckets) == []
  {
    if buckets != [] { EmptyBuckets(bucket, buckets[..|buckets| - 1]); }
  }

  function PartitionRoot(work: string, b: nat): string {
    work + "/partition-" + Decimal(b)
  }

  lemma RootInjective(work: string, b: nat, c: nat)
    requires PartitionRoot(work, b) == PartitionRoot(work, c)
    ensures b == c
  {
    DecimalReads(b);
    DecimalReads(c);
    var p := work + "/partition-";
    assert PartitionRoot(work, b)[|p|..] == Decimal(b) && PartitionRoot(work, c)[|p|..] == Decimal(c);
  }

  lemma NameParts(root: string, l: nat, i: nat)
    ensures Name(root, l, i) == (root + "/merge" + ['-'] + Decimal(l)) + ['-'] + Decimal(i)
    ensures AllDigits(Decimal(l)) && Number(Decimal(l)) == l && AllDigits(Decimal(i)) && Number(Decimal(i)) == i
  {
    DecimalReads(l);
    DecimalReads(i);
    hide Decimal, Number;
  }

  /** The merge trees of different partitions never write to the same place. */
  lemma PartitionTreesApart(work: string, b: nat, l: nat, i: nat, c: nat, m: nat, j: nat)
    requires Name(PartitionRoot(work, b), l, i) == Name(PartitionRoot(work, c), m, j)
    ensures b == c && l == m && i == j
  {
    var r, s := PartitionRoot(work, b), PartitionRoot(work, c);
    NameParts(r, l, i);
    NameParts(s, m, j);
    hide Name, Decimal, Number, AllDigits, PartitionRoot;
    CutNumeral(r + "/merge" + ['-'] + Decimal(l), Decimal(i), s + "/merge" + ['-'] + Decimal(m), Decimal(j), '-');
    CutNumeral(r + "/merge", Decimal(l), s + "/merge", Decimal(m), '-');
    assert (r + "/merge")[..|r|] == r && (s + "/merge")[..|s|] == s;
    RootInjective(work, b, c);
  }

  // ---- stage keys ----

  /** The stage key of a group of a partition's tree; `key` is the group's own. */
  function PartitionKey(b: nat, key: string): string {
    "partition:" + Decimal(b) + ":" + key
  }

  /** The stage key of the batch that starts at source `i`. */
  function BatchKey(i: nat): string {
    "batch:" + Decimal(i)
  }

  /** Groups of different partitions, and different groups of one, are different stages. */
  lemma PartitionKeysApart(b: nat, key: string, c: nat, other: string)
    requires PartitionKey(b, key) == PartitionKey(c, other)
    ensures b == c && key == other
  {
    var p := "partition:";
    assert PartitionKey(b, key)[|p|..] == Decimal(b) + [':'] + key;
    assert PartitionKey(c, other)[|p|..] == Decimal(c) + [':'] + other;
    DecimalReads(b);
    DecimalReads(c);
    CutFirstNumeral(Decimal(b), key, Decimal(c), other, ':');
  }

  /** So no two groups of a partitioned run share a stage, whatever is staged. */
  lemma PartitionStagesDistinct(
    xs: seq<string>, ys: seq<string>, fanIn: nat, work: string, b: nat, l: nat, i: nat, c: nat, m: nat, j: nat)
    requires fanIn >= 2 && (b == c ==> xs == ys)
    requires l < |Levels(xs, fanIn, PartitionRoot(work, b), 0)| && i < |Levels(xs, fanIn, PartitionRoot(work, b), 0)[l]|
    requires m < |Levels(ys, fanIn, PartitionRoot(work, c), 0)| && j < |Levels(ys, fanIn, PartitionRoot(work, c), 0)[m]|
    requires PartitionKey(b, Levels(xs, fanIn, PartitionRoot(work, b), 0)[l][i].key)
             == PartitionKey(c, Levels(ys, fanIn, PartitionRoot(work, c), 0)[m][j].key)
    ensures b == c && l == m && i == j
  {
    hide Levels;
    PartitionKeysApart(b, Levels(xs, fanIn, PartitionRoot(work, b), 0)[l][i].key,
                       c, Levels(ys, fanIn, PartitionRoot(work, c), 0)[m][j].key);
    KeysDistinct(xs, fanIn, PartitionRoot(work, b), l, i, m, j);
  }

  lemma BatchKeyInjective(a: nat, b: nat)
    requires BatchKey(a) == BatchKey(b)
    ensures a == b
  {
    DecimalReads(a);
    DecimalReads(b);
    var p := "batch:";
    assert BatchKey(a)[|p|..] == Decimal(a) && BatchKey(b)[|p|..] == Decimal(b);
  }

  /** The batches start at distinct sources, so they are different stages too. */
  lemma BatchKeysDistinct(size: nat, i: nat, j: nat)
    requires size >= 1 && i < j
    ensures BatchKey(i * size) != BatchKey(j * size)
  {
    assert j * size == i * size + (j - i) * size && (j - i) * size >= 1;
    hide BatchKey;
    if BatchKey(i * size) == BatchKey(j * size) { BatchKeyInjective(i * size, j * size); }
  }

  // ---- all partitions in one store ----

  /** Where a partition is published. */
  function Target(target: string, b: nat): string {
    target + "/partition-" + Padded4(b)
  }

  lemma TargetsApart(target: string, b: nat, c: nat)
    requires Target(target, b) == Target(target, c)
    ensures b == c
  {
    Padded4Reads(b);
    Padded4Reads(c);
    var p := target + "/partition-";
    assert Target(target, b)[|p|..] == Padded4(b) && Target(target, c)[|p|..] == Padded4(c);
  }

  lemma TargetParts(target: string, b: nat)
    ensures Target(target, b) == (target + "/partition") + ['-'] + Padded4(b)
    ensures AllDigits(Padded4(b)) && Padded4(b) != ""
  {
    Padded4Reads(b);
    DecimalNonempty(b);
    hide Number;
  }

  lemma TargetHasTail(target: string, b: nat)
    ensures NumeralTail(Target(target, b))
  {
    TargetParts(target, b);
    hide Padded4;
    assert Target(target, b)[|target + "/partition"|] == '-';
  }

  lemma DecimalEndsInDigit(n: nat)
    ensures Decimal(n) != "" && IsDigit(Decimal(n)[|Decimal(n)| - 1])
  {
    DecimalNonempty(n);
    DecimalReads(n);
  }

  lemma TargetIsNoOutput(target: string, b: nat, work: string, level: nat, index: nat)
    ensures Target(target, b) != Name(work, level, index)
  {
    TargetParts(target, b);
    NameParts(work, level, index);
    DecimalEndsInDigit(level);
    hide Target, Name, Decimal, Padded4, Number;
    var p, q := target + "/partition", work + "/merge" + ['-'] + Decimal(level);
    assert p[|p| - 1] == 'n' && q[|q| - 1] == Decimal(level)[|Decimal(level)| - 1];
    if Target(target, b) == Name(work, level, index) {
      CutNumeral(p, Padded4(b), q, Decimal(index), '-');
    }
  }

  /** One partition: its merge tree, and then its publish group. */
  function RunPartition(store: Store, inputs: seq<string>, fanIn: nat, work: string, target: string, b: nat): Store
    requires fanIn >= 2
  {
    var after, publish := Merged(store, inputs, fanIn, PartitionRoot(work, b), 0), Published(inputs, fanIn, PartitionRoot(work, b), 0);
    after[Target(target, b) := if forall x | x in publish :: x in after then Gather(after, publish) else []]
  }

  /** The partitions one after the other, over one store. */
  function RunPartitions(
    store: Store, sources: seq<string>, bucket: string -> nat, fanIn: nat, work: string, target: string, buckets: seq<nat>): Store
    requires fanIn >= 2
  {
    if buckets == [] then store
    else
      var b := buckets[|buckets| - 1];
      RunPartition(RunPartitions(store, sources, bucket, fanIn, work, target, buckets[..|buckets| - 1]),
                   InBucket(sources, bucket, b), fanIn, work, target, b)
  }

  /** Neither a source's name nor a target is the name of a merge output. */
  ghost predicate Untouched(x: string) {
    forall work: string, l: nat, j: nat :: x != Name(work, l, j)
  }

  lemma RunOne(store: Store, inputs: seq<string>, fanIn: nat, work: string, target: string, b: nat)
    requires fanIn >= 2 && forall x | x in inputs :: x in store && store[x] == [x] && Untouched(x)
    ensures var after := RunPartition(store, inputs, fanIn, work, target, b);
            && Target(target, b) in after && after[Target(target, b)] == inputs
            && forall x | x in store && Untouched(x) && x != Target(target, b) :: x in after && after[x] == store[x]
  {
    var root := PartitionRoot(work, b);
    forall l: nat, j: nat ensures Name(root, l, j) !in inputs {}
    assert forall l: nat :: Untaken(inputs, root, l, 0);
    hide Merged, Published, Gather, Name, PartitionRoot, Target, Untaken;
    RunLevels(store, inputs, fanIn, root, 0);
    GatherLeaves(store, inputs);
    forall x | x in store && Untouched(x) ensures x in Merged(store, inputs, fanIn, root, 0) && Merged(store, inputs, fanIn, root, 0)[x] == store[x] {
      RunFrame(store, inputs, fanIn, root, 0, x);
    }
  }

  lemma {:induction false} InBucketIsSource(sources: seq<string>, bucket: string -> nat, b: nat, x: string)
    requires x in InBucket(sources, bucket, b)
    ensures x in sources
  {
    if x != sources[|sources| - 1] { InBucketIsSource(sources[..|sources| - 1], bucket, b, x); }
  }

  /** After some partitions every source is still there and every one of their targets holds its partition. */
  ghost predicate Done(store: Store, sources: seq<string>, bucket: string -> nat, target: string, buckets: seq<nat>) {
    && (forall x | x in sources :: x in store && store[x] == [x])
    && (forall b | b in buckets :: Target(target, b) in store && store[Target(target, b)] == InBucket(sources, bucket, b))
  }

  lemma OneMorePartition(
    store: Store, sources: seq<string>, bucket: string -> nat, fanIn: nat, work: string, target: string, front: seq<nat>, b: nat)
    requires fanIn >= 2 && b !in front && Done(store, sources, bucket, target, front)
    requires forall x | x in sources :: Untouched(x) && !NumeralTail(x)
    ensures Done(RunPartition(store, InBucket(sources, bucket, b), fanIn, work, target, b), sources, bucket, target, front + [b])
  {
    var inputs := InBucket(sources, bucket, b);
    forall x | x in inputs ensures x in sources { InBucketIsSource(sources, bucket, b, x); }
    hide Untouched, InBucket, RunPartition, Target, NumeralTail;
    RunOne(store, inputs, fanIn, work, target, b);
    forall x | x in sources ensures x != Target(target, b) { TargetHasTail(target, b); }
    forall c | c in front ensures Target(target, c) != Target(target, b) && Untouched(Target(target, c)) {
      if Target(target, c) == Target(target, b) { TargetsApart(target, c, b); }
      TargetUntouched(target, c);
    }
  }

  lemma TargetUntouched(target: string, b: nat)
    ensures Untouched(Target(target, b))
  {
    forall work: string, l: nat, j: nat ensures Target(target, b) != Name(work, l, j) { TargetIsNoOutput(target, b, work, l, j); }
  }

  lemma {:induction false} PartitionsRun(
    store: Store, sources: seq<string>, bucket: string -> nat, fanIn: nat, work: string, target: string, buckets: seq<nat>)
    requires fanIn >= 2 && Distinct(buckets) && Done(store, sources, bucket, target, [])
    requires forall x | x in sources :: Untouched(x) && !NumeralTail(x)
    ensures Done(RunPartitions(store, sources, bucket, fanIn, work, target, buckets), sources, bucket, target, buckets)
    decreases |buckets|
  {
    hide Done, RunPartition, Untouched, NumeralTail;
    if buckets != [] {
      var front, b := buckets[..|buckets| - 1], buckets[|buckets| - 1];
      PartitionsRun(store, sources, bucket, fanIn, work, target, front);
      assert buckets == front + [b];
      OneMorePartition(RunPartitions(store, sources, bucket, fanIn, work, target, front), sources, bucket, fanIn, work, target, front, b);
    }
  }

  /** What the targets hold, one after the other. */
  function Contents(store: Store, target: string, buckets: seq<nat>): seq<string>
    requires forall b | b in buckets :: Target(target, b) in store
  {
    if buckets == [] then []
    else
      assert forall b | b in buckets[..|buckets| - 1] :: b in buckets;
      Contents(store, target, buckets[..|buckets| - 1]) + store[Target(target, buckets[|buckets| - 1])]
  }

  lemma {:induction false} ContentsAreBuckets(store: Store, sources: seq<string>, bucket: string -> nat, target: string, buckets: seq<nat>)
    requires Done(store, sources, bucket, target, buckets)
    ensures Contents(store, target, buckets) == InBuckets(sources, bucket, buckets)
  {
    hide Target;
    if buckets != [] {
      assert forall b | b in buckets[..|buckets| - 1] :: b in buckets;
      ContentsAreBuckets(store, sources, bucket, target, buckets[..|buckets| - 1]);
    }
  }

  /**
   Running the merge trees and publish groups of all partitions over one store leaves each partition's sources, in
   order, at its target, and together the targets hold every staged source exactly as often as it was staged.
   */
  lemma {:induction false} PartitionedRunLosesNothing(
    staged: seq<Source>, bucket: string -> nat, fanIn: nat, work: string, target: string, buckets: seq<nat>)
    requires fanIn >= 2 && Distinct(buckets) && forall i | 0 <= i < |staged| :: ValidSource(staged[i])
    requires forall s | s in Uris(staged) :: bucket(s) in buckets
    ensures var sources := Uris(staged);
            var after := RunPartitions(Leaves(sources), sources, bucket, fanIn, work, target, buckets);
            && (forall b | b in buckets :: Target(target, b) in after && after[Target(target, b)] == InBucket(sources, bucket, b))
            && multiset(Contents(after, target, buckets)) == multiset(sources)
  {
    var sources := Uris(staged);
    forall x | x in sources ensures Untouched(x) && !NumeralTail(x) {
      var i :| 0 <= i < |staged| && x == Uri(staged[i]);
      SourceHasNoTail(staged[i]);
      forall w: string, l: nat, j: nat ensures x != Name(w, l, j) { SourceIsNoOutput(staged[i], w, l, j); }
    }
    hide Uris, Untouched, NumeralTail, RunPartitions, InBuckets, Contents;
    PartitionsRun(Leaves(sources), sources, bucket, fanIn, work, target, buckets);
    ContentsAreBuckets(RunPartitions(Leaves(sources), sources, bucket, fanIn, work, target, buckets), sources, bucket, target, buckets);
    PartitionsLoseNothing(sources, bucket, buckets);
  }
}
