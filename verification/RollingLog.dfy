/** The rolling log file: what is on disk is always the end of what was written. */
module RollingLog {
  import opened Basics

  // ---- bytes, days, archives ----

  /** Bytes of a character in UTF-8. */
  function CharBytes(c: char): nat {
    if c as int < 0x80 then 1 else if c as int < 0x800 then 2 else if c as int < 0x10000 then 3 else 4
  }

  function Power32(n: nat): nat {
    if n == 0 then 1 else 32 * Power32(n - 1)
  }

  /** How many codes `n` bytes of UTF-8 can tell apart (RFC 3629, section 3): 7 bits, then 11, 16 and 21. */
  function Room(n: nat): nat {
    if n == 1 then 128 else 2 * Power32(n)
  }

  /** A character takes no more bytes than its code needs. */
  lemma CharBytesLeast(c: char)
    ensures 1 <= CharBytes(c) && (c as int) < Room(CharBytes(c))
    ensures forall n | 1 <= n < CharBytes(c) :: Room(n) <= c as int
  {
    assert Power32(2) == 1024 && Power32(3) == 32 * Power32(2) && Power32(4) == 32 * Power32(3);
  }

  function TextBytes(s: string): nat {
    if s == "" then 0 else TextBytes(s[..|s| - 1]) + CharBytes(s[|s| - 1])
  }

  /** Bytes of a line with its newline. */
  function LineBytes(line: string): nat {
    TextBytes(line) + 1
  }

  function Bytes(lines: seq<string>): nat {
    if lines == [] then 0 else Bytes(lines[..|lines| - 1]) + LineBytes(lines[|lines| - 1])
  }

  /** Text cut anywhere keeps its size, and so do lines; every line costs its text and one byte for the newline. */
  lemma {:induction false} SizesAdd(s: string, t: string)
    ensures TextBytes(s + t) == TextBytes(s) + TextBytes(t)
  {
    if t == [] {
      assert s + t == s;
    } else {
      assert (s + t)[..|s + t| - 1] == s + t[..|t| - 1];
      SizesAdd(s, t[..|t| - 1]);
    }
  }

  /** All the text of some lines, each closed by its newline, has the bytes the lines are counted with. */
  lemma {:induction false} BytesOfText(lines: seq<string>)
    ensures Bytes(lines) == TextBytes(Flatten(Closed(lines)))
  {
    if lines != [] {
      var front, last := lines[..|lines| - 1], lines[|lines| - 1];
      BytesOfText(front);
      FlattenConcat(Closed(front), [last + "\n"]);
      assert Closed(lines) == Closed(front) + [last + "\n"];
      assert Flatten([last + "\n"]) == last + "\n" by { assert [last + "\n"][1..] == []; }
      SizesAdd(Flatten(Closed(front)), last + "\n");
      SizesAdd(last, "\n");
      assert TextBytes("\n") == CharBytes('\n') by { assert "\n"[..0] == ""; }
    }
  }

  function Closed(lines: seq<string>): (r: seq<string>)
    ensures |r| == |lines| && forall i | 0 <= i < |r| :: r[i] == lines[i] + "\n"
  {
    seq(|lines|, i requires 0 <= i < |lines| => lines[i] + "\n")
  }

  const DAY := 86400

  function DayOf(t: int): int {
    t / DAY
  }

  lemma DayOfMonotone(s: int, t: int)
    requires s <= t
    ensures DayOf(s) <= DayOf(t)
  {
  }

  /** An archive file, named by the day and a sequence number. */
  datatype Archive = Archive(day: int, seqno: nat, lines: seq<string>)

  predicate Before(day: int, seqno: int, a: Archive) {
    day < a.day || (day == a.day && seqno < a.seqno)
  }

  /** The archives as they are listed: by day, then by number. */
  predicate Listed(archives: seq<Archive>) {
    forall i, j | 0 <= i < j < |archives| :: Before(archives[i].day, archives[i].seqno, archives[j])
  }

  /** A new name's place in the listing. */
  function Insert(archives: seq<Archive>, a: Archive): seq<Archive> {
    if archives == [] || Before(archives[|archives| - 1].day, archives[|archives| - 1].seqno, a) then archives + [a]
    else Insert(archives[..|archives| - 1], a) + [archives[|archives| - 1]]
  }

  function Lines(archives: seq<Archive>): seq<string> {
    if archives == [] then [] else Lines(archives[..|archives| - 1]) + archives[|archives| - 1].lines
  }

  function TotalBytes(archives: seq<Archive>): nat {
    if archives == [] then 0 else Bytes(archives[0].lines) + TotalBytes(archives[1..])
  }

  predicate IsSuffix<T(==)>(x: seq<T>, y: seq<T>) {
    |x| <= |y| && x == y[|y| - |x|..]
  }

  lemma {:induction false} LinesOfRest(archives: seq<Archive>, k: nat)
    requires k <= |archives|
    ensures IsSuffix(Lines(archives[k..]), Lines(archives))
  {
    if k < |archives| {
      var front := archives[..|archives| - 1];
      LinesOfRest(front, k);
      assert archives[k..][..|archives| - k - 1] == front[k..];
    }
  }

  // ---- retention ----

  /** What a cleanup may leave: nothing expired, and within the budget together with the active file. */
  predicate Affordable(archives: seq<Archive>, active: nat, cutoff: int, maxTotal: int) {
    (forall i | 0 <= i < |archives| :: archives[i].day * DAY >= cutoff) && active + TotalBytes(archives) <= maxTotal
  }

  /** `kept` is the listing without its shortest prefix whose removal suffices; everything goes if nothing suffices. */
  ghost predicate Trimmed(archives: seq<Archive>, kept: seq<Archive>, active: nat, cutoff: int, maxTotal: int) {
    && IsSuffix(kept, archives)
    && (kept == [] || Affordable(kept, active, cutoff, maxTotal))
    && (forall k: nat | k < |archives| - |kept| :: !Affordable(archives[k..], active, cutoff, maxTotal))
  }

  lemma TooMuch(archives: seq<Archive>, i: nat, active: nat, cutoff: int, maxTotal: int)
    requires i < |archives|
    requires archives[i].day * DAY < cutoff || active + TotalBytes(archives[i..]) > maxTotal
    ensures !Affordable(archives[i..], active, cutoff, maxTotal)
  {
    assert archives[i..][0] == archives[i];
  }

  lemma Enough(archives: seq<Archive>, i: nat, active: nat, cutoff: int, maxTotal: int)
    requires Listed(archives) && i < |archives|
    requires archives[i].day * DAY >= cutoff && active + TotalBytes(archives[i..]) <= maxTotal
    ensures Affordable(archives[i..], active, cutoff, maxTotal)
    ensures forall j | i <= j < |archives| :: archives[j].day * DAY >= cutoff
  {
    assert forall j | i < j < |archives| :: Before(archives[i].day, archives[i].seqno, archives[j]);
  }

  lemma TotalOfRest(archives: seq<Archive>, i: nat)
    requires i < |archives|
    ensures TotalBytes(archives[i..]) == Bytes(archives[i].lines) + TotalBytes(archives[i + 1..])
  {
    assert archives[i..][0] == archives[i] && archives[i..][1..] == archives[i + 1..];
  }

  /** The loop over the sorted archives: each one goes that is expired, or as long as the total is over the budget. */
  method Trim(archives: seq<Archive>, active: nat, cutoff: int, maxTotal: int) returns (kept: seq<Archive>)
    requires Listed(archives)
    ensures Trimmed(archives, kept, active, cutoff, maxTotal)
  {
    hide Affordable, Bytes, TotalBytes;
    kept := [];
    var total := active + TotalBytes(archives);
    ghost var gone := 0;
    for i := 0 to |archives|
      invariant gone <= i && kept == archives[gone..i]
      invariant total == active + TotalBytes(archives[gone..])
      invariant forall k: nat | k < gone :: !Affordable(archives[k..], active, cutoff, maxTotal)
      invariant gone < i ==> archives[gone].day * DAY >= cutoff && total <= maxTotal
    {
      if gone < i { Enough(archives, gone, active, cutoff, maxTotal); }
      if archives[i].day * DAY < cutoff || total > maxTotal {
        TooMuch(archives, i, active, cutoff, maxTotal);
        TotalOfRest(archives, i);
        total := total - Bytes(archives[i].lines);
        gone := i + 1;
      } else {
        kept := kept + [archives[i]];
      }
    }
    assert kept == archives[gone..];
    if gone < |archives| { Enough(archives, gone, active, cutoff, maxTotal); }
  }

  lemma SuffixTail<T>(x: seq<T>, y: seq<T>, tail: seq<T>)
    requires IsSuffix(x, y)
    ensures IsSuffix(x + tail, y + tail)
  {
  }

  /** Trimming what is left changes nothing. */
  lemma TrimmedTwice(archives: seq<Archive>, kept: seq<Archive>, again: seq<Archive>, active: nat, cutoff: int, maxTotal: int)
    requires Trimmed(archives, kept, active, cutoff, maxTotal)
    requires Trimmed(kept, again, active, cutoff, maxTotal)
    ensures again == kept
  {
    assert kept[0..] == kept;
  }

  lemma SuffixTransitive<T>(x: seq<T>, y: seq<T>, z: seq<T>)
    requires IsSuffix(x, y) && IsSuffix(y, z)
    ensures IsSuffix(x, z)
  {
  }

  // ---- numbering ----

  /** The largest number used on a day, 0 if there is none. */
  function LastNumber(archives: seq<Archive>, day: int): (m: nat)
    ensures forall a | a in archives && a.day == day :: a.seqno <= m
  {
    if archives == [] then 0
    else
      assert archives == archives[..|archives| - 1] + [archives[|archives| - 1]];
      var m, a := LastNumber(archives[..|archives| - 1], day), archives[|archives| - 1];
      if a.day == day && a.seqno > m then a.seqno else m
  }

  lemma InsertLast(archives: seq<Archive>, a: Archive)
    requires Listed(archives)
    requires forall i | 0 <= i < |archives| :: Before(archives[i].day, archives[i].seqno, a)
    ensures Insert(archives, a) == archives + [a] && Listed(archives + [a])
    ensures Lines(archives + [a]) == Lines(archives) + a.lines
  {
    assert (archives + [a])[..|archives|] == archives;
  }

  // ---- the directory ----

  /** Everything that can be read back: archives in order, then the active file. */
  function ReadBack(archives: seq<Archive>, active: Option<seq<string>>): seq<string> {
    Lines(archives) + if active.Some? then active.value else []
  }

  /** A file of two or more lines keeps the limit. */
  predicate InLimit(lines: seq<string>, maxFile: int) {
    |lines| >= 2 ==> Bytes(lines) <= maxFile
  }

  predicate UpTo(archives: seq<Archive>, day: int) {
    forall i | 0 <= i < |archives| :: archives[i].day <= day
  }

  predicate AllInLimit(archives: seq<Archive>, maxFile: int) {
    forall i | 0 <= i < |archives| :: InLimit(archives[i].lines, maxFile)
  }

  lemma UpToLater(archives: seq<Archive>, day: int, later: int)
    requires UpTo(archives, day) && day <= later
    ensures UpTo(archives, later)
  {
  }

  lemma NoBytes(lines: seq<string>)
    ensures Bytes(lines) == 0 <==> lines == []
  {
  }

  lemma RestKeeps(archives: seq<Archive>, k: nat, day: int, maxFile: int)
    requires k <= |archives|
    ensures UpTo(archives, day) ==> UpTo(archives[k..], day)
    ensures AllInLimit(archives, maxFile) ==> AllInLimit(archives[k..], maxFile)
  {
    hide InLimit;
  }

  lemma OneMoreKeeps(archives: seq<Archive>, a: Archive, day: int, maxFile: int)
    ensures UpTo(archives, day) && a.day <= day ==> UpTo(archives + [a], day)
    ensures AllInLimit(archives, maxFile) && InLimit(a.lines, maxFile) ==> AllInLimit(archives + [a], maxFile)
  {
    hide InLimit;
  }

  /** What holds on disk at every moment, between any two steps of the writer. */
  predicate Directory(
    archives: seq<Archive>, active: Option<seq<string>>, mtime: int, clock: int, maxFile: int, written: seq<string>)
  {
    && Listed(archives)
    && UpTo(archives, DayOf(clock))
    && AllInLimit(archives, maxFile)
    && (active.Some? ==> mtime <= clock && InLimit(active.value, maxFile) && UpTo(archives, DayOf(mtime)))
    && IsSuffix(ReadBack(archives, active), written)
  }

  lemma LaterDirectory(
    archives: seq<Archive>, active: Option<seq<string>>, mtime: int, clock: int, now: int, maxFile: int, written: seq<string>)
    requires Directory(archives, active, mtime, clock, maxFile, written) && clock <= now
    ensures Directory(archives, active, mtime, now, maxFile, written)
    ensures active.None? ==> Directory(archives, Some([]), now, now, maxFile, written)
  {
    hide DayOf, Listed, InLimit, IsSuffix, Lines;
    DayOfMonotone(clock, now);
    assert InLimit([], maxFile) by { NoLines(maxFile); }
    assert Lines(archives) + [] == Lines(archives);
  }

  lemma NoLines(maxFile: int)
    ensures InLimit([], maxFile)
  {
  }

  /** Without some of the oldest archives, what is left is still the end of what was written. */
  lemma CutDirectory(
    archives: seq<Archive>, k: nat, active: seq<string>, mtime: int, clock: int, maxFile: int, written: seq<string>)
    requires Directory(archives, Some(active), mtime, clock, maxFile, written) && k <= |archives|
    ensures Directory(archives[k..], Some(active), mtime, clock, maxFile, written)
    ensures forall day | UpTo(archives, day) :: UpTo(archives[k..], day)
  {
    hide DayOf, InLimit, AllInLimit, UpTo, IsSuffix, Lines, Bytes;
    LinesOfRest(archives, k);
    SuffixTail(Lines(archives[k..]), Lines(archives), active);
    SuffixTransitive(Lines(archives[k..]) + active, Lines(archives) + active, written);
    forall day ensures UpTo(archives, day) ==> UpTo(archives[k..], day) {
      RestKeeps(archives, k, day, maxFile);
    }
    RestKeeps(archives, k, 0, maxFile);
    assert Listed(archives[k..]);
  }

  /** A cleanup leaves the directory in order, and so does one that a crash stops after any of its removals. */
  lemma TrimmedDirectory(
    archives: seq<Archive>, kept: seq<Archive>, active: seq<string>, mtime: int, clock: int, maxFile: int,
    written: seq<string>, cutoff: int, maxTotal: int)
    requires Directory(archives, Some(active), mtime, clock, maxFile, written)
    requires Trimmed(archives, kept, Bytes(active), cutoff, maxTotal)
    ensures Directory(kept, Some(active), mtime, clock, maxFile, written)
    ensures forall k: nat | k <= |archives| - |kept| :: Directory(archives[k..], Some(active), mtime, clock, maxFile, written)
    ensures forall day | UpTo(archives, day) :: UpTo(kept, day)
  {
    assert kept == archives[|archives| - |kept|..];
    hide Directory, Trimmed, UpTo;
    CutDirectory(archives, |archives| - |kept|, active, mtime, clock, maxFile, written);
    forall k: nat | k <= |archives| - |kept|
      ensures Directory(archives[k..], Some(active), mtime, clock, maxFile, written)
    {
      CutDirectory(archives, k, active, mtime, clock, maxFile, written);
    }
  }

  lemma TrimmedUpTo(archives: seq<Archive>, kept: seq<Archive>, active: nat, cutoff: int, maxTotal: int, day: int)
    requires Trimmed(archives, kept, active, cutoff, maxTotal) && UpTo(archives, day)
    ensures UpTo(kept, day)
  {
    hide Affordable;
    RestKeeps(archives, |archives| - |kept|, day, 0);
  }

  /** A reserved name is an empty archive at the end of the listing. */
  lemma ReservedDirectory(
    archives: seq<Archive>, active: seq<string>, mtime: int, clock: int, maxFile: int, written: seq<string>, day: int, n: nat)
    requires Directory(archives, Some(active), mtime, clock, maxFile, written)
    requires UpTo(archives, day) && day <= DayOf(mtime) && n > LastNumber(archives, day)
    ensures Insert(archives, Archive(day, n, [])) == archives + [Archive(day, n, [])]
    ensures Directory(archives + [Archive(day, n, [])], Some(active), mtime, clock, maxFile, written)
  {
    var a := Archive(day, n, []);
    forall i | 0 <= i < |archives| ensures Before(archives[i].day, archives[i].seqno, a) {
      assert archives[i] in archives;
    }
    InsertLast(archives, a);
    NoLines(maxFile);
    DayOfMonotone(mtime, clock);
    OneMoreKeeps(archives, a, DayOf(mtime), maxFile);
    OneMoreKeeps(archives, a, DayOf(clock), maxFile);
    hide DayOf, Listed, InLimit, AllInLimit, UpTo, IsSuffix, Lines, LastNumber, Insert, Before;
    assert Lines(archives) + a.lines == Lines(archives);
  }

  lemma MovedListing(archives: seq<Archive>, last: Archive, day: int, maxFile: int)
    requires archives != [] && last.day == archives[|archives| - 1].day && last.seqno == archives[|archives| - 1].seqno
    ensures var moved := archives[..|archives| - 1] + [last];
            && (Listed(archives) ==> Listed(moved))
            && (UpTo(archives, day) ==> UpTo(moved, day))
            && (AllInLimit(archives, maxFile) && InLimit(last.lines, maxFile) ==> AllInLimit(moved, maxFile))
  {
    hide InLimit;
  }

  lemma MovedLines(archives: seq<Archive>, last: Archive, lines: seq<string>)
    requires archives != [] && archives[|archives| - 1].lines == [] && last.lines == lines
    ensures Lines(archives[..|archives| - 1] + [last]) == Lines(archives) + lines
  {
    assert (archives[..|archives| - 1] + [last])[..|archives| - 1] == archives[..|archives| - 1];
  }

  /** Moving the active file into the last, empty archive moves no line. */
  lemma MovedDirectory(
    archives: seq<Archive>, active: seq<string>, mtime: int, clock: int, maxFile: int, written: seq<string>)
    requires Directory(archives, Some(active), mtime, clock, maxFile, written)
    requires archives != [] && archives[|archives| - 1].lines == []
    ensures var last := |archives| - 1;
            var moved := archives[..last] + [archives[last].(lines := active)];
            Directory(moved, None, mtime, clock, maxFile, written) && ReadBack(moved, None) == ReadBack(archives, Some(active))
  {
    var last := |archives| - 1;
    var moved := archives[..last] + [archives[last].(lines := active)];
    hide DayOf, InLimit, AllInLimit, UpTo, Listed, IsSuffix, Lines;
    MovedListing(archives, archives[last].(lines := active), DayOf(clock), maxFile);
    MovedLines(archives, archives[last].(lines := active), active);
    assert ReadBack(moved, None) == ReadBack(archives, Some(active));
  }

  lemma AppendedDirectory(
    archives: seq<Archive>, active: seq<string>, mtime: int, clock: int, maxFile: int, written: seq<string>, line: string)
    requires Directory(archives, Some(active), mtime, clock, maxFile, written)
    requires mtime <= clock && (active == [] || Bytes(active) + LineBytes(line) <= maxFile)
    ensures Directory(archives, Some(active + [line]), clock, clock, maxFile, written + [line])
    ensures Bytes(active + [line]) == Bytes(active) + LineBytes(line)
  {
    assert (active + [line])[..|active|] == active;
    hide DayOf, Listed, LineBytes;
    assert ReadBack(archives, Some(active + [line])) == ReadBack(archives, Some(active)) + [line];
  }

  class RollingFile {
    const maxFile: int
    const maxTotal: int
    const retentionDays: int
    /** Archive names taken by something that is not an archive file. */
    const taken: set<(int, int)>

    /** The directory: the archives, the active file if it exists, and when that was last written. */
    var archives: seq<Archive>
    var active: Option<seq<string>>
    var mtime: int

    /** The object's own fields; `day` and `size` mean something only while the stream is open. */
    var stream: bool
    var day: int
    var size: nat

    ghost var written: seq<string>
    ghost var clock: int

    ghost predicate Valid()
      reads this
    {
      && Directory(archives, active, mtime, clock, maxFile, written)
      && (stream ==> active.Some? && size == Bytes(active.value) && day <= DayOf(mtime) && UpTo(archives, day))
    }

    constructor (maxFile: int, maxTotal: int, retentionDays: int, taken: set<(int, int)>, now: int)
      ensures Valid() && !stream && archives == [] && active == None && written == []
      ensures this.maxFile == maxFile && this.maxTotal == maxTotal && this.retentionDays == retentionDays
    {
      this.maxFile, this.maxTotal, this.retentionDays, this.taken := maxFile, maxTotal, retentionDays, taken;
      archives, active, mtime, stream, day, size := [], None, now, false, now, 0;
      written, clock := [], now;
    }

    /** Remove the oldest archives as far as retention and budget ask for it. */
    method Cleanup(now: int)
      requires Valid() && active.Some? && clock <= now
      modifies this
      ensures Valid() && written == old(written) && clock == now
      ensures active == old(active) && mtime == old(mtime)
      ensures stream == old(stream) && day == old(day) && size == old(size)
      ensures Trimmed(old(archives), archives, Bytes(active.value), now - retentionDays * DAY, maxTotal)
    {
      hide Trimmed, DayOf, Directory, Bytes;
      LaterDirectory(archives, active, mtime, clock, now, maxFile, written);
      assert Listed(archives) by { ItsListing(); }
      var kept := Trim(archives, Bytes(active.value), now - retentionDays * DAY, maxTotal);
      TrimmedDirectory(archives, kept, active.value, mtime, now, maxFile, written, now - retentionDays * DAY, maxTotal);
      archives, clock := kept, now;
    }

    lemma ItsListing()
      requires Valid()
      ensures Listed(archives) && UpTo(archives, DayOf(clock))
      ensures active.Some? ==> mtime <= clock && UpTo(archives, DayOf(mtime))
    {
    }

    /** Open the active file, new or as it was left by an earlier process. */
    method Open(now: int)
      requires Valid() && !stream && clock <= now
      modifies this
      ensures Valid() && stream && written == old(written) && clock == now
      ensures active == if old(active).Some? then old(active) else Some([])
      ensures mtime == if old(active).Some? then old(mtime) else now
      ensures day == DayOf(mtime) && size == Bytes(active.value)
      ensures Trimmed(old(archives), archives, Bytes(active.value), now - retentionDays * DAY, maxTotal)
    {
      hide Trimmed, DayOf, Directory;
      LaterDirectory(archives, active, mtime, clock, now, maxFile, written);
      ItsListing();
      DayOfMonotone(clock, now);
      UpToLater(archives, DayOf(clock), DayOf(now));
      if active.None? {
        active, mtime := Some([]), now;
      }
      clock := now;
      stream, day, size := true, DayOf(mtime), Bytes(active.value);
      Cleanup(now);
    }

    /** A cleanup that a crash stops after it removed the `k` oldest archives. */
    method CrashInCleanup(k: nat)
      requires Valid() && active.Some? && k <= |archives|
      modifies this`archives, this`stream
      ensures Valid() && !stream && archives == old(archives)[k..]
    {
      CutDirectory(archives, k, active.value, mtime, clock, maxFile, written);
      hide Directory;
      archives, stream := archives[k..], false;
    }

    /** Stop here, or crash here: the object's memory of the stream is gone, the directory stays. */
    method Close()
      requires Valid()
      modifies this`stream
      ensures Valid() && !stream
    {
      stream := false;
    }

    predicate Free(n: nat)
      reads this
    {
      (day, n) !in taken && forall a | a in archives :: a.day != day || a.seqno != n
    }

    /** Reserve the archive's name: the first free number after the day's last one. */
    method Reserve()
      requires Valid() && !stream && active.Some?
      requires day <= DayOf(mtime) && UpTo(archives, day)
      modifies this`archives
      ensures Valid() && |archives| == |old(archives)| + 1 && archives[..|old(archives)|] == old(archives)
      ensures var a := archives[|old(archives)|];
              && a.day == day && a.lines == [] && a.seqno > LastNumber(old(archives), day)
              && old(Free(a.seqno)) && forall n | LastNumber(old(archives), day) < n < a.seqno :: !old(Free(n))
    {
      var n := LastNumber(archives, day) + 1;
      var left := taken;
      while !Free(n)
        invariant n > LastNumber(archives, day)
        invariant forall k: nat | k >= n && (day, k) in taken :: (day, k) in left
        invariant forall k | LastNumber(archives, day) < k < n :: !Free(k)
        decreases |left|
      {
        left := left - {(day, n as int)};
        n := n + 1;
      }
      hide Directory, Listed;
      ReservedDirectory(archives, active.value, mtime, clock, maxFile, written, day, n);
      archives := Insert(archives, Archive(day, n, []));
    }

    /** Move the active file to the reserved name. */
    method Move()
      requires Valid() && !stream && active.Some?
      requires archives != [] && archives[|archives| - 1].lines == []
      modifies this`archives, this`active
      ensures Valid() && active == None && ReadBack(archives, None) == old(ReadBack(archives, active))
      ensures archives == old(archives)[..|old(archives)| - 1] + [old(archives)[|old(archives)| - 1].(lines := old(active).value)]
    {
      var last := |archives| - 1;
      hide Directory;
      MovedDirectory(archives, active.value, mtime, clock, maxFile, written);
      assert archives[..last] + [archives[last].(lines := active.value)] == archives[last := archives[last].(lines := active.value)];
      archives := archives[last := archives[last].(lines := active.value)];
      active := None;
    }

    /** The lines moved under a name no archive and nothing else had, numbered after the day's last one; then retention. */
    ghost predicate Rolled(before: seq<Archive>, day: int, lines: seq<string>, now: int)
      reads this`archives
    {
      exists n: nat ::
        && n > LastNumber(before, day) && (day, n) !in taken
        && Trimmed(before + [Archive(day, n, lines)], archives, 0, now - retentionDays * DAY, maxTotal)
    }

    /** Archive the active file and start a new one. */
    method Roll(now: int)
      requires Valid() && stream && clock <= now
      modifies this
      ensures Valid() && stream && active == Some([]) && size == 0 && written == old(written) && clock == mtime == now
      ensures Rolled(old(archives), old(day), old(active).value, now)
      ensures UpTo(archives, DayOf(old(clock)))
    {
      NoBytes([]);
      hide Trimmed, Directory, Bytes, LastNumber, DayOf, LineBytes;
      Close();
      Reserve();
      ghost var n := archives[|archives| - 1].seqno;
      Move();
      ghost var rolled := archives;
      assert rolled == old(archives) + [Archive(old(day), n, old(active).value)];
      assert UpTo(rolled, DayOf(clock)) by { ItsListing(); }
      Open(now);
      ghost var once := archives;
      Cleanup(now);
      TrimmedTwice(rolled, once, archives, 0, now - retentionDays * DAY, maxTotal);
      TrimmedUpTo(rolled, archives, 0, now - retentionDays * DAY, maxTotal, DayOf(old(clock)));
    }

    /** The end of `write`: append, flush and account for the line. */
    method AppendLine(line: string, today: int, now: int)
      requires Valid() && stream && clock <= now && today <= DayOf(now) && UpTo(archives, today)
      requires active.value == [] || size + LineBytes(line) <= maxFile
      modifies this
      ensures Valid() && stream && written == old(written) + [line] && clock == mtime == now && day == today
      ensures archives == old(archives) && active == Some(old(active).value + [line])
    {
      ItsListing();
      hide Directory, Bytes, DayOf, LineBytes, UpTo;
      LaterDirectory(archives, active, mtime, clock, now, maxFile, written);
      AppendedDirectory(archives, active.value, mtime, now, maxFile, written, line);
      active := Some(active.value + [line]);
      written := written + [line];
      size := size + LineBytes(line);
      mtime, clock, day := now, now, today;
    }

    /** `write`: `t` is when it reads the clock for the day, `now` when it opens, cleans up and writes. */
    method Write(line: string, t: int, now: int)
      requires Valid() && stream && clock <= t <= now
      modifies this
      ensures Valid() && stream && written == old(written) + [line] && clock == mtime == now && day == DayOf(t)
      ensures var full := old(size) > 0 && (DayOf(t) != old(day) || old(size) + LineBytes(line) > maxFile);
              if full then active == Some([line]) && Rolled(old(archives), old(day), old(active).value, now)
              else archives == old(archives) && active == Some(old(active).value + [line])
    {
      var today := DayOf(t);
      NoBytes(active.value);
      ItsListing();
      DayOfMonotone(clock, t);
      DayOfMonotone(t, now);
      UpToLater(archives, DayOf(clock), today);
      hide Directory, Bytes, DayOf, LineBytes, UpTo, Rolled;
      if size > 0 && (today != day || size + LineBytes(line) > maxFile) {
        Roll(now);
        UpToLater(archives, DayOf(old(clock)), today);
      }
      AppendLine(line, today, now);
    }
  }
}
