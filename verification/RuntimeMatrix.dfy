/** The runtime validation matrix: one status per required runtime, whatever the order of the results. */
module RuntimeMatrix {
  import opened Basics

  /** One validation entry: its decision, flags and status as the result carries them. */
  datatype Entry = Entry(decision: string, verdict: string, accepted: bool, rejected: bool, status: string)

  /** A result names runtimes of its own, or stands for one runtime (possibly none, ""). */
  datatype Result = PerRuntime(entries: seq<(string, Entry)>) | Single(runtime: string, entry: Entry)

  datatype Status = Missing | Accepted | Inconclusive | Rejected

  function Rank(s: Status): nat {
    match s case Missing => 0 case Accepted => 1 case Inconclusive => 2 case Rejected => 3
  }

  function Worse(s: Status, t: Status): Status {
    if Rank(s) < Rank(t) then t else s
  }

  function LowerChar(c: char): char {
    if 'A' <= c <= 'Z' then (c as int - 'A' as int + 'a' as int) as char else c
  }

  /** Lower case of the letters a decision is spelt with. */
  function Lower(s: string): (r: string)
    ensures |r| == |s| && forall i | 0 <= i < |s| :: r[i] == LowerChar(s[i])
  {
    seq(|s|, i requires 0 <= i < |s| => LowerChar(s[i]))
  }

  /** The decision, or the verdict where there is none, in lower case. */
  function DecisionOf(e: Entry): string {
    Lower(if e.decision != "" then e.decision else e.verdict)
  }

  /** What one entry says of its runtime; a rejection is heard even beside an acceptance. */
  function Says(e: Entry): Status {
    if e.rejected || DecisionOf(e) == "reject" then Rejected
    else if DecisionOf(e) == "accept" && e.accepted && (e.status == "evaluated" || e.status == "completed") then Accepted
    else Inconclusive
  }

  /** The capital of a small letter. */
  function Capital(c: char): char
    requires 'a' <= c <= 'z'
  {
    "ABCDEFGHIJKLMNOPQRSTUVWXYZ"[c as int - 97]
  }

  /** The text spells the word, in small or capital letters. */
  predicate Spells(text: string, word: string)
    requires forall i | 0 <= i < |word| :: 'a' <= word[i] <= 'z'
  {
    |text| == |word| && forall i | 0 <= i < |word| :: text[i] == word[i] || text[i] == Capital(word[i])
  }

  lemma LowerIs(text: string, word: string)
    requires forall i | 0 <= i < |word| :: 'a' <= word[i] <= 'z'
    ensures Lower(text) == word <==> Spells(text, word)
  {
    forall i | 0 <= i < |text| && i < |word| ensures LowerChar(text[i]) == word[i] <==> text[i] == word[i] || text[i] == Capital(word[i]) {
      LowerCharIs(text[i], word[i]);
    }
    if Lower(text) == word { assert forall i | 0 <= i < |word| :: LowerChar(text[i]) == word[i]; }
  }

  lemma LowerCharIs(c: char, w: char)
    requires 'a' <= w <= 'z'
    ensures LowerChar(c) == w <==> c == w || c == Capital(w)
  {
  }

  /** An entry's own word: its decision, or its verdict if it has none. */
  function Word(e: Entry): string {
    if e.decision == "" then e.verdict else e.decision
  }

  /** What an entry says, by its own columns: a rejection by flag or word, an acceptance by word, flag and status. */
  lemma SaysMeans(e: Entry)
    ensures Says(e) == Rejected <==> e.rejected || Spells(Word(e), "reject")
    ensures Says(e) == Accepted <==>
              !e.rejected && Spells(Word(e), "accept") && e.accepted && e.status in {"evaluated", "completed"}
  {
    LowerIs(Word(e), "reject");
    LowerIs(Word(e), "accept");
    hide Lower, Spells;
  }

  function EntriesOf(r: Result): seq<(string, Entry)> {
    match r
    case PerRuntime(entries) => entries
    case Single(runtime, entry) => if runtime == "" then [] else [(runtime, entry)]
  }

  function AllEntries(results: seq<Result>): seq<(string, Entry)> {
    if results == [] then [] else AllEntries(results[..|results| - 1]) + EntriesOf(results[|results| - 1])
  }

  /** A result speaks for a runtime by an entry of its own under that name, or as a whole. */
  predicate Speaks(r: Result, runtime: string, e: Entry) {
    match r
    case PerRuntime(entries) => (runtime, e) in entries
    case Single(name, entry) => name == runtime && runtime != "" && entry == e
  }

  /** All entries: what some result says of some runtime. */
  lemma {:induction false} EntriesMean(results: seq<Result>, runtime: string, e: Entry)
    ensures (runtime, e) in AllEntries(results) <==> exists r :: r in results && Speaks(r, runtime, e)
  {
    if results != [] {
      var last := results[|results| - 1];
      EntriesMean(results[..|results| - 1], runtime, e);
      assert results == results[..|results| - 1] + [last];
      assert (runtime, e) in EntriesOf(last) <==> Speaks(last, runtime, e);
    }
  }

  /** The worst an entry of that runtime says; missing if there is none. */
  function StatusOf(entries: seq<(string, Entry)>, runtime: string): Status {
    if entries == [] then Missing
    else
      var (name, e) := entries[|entries| - 1];
      var rest := StatusOf(entries[..|entries| - 1], runtime);
      if name == runtime then Worse(rest, Says(e)) else rest
  }

  /** The status of a runtime is the maximum over its entries, in missing < accepted < inconclusive < rejected. */
  lemma {:induction false} StatusIsMaximum(entries: seq<(string, Entry)>, runtime: string)
    ensures forall p | p in entries && p.0 == runtime :: Rank(Says(p.1)) <= Rank(StatusOf(entries, runtime))
    ensures StatusOf(entries, runtime) == Missing
            || exists p :: p in entries && p.0 == runtime && Says(p.1) == StatusOf(entries, runtime)
  {
    if entries != [] {
      var front, last := entries[..|entries| - 1], entries[|entries| - 1];
      StatusIsMaximum(front, runtime);
      assert entries == front + [last];
      if StatusOf(entries, runtime) != Missing {
        if StatusOf(front, runtime) == StatusOf(entries, runtime) {
          var p :| p in front && p.0 == runtime && Says(p.1) == StatusOf(front, runtime);
          assert p in entries;
        } else {
          assert last in entries;
        }
      }
    }
  }

  type Matrix = map<string, Status>

  /** The branches of the loop body, in order. */
  method Note(matrix: Matrix, runtime: string, e: Entry) returns (m: Matrix)
    ensures m == if runtime in matrix then matrix[runtime := Worse(matrix[runtime], Says(e))] else matrix
  {
    m := matrix;
    if runtime !in matrix {
      return;
    }
    var decision := DecisionOf(e);
    var accepted := decision == "accept" && e.accepted;
    if e.status != "evaluated" && e.status != "completed" {
      accepted := false;
    }
    var current := matrix[runtime];
    if e.rejected || decision == "reject" {
      m := m[runtime := Rejected];
    } else if accepted && current != Rejected && current != Inconclusive {
      m := m[runtime := Accepted];
    } else if !accepted && current != Rejected {
      m := m[runtime := Inconclusive];
    }
  }

  ghost predicate Shows(matrix: Matrix, required: set<string>, entries: seq<(string, Entry)>) {
    matrix.Keys == required && forall r | r in required :: matrix[r] == StatusOf(entries, r)
  }

  lemma NoteShows(matrix: Matrix, required: set<string>, entries: seq<(string, Entry)>, runtime: string, e: Entry)
    requires Shows(matrix, required, entries)
    ensures Shows(if runtime in matrix then matrix[runtime := Worse(matrix[runtime], Says(e))] else matrix,
                  required, entries + [(runtime, e)])
  {
    hide Worse, Says;
    assert (entries + [(runtime, e)])[..|entries|] == entries;
  }

  method BuildMatrix(required: set<string>, results: seq<Result>) returns (matrix: Matrix)
    ensures Shows(matrix, required, AllEntries(results))
  {
    matrix := map runtime | runtime in required :: Missing;
    for i := 0 to |results|
      invariant Shows(matrix, required, AllEntries(results[..i]))
    {
      var entries := EntriesOf(results[i]);
      ghost var before := AllEntries(results[..i]);
      assert results[..i + 1][..i] == results[..i];
      assert before + entries[..0] == before;
      hide Shows, AllEntries, EntriesOf;
      for j := 0 to |entries|
        invariant Shows(matrix, required, before + entries[..j])
      {
        NoteShows(matrix, required, before + entries[..j], entries[j].0, entries[j].1);
        assert before + entries[..j + 1] == before + entries[..j] + [entries[j]];
        matrix := Note(matrix, entries[j].0, entries[j].1);
      }
      assert before + entries[..|entries|] == before + entries;
      assert AllEntries(results[..i + 1]) == before + entries by { LastEntries(results[..i + 1]); }
    }
    assert results[..|results|] == results;
  }

  lemma LastEntries(results: seq<Result>)
    requires results != []
    ensures AllEntries(results) == AllEntries(results[..|results| - 1]) + EntriesOf(results[|results| - 1])
  {
  }

  datatype Answer = Blocked | RejectedRun | Passed | InconclusiveRun | Pending

  /** `evaluate_runtime_compatibility`; `unready` says that a runtime is missing or incompatible. */
  method Evaluate(required: set<string>, results: seq<Result>, unready: bool) returns (answer: Answer)
    ensures answer == AnswerOf(required, AllEntries(results), unready)
  {
    if required == {} {
      return Blocked;
    }
    var matrix := BuildMatrix(required, results);
    hide StatusOf, AllEntries;
    assert forall r | r in required :: r in matrix && matrix[r] == StatusOf(AllEntries(results), r);
    if unready {
      answer := Blocked;
    } else if exists r :: r in matrix && matrix[r] == Rejected {
      answer := RejectedRun;
    } else if forall r | r in matrix :: matrix[r] == Accepted {
      answer := Passed;
    } else if exists r :: r in matrix && matrix[r] == Inconclusive {
      answer := InconclusiveRun;
    } else {
      answer := Pending;
    }
  }

  /** The worst status decides, except that a missing runtime holds up a pass. */
  function AnswerOf(required: set<string>, entries: seq<(string, Entry)>, unready: bool): Answer {
    if required == {} || unready then Blocked
    else if exists r :: r in required && StatusOf(entries, r) == Rejected then RejectedRun
    else if exists r :: r in required && StatusOf(entries, r) == Inconclusive then InconclusiveRun
    else if exists r :: r in required && StatusOf(entries, r) == Missing then Pending
    else Passed
  }

  /** A runtime's status is accepted when it has an entry and all its entries accept. */
  lemma AcceptedExactly(entries: seq<(string, Entry)>, runtime: string)
    ensures StatusOf(entries, runtime) == Accepted <==>
              && (exists p :: p in entries && p.0 == runtime)
              && (forall p | p in entries && p.0 == runtime :: Says(p.1) == Accepted)
  {
    hide StatusOf, Says;
    StatusIsMaximum(entries, runtime);
    forall p | p in entries && p.0 == runtime ensures Says(p.1) != Missing {
      NeverMissing(p.1);
    }
  }

  lemma NeverMissing(e: Entry)
    ensures Says(e) != Missing
  {
  }

  /** A pass means that every required runtime has an entry and every one of its entries accepts. */
  lemma PassedExactly(required: set<string>, results: seq<Result>)
    requires required != {}
    ensures AnswerOf(required, AllEntries(results), false) == Passed <==>
            forall r | r in required ::
              && (exists p :: p in AllEntries(results) && p.0 == r)
              && (forall p | p in AllEntries(results) && p.0 == r :: Says(p.1) == Accepted)
  {
    hide StatusOf, Says, AllEntries;
    forall r | r in required
      ensures StatusOf(AllEntries(results), r) == Accepted <==>
                && (exists p :: p in AllEntries(results) && p.0 == r)
                && (forall p | p in AllEntries(results) && p.0 == r :: Says(p.1) == Accepted)
    {
      AcceptedExactly(AllEntries(results), r);
    }
  }

  /** The answer in order: blocked beforehand, rejected by one runtime, unclear for one, unheard of one, or passed. */
  lemma AnswerMeans(required: set<string>, entries: seq<(string, Entry)>, unready: bool)
    ensures AnswerOf(required, entries, unready) == Blocked <==> required == {} || unready
    ensures AnswerOf(required, entries, unready) == RejectedRun <==>
              required != {} && !unready && exists r, p :: r in required && p in entries && p.0 == r && Says(p.1) == Rejected
    ensures AnswerOf(required, entries, unready) == Pending <==>
              && required != {} && !unready
              && (forall r, p | r in required && p in entries && p.0 == r :: Says(p.1) == Accepted)
              && exists r :: r in required && forall p | p in entries :: p.0 != r
  {
    hide StatusOf, Says;
    forall r ensures StatusOf(entries, r) == Rejected <==> exists p :: p in entries && p.0 == r && Says(p.1) == Rejected {
      StatusIsMaximum(entries, r);
    }
    forall r ensures StatusOf(entries, r) == Missing <==> forall p | p in entries :: p.0 != r {
      StatusIsMaximum(entries, r);
      forall p | p in entries ensures Says(p.1) != Missing { NeverMissing(p.1); }
    }
    forall r ensures StatusOf(entries, r) in {Missing, Accepted} <==> forall p | p in entries && p.0 == r :: Says(p.1) == Accepted {
      StatusIsMaximum(entries, r);
      forall p | p in entries ensures Says(p.1) != Missing { NeverMissing(p.1); }
    }
  }

  lemma SameStatus(entries: seq<(string, Entry)>, others: seq<(string, Entry)>, runtime: string)
    requires forall p :: p in entries <==> p in others
    ensures StatusOf(entries, runtime) == StatusOf(others, runtime)
  {
    StatusIsMaximum(entries, runtime);
    StatusIsMaximum(others, runtime);
    hide StatusOf, Says;
  }

  /** Reordering or repeating entries, in any results, changes no status and no answer. */
  lemma {:induction false} OrderAndRepetition(required: set<string>, results: seq<Result>, others: seq<Result>, unready: bool)
    requires forall p :: p in AllEntries(results) <==> p in AllEntries(others)
    ensures forall r :: StatusOf(AllEntries(results), r) == StatusOf(AllEntries(others), r)
    ensures AnswerOf(required, AllEntries(results), unready) == AnswerOf(required, AllEntries(others), unready)
  {
    hide AllEntries, StatusOf, AnswerOf;
    var e, f := AllEntries(results), AllEntries(others);
    forall r ensures StatusOf(e, r) == StatusOf(f, r) {
      SameStatus(e, f, r);
    }
    SameAnswer(required, e, f, unready);
  }

  lemma SameAnswer(required: set<string>, entries: seq<(string, Entry)>, others: seq<(string, Entry)>, unready: bool)
    requires forall r :: StatusOf(entries, r) == StatusOf(others, r)
    ensures AnswerOf(required, entries, unready) == AnswerOf(required, others, unready)
  {
    hide StatusOf;
  }
}
