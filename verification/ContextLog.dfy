/**
 The incremental context sessions of one user: numbered events, replays of accepted events, and the freeze at commit.
 Payload hashes are compared as the payloads themselves.
 */
module ContextLog {
  import opened Basics

  datatype Event = Event(sequence: int, payload: string)

  datatype Session = Session(events: map<string, Event>, lastSequence: int, committed: bool)

  type Sessions = map<string, Session>

  datatype Outcome = Recorded | Duplicate | NoSession | Reused | Closed | OutOfOrder | UpstreamFailed

  /** What `event_status` finds: an accepted event again, a refusal, or room for a new event. */
  function Status(t: Sessions, sid: string, id: string, e: Event): Outcome {
    if sid !in t then NoSession
    else if id in t[sid].events then if t[sid].events[id] == e then Duplicate else Reused
    else if t[sid].committed then Closed
    else if e.sequence != t[sid].lastSequence + 1 then OutOfOrder
    else Recorded
  }

  /** One request to append; `upstream` says whether the message got through before the event is recorded. */
  function Appended(t: Sessions, sid: string, id: string, e: Event, upstream: bool): (Sessions, Outcome) {
    var status := Status(t, sid, id, e);
    if status != Recorded then (t, status)
    else if !upstream then (t, UpstreamFailed)
    else (t[sid := t[sid].(events := t[sid].events[id := e], lastSequence := e.sequence)], Recorded)
  }

  function Started(t: Sessions, sid: string): Sessions {
    if sid in t then t else t[sid := Session(map[], 0, false)]
  }

  function Committed(t: Sessions, sid: string, upstream: bool): Sessions {
    if sid in t && !t[sid].committed && upstream then t[sid := t[sid].(committed := true)] else t
  }

  class ContextRepository {
    var sessions: Sessions

    constructor ()
      ensures sessions == map[]
    {
      sessions := map[];
    }

    /** Insert unless it is there; the row, and whether it is new. */
    method StartSession(sid: string) returns (session: Session, created: bool)
      modifies this
      ensures sessions == Started(old(sessions), sid) && (created <==> sid !in old(sessions))
      ensures sid in sessions && session == sessions[sid]
      ensures if created then session == Session(map[], 0, false) else sessions == old(sessions)
    {
      created := sid !in sessions;
      if created {
        sessions := sessions[sid := Session(map[], 0, false)];
      }
      session := sessions[sid];
    }

    method EventStatus(sid: string, id: string, e: Event) returns (status: Outcome)
      ensures status == Status(sessions, sid, id, e)
      ensures status == Duplicate <==> sid in sessions && id in sessions[sid].events && sessions[sid].events[id] == e
      ensures status == Reused <==> sid in sessions && id in sessions[sid].events && sessions[sid].events[id] != e
      ensures status == NoSession <==> sid !in sessions
      ensures status == Closed <==> sid in sessions && id !in sessions[sid].events && sessions[sid].committed
      ensures status == Recorded <==>
                && sid in sessions && id !in sessions[sid].events && !sessions[sid].committed
                && e.sequence == sessions[sid].lastSequence + 1
    {
      if sid !in sessions {
        return NoSession;
      }
      var session := sessions[sid];
      if id in session.events {
        if session.events[id].payload != e.payload || session.events[id].sequence != e.sequence {
          return Reused;
        }
        return Duplicate;
      }
      if session.committed {
        return Closed;
      }
      if e.sequence != session.lastSequence + 1 {
        return OutOfOrder;
      }
      return Recorded;
    }

    method RecordEvent(sid: string, id: string, e: Event)
      requires sid in sessions && id !in sessions[sid].events
      modifies this
      ensures sessions == old(sessions)[sid :=
                old(sessions)[sid].(events := old(sessions)[sid].events[id := e], lastSequence := e.sequence)]
    {
      sessions := sessions[sid := sessions[sid].(events := sessions[sid].events[id := e])];
      sessions := sessions[sid := sessions[sid].(lastSequence := e.sequence)];
    }

    /** One append request, in one transaction. */
    method Append(sid: string, id: string, e: Event, upstream: bool) returns (outcome: Outcome)
      modifies this
      ensures (sessions, outcome) == Appended(old(sessions), sid, id, e, upstream)
      ensures outcome == Recorded ==>
                && upstream && sid in old(sessions)
                && var s := old(sessions)[sid];
                && !s.committed && id !in s.events && e.sequence == s.lastSequence + 1
                && sessions == old(sessions)[sid := Session(s.events[id := e], e.sequence, false)]
      ensures outcome != Recorded ==> sessions == old(sessions)
    {
      outcome := EventStatus(sid, id, e);
      if outcome == Recorded {
        if !upstream {
          return UpstreamFailed;
        }
        RecordEvent(sid, id, e);
      }
    }

    method Commit(sid: string, upstream: bool)
      modifies this
      ensures sessions == Committed(old(sessions), sid, upstream)
      ensures sid in old(sessions) && upstream ==> sid in sessions && sessions == old(sessions)[sid := old(sessions)[sid].(committed := true)]
      ensures !(sid in old(sessions) && upstream) ==> sessions == old(sessions)
    {
      if sid !in sessions || sessions[sid].committed || !upstream {
        return;
      }
      sessions := sessions[sid := sessions[sid].(committed := true)];
    }
  }

  // ---- whole histories ----

  datatype Request =
    | Start(sid: string)
    | Append(sid: string, id: string, event: Event, upstream: bool)
    | Commit(sid: string, upstream: bool)

  function Step(t: Sessions, r: Request): Sessions {
    match r
    case Start(sid) => Started(t, sid)
    case Append(sid, id, e, upstream) => Appended(t, sid, id, e, upstream).0
    case Commit(sid, upstream) => Committed(t, sid, upstream)
  }

  /** The sessions after a history, from an empty table or from `t`. */
  function After(t: Sessions, history: seq<Request>): Sessions {
    if history == [] then t else Step(After(t, history[..|history| - 1]), history[|history| - 1])
  }

  predicate Used(s: Session, k: int) {
    exists x :: x in s.events && s.events[x].sequence == k
  }

  /** The recorded numbers are exactly 1 to `lastSequence`, one event each. */
  ghost predicate Numbered(s: Session) {
    && s.lastSequence >= 0
    && (forall id | id in s.events :: 1 <= s.events[id].sequence <= s.lastSequence)
    && (forall k | 1 <= k <= s.lastSequence :: Used(s, k))
    && (forall a, b | a in s.events && b in s.events && s.events[a].sequence == s.events[b].sequence :: a == b)
  }

  lemma NumberedNext(s: Session, id: string, e: Event)
    requires Numbered(s) && id !in s.events && e.sequence == s.lastSequence + 1
    ensures Numbered(s.(events := s.events[id := e], lastSequence := e.sequence))
  {
    var next := s.(events := s.events[id := e], lastSequence := e.sequence);
    forall k | 1 <= k <= next.lastSequence ensures Used(next, k) {
      if k == e.sequence {
        assert id in next.events;
      } else {
        assert Used(s, k);
        var x :| x in s.events && s.events[x].sequence == k;
        assert x in next.events;
      }
    }
  }

  lemma {:induction false} AlwaysNumbered(history: seq<Request>, sid: string)
    requires sid in After(map[], history)
    ensures Numbered(After(map[], history)[sid])
  {
    if history != [] {
      var t, r := After(map[], history[..|history| - 1]), history[|history| - 1];
      if sid in t {
        AlwaysNumbered(history[..|history| - 1], sid);
      } else {
        assert Numbered(Session(map[], 0, false));
      }
      if r.Append? && Status(t, r.sid, r.id, r.event) == Recorded && r.upstream && r.sid == sid {
        NumberedNext(t[sid], r.id, r.event);
      } else if sid in t {
        assert After(map[], history)[sid].events == t[sid].events;
        assert forall k :: Used(t[sid], k) ==> Used(After(map[], history)[sid], k);
      }
    }
  }

  /** An accepted event stays as it was accepted, and a committed session stays as it was committed. */
  lemma {:induction false} Kept(t: Sessions, history: seq<Request>, sid: string)
    requires sid in t
    ensures sid in After(t, history)
    ensures forall id | id in t[sid].events ::
              id in After(t, history)[sid].events && After(t, history)[sid].events[id] == t[sid].events[id]
    ensures t[sid].committed ==> After(t, history)[sid] == t[sid]
  {
    if history != [] {
      Kept(t, history[..|history| - 1], sid);
    }
  }

  /** Sending an accepted event again is a duplicate at any later time, committed or not, and changes nothing. */
  lemma {:induction false} ReplayChangesNothing(t: Sessions, sid: string, id: string, e: Event, later: seq<Request>, upstream: bool)
    requires Appended(t, sid, id, e, true).1 == Recorded
    ensures var now := After(Appended(t, sid, id, e, true).0, later);
            Appended(now, sid, id, e, upstream) == (now, Duplicate)
  {
    Kept(Appended(t, sid, id, e, true).0, later, sid);
  }

  /** After a commit no request adds, changes or removes an event; other events are refused as closed. */
  lemma {:induction false} CommitFreezes(t: Sessions, sid: string, later: seq<Request>, id: string, e: Event, upstream: bool)
    requires sid in t && t[sid].committed
    ensures var now := After(t, later);
            && sid in now && now[sid] == t[sid]
            && (id !in t[sid].events ==> Appended(now, sid, id, e, upstream) == (now, Closed))
            && Appended(now, sid, id, e, upstream).0 == now
  {
    Kept(t, later, sid);
  }

  /** In every reachable state a new event is recorded exactly when the session is open and its number is the first unused one. */
  lemma RecordedExactly(history: seq<Request>, sid: string, id: string, e: Event)
    requires sid in After(map[], history) && id !in After(map[], history)[sid].events
    ensures var s := After(map[], history)[sid];
            Appended(After(map[], history), sid, id, e, true).1 == Recorded <==>
            !s.committed && 1 <= e.sequence && !Used(s, e.sequence) && forall k | 1 <= k < e.sequence :: Used(s, k)
  {
    var s := After(map[], history)[sid];
    AlwaysNumbered(history, sid);
    assert !Used(s, s.lastSequence + 1);
    assert 1 <= e.sequence <= s.lastSequence ==> Used(s, e.sequence);
  }

  // ---- the log as its history tells it ----

  /** Request `k` starts the session. */
  predicate Starts(history: seq<Request>, k: nat, sid: string) {
    k < |history| && history[k] == Start(sid)
  }

  /** Request `k` commits the session, which has been started by then. */
  predicate Commits(history: seq<Request>, k: nat, sid: string) {
    k < |history| && history[k] == Commit(sid, true) && exists j: nat | j < k :: Starts(history, j, sid)
  }

  /** Request `k` appends the event and is told that it was recorded. */
  predicate Records(history: seq<Request>, k: nat, sid: string, id: string, e: Event) {
    && k < |history| && history[k] == Append(sid, id, e, true)
    && Appended(After(map[], history[..k]), sid, id, e, true).1 == Recorded
  }

  /** A session exists exactly if a request started it. */
  lemma {:induction false} StartedExactly(history: seq<Request>, sid: string)
    ensures sid in After(map[], history) <==> exists k: nat :: Starts(history, k, sid)
  {
    if history != [] {
      var front := history[..|history| - 1];
      StartedExactly(front, sid);
      if k: nat :| Starts(front, k, sid) { assert Starts(history, k, sid); }
      if k: nat :| Starts(history, k, sid) { assert k == |front| || Starts(front, k, sid); }
      if sid in After(map[], history) && sid !in After(map[], front) { assert Starts(history, |front|, sid); }
    }
  }

  lemma CommitsEarlier(history: seq<Request>, n: nat, k: nat, sid: string)
    requires k < n <= |history|
    ensures Commits(history[..n], k, sid) <==> Commits(history, k, sid)
  {
    if j: nat :| j < k && Starts(history, j, sid) { assert Starts(history[..n], j, sid); }
    if j: nat :| j < k && Starts(history[..n], j, sid) { assert Starts(history, j, sid); }
  }

  /** A session is committed exactly if a commit that reached the upstream found it started. */
  lemma {:induction false} CommittedExactly(history: seq<Request>, sid: string)
    requires sid in After(map[], history)
    ensures After(map[], history)[sid].committed <==> exists k: nat :: Commits(history, k, sid)
  {
    var n := |history| - 1;
    var front, last := history[..n], history[n];
    forall k: nat | k < n ensures Commits(front, k, sid) <==> Commits(history, k, sid) { CommitsEarlier(history, n, k, sid); }
    StartedExactly(front, sid);
    forall j: nat | j < n ensures Starts(front, j, sid) <==> Starts(history, j, sid) {}
    hide Commits;
    if sid in After(map[], front) {
      CommittedExactly(front, sid);
      LastCommits(history, sid);
    } else {
      NoneCommits(history, sid);
    }
  }

  lemma LastCommits(history: seq<Request>, sid: string)
    requires history != [] && exists j: nat | j < |history| - 1 :: Starts(history, j, sid)
    ensures Commits(history, |history| - 1, sid) <==> history[|history| - 1] == Commit(sid, true)
    ensures forall k: nat | Commits(history, k, sid) :: k < |history|
  {
  }

  lemma NoneCommits(history: seq<Request>, sid: string)
    requires history != [] && forall j: nat | j < |history| - 1 :: !Starts(history, j, sid)
    ensures forall k: nat :: !Commits(history, k, sid)
  {
  }

  predicate Holds(t: Sessions, sid: string, id: string, e: Event) {
    sid in t && id in t[sid].events && t[sid].events[id] == e
  }

  /** One request puts an event into the log only by recording it, and takes none out. */
  lemma HoldsNext(t: Sessions, r: Request, sid: string, id: string, e: Event)
    ensures Holds(Step(t, r), sid, id, e) <==>
              Holds(t, sid, id, e) || (r == Append(sid, id, e, true) && Appended(t, sid, id, e, true).1 == Recorded)
  {
  }

  lemma RecordsNext(history: seq<Request>, sid: string, id: string, e: Event)
    requires history != []
    ensures var n := |history| - 1;
            (exists k: nat :: Records(history, k, sid, id, e)) <==>
              (exists k: nat :: Records(history[..n], k, sid, id, e)) || Records(history, n, sid, id, e)
  {
    var n := |history| - 1;
    forall k: nat | k < n ensures Records(history[..n], k, sid, id, e) <==> Records(history, k, sid, id, e) {
      assert history[..n][..k] == history[..k];
    }
    hide After, Appended;
    if k: nat :| Records(history, k, sid, id, e) && k != n { assert Records(history[..n], k, sid, id, e); }
    if k: nat :| Records(history[..n], k, sid, id, e) { assert Records(history, k, sid, id, e); }
  }

  /** The log holds exactly the events it said it had recorded, as they were sent. */
  lemma {:induction false} EventsExactly(history: seq<Request>, sid: string, id: string, e: Event)
    ensures Holds(After(map[], history), sid, id, e) <==> exists k: nat :: Records(history, k, sid, id, e)
  {
    if history != [] {
      var n := |history| - 1;
      EventsExactly(history[..n], sid, id, e);
      HoldsNext(After(map[], history[..n]), history[n], sid, id, e);
      RecordsNext(history, sid, id, e);
      hide Holds, Appended;
    }
  }
}
