/**
 Console login sessions: replicas with private caches over one shared store. Each lock section of `resolve`
 touches the store at most once, so it is one step; between sections anything may happen.
 */
module ConsoleSessions {
  import opened Basics

  /** A stored session record. */
  datatype Record = Record(user: string, expires: int)

  type Store = map<string, Record>

  // ---- the store's one transaction ----

  function Put(rows: Store, token: string, value: Record, renew: bool, expired: set<string>): Store {
    if renew then if token in rows then rows[token := value] else rows
    else (rows - expired)[token := value]
  }

  class SessionTable {
    var rows: Store

    constructor ()
      ensures rows == map[]
    {
      rows := map[];
    }

    method Delete(token: string) returns (existed: bool)
      modifies this
      ensures rows == old(rows) - {token} && existed == (token in old(rows))
    {
      existed := token in rows;
      rows := rows - {token};
    }

    /** Write a record; a renewal writes only where there still is one, an issue first clears what has expired. */
    method Write(token: string, value: Record, renew: bool, expired: set<string>) returns (written: bool)
      modifies this
      ensures rows == Put(old(rows), token, value, renew, expired)
      ensures written <==> !renew || token in old(rows)
    {
      if renew && token !in rows {
        return false;
      }
      if !renew {
        rows := rows - expired;
      }
      rows := rows[token := value];
      return true;
    }
  }

  // ---- any number of replicas and threads ----

  type Replica = nat
  type Thread = nat

  /** Where a `resolve` stands; `late` says that it began when the token had already been revoked. */
  datatype Pc =
    | Idle
    | Loaded(replica: Replica, token: string, late: bool, found: Option<Record>)
    | Merged(replica: Replica, token: string, late: bool, cell: nat)
    | Known(replica: Replica, token: string, late: bool, cell: nat)
    | Answered(token: string, late: bool, user: Option<string>)

  /** `cells` are the session dictionaries in memory; a cache maps a token to one of them. */
  datatype State = State(
    rows: Store,
    caches: map<(Replica, string), nat>,
    cells: map<nat, Record>,
    pcs: map<Thread, Pc>,
    issued: set<string>,
    revoked: set<string>)

  const Initial := State(map[], map[], map[], map[], {}, {})

  datatype Action =
    | Issue(replica: Replica, token: string, user: string, expires: int, cell: nat, expired: set<string>)
    | Revoke(replica: Replica, token: string)
    | Begin(thread: Thread, replica: Replica, token: string)
    | Merge(thread: Thread, now: int, cell: nat)
    | LookUp(thread: Thread, active: bool)
    | Answer(thread: Thread, now: int, ttl: int, interval: int)

  function PcOf(s: State, thread: Thread): Pc {
    if thread in s.pcs then s.pcs[thread] else Idle
  }

  /** A revocation: the replica forgets the token, and its row is deleted. */
  function Revoked(s: State, replica: Replica, token: string): State {
    s.(caches := s.caches - {(replica, token)}, rows := s.rows - {token}, revoked := s.revoked + (s.issued * {token}))
  }

  function Finish(s: State, thread: Thread, token: string, late: bool, user: Option<string>): State {
    s.(pcs := s.pcs[thread := Answered(token, late, user)])
  }

  /** The record a merge leaves in the replica's canonical cell. */
  function Canonical(s: State, key: (Replica, string), found: Record): Record {
    if key in s.caches && s.caches[key] in s.cells
    then found.(expires := Max(s.cells[s.caches[key]].expires, found.expires)) else found
  }

  /**
   The first lock section: adopt the stored values, or revoke an expired session. A session that is not cached is
   cached as the dictionary the store read returned, which nobody else has.
   */
  function MergeStep(s: State, thread: Thread, now: int, cell: nat): State {
    var pc := PcOf(s, thread);
    if !pc.Loaded? then s
    else
      var key := (pc.replica, pc.token);
      if key !in s.caches && cell in s.cells then s
      else if pc.found.None? then Finish(s.(caches := s.caches - {key}), thread, pc.token, pc.late, None)
      else
        var o := if key in s.caches then s.caches[key] else cell;
        var value := Canonical(s, key, pc.found.value);
        var t := s.(caches := s.caches[key := o], cells := s.cells[o := value]);
        if value.expires <= now then Finish(Revoked(t, pc.replica, pc.token), thread, pc.token, pc.late, None)
        else if value.user == "" then Finish(t, thread, pc.token, pc.late, None)
        else t.(pcs := t.pcs[thread := Merged(pc.replica, pc.token, pc.late, o)])
  }

  /** The user registry is read; a missing or disabled user revokes the session. */
  function LookUpStep(s: State, thread: Thread, active: bool): State {
    var pc := PcOf(s, thread);
    if !pc.Merged? then s
    else if !active then Finish(Revoked(s, pc.replica, pc.token), thread, pc.token, pc.late, None)
    else s.(pcs := s.pcs[thread := Known(pc.replica, pc.token, pc.late, pc.cell)])
  }

  /** The second lock section: give up if the cached cell changed, renew if due, and answer. */
  function AnswerStep(s: State, thread: Thread, now: int, ttl: int, interval: int): State {
    var pc := PcOf(s, thread);
    if !pc.Known? || pc.cell !in s.cells then s
    else
      var key := (pc.replica, pc.token);
      var session := s.cells[pc.cell];
      if key !in s.caches || s.caches[key] != pc.cell then Finish(s, thread, pc.token, pc.late, None)
      else if now - (session.expires - ttl) >= interval then
        var value := session.(expires := now + ttl);
        var t := s.(cells := s.cells[pc.cell := value], rows := Put(s.rows, pc.token, value, true, {}));
        Finish(t, thread, pc.token, pc.late, if pc.token in s.rows then Some(session.user) else None)
      else Finish(s, thread, pc.token, pc.late, Some(session.user))
  }

  function BeginStep(s: State, thread: Thread, replica: Replica, token: string): State {
    if token == "" then Finish(s, thread, token, token in s.revoked, None)
    else
      var found := if token in s.rows then Some(s.rows[token]) else None;
      s.(pcs := s.pcs[thread := Loaded(replica, token, token in s.revoked, found)])
  }

  /** An issue stores a token never issued before; rows that expired are cleared, and count as revoked. */
  function IssueStep(s: State, a: Action): State
    requires a.Issue?
  {
    if a.token in s.issued || a.cell in s.cells then s
    else
      var value := Record(a.user, a.expires);
      s.(caches := s.caches[(a.replica, a.token) := a.cell], cells := s.cells[a.cell := value],
         rows := Put(s.rows, a.token, value, false, a.expired), issued := s.issued + {a.token},
         revoked := s.revoked + s.issued * a.expired)
  }

  function Step(s: State, a: Action): State {
    match a
    case Issue(_, _, _, _, _, _) => IssueStep(s, a)
    case Revoke(replica, token) => Revoked(s, replica, token)
    case Begin(thread, replica, token) => BeginStep(s, thread, replica, token)
    case Merge(thread, now, cell) => MergeStep(s, thread, now, cell)
    case LookUp(thread, active) => LookUpStep(s, thread, active)
    case Answer(thread, now, ttl, interval) => AnswerStep(s, thread, now, ttl, interval)
  }

  function After(history: seq<Action>): State {
    if history == [] then Initial else Step(After(history[..|history| - 1]), history[|history| - 1])
  }

  // ---- revoked is revoked ----

  /** A resolve that began after the revocation has found nothing and can only answer nothing. */
  predicate Honest(pc: Pc) {
    match pc
    case Loaded(_, _, late, found) => late ==> found.None?
    case Merged(_, _, late, _) => !late
    case Known(_, _, late, _) => !late
    case Answered(_, late, user) => late ==> user.None?
    case Idle => true
  }

  ghost predicate Inv(s: State) {
    && s.rows.Keys <= s.issued && s.revoked <= s.issued
    && s.revoked !! s.rows.Keys
    && (forall t | t in s.pcs :: Honest(s.pcs[t]))
    && Cached(s)
  }

  /** A thread holds a dictionary that exists, for a token that was issued. */
  predicate Grounded(s: State, pc: Pc) {
    && (pc.Loaded? && pc.found.Some? ==> pc.token in s.issued)
    && (pc.Merged? || pc.Known? ==> pc.cell in s.cells && pc.token in s.issued)
  }

  predicate CachesGrounded(s: State) {
    forall k | k in s.caches :: s.caches[k] in s.cells && k.1 in s.issued
  }

  /** Caches and threads hold dictionaries that exist, for tokens that were issued. */
  ghost predicate Cached(s: State) {
    CachesGrounded(s) && forall t | t in s.pcs :: Grounded(s, s.pcs[t])
  }

  lemma MergeKeepsCaches(s: State, thread: Thread, now: int, cell: nat)
    requires CachesGrounded(s) && Grounded(s, PcOf(s, thread))
    ensures var t := MergeStep(s, thread, now, cell); CachesGrounded(t) && s.cells.Keys <= t.cells.Keys
  {
    hide Canonical;
  }

  lemma AnswerKeepsCaches(s: State, thread: Thread, now: int, ttl: int, interval: int)
    requires CachesGrounded(s)
    ensures var t := AnswerStep(s, thread, now, ttl, interval); CachesGrounded(t) && s.cells.Keys <= t.cells.Keys
  {
  }

  lemma LookUpKeepsCaches(s: State, thread: Thread, active: bool)
    requires CachesGrounded(s)
    ensures var t := LookUpStep(s, thread, active); CachesGrounded(t) && s.cells.Keys <= t.cells.Keys
  {
  }

  lemma IssueKeepsCaches(s: State, a: Action)
    requires CachesGrounded(s) && a.Issue?
    ensures CachesGrounded(IssueStep(s, a)) && s.cells.Keys <= IssueStep(s, a).cells.Keys
  {
    hide Put;
  }

  lemma StepKeepsCaches(s: State, a: Action)
    requires CachesGrounded(s) && s.rows.Keys <= s.issued && forall t | t in s.pcs :: Grounded(s, s.pcs[t])
    ensures CachesGrounded(Step(s, a)) && s.cells.Keys <= Step(s, a).cells.Keys
  {
    hide MergeStep, LookUpStep, AnswerStep, IssueStep;
    match a {
      case Merge(thread, now, cell) => MergeKeepsCaches(s, thread, now, cell);
      case LookUp(thread, active) => LookUpKeepsCaches(s, thread, active);
      case Answer(thread, now, ttl, interval) => AnswerKeepsCaches(s, thread, now, ttl, interval);
      case Issue(_, _, _, _, _, _) => IssueKeepsCaches(s, a);
      case _ =>
    }
  }

  /** Only the acting thread moves. */
  function Actor(a: Action): Option<Thread> {
    if a.Issue? || a.Revoke? then None else Some(a.thread)
  }

  lemma OthersStay(s: State, a: Action, t: Thread)
    requires Actor(a) != Some(t)
    ensures PcOf(Step(s, a), t) == PcOf(s, t)
  {
  }

  lemma ActorGrounded(s: State, a: Action)
    requires CachesGrounded(s) && s.rows.Keys <= s.issued && Actor(a).Some? && Grounded(s, PcOf(s, Actor(a).value))
    ensures Grounded(Step(s, a), PcOf(Step(s, a), Actor(a).value))
  {
    match a {
      case Merge(thread, now, cell) => hide LookUpStep, AnswerStep, BeginStep, IssueStep;
      case LookUp(thread, active) => hide MergeStep, AnswerStep, BeginStep, IssueStep;
      case Answer(thread, now, ttl, interval) => hide MergeStep, LookUpStep, BeginStep, IssueStep;
      case _ => hide MergeStep, LookUpStep, AnswerStep, IssueStep;
    }
  }

  lemma StepKeepsThreads(s: State, a: Action, t: Thread)
    requires CachesGrounded(s) && s.rows.Keys <= s.issued && Grounded(s, PcOf(s, t))
    requires s.cells.Keys <= Step(s, a).cells.Keys
    ensures Grounded(Step(s, a), PcOf(Step(s, a), t))
  {
    hide Step, CachesGrounded;
    StepGrows(s, a);
    if Actor(a) == Some(t) { ActorGrounded(s, a); } else { OthersStay(s, a, t); }
  }

  lemma StepKeepsCached(s: State, a: Action)
    requires Cached(s) && s.rows.Keys <= s.issued
    ensures Cached(Step(s, a))
  {
    StepKeepsCaches(s, a);
    hide Step, CachesGrounded;
    forall t | t in Step(s, a).pcs ensures Grounded(Step(s, a), Step(s, a).pcs[t]) {
      StepKeepsThreads(s, a, t);
    }
  }

  lemma StepGrows(s: State, a: Action)
    ensures s.revoked <= Step(s, a).revoked && s.issued <= Step(s, a).issued
  {
  }

  lemma StepKeepsInv(s: State, a: Action)
    requires Inv(s)
    ensures Inv(Step(s, a)) && s.revoked <= Step(s, a).revoked
  {
    StepKeepsCached(s, a);
    StepGrows(s, a);
    hide Cached;
  }

  lemma {:induction false} Always(history: seq<Action>)
    ensures Inv(After(history))
  {
    if history != [] {
      Always(history[..|history| - 1]);
      StepKeepsInv(After(history[..|history| - 1]), history[|history| - 1]);
    }
  }

  lemma {:induction false} RevokedStays(history: seq<Action>, k: nat)
    requires k <= |history|
    ensures After(history[..k]).revoked <= After(history).revoked
  {
    if k < |history| {
      var front := history[..|history| - 1];
      RevokedStays(front, k);
      assert front[..k] == history[..k];
      Always(front);
      StepKeepsInv(After(front), history[|history| - 1]);
    } else {
      assert history[..k] == history;
    }
  }

  lemma DeletedMeansRevoked(s: State, a: Action, token: string)
    requires Inv(s) && token in s.rows && token !in Step(s, a).rows
    ensures token in Step(s, a).revoked
  {
  }

  /** Once an issued token's row is deleted, by whichever replica, no later step brings it back. */
  lemma NeverRecreated(history: seq<Action>, k: nat, token: string)
    requires k < |history|
    requires token in After(history[..k]).rows && token !in After(history[..k + 1]).rows
    ensures token !in After(history).rows
  {
    Always(history[..k]);
    assert history[..k + 1][..k] == history[..k];
    DeletedMeansRevoked(After(history[..k]), history[k], token);
    hide Step;
    RevokedStays(history, k + 1);
    Always(history);
  }

  predicate FoundNothing(pc: Pc, replica: Replica, token: string) {
    pc == Loaded(replica, token, true, None) || pc == Answered(token, true, None)
  }

  lemma StillNothing(s: State, a: Action, thread: Thread, replica: Replica, token: string)
    requires FoundNothing(PcOf(s, thread), replica, token)
    requires !(a.Begin? && a.thread == thread)
    ensures FoundNothing(PcOf(Step(s, a), thread), replica, token)
  {
  }

  /** A resolve that starts after a revocation answers None, however its steps interleave with all others. */
  lemma {:induction false} LateResolveFindsNothing(
    history: seq<Action>, k: nat, thread: Thread, replica: Replica, token: string)
    requires k < |history|
    requires token in After(history[..k]).revoked && history[k] == Begin(thread, replica, token)
    requires forall i | k < i < |history| :: !(history[i].Begin? && history[i].thread == thread)
    ensures FoundNothing(PcOf(After(history), thread), replica, token)
    decreases |history|
  {
    var front, last := history[..|history| - 1], history[|history| - 1];
    Always(front);
    if k < |front| {
      assert front[..k] == history[..k];
      assert last == history[|front|];
      hide Step;
      LateResolveFindsNothing(front, k, thread, replica, token);
      StillNothing(After(front), last, thread, replica, token);
    } else {
      assert After(front).revoked !! After(front).rows.Keys;
    }
  }

  // ---- a resolve already under way ----

  lemma AfterNext(history: seq<Action>, k: nat)
    requires k < |history|
    ensures After(history[..k + 1]) == Step(After(history[..k]), history[k])
  {
    assert history[..k + 1][..k] == history[..k];
  }

  /** The last step: the user is answered if the cached session is still this one, and a renewal that is due finds its row. */
  lemma UnderWay(s: State, thread: Thread, now: int, ttl: int, interval: int)
    requires PcOf(s, thread).Known? && PcOf(s, thread).cell in s.cells
    ensures var pc, t := PcOf(s, thread), AnswerStep(s, thread, now, ttl, interval);
            && PcOf(t, thread).Answered?
            && (PcOf(t, thread).user.Some? <==>
                  && Holds(s, (pc.replica, pc.token), pc.cell)
                  && (now - (s.cells[pc.cell].expires - ttl) < interval || pc.token in s.rows))
  {
  }

  predicate Holds(s: State, key: (Replica, string), cell: nat) {
    key in s.caches && s.caches[key] == cell
  }

  /** A cached session changes only by being forgotten, and a dictionary that is not cached is never cached again. */
  lemma CacheMoves(s: State, a: Action, key: (Replica, string), cell: nat)
    requires Inv(s) && cell in s.cells
    ensures cell in Step(s, a).cells
    ensures Holds(s, key, cell) ==> Holds(Step(s, a), key, cell) || key !in Step(s, a).caches
    ensures !Holds(s, key, cell) ==> !Holds(Step(s, a), key, cell)
  {
  }

  predicate Begins(a: Action, thread: Thread) {
    a.Begin? && a.thread == thread
  }

  /** A resolve between its two lock sections: it merges at event `m` and answers at event `n`. */
  ghost predicate Resolves(h: seq<Action>, m: nat, n: nat, thread: Thread) {
    && m < n < |h| && PcOf(After(h[..m]), thread).Loaded? && PcOf(After(h[..m + 1]), thread).Merged?
    && PcOf(After(h[..n]), thread).Known? && h[n].Answer? && h[n].thread == thread
    && forall i | m < i < n :: !Begins(h[i], thread)
  }

  function KeyOf(pc: Pc): (Replica, string)
    requires pc.Merged?
  {
    (pc.replica, pc.token)
  }

  /** Its replica still caches the session under the token, at every moment after the merge. */
  ghost predicate Remembered(h: seq<Action>, m: nat, n: nat, key: (Replica, string))
    requires n <= |h|
  {
    forall i | m < i <= n :: key in After(h[..i]).caches
  }

  predicate Same(pc: Pc, was: Pc)
    requires was.Merged?
  {
    pc.Answered? || pc == was || pc == Known(was.replica, was.token, was.late, was.cell)
  }

  lemma StepSame(s: State, a: Action, thread: Thread, was: Pc)
    requires was.Merged? && Same(PcOf(s, thread), was) && !Begins(a, thread)
    ensures Same(PcOf(Step(s, a), thread), was)
  {
  }

  lemma {:induction false} StaysSame(h: seq<Action>, m: nat, n: nat, thread: Thread)
    requires m < n <= |h| && PcOf(After(h[..m + 1]), thread).Merged?
    requires forall i | m < i < n :: !Begins(h[i], thread)
    ensures Same(PcOf(After(h[..n]), thread), PcOf(After(h[..m + 1]), thread))
    decreases n
  {
    hide Step;
    if m + 1 < n {
      StaysSame(h, m, n - 1, thread);
      AfterNext(h, n - 1);
      StepSame(After(h[..n - 1]), h[n - 1], thread, PcOf(After(h[..m + 1]), thread));
    }
  }

  /** The cache holds the resolve's own dictionary at the end exactly if it never forgot the token since the merge. */
  lemma {:induction false} HeldIsRemembered(h: seq<Action>, m: nat, n: nat, key: (Replica, string), cell: nat)
    requires m < n <= |h| && Holds(After(h[..m + 1]), key, cell) && cell in After(h[..m + 1]).cells
    ensures cell in After(h[..n]).cells
    ensures Holds(After(h[..n]), key, cell) <==> Remembered(h, m, n, key)
    decreases n
  {
    hide Step, Inv;
    if m + 1 < n {
      HeldIsRemembered(h, m, n - 1, key, cell);
      AfterNext(h, n - 1);
      Always(h[..n - 1]);
      CacheMoves(After(h[..n - 1]), h[n - 1], key, cell);
    }
  }

  lemma MergeHolds(s: State, a: Action, thread: Thread)
    requires PcOf(s, thread).Loaded? && PcOf(Step(s, a), thread).Merged?
    ensures var pc := PcOf(Step(s, a), thread); Holds(Step(s, a), KeyOf(pc), pc.cell) && pc.cell in Step(s, a).cells
    ensures PcOf(s, thread).found.Some?
    ensures PcOf(Step(s, a), thread).token == PcOf(s, thread).token
  {
  }

  /**
   What a resolve answers, whatever happens meanwhile: the user, exactly if its replica has not forgotten the token
   since the merge and a renewal that is due finds the stored row.
   */
  lemma {:induction false} AnsweredExactly(h: seq<Action>, m: nat, n: nat, thread: Thread)
    requires Resolves(h, m, n, thread)
    ensures var pc, s, a := PcOf(After(h[..m + 1]), thread), After(h[..n]), h[n];
            && pc.cell in s.cells
            && PcOf(After(h[..n + 1]), thread).Answered?
            && (PcOf(After(h[..n + 1]), thread).user.Some? <==>
                  && Remembered(h, m, n, KeyOf(pc))
                  && (a.now - (s.cells[pc.cell].expires - a.ttl) < a.interval || pc.token in s.rows))
  {
    AfterNext(h, m);
    MergeHolds(After(h[..m]), h[m], thread);
    var pc := PcOf(After(h[..m + 1]), thread);
    StaysSame(h, m, n, thread);
    HeldIsRemembered(h, m, n, KeyOf(pc), pc.cell);
    AfterNext(h, n);
    UnderWay(After(h[..n]), thread, h[n].now, h[n].ttl, h[n].interval);
    hide After, AnswerStep;
  }

  // ---- a whole resolve ----

  /**
   One call of `resolve` for a token: it begins at event `b`, merges at `m`, looks the user up at `l` and answers at
   `n`. A refusal on the way leaves the later steps nothing to do. What the store read returned is a dictionary of
   its own.
   */
  ghost predicate Call(h: seq<Action>, b: nat, m: nat, l: nat, n: nat, thread: Thread) {
    && b < m < l < n < |h|
    && h[b].Begin? && h[m].Merge? && h[l].LookUp? && h[n].Answer?
    && h[b].thread == h[m].thread == h[l].thread == h[n].thread == thread
    && h[b].token != "" && h[m].cell !in After(h[..m]).cells
    && forall i | b < i < n && i != m && i != l :: Actor(h[i]) != Some(thread)
  }

  lemma {:induction false} Waits(h: seq<Action>, i: nat, j: nat, thread: Thread)
    requires i <= j <= |h| && forall k | i <= k < j :: Actor(h[k]) != Some(thread)
    ensures PcOf(After(h[..j]), thread) == PcOf(After(h[..i]), thread)
    decreases j
  {
    hide Step, PcOf;
    if i < j {
      Waits(h, i, j - 1, thread);
      AfterNext(h, j - 1);
      OthersStay(After(h[..j - 1]), h[j - 1], thread);
    }
  }

  /** When the session a merge leaves expires: what the store read said, or what the replica's cache says if that is later. */
  function Expiry(s: State, key: (Replica, string), found: Record): int {
    if key in s.caches && s.caches[key] in s.cells && s.cells[s.caches[key]].expires > found.expires
    then s.cells[s.caches[key]].expires else found.expires
  }

  lemma Merges(s: State, thread: Thread, now: int, cell: nat)
    requires Inv(s) && PcOf(s, thread).Loaded? && cell !in s.cells
    ensures var pc, t := PcOf(s, thread), MergeStep(s, thread, now, cell);
            var key := (pc.replica, pc.token);
            if pc.found.Some? && Expiry(s, key, pc.found.value) > now && pc.found.value.user != ""
            then && PcOf(t, thread).Merged? && KeyOf(PcOf(t, thread)) == key
                 && PcOf(t, thread).cell in t.cells
                 && t.cells[PcOf(t, thread).cell] == Record(pc.found.value.user, Expiry(s, key, pc.found.value))
            else && PcOf(t, thread) == Answered(pc.token, pc.late, None)
                 && (pc.found.Some? && Expiry(s, key, pc.found.value) <= now ==> pc.token !in t.rows && pc.token in t.revoked)
  {
  }

  lemma LooksUp(s: State, thread: Thread, active: bool)
    requires Inv(s)
    ensures var pc, t := PcOf(s, thread), LookUpStep(s, thread, active);
            && (pc.Answered? ==> PcOf(t, thread) == pc)
            && (pc.Merged? ==> if active then PcOf(t, thread) == Known(pc.replica, pc.token, pc.late, pc.cell)
                               else PcOf(t, thread) == Answered(pc.token, pc.late, None) && pc.token !in t.rows && pc.token in t.revoked)
  {
  }

  lemma Begun(s: State, thread: Thread, replica: Replica, token: string)
    requires token != ""
    ensures PcOf(BeginStep(s, thread, replica, token), thread)
            == Loaded(replica, token, token in s.revoked, if token in s.rows then Some(s.rows[token]) else None)
  {
  }

  lemma AnsweredRests(s: State, thread: Thread, now: int, ttl: int, interval: int)
    requires PcOf(s, thread).Answered?
    ensures AnswerStep(s, thread, now, ttl, interval) == s
  {
  }

  /** The session read at the beginning of a call is good enough for its merge: it was there, names a user and has not expired. */
  predicate Usable(h: seq<Action>, b: nat, m: nat)
    requires b < m < |h| && h[b].Begin? && h[m].Merge?
  {
    && h[b].token in After(h[..b]).rows
    && var found := After(h[..b]).rows[h[b].token];
    && found.user != "" && h[m].now < Expiry(After(h[..m]), (h[b].replica, h[b].token), found)
  }

  lemma {:induction false} CallMerges(h: seq<Action>, b: nat, m: nat, l: nat, n: nat, thread: Thread)
    requires Call(h, b, m, l, n, thread)
    ensures var token, sb, t := h[b].token, After(h[..b]), After(h[..m + 1]);
            && PcOf(After(h[..m]), thread).Loaded?
            && (if Usable(h, b, m)
                then PcOf(t, thread).Merged? && KeyOf(PcOf(t, thread)) == (h[b].replica, token)
                else PcOf(t, thread).Answered? && PcOf(t, thread).user == None)
            && (token in sb.rows && Expiry(After(h[..m]), (h[b].replica, token), sb.rows[token]) <= h[m].now
                ==> token !in t.rows && token in t.revoked)
  {
    Always(h[..m]);
    AfterNext(h, b);
    Begun(After(h[..b]), thread, h[b].replica, h[b].token);
    Waits(h, b + 1, m, thread);
    AfterNext(h, m);
    hide After, Inv, BeginStep, MergeStep, Expiry;
    Merges(After(h[..m]), thread, h[m].now, h[m].cell);
  }

  lemma NoBegin(h: seq<Action>, m: nat, l: nat, n: nat, thread: Thread)
    requires m < l < n < |h| && !Begins(h[l], thread) && forall i | m < i < n && i != l :: Actor(h[i]) != Some(thread)
    ensures forall i | m < i < n :: !Begins(h[i], thread)
  {
  }

  lemma CachedHere(h: seq<Action>, key: (Replica, string))
    ensures key in After(h).caches ==> After(h).caches[key] in After(h).cells
  {
    Always(h);
    hide After;
  }

  lemma InCacheAtEnd(h: seq<Action>, m: nat, n: nat, key: (Replica, string))
    requires m < n <= |h| && Remembered(h, m, n, key)
    ensures key in After(h[..n]).caches
  {
    hide After;
  }

  /** A replica that has not forgotten the session since the merge still caches the dictionary of the merge. */
  lemma {:induction false} RememberedCell(h: seq<Action>, m: nat, n: nat, thread: Thread)
    requires Resolves(h, m, n, thread)
    ensures var pc := PcOf(After(h[..m + 1]), thread);
            Remembered(h, m, n, KeyOf(pc)) ==> Holds(After(h[..n]), KeyOf(pc), pc.cell)
  {
    AfterNext(h, m);
    MergeHolds(After(h[..m]), h[m], thread);
    HeldIsRemembered(h, m, n, KeyOf(PcOf(After(h[..m + 1]), thread)), PcOf(After(h[..m + 1]), thread).cell);
  }

  lemma {:induction false} CallLooksUp(h: seq<Action>, b: nat, m: nat, l: nat, n: nat, thread: Thread)
    requires Call(h, b, m, l, n, thread)
    ensures var pc := PcOf(After(h[..n]), thread);
            && (if Usable(h, b, m) && h[l].active then Resolves(h, m, n, thread) && pc.Known?
                else pc.Answered? && pc.user == None)
            && (Usable(h, b, m) && !h[l].active ==> h[b].token !in After(h[..l + 1]).rows && h[b].token in After(h[..l + 1]).revoked)
  {
    hide After, Inv, Usable, LookUpStep, MergeStep, BeginStep, AnswerStep, IssueStep, Revoked, PcOf;
    CallMerges(h, b, m, l, n, thread);
    Always(h[..l]);
    Waits(h, m + 1, l, thread);
    AfterNext(h, l);
    LooksUp(After(h[..l]), thread, h[l].active);
    Waits(h, l + 1, n, thread);
    if Usable(h, b, m) && h[l].active { NoBegin(h, m, l, n, thread); }
  }

  /**
   What a whole call answers: the user the stored session names, exactly if the session was in the store when the call
   began, its kept expiry lies after the merge, it names a user, the registry knows that user as active, the replica
   did not forget the session between merge and answer, and a renewal that is due still finds the stored row.
   */
  lemma {:induction false} ResolveExactly(h: seq<Action>, b: nat, m: nat, l: nat, n: nat, thread: Thread)
    requires Call(h, b, m, l, n, thread)
    ensures var token, s, a := h[b].token, After(h[..n]), h[n];
            var key, pc := (h[b].replica, token), PcOf(After(h[..n + 1]), thread);
            && pc.Answered?
            && (Remembered(h, m, n, key) ==> key in s.caches && s.caches[key] in s.cells)
            && (pc.user.Some? <==>
                  && Usable(h, b, m) && h[l].active && Remembered(h, m, n, key)
                  && (a.now < s.cells[s.caches[key]].expires - a.ttl + a.interval || token in s.rows))
  {
    hide After, Inv, Usable, LookUpStep, MergeStep, BeginStep, AnswerStep, IssueStep, Revoked, PcOf, Remembered, Resolves;
    CallMerges(h, b, m, l, n, thread);
    CallLooksUp(h, b, m, l, n, thread);
    AfterNext(h, n);
    CachedHere(h[..n], (h[b].replica, h[b].token));
    if Remembered(h, m, n, (h[b].replica, h[b].token)) { InCacheAtEnd(h, m, n, (h[b].replica, h[b].token)); }
    if Usable(h, b, m) && h[l].active {
      AnsweredExactly(h, m, n, thread);
      RememberedCell(h, m, n, thread);
    } else {
      AnsweredRests(After(h[..n]), thread, h[n].now, h[n].ttl, h[n].interval);
    }
  }

  /** A call that finds its session expired or its user gone has revoked it: the row is deleted and stays so. */
  lemma {:induction false} RefusalRevokes(h: seq<Action>, b: nat, m: nat, l: nat, n: nat, thread: Thread)
    requires Call(h, b, m, l, n, thread) && h[b].token in After(h[..b]).rows
    requires Expiry(After(h[..m]), (h[b].replica, h[b].token), After(h[..b]).rows[h[b].token]) <= h[m].now
             || (Usable(h, b, m) && !h[l].active)
    ensures h[b].token !in After(h).rows
  {
    hide After, Inv, Usable, Expiry;
    CallMerges(h, b, m, l, n, thread);
    CallLooksUp(h, b, m, l, n, thread);
    RevokedStays(h, m + 1);
    RevokedStays(h, l + 1);
    Always(h);
    hide PcOf, Resolves;
    assert h[b].token in After(h).revoked;
    RevokedIsAbsent(After(h), h[b].token);
  }

  lemma RevokedIsAbsent(s: State, token: string)
    requires Inv(s) && token in s.revoked
    ensures token !in s.rows
  {
  }

  // ---- whose session it is ----

  /** The user each token was issued to. */
  function Owners(h: seq<Action>): map<string, string> {
    if h == [] then map[]
    else
      var a, s, o := h[|h| - 1], After(h[..|h| - 1]), Owners(h[..|h| - 1]);
      if a.Issue? && a.token !in s.issued && a.cell !in s.cells then o[a.token := a.user] else o
  }

  predicate Names(o: map<string, string>, token: string, r: Record) {
    token in o && o[token] == r.user
  }

  predicate PlaceOwned(s: State, o: map<string, string>, pc: Pc) {
    && (pc.Loaded? && pc.found.Some? ==> Names(o, pc.token, pc.found.value))
    && (pc.Merged? || pc.Known? ==> pc.cell in s.cells && Names(o, pc.token, s.cells[pc.cell]))
    && (pc.Answered? && pc.user.Some? ==> pc.token in o && o[pc.token] == pc.user.value)
  }

  /** Every copy of a session, in the store, in a cache or in a thread's hand, names the user its token was issued to. */
  ghost predicate Owned(s: State, o: map<string, string>) {
    && o.Keys == s.issued
    && (forall token | token in s.rows :: Names(o, token, s.rows[token]))
    && (forall k | k in s.caches :: s.caches[k] in s.cells && Names(o, k.1, s.cells[s.caches[k]]))
    && (forall t | t in s.pcs :: PlaceOwned(s, o, s.pcs[t]))
  }

  /** Sessions are issued, forgotten and pushed on, but no dictionary or row ever changes its user. */
  predicate UsersStay(s: State, s': State, o: map<string, string>, o': map<string, string>) {
    && (forall token | token in o :: token in o' && o'[token] == o[token])
    && (forall c | c in s.cells :: c in s'.cells && s'.cells[c].user == s.cells[c].user)
  }

  lemma AdoptOwned(s: State, key: (Replica, string), cell: nat, value: Record, o: map<string, string>)
    requires Owned(s, o) && Names(o, key.1, value)
    requires if key in s.caches then cell == s.caches[key] else cell !in s.cells
    ensures Owned(s.(caches := s.caches[key := cell], cells := s.cells[cell := value]), o)
  {
    assert UsersStay(s, s.(caches := s.caches[key := cell], cells := s.cells[cell := value]), o, o);
  }

  lemma PlacedOwned(s: State, thread: Thread, pc: Pc, o: map<string, string>)
    requires Owned(s, o) && PlaceOwned(s, o, pc)
    ensures Owned(s.(pcs := s.pcs[thread := pc]), o)
  {
  }

  lemma MergeOwned(s: State, thread: Thread, now: int, cell: nat, o: map<string, string>)
    requires Owned(s, o)
    ensures Owned(MergeStep(s, thread, now, cell), o)
  {
    var pc, t := PcOf(s, thread), MergeStep(s, thread, now, cell);
    if t != s {
      assert PlaceOwned(s, o, pc);
      var key, gone := (pc.replica, pc.token), Answered(pc.token, pc.late, None);
      if pc.found.None? {
        ForgetOwned(s, key, o);
        PlacedOwned(s.(caches := s.caches - {key}), thread, gone, o);
      } else {
        var c, value := (if key in s.caches then s.caches[key] else cell), Canonical(s, key, pc.found.value);
        AdoptOwned(s, key, c, value, o);
        var m := s.(caches := s.caches[key := c], cells := s.cells[c := value]);
        hide Owned, Names, Canonical;
        RevokeOwned(m, pc.replica, pc.token, o);
        PlacedOwned(Revoked(m, pc.replica, pc.token), thread, gone, o);
        PlacedOwned(m, thread, gone, o);
        PlacedOwned(m, thread, Merged(pc.replica, pc.token, pc.late, c), o);
      }
    }
  }

  lemma ForgetOwned(s: State, key: (Replica, string), o: map<string, string>)
    requires Owned(s, o)
    ensures Owned(s.(caches := s.caches - {key}), o)
  {
  }

  lemma LookUpOwned(s: State, thread: Thread, active: bool, o: map<string, string>)
    requires Owned(s, o)
    ensures Owned(LookUpStep(s, thread, active), o)
  {
    assert PlaceOwned(s, o, PcOf(s, thread));
  }

  lemma AnswerOwned(s: State, thread: Thread, now: int, ttl: int, interval: int, o: map<string, string>)
    requires Owned(s, o)
    ensures Owned(AnswerStep(s, thread, now, ttl, interval), o)
  {
    assert PlaceOwned(s, o, PcOf(s, thread));
    assert UsersStay(s, AnswerStep(s, thread, now, ttl, interval), o, o);
  }

  lemma BeginOwned(s: State, thread: Thread, replica: Replica, token: string, o: map<string, string>)
    requires Owned(s, o)
    ensures Owned(BeginStep(s, thread, replica, token), o)
  {
  }

  lemma IssueOwned(s: State, a: Action, o: map<string, string>)
    requires Owned(s, o) && a.Issue? && a.token !in s.issued && a.cell !in s.cells
    ensures Owned(IssueStep(s, a), o[a.token := a.user])
  {
    assert UsersStay(s, IssueStep(s, a), o, o[a.token := a.user]);
  }

  lemma {:induction false} AlwaysOwned(h: seq<Action>)
    ensures Owned(After(h), Owners(h))
  {
    if h != [] {
      var s, a, o := After(h[..|h| - 1]), h[|h| - 1], Owners(h[..|h| - 1]);
      AlwaysOwned(h[..|h| - 1]);
      hide After, Owned, MergeStep, LookUpStep, AnswerStep, BeginStep;
      match a {
        case Issue(_, _, _, _, _, _) => if a.token !in s.issued && a.cell !in s.cells { IssueOwned(s, a, o); }
        case Revoke(replica, token) => RevokeOwned(s, replica, token, o);
        case Begin(thread, replica, token) => BeginOwned(s, thread, replica, token, o);
        case Merge(thread, now, cell) => MergeOwned(s, thread, now, cell, o);
        case LookUp(thread, active) => LookUpOwned(s, thread, active, o);
        case Answer(thread, now, ttl, interval) => AnswerOwned(s, thread, now, ttl, interval, o);
      }
    }
  }

  lemma RevokeOwned(s: State, replica: Replica, token: string, o: map<string, string>)
    requires Owned(s, o)
    ensures Owned(Revoked(s, replica, token), o)
  {
  }

  /** Whoever a resolve answers is the user its token was issued to, whatever else happened. */
  lemma {:induction false} AnswersTheOwner(h: seq<Action>, thread: Thread)
    requires PcOf(After(h), thread).Answered? && PcOf(After(h), thread).user.Some?
    ensures var pc := PcOf(After(h), thread); pc.token in Owners(h) && pc.user == Some(Owners(h)[pc.token])
  {
    AlwaysOwned(h);
    assert PlaceOwned(After(h), Owners(h), PcOf(After(h), thread)) by { hide After, Owners; }
    hide After, Owners, Owned;
  }

  /** A call renews at most what it answers: due, the row and the dictionary now last for `ttl` from the answer's clock. */
  lemma RenewsWhatItAnswers(s: State, thread: Thread, now: int, ttl: int, interval: int)
    requires PcOf(s, thread).Known? && PcOf(s, thread).cell in s.cells
    ensures var pc, t := PcOf(s, thread), AnswerStep(s, thread, now, ttl, interval);
            var session := s.cells[pc.cell];
            if PcOf(t, thread).Answered? && PcOf(t, thread).user.Some? && session.expires - ttl + interval <= now
            then t.rows == s.rows[pc.token := Record(session.user, now + ttl)] && t.cells[pc.cell] == Record(session.user, now + ttl)
            else t.rows == s.rows
  {
  }

  // ---- a logout in the middle of a resolve ----

  lemma StepLoaded(s: State, a: Action, thread: Thread)
    requires PcOf(Step(s, a), thread).Loaded? && !Begins(a, thread)
    ensures PcOf(s, thread) == PcOf(Step(s, a), thread)
  {
  }

  /** A resolve that is still loaded was so ever since it began. */
  lemma {:induction false} LoadedSince(h: seq<Action>, i: nat, m: nat, thread: Thread)
    requires i <= m <= |h| && PcOf(After(h[..m]), thread).Loaded?
    requires forall j | i <= j < m :: !Begins(h[j], thread)
    ensures PcOf(After(h[..i]), thread) == PcOf(After(h[..m]), thread)
    decreases m
  {
    hide Step;
    if i < m {
      AfterNext(h, m - 1);
      StepLoaded(After(h[..m - 1]), h[m - 1], thread);
      LoadedSince(h, i, m - 1, thread);
    }
  }

  lemma {:induction false} IssuedStays(h: seq<Action>, i: nat, j: nat, token: string)
    requires i <= j <= |h| && token in After(h[..i]).issued
    ensures token in After(h[..j]).issued
    decreases j
  {
    hide Step;
    if i < j {
      IssuedStays(h, i, j - 1, token);
      AfterNext(h, j - 1);
      StepGrows(After(h[..j - 1]), h[j - 1]);
    }
  }

  lemma RevokedRowGoes(h: seq<Action>, i: nat, n: nat, replica: Replica, token: string)
    requires i < n <= |h| && h[i] == Revoke(replica, token) && token in After(h[..i]).issued
    ensures token !in After(h[..n]).rows
    ensures (replica, token) !in After(h[..i + 1]).caches
  {
    AfterNext(h, i);
    assert h[..n][..i + 1] == h[..i + 1];
    RevokedStays(h[..n], i + 1);
    Always(h[..n]);
  }

  /** The resolve's token was issued before any logout it sees. */
  lemma {:induction false} IssuedAt(h: seq<Action>, i: nat, m: nat, n: nat, thread: Thread)
    requires Resolves(h, m, n, thread) && i < n && i != m
    requires forall j | i <= j < m :: !Begins(h[j], thread)
    ensures PcOf(After(h[..m + 1]), thread).token in After(h[..i]).issued
    ensures i < m ==> PcOf(After(h[..i]), thread).Loaded?
  {
    AfterNext(h, m);
    MergeHolds(After(h[..m]), h[m], thread);
    Always(h[..m]);
    hide Step, After;
    if i < m {
      LoadedSince(h, i, m, thread);
      Always(h[..i]);
    } else {
      IssuedStays(h, m, i, PcOf(After(h[..m]), thread).token);
    }
  }

  /**
   A logout during a resolve, on any replica. The row is gone, so the user is answered exactly if the resolve's own
   replica remembers the session and no renewal is due. A logout on that replica is overtaken only while the resolve
   is still loaded: once it has merged, it answers None.
   */
  lemma {:induction false} LogoutDuringResolve(h: seq<Action>, i: nat, m: nat, n: nat, thread: Thread, replica: Replica)
    requires Resolves(h, m, n, thread) && i < n && i != m
    requires forall j | i <= j < m :: !Begins(h[j], thread)
    requires h[i] == Revoke(replica, PcOf(After(h[..m + 1]), thread).token)
    ensures var pc, s, a := PcOf(After(h[..m + 1]), thread), After(h[..n]), h[n];
            && pc.cell in s.cells
            && PcOf(After(h[..n + 1]), thread).Answered?
            && (PcOf(After(h[..n + 1]), thread).user.Some? <==>
                  && Remembered(h, m, n, KeyOf(pc)) && a.now - (s.cells[pc.cell].expires - a.ttl) < a.interval)
            && (replica == pc.replica && PcOf(After(h[..n + 1]), thread).user.Some?
                ==> i < m && PcOf(After(h[..i]), thread).Loaded?)
  {
    hide After, Step;
    AnsweredExactly(h, m, n, thread);
    IssuedAt(h, i, m, n, thread);
    RevokedRowGoes(h, i, n, replica, PcOf(After(h[..m + 1]), thread).token);
  }

  /** The steps of `LogoutOvertaken`, one by one. */
  lemma Overtaking(s1: State, s2: State, s3: State, s4: State, s5: State, s6: State)
    requires s1 == Step(Initial, Issue(0, "t", "u", 100, 1, {})) && s2 == Step(s1, Begin(0, 0, "t"))
    requires s3 == Step(s2, Revoke(0, "t")) && s4 == Step(s3, Merge(0, 10, 2))
    requires s5 == Step(s4, LookUp(0, true)) && s6 == Step(s5, Answer(0, 10, 100, 50))
    ensures "t" !in s3.rows && PcOf(s6, 0) == Answered("t", false, Some("u"))
  {
    assert "t" in s1.rows && s1.rows["t"] == Record("u", 100) && "t" !in s1.revoked;
    assert PcOf(s2, 0) == Loaded(0, "t", false, Some(Record("u", 100)));
    assert (0, "t") !in s3.caches && PcOf(s3, 0) == PcOf(s2, 0);
    assert PcOf(s4, 0) == Merged(0, "t", false, 2);
    assert s4.cells[2] == Record("u", 100) && s4.caches[(0, "t")] == 2;
  }

  /** So a logout between the store read and the first lock section does not stop a resolve on the same replica. */
  lemma LogoutOvertaken()
    ensures exists history: seq<Action>, k: nat ::
              && k < |history| && history[k] == Revoke(0, "t") && "t" !in After(history[..k + 1]).rows
              && PcOf(After(history), 0) == Answered("t", false, Some("u"))
  {
    var h := [Issue(0, "t", "u", 100, 1, {}), Begin(0, 0, "t"), Revoke(0, "t"), Merge(0, 10, 2), LookUp(0, true), Answer(0, 10, 100, 50)];
    assert h[..0] == [] && h[..6] == h && After([]) == Initial by { hide Step; }
    hide After, Step;
    AfterNext(h, 0);
    AfterNext(h, 1);
    AfterNext(h, 2);
    AfterNext(h, 3);
    AfterNext(h, 4);
    AfterNext(h, 5);
    Overtaking(After(h[..1]), After(h[..2]), After(h[..3]), After(h[..4]), After(h[..5]), After(h[..6]));
    assert h[2] == Revoke(0, "t") && "t" !in After(h[..2 + 1]).rows;
  }
}
