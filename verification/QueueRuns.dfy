/**
 Whole histories of one tenant's queue: any number of workers claim, stall, heartbeat and
 write late, in any order and with any clock readings, while users cancel and requeue.
 */
module QueueRuns {
  import opened Basics
  import opened WorkerQueue
  import opened Worker

  datatype Event =
    | Enqueue(id: string, kind: string, delay: int)
    | Claim(claimer: string, lease: int, kinds: Option<set<string>>, locked: set<string>, pick: Option<string>)
    | Heartbeat(id: string, owner: string, fence: nat, lease: int)
    | Report(ticket: ClaimedTask, result: HandlerResult, maxAttempts: int, jitter: int)
    | NoteUpstream(holder: ClaimedTask, upstream: string)
    | RequestCancel(id: string)
    | Requeue(id: string)

  /** An event and the database clock it saw. */
  datatype Timed = At(now: int, event: Event)

  type History = seq<Timed>

  function Step(t: Table, x: Timed): Table {
    match x.event
    case Enqueue(id, kind, delay) => if id in t then t else t[id := NewRow(kind, delay, x.now)]
    case Claim(owner, lease, kinds, locked, pick) =>
      if pick.Some? && IsPick(t, x.now, kinds, locked, pick)
      then t[pick.value := Claimed(t[pick.value], owner, lease, x.now)] else t
    case Heartbeat(id, owner, fence, lease) => AfterBeat(t, id, owner, fence, lease, x.now)
    case Report(c, r, maxAttempts, jitter) =>
      AfterWrite(t, c.taskId, c.owner, c.fence, WriteOf(c, r, maxAttempts, jitter), x.now)
    case NoteUpstream(c, upstream) => AfterUpstream(t, c, upstream, x.now)
    case RequestCancel(id) => AfterCancelRequest(t, id)
    case Requeue(id) => AfterRequeue(t, id, x.now)
  }

  /** The table after a history that starts from the empty queue. */
  function After(h: History): Table {
    if h == [] then map[] else Step(After(h[..|h| - 1]), h[|h| - 1])
  }

  /** The event claims `id`. */
  predicate Claims(t: Table, x: Timed, id: string) {
    x.event.Claim? && x.event.pick == Some(id) && IsPick(t, x.now, x.event.kinds, x.event.locked, x.event.pick)
  }

  /** The event claims `id` back from an attempt whose lease ran out. */
  predicate Reclaims(t: Table, x: Timed, id: string) {
    Claims(t, x, id) && id in t && Active(t[id].status)
  }

  /** The write a report asks for. */
  function WriteAsked(e: Event): Write
    requires e.Report?
  {
    WriteOf(e.ticket, e.result, e.maxAttempts, e.jitter)
  }

  /** The event is a result write for `id` at `fence`, and the queue accepts it. */
  predicate Writes(t: Table, x: Timed, id: string, fence: nat) {
    var e := x.event;
    && e.Report? && e.ticket.taskId == id && e.ticket.fence == fence
    && Accepts(t, id, e.ticket.owner, fence, WriteAsked(e))
  }

  /** ... and it ends the attempt rather than parking it. */
  predicate Finalizes(t: Table, x: Timed, id: string, fence: nat) {
    Writes(t, x, id, fence) && !WriteAsked(x.event).WaitExternal? && !WriteAsked(x.event).Reconcile?
  }

  predicate Retries(t: Table, x: Timed, id: string) {
    x.event.Report? && Writes(t, x, id, x.event.ticket.fence) && WriteAsked(x.event).Retry?
  }

  predicate Requeues(t: Table, x: Timed, id: string) {
    x.event == Requeue(id) && id in t && t[id].status == WorkerQueue.Failed
  }

  lemma AfterNext(h: History, i: nat)
    requires i < |h|
    ensures After(h[..i + 1]) == Step(After(h[..i]), h[i])
  {
    assert h[..i + 1][..i] == h[..i];
  }

  /** What one event can do to one row: `a` before it, `b` after it. */
  predicate RowMoves(a: Row, b: Row, e: Event, id: string) {
    && b.fence >= a.fence
    && b.fence - a.fence == b.attempt - a.attempt
    && (b.fence == a.fence && !Active(a.status) ==> !Active(b.status))
    && (a.status == WorkerQueue.Succeeded || a.status == WorkerQueue.Cancelled ==> b == a)
    && (a.status == WorkerQueue.Failed && b != a ==> e == Requeue(id))
  }

  lemma StepMovesRow(t: Table, x: Timed, id: string)
    requires id in t
    ensures id in Step(t, x) && RowMoves(t[id], Step(t, x)[id], x.event, id)
  {
  }

  lemma NextRow(h: History, i: nat, id: string)
    requires i < |h| && id in After(h[..i])
    ensures id in After(h[..i + 1]) && RowMoves(After(h[..i])[id], After(h[..i + 1])[id], h[i].event, id)
  {
    AfterNext(h, i);
    StepMovesRow(After(h[..i]), h[i], id);
  }

  lemma {:induction false} RowsPersist(h: History, i: nat, j: nat, id: string)
    requires i <= j <= |h| && id in After(h[..i])
    ensures id in After(h[..j])
    ensures After(h[..j])[id].fence >= After(h[..i])[id].fence
    decreases j
  {
    if i < j {
      RowsPersist(h, i, j - 1, id);
      NextRow(h, j - 1, id);
    }
  }

  /** In every reachable state each row's attempt number is its fence. */
  lemma {:induction false} AttemptIsFence(h: History)
    ensures forall id | id in After(h) :: After(h)[id].attempt == After(h)[id].fence
  {
    if h != [] {
      var t, x := After(h[..|h| - 1]), h[|h| - 1];
      AttemptIsFence(h[..|h| - 1]);
      forall id | id in After(h) ensures After(h)[id].attempt == After(h)[id].fence {
        if id in t { StepMovesRow(t, x, id); }
      }
    }
  }

  /**
   Once a row's fence has passed `fence`, an attempt at that fence can do nothing more: its
   result writes and heartbeats are refused and `require_current` stops its domain commits.
   */
  lemma FencedOut(h: History, i: nat, j: nat, id: string, fence: nat)
    requires i <= j <= |h| && id in After(h[..i]) && After(h[..i])[id].fence > fence
    ensures j < |h| ==> !Writes(After(h[..j]), h[j], id, fence)
    ensures forall owner, now :: !Beats(After(h[..j]), id, owner, fence, now)
    ensures forall c: ClaimedTask, allow, now | c.taskId == id && c.fence == fence ::
              !Current(After(h[..j]), c, allow, now)
  {
    RowsPersist(h, i, j, id);
  }

  /** A claim is what raises the fence: afterwards every earlier fence of the row is fenced out. */
  lemma ClaimFencesOut(h: History, i: nat, j: nat, id: string, fence: nat)
    requires i < j <= |h| && Claims(After(h[..i]), h[i], id) && id in After(h[..i])
    requires fence <= After(h[..i])[id].fence
    ensures id in After(h[..i + 1]) && After(h[..i + 1])[id].fence == After(h[..i])[id].fence + 1
    ensures j < |h| ==> !Writes(After(h[..j]), h[j], id, fence)
    ensures forall c: ClaimedTask, allow, now | c.taskId == id && c.fence == fence ::
              !Current(After(h[..j]), c, allow, now)
  {
    AfterNext(h, i);
    FencedOut(h, i + 1, j, id, fence);
  }

  /** After a row has left the active states at `fence`, it is never active at that fence again. */
  lemma {:induction false} Settled(h: History, i: nat, j: nat, id: string, fence: nat)
    requires i <= j <= |h| && id in After(h[..i])
    requires After(h[..i])[id].fence == fence && !Active(After(h[..i])[id].status)
    ensures id in After(h[..j]) && After(h[..j])[id].fence >= fence
    ensures After(h[..j])[id].fence == fence ==> !Active(After(h[..j])[id].status)
    decreases j
  {
    if i < j {
      Settled(h, i, j - 1, id, fence);
      NextRow(h, j - 1, id);
    }
  }

  /** For each fence at most one finalising write is ever accepted, and nothing after it. */
  lemma OneFinalWrite(h: History, i: nat, j: nat, id: string, fence: nat)
    requires i < j < |h| && Finalizes(After(h[..i]), h[i], id, fence)
    ensures !Writes(After(h[..j]), h[j], id, fence)
  {
    AfterNext(h, i);
    Settled(h, i + 1, j, id, fence);
  }

  lemma ClaimRaises(t: Table, x: Timed, id: string)
    requires Claims(t, x, id) && id in t
    ensures id in Step(t, x) && Step(t, x)[id].fence == t[id].fence + 1
  {
  }

  lemma FinalizeRetires(t: Table, x: Timed, id: string, fence: nat)
    requires Finalizes(t, x, id, fence)
    ensures id in Step(t, x) && Step(t, x)[id].fence == fence && !Active(Step(t, x)[id].status)
  {
  }

  /** A row whose fence is still `fence` has not been claimed since it had that fence. */
  lemma NoClaimBetween(h: History, i: nat, j: nat, n: nat, id: string)
    requires i <= j < n <= |h| && id in After(h[..i]) && id in After(h[..n])
    requires After(h[..n])[id].fence == After(h[..i])[id].fence
    ensures !Claims(After(h[..j]), h[j], id)
  {
    hide Step, After, Claims;
    RowsPersist(h, i, j, id);
    AfterNext(h, j);
    if Claims(After(h[..j]), h[j], id) {
      ClaimRaises(After(h[..j]), h[j], id);
      RowsPersist(h, j + 1, n, id);
    }
  }

  /** A row that is active at `fence` has accepted no finalising write at that fence. */
  lemma NoFinalWriteBefore(h: History, j: nat, n: nat, id: string, fence: nat)
    requires j < n <= |h| && id in After(h[..n])
    requires After(h[..n])[id].fence == fence && Active(After(h[..n])[id].status)
    ensures !Finalizes(After(h[..j]), h[j], id, fence)
  {
    hide Step, After, Finalizes;
    AfterNext(h, j);
    if Finalizes(After(h[..j]), h[j], id, fence) {
      FinalizeRetires(After(h[..j]), h[j], id, fence);
      Settled(h, j + 1, n, id, fence);
    }
  }

  /**
   What `require_current` tells its caller: since the claim that handed out the ticket nobody has claimed the task,
   and no finalising write of this attempt has been accepted, so a domain commit made now is made by the only live
   attempt.
   */
  lemma CurrentIsLatest(h: History, k: nat, n: nat, c: ClaimedTask, allow: bool, now: int)
    requires k < n <= |h| && Claims(After(h[..k]), h[k], c.taskId) && c.taskId in After(h[..k + 1])
    requires c == ClaimTicket(c.taskId, After(h[..k + 1])[c.taskId])
    requires Current(After(h[..n]), c, allow, now)
    ensures forall j | k < j < n :: !Claims(After(h[..j]), h[j], c.taskId)
    ensures forall j | k < j < n :: !Finalizes(After(h[..j]), h[j], c.taskId, c.fence)
  {
    hide Step, After, Claims, Finalizes;
    forall j | k < j < n
      ensures !Claims(After(h[..j]), h[j], c.taskId) && !Finalizes(After(h[..j]), h[j], c.taskId, c.fence)
    {
      NoClaimBetween(h, k + 1, j, n, c.taskId);
      NoFinalWriteBefore(h, j, n, c.taskId, c.fence);
    }
  }

  // ---- no claim comes too early ----

  /** Which rows a claim may take, by their own columns: those that wait, and those whose attempt ran out of time. */
  lemma ClaimTakes(t: Table, x: Timed, id: string)
    requires Claims(t, x, id) && id in t
    ensures t[id].availableAt <= x.now
    ensures t[id].status in {WorkerQueue.Queued, WorkerQueue.RetryWait}
            || (t[id].leaseUntil.Some? && t[id].leaseUntil.value < x.now)
  {
  }

  /** While an attempt is current no claim, of any worker, takes its task away. */
  lemma CurrentIsNeverClaimed(h: History, n: nat, c: ClaimedTask, allow: bool)
    requires n < |h| && Current(After(h[..n]), c, allow, h[n].now)
    ensures !Claims(After(h[..n]), h[n], c.taskId)
    ensures forall kinds, locked :: c.taskId !in Claimable(After(h[..n]), h[n].now, kinds, locked)
  {
    hide After;
  }

  /** From its claim on a ticket is current until its lease runs out; a cancel that came before lets it only clean up. */
  lemma FreshTicketIsCurrent(h: History, k: nat, id: string, allow: bool, now: int)
    requires k < |h| && Claims(After(h[..k]), h[k], id) && id in After(h[..k + 1])
    ensures var c := ClaimTicket(id, After(h[..k + 1])[id]);
            Current(After(h[..k + 1]), c, allow, now) <==> now < h[k].now + h[k].event.lease && (allow || !c.cancelRequested)
  {
    AfterNext(h, k);
    hide After;
  }

  /** An active row can be kept alive by its owner before its deadline and claimed by anybody after it; never both. */
  lemma DeadlineDecides(t: Table, id: string, now: int)
    requires id in t && Active(t[id].status) && t[id].leaseUntil.Some? && t[id].availableAt <= now
    ensures Beats(t, id, t[id].owner, t[id].fence, now) <==> now < t[id].leaseUntil.value
    ensures id in Claimable(t, now, None, {}) <==> t[id].leaseUntil.value < now
  {
  }

  /** The row has not been claimed since it was made to wait until `due`. */
  predicate WaitsUntil(t: Table, id: string, due: int) {
    id in t && (Waiting(t[id].status) ==> t[id].availableAt == due) && (Waiting(t[id].status) || t[id].status == WorkerQueue.Cancelled)
  }

  lemma WaitStep(t: Table, x: Timed, id: string, due: int)
    requires WaitsUntil(t, id, due)
    ensures Claims(t, x, id) ==> due <= x.now
    ensures Claims(t, x, id) || WaitsUntil(Step(t, x), id, due)
  {
  }

  lemma {:induction false} WaitsOn(h: History, i: nat, n: nat, id: string, due: int)
    requires i <= n <= |h| && WaitsUntil(After(h[..i]), id, due)
    requires forall j | i <= j < n :: !Claims(After(h[..j]), h[j], id)
    ensures WaitsUntil(After(h[..n]), id, due)
    decreases n
  {
    hide Step, WaitsUntil, Claims;
    if i < n {
      WaitsOn(h, i, n - 1, id, due);
      AfterNext(h, n - 1);
      WaitStep(After(h[..n - 1]), h[n - 1], id, due);
    }
  }

  /** A task put off by an accepted retry is not claimed again before its backoff is over. */
  lemma BackoffIsKept(h: History, i: nat, n: nat, id: string)
    requires i < n < |h| && Retries(After(h[..i]), h[i], id) && Claims(After(h[..n]), h[n], id)
    ensures h[i].now + WriteAsked(h[i].event).backoff <= h[n].now || exists j | i < j < n :: Claims(After(h[..j]), h[j], id)
  {
    var due := h[i].now + WriteAsked(h[i].event).backoff;
    AfterNext(h, i);
    assert WaitsUntil(After(h[..i + 1]), id, due);
    hide Step, After, Claims, Retries, WaitsUntil;
    if forall j | i < j < n :: !Claims(After(h[..j]), h[j], id) {
      WaitsOn(h, i + 1, n, id, due);
      WaitStep(After(h[..n]), h[n], id, due);
    }
  }

  /** A new task is not claimed before its delay is over. */
  lemma DelayIsKept(h: History, i: nat, n: nat, id: string)
    requires i < n < |h| && id !in After(h[..i]) && h[i].event.Enqueue? && h[i].event.id == id
    requires Claims(After(h[..n]), h[n], id)
    ensures h[i].now + h[i].event.delay <= h[n].now || exists j | i < j < n :: Claims(After(h[..j]), h[j], id)
  {
    var due := h[i].now + h[i].event.delay;
    AfterNext(h, i);
    assert WaitsUntil(After(h[..i + 1]), id, due);
    hide Step, After, Claims, WaitsUntil;
    if forall j | i < j < n :: !Claims(After(h[..j]), h[j], id) {
      WaitsOn(h, i + 1, n, id, due);
      WaitStep(After(h[..n]), h[n], id, due);
    }
  }

  /** `succeeded` and `cancelled` rows never change again. */
  lemma {:induction false} FinishedForGood(h: History, i: nat, j: nat, id: string)
    requires i <= j <= |h| && id in After(h[..i])
    requires After(h[..i])[id].status in {WorkerQueue.Succeeded, WorkerQueue.Cancelled}
    ensures id in After(h[..j]) && After(h[..j])[id] == After(h[..i])[id]
    decreases j
  {
    if i < j {
      FinishedForGood(h, i, j - 1, id);
      NextRow(h, j - 1, id);
    }
  }

  /** A failed row changes only through `requeue`. */
  lemma {:induction false} FailedUntilRequeued(h: History, i: nat, j: nat, id: string)
    requires i <= j <= |h| && id in After(h[..i]) && After(h[..i])[id].status == WorkerQueue.Failed
    requires forall k | i <= k < j :: h[k].event != Requeue(id)
    ensures id in After(h[..j]) && After(h[..j])[id] == After(h[..i])[id]
    decreases j
  {
    if i < j {
      FailedUntilRequeued(h, i, j - 1, id);
      NextRow(h, j - 1, id);
    }
  }

  // ---- attempt accounting ----

  /** A ticket presented by event `i` was handed out by an earlier claim. */
  predicate Issued(h: History, i: nat, c: ClaimedTask)
    requires i <= |h|
  {
    exists k | 0 <= k < i ::
      && Claims(After(h[..k]), h[k], c.taskId) && c.taskId in After(h[..k + 1])
      && c == ClaimTicket(c.taskId, After(h[..k + 1])[c.taskId])
  }

  /** Every worker reports on tickets it was given and uses the same attempt limit. */
  predicate Genuine(h: History, maxAttempts: int) {
    forall i | 0 <= i < |h| && h[i].event.Report? ::
      Issued(h, i, h[i].event.ticket) && h[i].event.maxAttempts == maxAttempts
  }

  function Count(b: bool): nat {
    if b then 1 else 0
  }

  /** Accepted retries of `id` among the first `n` events. */
  function RetryCount(h: History, n: nat, id: string): nat
    requires n <= |h|
  {
    if n == 0 then 0 else RetryCount(h, n - 1, id) + Count(Retries(After(h[..n - 1]), h[n - 1], id))
  }

  /** Claims of `id` that took it over from an expired attempt. */
  function ReclaimCount(h: History, n: nat, id: string): nat
    requires n <= |h|
  {
    if n == 0 then 0 else ReclaimCount(h, n - 1, id) + Count(Reclaims(After(h[..n - 1]), h[n - 1], id))
  }

  /** Requeues of `id` that found it failed. */
  function RequeueCount(h: History, n: nat, id: string): nat
    requires n <= |h|
  {
    if n == 0 then 0 else RequeueCount(h, n - 1, id) + Count(Requeues(After(h[..n - 1]), h[n - 1], id))
  }

  /** A genuine ticket carries its fence as its attempt number. */
  lemma TicketAttempt(h: History, i: nat, c: ClaimedTask)
    requires i <= |h| && Issued(h, i, c)
    ensures c.attempt == c.fence
  {
    var k :| 0 <= k < i && Claims(After(h[..k]), h[k], c.taskId) && c.taskId in After(h[..k + 1])
      && c == ClaimTicket(c.taskId, After(h[..k + 1])[c.taskId]);
    AttemptIsFence(h[..k + 1]);
  }

  /** The row is within its budget of `retries` out of `credit` granted attempts after the first. */
  predicate InBudget(r: Row, retries: nat, credit: nat) {
    && retries + Count(Active(r.status)) <= r.fence
    && r.fence + Count(Waiting(r.status)) <= 1 + credit
  }

  lemma BudgetStep(t: Table, x: Timed, id: string, retries: nat, credit: nat)
    requires id in t && InBudget(t[id], retries, credit)
    ensures id in Step(t, x)
    ensures var hit := Count(Retries(t, x, id));
            InBudget(Step(t, x)[id], retries + hit, credit + hit + Count(Reclaims(t, x, id)) + Count(Requeues(t, x, id)))
  {
    var r, r' := t[id], Step(t, x)[id];
    if Retries(t, x, id) {
      assert r'.status == WorkerQueue.RetryWait && r'.fence == r.fence;
    } else if Claims(t, x, id) {
      assert r'.status == WorkerQueue.Running && r'.fence == r.fence + 1;
    } else {
      assert r'.fence == r.fence;
      assert Requeues(t, x, id) || !Waiting(r'.status) || Waiting(r.status);
    }
  }

  lemma StepOnNewRow(t: Table, x: Timed, id: string)
    requires id !in t
    ensures !Retries(t, x, id) && !Reclaims(t, x, id) && !Requeues(t, x, id)
    ensures id in Step(t, x) ==> InBudget(Step(t, x)[id], 0, 0)
  {
  }

  /** Spent attempts and granted attempts of `id` after the first `n` events. */
  lemma {:induction false} Ledger(h: History, n: nat, id: string)
    requires n <= |h|
    ensures id !in After(h[..n]) ==> RetryCount(h, n, id) + ReclaimCount(h, n, id) + RequeueCount(h, n, id) == 0
    ensures id in After(h[..n]) ==>
              InBudget(After(h[..n])[id], RetryCount(h, n, id),
                       RetryCount(h, n, id) + ReclaimCount(h, n, id) + RequeueCount(h, n, id))
  {
    if n > 0 {
      var t, x := After(h[..n - 1]), h[n - 1];
      Ledger(h, n - 1, id);
      AfterNext(h, n - 1);
      if id in t {
        BudgetStep(t, x, id, RetryCount(h, n - 1, id),
                   RetryCount(h, n - 1, id) + ReclaimCount(h, n - 1, id) + RequeueCount(h, n - 1, id));
      } else {
        StepOnNewRow(t, x, id);
      }
    }
  }

  /** A retry is the `retries + 1`-st at most if the row is active at a fence below the limit. */
  lemma RetryHasRoom(t: Table, x: Timed, id: string, retries: nat, credit: nat)
    requires id in t && InBudget(t[id], retries, credit) && Retries(t, x, id)
    requires x.event.ticket.attempt == x.event.ticket.fence
    ensures retries + 1 <= x.event.maxAttempts - 1
  {
  }

  /** What `_write` sees: the ticket's attempt is its fence, and the limit is the shared one. */
  predicate HonestReport(e: Event, maxAttempts: int) {
    e.Report? ==> e.ticket.attempt == e.ticket.fence && e.maxAttempts == maxAttempts
  }

  lemma {:induction false} RetriesBounded(h: History, n: nat, id: string, maxAttempts: int)
    requires n <= |h| && 1 <= maxAttempts
    requires forall i | 0 <= i < |h| :: HonestReport(h[i].event, maxAttempts)
    ensures RetryCount(h, n, id) <= maxAttempts - 1
  {
    if n > 0 {
      RetriesBounded(h, n - 1, id, maxAttempts);
      Ledger(h, n - 1, id);
      var t, x := After(h[..n - 1]), h[n - 1];
      if Retries(t, x, id) {
        assert HonestReport(x.event, maxAttempts);
        RetryHasRoom(t, x, id, RetryCount(h, n - 1, id),
                     RetryCount(h, n - 1, id) + ReclaimCount(h, n - 1, id) + RequeueCount(h, n - 1, id));
      }
    }
  }

  /**
   Over a task's whole life at most `maxAttempts - 1` retries are accepted, and the number of
   attempts exceeds `maxAttempts` only by lease-expiry reclaims and operator requeues.
   */
  lemma {:induction false} AttemptsBounded(h: History, id: string, maxAttempts: int)
    requires Genuine(h, maxAttempts) && 1 <= maxAttempts && id in After(h)
    ensures RetryCount(h, |h|, id) <= maxAttempts - 1
    ensures After(h)[id].attempt <= maxAttempts + ReclaimCount(h, |h|, id) + RequeueCount(h, |h|, id)
  {
    assert h[..|h|] == h;
    Ledger(h, |h|, id);
    forall i | 0 <= i < |h| ensures HonestReport(h[i].event, maxAttempts) {
      if h[i].event.Report? { TicketAttempt(h, i, h[i].event.ticket); }
    }
    RetriesBounded(h, |h|, id, maxAttempts);
    AttemptIsFence(h);
  }
}
