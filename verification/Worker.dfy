/** The worker's side of the queue: turning a handler's outcome into one fenced write. */
module Worker {
  import opened Basics
  import opened WorkerQueue

  datatype HandlerResult =
    | Succeeded(resultRef: string)
    | Failed(errorCode: string)
    | RetryLater(errorCode: string, backoff: int)
    | WaitingOn(upstreamTaskId: string)
    | Reconciling
    | Cancelled

  /** Retry schedule in milliseconds. */
  const RETRY_BACKOFF: seq<int> := [5000, 30000, 120000]

  function BackoffForAttempt(attempt: int, jitter: int): (ms: int)
    ensures ms == (if attempt <= 1 then 5000 else if attempt == 2 then 30000 else 120000)
                  + if jitter > 0 then jitter else 0
  {
    var last := if attempt - 1 < |RETRY_BACKOFF| - 1 then attempt - 1 else |RETRY_BACKOFF| - 1;
    RETRY_BACKOFF[if last < 0 then 0 else last] + if jitter > 0 then jitter else 0
  }

  /** `_write`: the queue write for a handler result; an exhausted retry becomes a failure. */
  function WriteOf(c: ClaimedTask, r: HandlerResult, maxAttempts: int, jitter: int): Write {
    match r
    case Succeeded(ref) => Succeed(ref)
    case Failed(code) => Fail(if code == "" then "handler_failed" else code)
    case Cancelled => MarkCancelled
    case WaitingOn(up) => WaitExternal(up)
    case Reconciling => Reconcile
    case RetryLater(code, backoff) =>
      if c.attempt >= maxAttempts then Fail("retries_exhausted")
      else Retry(if backoff != 0 then backoff else BackoffForAttempt(c.attempt, jitter), code)
  }

  /** What an accepted handler result leaves in the row; a retry without a backoff of its own follows the schedule. */
  lemma StoredResult(t: Table, c: ClaimedTask, r: HandlerResult, maxAttempts: int, jitter: int, now: int)
    requires 0 <= jitter && Accepts(t, c.taskId, c.owner, c.fence, WriteOf(c, r, maxAttempts, jitter))
    ensures var t' := AfterWrite(t, c.taskId, c.owner, c.fence, WriteOf(c, r, maxAttempts, jitter), now);
            && c.taskId in t'
            && var row := t'[c.taskId];
            match r
            case Succeeded(ref) => row.status == WorkerQueue.Succeeded && row.resultRef == ref && row.errorCode == ""
            case Failed(code) => row.status == WorkerQueue.Failed && row.errorCode == if code == "" then "handler_failed" else code
            case Cancelled => row.status == WorkerQueue.Cancelled
            case WaitingOn(up) => row.status == WaitingExternal && row.upstream == up && row.owner == c.owner
            case Reconciling => row.status == WorkerQueue.Reconciling && row.owner == c.owner
            case RetryLater(code, backoff) =>
              if c.attempt >= maxAttempts then row.status == WorkerQueue.Failed && row.errorCode == "retries_exhausted"
              else
                && row.status == RetryWait && row.owner == "" && row.leaseUntil == None && row.errorCode == code
                && row.availableAt == now + if backoff != 0 then backoff
                                            else jitter + if c.attempt <= 1 then 5000 else if c.attempt == 2 then 30000 else 120000
  {
  }

  class WorkerStats {
    var claimed: nat
    var succeeded: nat
    var failed: nat
    var retried: nat
    var cancelled: nat
    var reconciling: nat
    var waitingExternal: nat

    constructor ()
      ensures claimed == Written() == 0
    {
      claimed, succeeded, failed, retried := 0, 0, 0, 0;
      cancelled, reconciling, waitingExternal := 0, 0, 0;
    }

    /** Every counted write, whatever its kind. */
    function Written(): nat
      reads this
    {
      succeeded + failed + retried + cancelled + reconciling + waitingExternal
    }
  }

  method WriteResult(tasks: WorkerTasks, stats: WorkerStats, c: ClaimedTask, r: HandlerResult,
                     maxAttempts: int, jitter: int, now: int)
    modifies tasks, stats
    ensures tasks.rows == AfterWrite(old(tasks.rows), c.taskId, c.owner, c.fence, WriteOf(c, r, maxAttempts, jitter), now)
    ensures stats.claimed == old(stats.claimed)
    ensures var w := WriteOf(c, r, maxAttempts, jitter);
            var hit := if Accepts(old(tasks.rows), c.taskId, c.owner, c.fence, w) then 1 else 0;
            && stats.Written() == old(stats.Written()) + hit
            && stats.retried == old(stats.retried) + (if w.Retry? then hit else 0)
            && stats.failed == old(stats.failed) + (if w.Fail? then hit else 0)
            && stats.succeeded == old(stats.succeeded) + (if w.Succeed? then hit else 0)
            && stats.cancelled == old(stats.cancelled) + (if w.MarkCancelled? then hit else 0)
            && stats.reconciling == old(stats.reconciling) + (if w.Reconcile? then hit else 0)
  {
    var ok;
    match r {
      case Succeeded(ref) =>
        ok := tasks.Transition(c.taskId, c.owner, c.fence, Succeed(ref), now);
        if ok { stats.succeeded := stats.succeeded + 1; }
      case Failed(code) =>
        ok := tasks.Transition(c.taskId, c.owner, c.fence, Fail(if code == "" then "handler_failed" else code), now);
        if ok { stats.failed := stats.failed + 1; }
      case Cancelled =>
        ok := tasks.Transition(c.taskId, c.owner, c.fence, MarkCancelled, now);
        if ok { stats.cancelled := stats.cancelled + 1; }
      case WaitingOn(up) =>
        ok := tasks.Transition(c.taskId, c.owner, c.fence, WaitExternal(up), now);
        if ok { stats.waitingExternal := stats.waitingExternal + 1; }
      case Reconciling =>
        ok := tasks.Transition(c.taskId, c.owner, c.fence, Reconcile, now);
        if ok { stats.reconciling := stats.reconciling + 1; }
      case RetryLater(code, backoff) =>
        if c.attempt >= maxAttempts {
          ok := tasks.Transition(c.taskId, c.owner, c.fence, Fail("retries_exhausted"), now);
          if ok { stats.failed := stats.failed + 1; }
        } else {
          var wait := if backoff != 0 then backoff else BackoffForAttempt(c.attempt, jitter);
          ok := tasks.Transition(c.taskId, c.owner, c.fence, Retry(wait, code), now);
          if ok { stats.retried := stats.retried + 1; }
        }
    }
  }
}
