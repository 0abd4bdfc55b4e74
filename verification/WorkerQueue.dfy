/**
 The `worker_tasks` table of one tenant and the operations of `WorkerTaskRepository`.

 Each repository call is one database transaction, so it is one atomic step on the
 table; `now` is the database clock of that transaction.
 */
module WorkerQueue {
  import opened Basics

  datatype Status =
    | Queued | Running | RetryWait | WaitingExternal | Reconciling
    | Succeeded | Failed | Cancelled

  datatype Row = Row(
    kind: string, createdAt: int, status: Status, attempt: nat, owner: string, fence: nat,
    leaseUntil: Option<int>, availableAt: int, cancelRequested: bool,
    upstream: string, resultRef: string, errorCode: string)

  type Table = map<string, Row>

  /** What a worker is handed for one attempt. */
  datatype ClaimedTask = ClaimedTask(
    taskId: string, kind: string, attempt: nat, fence: nat, cancelRequested: bool,
    upstream: string, owner: string)

  /** The fenced result writes; the arguments are what each one stores. */
  datatype Write =
    | Succeed(resultRef: string)
    | Fail(errorCode: string)
    | Retry(backoff: int, retryCode: string)
    | WaitExternal(upstreamTaskId: string)
    | Reconcile
    | MarkCancelled

  /** An attempt of the row is not over yet. */
  predicate Active(s: Status) {
    s == Running || s == Reconciling || s == WaitingExternal
  }

  predicate Terminal(s: Status) {
    s == Succeeded || s == Failed || s == Cancelled
  }

  predicate Waiting(s: Status) {
    s == Queued || s == RetryWait
  }

  function NewRow(kind: string, delay: int, now: int): Row {
    Row(kind, now, Queued, 0, "", 0, None, now + delay, false, "", "", "")
  }

  predicate Expired(r: Row, now: int) {
    Active(r.status) && r.leaseUntil.Some? && r.leaseUntil.value < now
  }

  predicate Ready(r: Row, now: int, kinds: Option<set<string>>) {
    && r.availableAt <= now
    && (Waiting(r.status) || Expired(r, now))
    && (kinds.None? || r.kind in kinds.value)
  }

  predicate Before(a: Row, b: Row) {
    a.availableAt < b.availableAt || (a.availableAt == b.availableAt && a.createdAt <= b.createdAt)
  }

  /** The rows a claim may look at: ready, and not locked by a transaction in progress. */
  function Claimable(t: Table, now: int, kinds: Option<set<string>>, locked: set<string>): set<string> {
    set id | id in t && id !in locked && Ready(t[id], now, kinds)
  }

  /** `pick` is a row the claim's ORDER BY ... LIMIT 1 can return. */
  predicate IsPick(t: Table, now: int, kinds: Option<set<string>>, locked: set<string>, pick: Option<string>) {
    var ids := Claimable(t, now, kinds, locked);
    if pick.None? then ids == {}
    else pick.value in ids && forall id | id in ids :: Before(t[pick.value], t[id])
  }

  function Claimed(r: Row, owner: string, lease: int, now: int): Row {
    r.(status := Running, owner := owner, attempt := r.attempt + 1, fence := r.fence + 1,
       leaseUntil := Some(now + lease))
  }

  function ClaimTicket(id: string, r: Row): ClaimedTask {
    ClaimedTask(id, r.kind, r.attempt, r.fence, r.cancelRequested, r.upstream, r.owner)
  }

  /** `require_current`: the attempt still holds its row and may commit domain state. */
  predicate Current(t: Table, c: ClaimedTask, allowCancel: bool, now: int) {
    && c.taskId in t
    && var r := t[c.taskId];
    && r.fence == c.fence && r.attempt == c.attempt && r.owner == c.owner
    && (r.status == Running || r.status == Reconciling)
    && r.leaseUntil.Some? && r.leaseUntil.value > now
    && (allowCancel || !r.cancelRequested)
  }

  predicate Beats(t: Table, id: string, owner: string, fence: nat, now: int) {
    && id in t && t[id].owner == owner && t[id].fence == fence && Active(t[id].status)
    && t[id].leaseUntil.Some? && t[id].leaseUntil.value > now
  }

  function AfterBeat(t: Table, id: string, owner: string, fence: nat, lease: int, now: int): Table {
    if Beats(t, id, owner, fence, now) then t[id := t[id].(leaseUntil := Some(now + lease))] else t
  }

  function FromStates(w: Write): set<Status> {
    match w
    case WaitExternal(_) => {Running}
    case Reconcile => {WaitingExternal, Running}
    case _ => {Running, Reconciling, WaitingExternal}
  }

  function Written(r: Row, w: Write, now: int): Row {
    match w
    case Succeed(ref) => r.(status := Succeeded, resultRef := ref, errorCode := "")
    case Fail(code) => r.(status := Failed, errorCode := code)
    case Retry(backoff, code) =>
      r.(status := RetryWait, owner := "", leaseUntil := None, errorCode := code, availableAt := now + backoff)
    case WaitExternal(up) => r.(status := WaitingExternal, upstream := up)
    case Reconcile => r.(status := Reconciling)
    case MarkCancelled => r.(status := Cancelled)
  }

  /** The guard of every result write: owner, fence and a state the write may leave. */
  predicate Accepts(t: Table, id: string, owner: string, fence: nat, w: Write) {
    id in t && t[id].owner == owner && t[id].fence == fence && t[id].status in FromStates(w)
  }

  function AfterWrite(t: Table, id: string, owner: string, fence: nat, w: Write, now: int): Table {
    if Accepts(t, id, owner, fence, w) then t[id := Written(t[id], w, now)] else t
  }

  /** A current attempt records its external task (`compile_stage` does so under its guard). */
  function AfterUpstream(t: Table, c: ClaimedTask, upstream: string, now: int): Table {
    if Current(t, c, true, now) then t[c.taskId := t[c.taskId].(upstream := upstream)] else t
  }

  function CancelAsked(r: Row): Row {
    r.(cancelRequested := true, status := if Waiting(r.status) then Cancelled else r.status)
  }

  function AfterCancelRequest(t: Table, id: string): Table {
    if id in t && !Terminal(t[id].status) then t[id := CancelAsked(t[id])] else t
  }

  function Requeued(r: Row, now: int): Row {
    r.(status := Queued, owner := "", leaseUntil := None, cancelRequested := false,
       errorCode := "", availableAt := now)
  }

  function AfterRequeue(t: Table, id: string, now: int): Table {
    if id in t && t[id].status == Failed then t[id := Requeued(t[id], now)] else t
  }

  /** A nonempty set of rows has a first one in claim order. */
  lemma {:induction false} FirstExists(t: Table, ids: set<string>)
    requires ids <= t.Keys && ids != {}
    ensures exists id :: id in ids && forall other | other in ids :: Before(t[id], t[other])
    decreases |ids|
  {
    var x :| x in ids;
    var rest := ids - {x};
    if rest == {} {
      assert ids == {x} + rest;
      assert x in ids && forall other | other in ids :: Before(t[x], t[other]);
    } else {
      FirstExists(t, rest);
      var m :| m in rest && forall other | other in rest :: Before(t[m], t[other]);
      var best := if Before(t[m], t[x]) then m else x;
      assert best in ids && forall other | other in ids :: Before(t[best], t[other]) by {
        forall other | other in ids ensures Before(t[best], t[other]) {
          assert other in rest || other == x;
        }
      }
    }
  }

  class WorkerTasks {
    var rows: Table

    constructor ()
      ensures rows == map[]
    {
      rows := map[];
    }

    /** A second insert of the same primary key is an error and changes nothing. */
    method Enqueue(id: string, kind: string, delay: int, now: int) returns (ok: bool)
      modifies this
      ensures ok <==> id !in old(rows)
      ensures rows == if ok then old(rows)[id := NewRow(kind, delay, now)] else old(rows)
      ensures ok ==> id in rows && rows[id] == Row(kind, now, Queued, 0, "", 0, None, now + delay, false, "", "", "")
    {
      if id in rows {
        return false;
      }
      rows := rows[id := NewRow(kind, delay, now)];
      return true;
    }

    /**
     The pick waits, or its attempt's deadline has passed, and it may start by now; of all such rows of the wanted
     kinds that nobody has locked it comes first by (`availableAt`, `createdAt`). No pick means that there is none.
     */
    method Claim(owner: string, lease: int, kinds: Option<set<string>>, locked: set<string>, now: int)
      returns (pick: Option<string>, ticket: Option<ClaimedTask>)
      modifies this
      ensures IsPick(old(rows), now, kinds, locked, pick)
      ensures pick.None? ==> ticket.None? && rows == old(rows)
      ensures pick.Some? ==>
                && pick.value in old(rows)
                && rows == old(rows)[pick.value := Claimed(old(rows)[pick.value], owner, lease, now)]
                && ticket == Some(ClaimTicket(pick.value, rows[pick.value]))
      ensures pick.Some? ==>
                && pick.value in old(rows)
                && var r := old(rows)[pick.value];
                && rows == old(rows)[pick.value := r.(status := Running, owner := owner, attempt := r.attempt + 1,
                             fence := r.fence + 1, leaseUntil := Some(now + lease))]
                && ticket == Some(ClaimedTask(pick.value, r.kind, r.attempt + 1, r.fence + 1, r.cancelRequested, r.upstream, owner))
      ensures pick.Some? ==>
                && pick.value in old(rows) && pick.value !in locked
                && var r := old(rows)[pick.value];
                && r.availableAt <= now && (kinds.Some? ==> r.kind in kinds.value)
                && (r.status in {Queued, RetryWait}
                    || (r.status in {Running, Reconciling, WaitingExternal} && r.leaseUntil.Some? && r.leaseUntil.value < now))
      ensures forall id | id in old(rows) && id !in locked ::
                var r := old(rows)[id];
                && r.availableAt <= now && (kinds.Some? ==> r.kind in kinds.value)
                && (r.status in {Queued, RetryWait}
                    || (r.status in {Running, Reconciling, WaitingExternal} && r.leaseUntil.Some? && r.leaseUntil.value < now))
                ==> && pick.Some? && pick.value in old(rows)
                    && var first := old(rows)[pick.value];
                    && first.availableAt <= r.availableAt
                    && (first.availableAt == r.availableAt ==> first.createdAt <= r.createdAt)
    {
      var ids := Claimable(rows, now, kinds, locked);
      assert forall id | id in rows && id !in locked && Ready(rows[id], now, kinds) :: id in ids;
      if ids == {} {
        return None, None;
      }
      FirstExists(rows, ids);
      var id :| id in ids && forall other | other in ids :: Before(rows[id], rows[other]);
      rows := rows[id := Claimed(rows[id], owner, lease, now)];
      return Some(id), Some(ClaimTicket(id, rows[id]));
    }

    method RequireCurrent(c: ClaimedTask, allowCancel: bool, now: int) returns (ok: bool)
      ensures ok <==> Current(rows, c, allowCancel, now)
      ensures ok <==>
                && c.taskId in rows
                && var r := rows[c.taskId];
                && r.fence == c.fence && r.attempt == c.attempt && r.owner == c.owner && r.status in {Running, Reconciling}
                && r.leaseUntil.Some? && now < r.leaseUntil.value && (r.cancelRequested ==> allowCancel)
      ensures ok ==> Beats(rows, c.taskId, c.owner, c.fence, now)
      ensures ok ==> forall w: Write | !w.WaitExternal? && !w.Reconcile? :: Accepts(rows, c.taskId, c.owner, c.fence, w)
    {
      if c.taskId !in rows {
        return false;
      }
      var r := rows[c.taskId];
      if r.fence != c.fence || r.attempt != c.attempt || r.owner != c.owner {
        return false;
      }
      if r.status != Running && r.status != Reconciling {
        return false;
      }
      if r.leaseUntil.None? || r.leaseUntil.value <= now {
        return false;
      }
      return allowCancel || !r.cancelRequested;
    }

    method Heartbeat(id: string, owner: string, fence: nat, lease: int, now: int) returns (alive: bool)
      modifies this
      ensures alive <==> Beats(old(rows), id, owner, fence, now)
      ensures rows == AfterBeat(old(rows), id, owner, fence, lease, now)
      ensures alive <==>
                && id in old(rows)
                && var r := old(rows)[id];
                && r.owner == owner && r.fence == fence && r.status in {Running, Reconciling, WaitingExternal}
                && r.leaseUntil.Some? && now < r.leaseUntil.value
      ensures alive ==> id in old(rows) && rows == old(rows)[id := old(rows)[id].(leaseUntil := Some(now + lease))]
    {
      if id !in rows || rows[id].owner != owner || rows[id].fence != fence {
        return false;
      }
      if rows[id].status != Running && rows[id].status != Reconciling && rows[id].status != WaitingExternal {
        return false;
      }
      if rows[id].leaseUntil.None? || rows[id].leaseUntil.value <= now {
        return false;
      }
      rows := rows[id := rows[id].(leaseUntil := Some(now + lease))];
      return true;
    }

    /**
     `_transition`, shared by succeed, fail, retry, wait_external, reconcile and mark_cancelled. A retry alone gives
     up the row; a wait for an external task can only begin, and a reconciliation only follow, a running attempt.
     */
    method Transition(id: string, owner: string, fence: nat, w: Write, now: int) returns (ok: bool)
      modifies this
      ensures ok <==> Accepts(old(rows), id, owner, fence, w)
      ensures rows == AfterWrite(old(rows), id, owner, fence, w, now)
      ensures ok <==>
                && id in old(rows)
                && var r := old(rows)[id];
                && r.owner == owner && r.fence == fence
                && r.status in (if w.WaitExternal? then {Running} else if w.Reconcile? then {WaitingExternal, Running}
                                else {Running, Reconciling, WaitingExternal})
      ensures ok ==>
                && id in old(rows) && id in rows
                && var a, b := old(rows)[id], rows[id];
                match w
                case Succeed(ref) => b == a.(status := Succeeded, resultRef := ref, errorCode := "")
                case Fail(code) => b == a.(status := Failed, errorCode := code)
                case Retry(backoff, code) =>
                  b == a.(status := RetryWait, owner := "", leaseUntil := None, errorCode := code, availableAt := now + backoff)
                case WaitExternal(up) => b == a.(status := WaitingExternal, upstream := up)
                case Reconcile => b == a.(status := Reconciling)
                case MarkCancelled => b == a.(status := Cancelled)
    {
      ok := id in rows && rows[id].owner == owner && rows[id].fence == fence && rows[id].status in FromStates(w);
      if ok {
        rows := rows[id := Written(rows[id], w, now)];
      }
    }

    method RequestCancel(id: string) returns (status: Option<Status>)
      modifies this
      ensures rows == AfterCancelRequest(old(rows), id)
      ensures status.None? <==> id !in old(rows) || old(rows)[id].status in {Succeeded, Failed, Cancelled}
      ensures status.Some? ==>
                && id in old(rows)
                && rows == old(rows)[id := old(rows)[id].(cancelRequested := true, status := status.value)]
                && status.value == if old(rows)[id].status in {Queued, RetryWait} then Cancelled else old(rows)[id].status
    {
      if id !in rows || Terminal(rows[id].status) {
        return None;
      }
      rows := rows[id := CancelAsked(rows[id])];
      return Some(rows[id].status);
    }

    method Requeue(id: string, now: int) returns (ok: bool)
      modifies this
      ensures ok <==> id in old(rows) && old(rows)[id].status == Failed
      ensures rows == AfterRequeue(old(rows), id, now)
      ensures ok ==>
                && id in old(rows)
                && rows == old(rows)[id := old(rows)[id].(status := Queued, owner := "", leaseUntil := None,
                             cancelRequested := false, errorCode := "", availableAt := now)]
    {
      ok := id in rows && rows[id].status == Failed;
      if ok {
        rows := rows[id := Requeued(rows[id], now)];
      }
    }
  }
}
