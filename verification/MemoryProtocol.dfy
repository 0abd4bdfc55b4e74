/**
 The Memory run protocol of one tenant: the `memory.aggregate` handler, its account lease and
 the checkpointed Compile stages, run by any number of workers that may stall, crash, lose
 their lease and carry on late.

 A run is its task: both carry the same id. Each event is one database transaction or one call
 to the upstream Compile service, with the clock it saw; an event that is not enabled changes nothing.
 */
module MemoryProtocol {
  import opened Basics
  import Q = WorkerQueue
  import L = ResourceLeases
  import W = Worker

  datatype StageStatus = Running | Succeeded | Failed | Cancelled

  /** A checkpoint row; `input` stands for the (injective) hash of the payload. */
  datatype Stage = Stage(input: string, status: StageStatus, upstream: string)

  /** A stage's primary key. The Compile idempotency key is an injective hash of the same pair. */
  datatype StageId = StageId(run: string, key: string)

  datatype JobState = Pending | InProgress | Done | Broken | Stopped

  predicate Final(j: JobState) {
    j == Done || j == Broken || j == Stopped
  }

  /** The stage status that records a final upstream state. */
  function StatusOf(j: JobState): StageStatus
    requires Final(j)
  {
    match j case Done => Succeeded case Broken => Failed case Stopped => Cancelled
  }

  /**
   What the body of an attempt still has to do before anything else: finish the stages it found running, each with
   the input on record. A run that was cancelled before it began does nothing after that.
   */
  datatype Plan = Plan(cancelled: bool, todo: map<string, string>)

  function Without(plan: Plan, key: string): Plan {
    plan.(todo := plan.todo - {key})
  }

  /** Where one attempt of the handler stands between two transactions. */
  datatype Pc =
    | Entered
    | Admitted(cancelled: bool)
    | Leased(cancelled: bool)
    | Working(plan: Plan)
    | StageRead(key: string, input: string, seen: Option<Stage>, plan: Plan)
    | Asking(key: string, input: string, seen: Option<Stage>, plan: Plan)
    | Marking(key: string, input: string, seen: Option<Stage>, submitted: Option<string>, plan: Plan)
    | Submitting(key: string, input: string, submitted: Option<string>, plan: Plan)
    | Recording(key: string, input: string, job: string, plan: Plan)
    | Polling(key: string, input: string, job: string, plan: Plan)
    | Checking(key: string, input: string, job: string, plan: Plan)
    | Watching(key: string, input: string, job: string, stop: bool, plan: Plan)
    | Settling(key: string, input: string, job: string, final: JobState, stop: bool, plan: Plan)
    | Leaving(outcome: Option<W.HandlerResult>)
    | Left(result: W.HandlerResult)
    | Gone

  /** One claimed attempt; `leaseFence` is the fence its account lease was granted with, 0 before that. */
  datatype Attempt = Attempt(ticket: Q.ClaimedTask, leaseFence: nat)

  datatype State = State(
    tasks: Q.Table,
    leases: L.Leases,
    runs: map<string, string>,
    finished: set<string>,
    stages: map<StageId, Stage>,
    submissions: map<StageId, string>,
    jobs: map<string, JobState>,
    attempts: seq<Attempt>,
    pcs: seq<Pc>)

  const INITIAL := State(map[], map[], map[], {}, map[], map[], map[], [], [])

  const LEASE_MS := 60000

  function LeaseKey(account: string): string {
    "memory:account:" + account
  }

  predicate Has(s: State, i: nat) {
    i < |s.attempts| && i < |s.pcs|
  }

  function RunOf(s: State, i: nat): string
    requires i < |s.attempts|
  {
    s.attempts[i].ticket.taskId
  }

  /** Between the grant of the account lease and the `finally` block. */
  predicate InBody(pc: Pc) {
    !pc.Entered? && !pc.Admitted? && !pc.Leaving? && !pc.Left? && !pc.Gone?
  }

  predicate HasRunning(s: State, run: string) {
    exists k | k in s.stages :: k.run == run && s.stages[k].status == Running
  }

  /** `repo.save_stage`: an upsert that never touches the input of an existing row. */
  function SaveStage(t: map<StageId, Stage>, id: StageId, input: string, status: StageStatus, upstream: string)
    : map<StageId, Stage>
  {
    t[id := if id in t then t[id].(status := status, upstream := upstream) else Stage(input, status, upstream)]
  }

  class StageTable {
    var rows: map<StageId, Stage>

    constructor ()
      ensures rows == map[]
    {
      rows := map[];
    }

    method Save(id: StageId, input: string, status: StageStatus, upstream: string)
      modifies this
      ensures rows == SaveStage(old(rows), id, input, status, upstream)
      ensures id in old(rows) ==> rows[id].input == old(rows)[id].input
    {
      if id in rows {
        rows := rows[id := rows[id].(status := status, upstream := upstream)];
      } else {
        rows := rows[id := Stage(input, status, upstream)];
      }
    }
  }

  // ---- the steps of one attempt ----

  /** The upstream's tasks, and which stage each was created for, are as before. */
  predicate SameUpstream(s: State, s': State) {
    s'.submissions == s.submissions && s'.jobs == s.jobs
  }

  /** ... and so are the checkpoints. */
  predicate SameStore(s: State, s': State) {
    SameUpstream(s, s') && s'.stages == s.stages
  }

  function Goto(s: State, i: nat, pc: Pc): (s': State)
    requires Has(s, i)
    ensures SameStore(s, s') && s'.tasks == s.tasks
    ensures s'.finished == s.finished
  {
    s.(pcs := s.pcs[i := pc])
  }

  /** `guard(..., allow_cancel=True)`: the attempt is still the current one. */
  predicate Guarded(s: State, i: nat, now: int)
    requires Has(s, i)
  {
    Q.Current(s.tasks, s.attempts[i].ticket, true, now)
  }

  predicate CancelSeen(s: State, i: nat)
    requires Has(s, i)
  {
    RunOf(s, i) in s.tasks && s.tasks[RunOf(s, i)].cancelRequested
  }

  /** What the handler answers to an exception, by whether it sees a Compile in flight. */
  function AfterError(active: bool): W.HandlerResult {
    if active then W.Reconciling else W.RetryLater("handler_exception", 0)
  }

  /** An exception in the body: reconcile if a Compile is in flight, otherwise a worker retry. */
  function Raised(s: State, i: nat): (s': State)
    requires Has(s, i)
    ensures SameStore(s, s') && s'.tasks == s.tasks
    ensures s'.finished == s.finished
  {
    Goto(s, i, Leaving(Some(AfterError(HasRunning(s, RunOf(s, i))))))
  }

  predicate CanRenew(s: State, i: nat, now: int)
    requires Has(s, i)
  {
    && Guarded(s, i, now) && RunOf(s, i) in s.runs
    && L.Beats(s.leases, LeaseKey(s.runs[RunOf(s, i)]), RunOf(s, i), s.attempts[i].leaseFence, now)
  }

  /** `renew()`: heartbeat the account lease under the guard. */
  function Renewed(s: State, i: nat, now: int): (s': State)
    requires Has(s, i) && RunOf(s, i) in s.runs
    ensures SameStore(s, s') && s'.tasks == s.tasks && s'.attempts == s.attempts && s'.pcs == s.pcs
    ensures s'.finished == s.finished
  {
    s.(leases := L.AfterBeat(s.leases, LeaseKey(s.runs[RunOf(s, i)]), RunOf(s, i), s.attempts[i].leaseFence, LEASE_MS, now))
  }

  function Admit(s: State, i: nat, now: int): (s': State)
    requires Has(s, i) && s.pcs[i].Entered?
    ensures SameStore(s, s') && s'.tasks == s.tasks
  {
    if !Guarded(s, i, now) then Goto(s, i, Left(W.RetryLater("handler_exception", 0)))
    else if RunOf(s, i) in s.finished then Goto(s, i, Left(W.Succeeded(RunOf(s, i))))
    else Goto(s, i, Admitted(CancelSeen(s, i)))
  }

  /** Another run of the account is alive on the lease, or has a Compile in flight. */
  predicate Blocked(s: State, run: string)
    requires run in s.runs
  {
    var key := LeaseKey(s.runs[run]);
    || (&& key in s.leases && s.leases[key].owner != run && s.leases[key].owner in s.tasks
        && var st := s.tasks[s.leases[key].owner].status;
        st == Q.Running || st == Q.Reconciling || st == Q.RetryWait)
    || (exists k | k in s.stages ::
          s.stages[k].status == Running && k.run in s.runs && s.runs[k.run] == s.runs[run] && k.run != run)
  }

  /** The lease row now names this run, with a fence of its own for this attempt. */
  function Granted(s: State, i: nat, now: int): (s': State)
    requires Has(s, i) && s.pcs[i].Admitted? && RunOf(s, i) in s.runs
    ensures SameStore(s, s') && s'.tasks == s.tasks
  {
    var run := RunOf(s, i);
    var key := LeaseKey(s.runs[run]);
    s.(leases := s.leases[key := L.Lease(run, L.NextFence(s.leases, key), Some(now + LEASE_MS))],
       attempts := s.attempts[i := s.attempts[i].(leaseFence := L.NextFence(s.leases, key))],
       pcs := s.pcs[i := Leased(s.pcs[i].cancelled)])
  }

  function Acquire(s: State, i: nat, now: int): (s': State)
    requires Has(s, i) && s.pcs[i].Admitted?
    ensures SameStore(s, s') && s'.tasks == s.tasks
  {
    var run := RunOf(s, i);
    if !Guarded(s, i, now) || run !in s.runs then Goto(s, i, Left(W.RetryLater("handler_exception", 0)))
    else
      var key := LeaseKey(s.runs[run]);
      if Blocked(s, run) || !L.Grantable(s.leases, key, run, now)
      then Goto(s, i, Left(W.RetryLater("memory_target_busy", 5000)))
      else Granted(s, i, now)
  }

  /** The stages of a run that are marked running, with their inputs. */
  function Unsettled(s: State, run: string): map<string, string> {
    map id | id in s.stages && id.run == run && s.stages[id].status == Running :: id.key := s.stages[id].input
  }

  /** `recover_and_run` begins by listing the stages it has to finish first. */
  function Recover(s: State, i: nat): (s': State)
    requires Has(s, i) && s.pcs[i].Leased?
    ensures SameStore(s, s') && s'.tasks == s.tasks
  {
    Goto(s, i, Working(Plan(s.pcs[i].cancelled, Unsettled(s, RunOf(s, i)))))
  }

  /** The next `compile_stage` call: one of the stages to recover, or any stage once there are none and no cancel. */
  predicate MayOpen(plan: Plan, key: string, input: string) {
    if plan.todo == map[] then !plan.cancelled else key in plan.todo && plan.todo[key] == input
  }

  /** `compile_stage` begins: read the checkpoint. */
  function OpenStage(s: State, i: nat, key: string, input: string, now: int): (s': State)
    requires Has(s, i) && s.pcs[i].Working?
    ensures SameStore(s, s') && s'.tasks == s.tasks
    ensures s'.finished == s.finished
  {
    var id := StageId(RunOf(s, i), key);
    var seen := if id in s.stages then Some(s.stages[id]) else None;
    var plan := s.pcs[i].plan;
    if !MayOpen(plan, key, input) then s
    else if !Guarded(s, i, now) then Raised(s, i)
    else if seen.Some? && seen.value.input != input then Goto(s, i, Leaving(Some(W.Failed("memory_pipeline_invalid"))))
    else if seen.Some? && seen.value.status == Succeeded then Goto(s, i, Working(Without(plan, key)))
    else Goto(s, i, StageRead(key, input, seen, plan))
  }

  function RenewForStage(s: State, i: nat, now: int): (s': State)
    requires Has(s, i) && s.pcs[i].StageRead?
    ensures SameStore(s, s') && s'.tasks == s.tasks
    ensures s'.finished == s.finished
  {
    if !CanRenew(s, i, now) then Raised(s, i)
    else
      var pc := s.pcs[i];
      var next :=
        if pc.seen.Some? && pc.seen.value.upstream != "" then Polling(pc.key, pc.input, pc.seen.value.upstream, pc.plan)
        else if pc.seen.Some? && pc.seen.value.status == Running then Asking(pc.key, pc.input, pc.seen, pc.plan)
        else Marking(pc.key, pc.input, pc.seen, None, pc.plan);
      Goto(Renewed(s, i, now), i, next)
  }

  /** `compiler.submission(dedupe)`; an answer other than found or 404 is an exception. */
  function Ask(s: State, i: nat): (s': State)
    requires Has(s, i) && s.pcs[i].Asking?
    ensures SameStore(s, s') && s'.tasks == s.tasks
    ensures s'.finished == s.finished
  {
    var pc := s.pcs[i];
    var id := StageId(RunOf(s, i), pc.key);
    var found := if id in s.submissions then Some(s.submissions[id]) else None;
    Goto(s, i, Marking(pc.key, pc.input, pc.seen, found, pc.plan))
  }

  /** Persist the intent to submit before submitting. */
  function Mark(s: State, i: nat, now: int): (s': State)
    requires Has(s, i) && s.pcs[i].Marking?
    ensures SameUpstream(s, s') && s'.tasks == s.tasks
    ensures s'.finished == s.finished
  {
    var pc := s.pcs[i];
    if !Guarded(s, i, now) then Raised(s, i)
    else if CancelSeen(s, i) && !(pc.seen.Some? && pc.seen.value.status == Running)
    then Goto(s, i, Leaving(Some(W.Cancelled)))
    else Goto(s.(stages := SaveStage(s.stages, StageId(RunOf(s, i), pc.key), pc.input, Running, "")), i,
              Submitting(pc.key, pc.input, pc.submitted, pc.plan))
  }

  /** The upstream answers a submission of `id`: one task per idempotency key, `newId` for a new key. */
  function Upstream(s: State, id: StageId, newId: string): (s': State)
    ensures s'.stages == s.stages && s'.tasks == s.tasks && s'.attempts == s.attempts && s'.pcs == s.pcs
    ensures s'.finished == s.finished
  {
    if id in s.submissions || newId == "" || newId in s.jobs then s
    else s.(submissions := s.submissions[id := newId], jobs := s.jobs[newId := Pending])
  }

  /** `compiler.submit` unless the task is known already; `lost` drops the response. */
  function Submit(s: State, i: nat, newId: string, lost: bool): (s': State)
    requires Has(s, i) && s.pcs[i].Submitting?
    ensures s'.stages == s.stages && s'.tasks == s.tasks
    ensures s'.finished == s.finished
  {
    var pc := s.pcs[i];
    var id := StageId(RunOf(s, i), pc.key);
    if pc.submitted.Some? then Goto(s, i, Recording(pc.key, pc.input, pc.submitted.value, pc.plan))
    else
      var s' := Upstream(s, id, newId);
      if lost || id !in s'.submissions then Raised(s', i)
      else Goto(s', i, Recording(pc.key, pc.input, s'.submissions[id], pc.plan))
  }

  function Record(s: State, i: nat, now: int): (s': State)
    requires Has(s, i) && s.pcs[i].Recording?
    ensures SameUpstream(s, s')
    ensures s'.finished == s.finished
  {
    var pc := s.pcs[i];
    if !Guarded(s, i, now) then Raised(s, i)
    else Goto(s.(stages := SaveStage(s.stages, StageId(RunOf(s, i), pc.key), pc.input, Running, pc.job),
                 tasks := Q.AfterUpstream(s.tasks, s.attempts[i].ticket, pc.job, now)), i,
              Polling(pc.key, pc.input, pc.job, pc.plan))
  }

  function RenewForPoll(s: State, i: nat, now: int): (s': State)
    requires Has(s, i) && s.pcs[i].Polling?
    ensures SameStore(s, s') && s'.tasks == s.tasks
    ensures s'.finished == s.finished
  {
    if !CanRenew(s, i, now) then Raised(s, i)
    else
      var pc := s.pcs[i];
      Goto(Renewed(s, i, now), i, Checking(pc.key, pc.input, pc.job, pc.plan))
  }

  /** Read the cancel flag; what an upstream cancel call does is one of the upstream's own moves. */
  function CheckCancel(s: State, i: nat, now: int): (s': State)
    requires Has(s, i) && s.pcs[i].Checking?
    ensures SameStore(s, s') && s'.tasks == s.tasks
    ensures s'.finished == s.finished
  {
    var pc := s.pcs[i];
    if !Guarded(s, i, now) then Raised(s, i)
    else Goto(s, i, Watching(pc.key, pc.input, pc.job, CancelSeen(s, i), pc.plan))
  }

  function Poll(s: State, i: nat): (s': State)
    requires Has(s, i) && s.pcs[i].Watching?
    ensures SameStore(s, s') && s'.tasks == s.tasks
    ensures s'.finished == s.finished
  {
    var pc := s.pcs[i];
    if pc.job !in s.jobs then Raised(s, i)
    else if Final(s.jobs[pc.job])
    then Goto(s, i, Settling(pc.key, pc.input, pc.job, s.jobs[pc.job], pc.stop, pc.plan))
    else Goto(s, i, Polling(pc.key, pc.input, pc.job, pc.plan))
  }

  function Settle(s: State, i: nat, now: int): (s': State)
    requires Has(s, i) && s.pcs[i].Settling?
    ensures SameUpstream(s, s') && s'.tasks == s.tasks
    ensures s'.finished == s.finished
  {
    var pc := s.pcs[i];
    var id := StageId(RunOf(s, i), pc.key);
    if !Guarded(s, i, now) || !Final(pc.final) then Raised(s, i)
    else if pc.final != Done || pc.stop then
      Goto(s.(stages := SaveStage(s.stages, id, pc.input, StatusOf(pc.final), pc.job)), i,
           Leaving(Some(if pc.stop || pc.final == Stopped then W.Cancelled else W.Failed("memory_pipeline_invalid"))))
    else if CancelSeen(s, i) then
      Goto(s.(stages := SaveStage(s.stages, id, pc.input, Cancelled, pc.job)), i, Leaving(Some(W.Cancelled)))
    else
      Goto(s.(stages := SaveStage(s.stages, id, pc.input, Succeeded, pc.job)), i, Working(Without(pc.plan, pc.key)))
  }

  /** The body returns, with nothing left to recover: a run cancelled before it began ends here, else its result is stored. */
  function Finish(s: State, i: nat, now: int): (s': State)
    requires Has(s, i) && s.pcs[i].Working?
    ensures SameStore(s, s') && s'.tasks == s.tasks
  {
    if s.pcs[i].plan.todo != map[] then s
    else if s.pcs[i].plan.cancelled then Goto(s, i, Leaving(Some(W.Cancelled)))
    else if !Guarded(s, i, now) then Raised(s, i)
    else if CancelSeen(s, i) then Goto(s, i, Leaving(Some(W.Cancelled)))
    else Goto(s.(finished := s.finished + {RunOf(s, i)}), i, Leaving(Some(W.Succeeded(RunOf(s, i)))))
  }

  /** The heartbeat task beside the body. */
  function Pulse(s: State, i: nat, now: int): (s': State)
    requires Has(s, i) && InBody(s.pcs[i])
    ensures SameStore(s, s') && s'.tasks == s.tasks
  {
    if CanRenew(s, i, now) then Renewed(s, i, now) else Raised(s, i)
  }

  function Freed(s: State, i: nat): L.Leases
    requires i < |s.attempts|
  {
    if RunOf(s, i) !in s.runs then s.leases
    else L.AfterRelease(s.leases, LeaseKey(s.runs[RunOf(s, i)]), RunOf(s, i), s.attempts[i].leaseFence)
  }

  /** The `finally` block: release the account lease unless a Compile of this run is in flight. No guard. */
  function Release(s: State, i: nat): (s': State)
    requires Has(s, i) && s.pcs[i].Leaving?
    ensures SameStore(s, s') && s'.tasks == s.tasks
  {
    var pc := if s.pcs[i].outcome.Some? then Left(s.pcs[i].outcome.value) else Gone;
    Goto(if HasRunning(s, RunOf(s, i)) then s else s.(leases := Freed(s, i)), i, pc)
  }

  function Throw(s: State, i: nat): (s': State)
    requires Has(s, i)
    ensures SameStore(s, s') && s'.tasks == s.tasks
  {
    var pc := s.pcs[i];
    if InBody(pc) then Raised(s, i)
    else if pc.Left? || pc.Gone? then s
    else Goto(s, i, Left(W.RetryLater("handler_exception", 0)))
  }

  /** The worker's own write of what the handler returned. */
  function WriteBack(s: State, i: nat, maxAttempts: int, jitter: int, now: int): State
    requires Has(s, i) && s.pcs[i].Left?
  {
    var c := s.attempts[i].ticket;
    var w := W.WriteOf(c, s.pcs[i].result, maxAttempts, jitter);
    Goto(s.(tasks := Q.AfterWrite(s.tasks, c.taskId, c.owner, c.fence, w, now)), i, Gone)
  }

  function Enlisted(s: State, run: string, row: Q.Row): (s': State)
    ensures SameStore(s, s')
  {
    s.(tasks := s.tasks[run := row], attempts := s.attempts + [Attempt(Q.ClaimTicket(run, row), 0)], pcs := s.pcs + [Entered])
  }

  function Claim(s: State, owner: string, lease: int, locked: set<string>, pick: Option<string>, now: int): (s': State)
    ensures SameStore(s, s')
  {
    if pick.None? || pick.value !in s.runs || !Q.IsPick(s.tasks, now, None, locked, pick) then s
    else Enlisted(s, pick.value, Q.Claimed(s.tasks[pick.value], owner, lease, now))
  }

  function Accept(s: State, run: string, account: string, now: int): (s': State)
    ensures SameStore(s, s')
  {
    if run in s.runs || run in s.tasks then s
    else s.(runs := s.runs[run := account], tasks := s.tasks[run := Q.NewRow("memory.aggregate", 0, now)])
  }

  /** The next thing one attempt does. */
  datatype Action =
    | DoAdmit | DoAcquire | DoRecover
    | DoOpenStage(key: string, input: string)
    | DoRenewForStage | DoAsk | DoMark
    | DoSubmit(newId: string, lost: bool)
    | DoRecord | DoRenewForPoll | DoCheckCancel | DoPoll | DoSettle
    | DoFinish | DoPulse | DoRelease
    | DoThrow                    // any exception, including an unexpected answer upstream
    | DoInvalid                  // a ValueError in the body
    | DoAbandon                  // the worker lost its task lease and cancels the handler
    | DoCutOff(active: bool)     // a renewal failed earlier; the body went on while the handler looked for a running stage
    | DoCrash
    | DoWriteBack(maxAttempts: int, jitter: int)
    | DoBeat(lease: int)         // the worker's heartbeat of the task row

  datatype Event =
    | Accepts(run: string, account: string)
    | Claims(owner: string, lease: int, locked: set<string>, pick: Option<string>)
    | CancelRequested(run: string)
    | Requeued(run: string)
    | UpstreamMoves(job: string, state: JobState)
    | Does(i: nat, action: Action)

  datatype Timed = At(now: int, event: Event)

  type History = seq<Timed>

  function Exit(s: State, i: nat, a: Action): (s': State)
    requires Has(s, i)
    ensures SameStore(s, s') && s'.tasks == s.tasks
  {
    var pc := s.pcs[i];
    match a
    case DoThrow => Throw(s, i)
    case DoInvalid => if InBody(pc) then Goto(s, i, Leaving(Some(W.Failed("memory_pipeline_invalid")))) else s
    case DoAbandon =>
      if InBody(pc) then Goto(s, i, Leaving(None)) else if pc.Leaving? then s else Goto(s, i, Gone)
    case DoCutOff(active) =>
      if InBody(pc) || pc.Leaving? then Goto(s, i, Leaving(Some(AfterError(active)))) else s
    case _ => Goto(s, i, Gone)
  }

  function Compile(s: State, i: nat, a: Action, now: int): (s': State)
    requires Has(s, i)
    ensures !a.DoSubmit? ==> SameUpstream(s, s')
    ensures !a.DoMark? && !a.DoRecord? && !a.DoSettle? ==> s'.stages == s.stages
    ensures !a.DoRecord? ==> s'.tasks == s.tasks
    ensures s'.finished == s.finished
  {
    var pc := s.pcs[i];
    match a
    case DoOpenStage(key, input) => if pc.Working? then OpenStage(s, i, key, input, now) else s
    case DoRenewForStage => if pc.StageRead? then RenewForStage(s, i, now) else s
    case DoAsk => if pc.Asking? then Ask(s, i) else s
    case DoMark => if pc.Marking? then Mark(s, i, now) else s
    case DoSubmit(newId, lost) => if pc.Submitting? then Submit(s, i, newId, lost) else s
    case DoRecord => if pc.Recording? then Record(s, i, now) else s
    case DoRenewForPoll => if pc.Polling? then RenewForPoll(s, i, now) else s
    case DoCheckCancel => if pc.Checking? then CheckCancel(s, i, now) else s
    case DoPoll => if pc.Watching? then Poll(s, i) else s
    case DoSettle => if pc.Settling? then Settle(s, i, now) else s
    case _ => s
  }

  function Act(s: State, i: nat, a: Action, now: int): (s': State)
    requires Has(s, i)
    ensures SameStore(s, s') || s' == Compile(s, i, a, now)
    ensures !a.DoWriteBack? && !a.DoBeat? && !a.DoRecord? ==> s'.tasks == s.tasks
  {
    var pc := s.pcs[i];
    match a
    case DoAdmit => if pc.Entered? then Admit(s, i, now) else s
    case DoAcquire => if pc.Admitted? then Acquire(s, i, now) else s
    case DoRecover => if pc.Leased? then Recover(s, i) else s
    case DoFinish => if pc.Working? then Finish(s, i, now) else s
    case DoPulse => if InBody(pc) then Pulse(s, i, now) else s
    case DoRelease => if pc.Leaving? then Release(s, i) else s
    case DoWriteBack(maxAttempts, jitter) => if pc.Left? then WriteBack(s, i, maxAttempts, jitter, now) else s
    case DoBeat(lease) =>
      if pc.Gone? then s
      else s.(tasks := Q.AfterBeat(s.tasks, RunOf(s, i), s.attempts[i].ticket.owner, s.attempts[i].ticket.fence, lease, now))
    case DoThrow => Exit(s, i, a)
    case DoInvalid => Exit(s, i, a)
    case DoAbandon => Exit(s, i, a)
    case DoCutOff(_) => Exit(s, i, a)
    case DoCrash => Exit(s, i, a)
    case _ => Compile(s, i, a, now)
  }

  function Step(s: State, x: Timed): State {
    match x.event
    case Accepts(run, account) => Accept(s, run, account, x.now)
    case Claims(owner, lease, locked, pick) => Claim(s, owner, lease, locked, pick, x.now)
    case CancelRequested(run) => s.(tasks := Q.AfterCancelRequest(s.tasks, run))
    case Requeued(run) => s.(tasks := Q.AfterRequeue(s.tasks, run, x.now))
    case UpstreamMoves(job, state) =>
      if job in s.jobs && (Final(s.jobs[job]) ==> Final(state)) then s.(jobs := s.jobs[job := state]) else s
    case Does(i, a) => if Has(s, i) then Act(s, i, a, x.now) else s
  }

  function After(h: History): State {
    if h == [] then INITIAL else Step(After(h[..|h| - 1]), h[|h| - 1])
  }
}
