/** How the account lease changes hands, and what else the single steps of an attempt decide by. */
module MemoryLeasing {
  import opened Basics
  import Q = WorkerQueue
  import L = ResourceLeases
  import W = Worker
  import opened MemoryProtocol
  import opened MemoryInvariant
  import opened MemorySteps
  import opened MemoryTheorems
  import opened MemoryOutcomes

  /** The account's lease row, if there is one. */
  function RowOf(s: State, key: string): Option<L.Lease> {
    if key in s.leases then Some(s.leases[key]) else None
  }

  /** Another run of the account is alive and named by the lease, or has a stage running. */
  ghost predicate AccountBusy(s: State, run: string, row: Option<L.Lease>) {
    || (row.Some? && row.value.owner != run && row.value.owner in s.tasks
        && s.tasks[row.value.owner].status in {Q.Running, Q.Reconciling, Q.RetryWait})
    || (exists k :: RunningStage(s.stages, k) && k.run != run && Account(s.runs, k.run) == Account(s.runs, run))
  }

  // ---- getting the account ----

  /** The account goes to the attempt if it is current, nobody else is busy there and the lease is free to its run. */
  ghost predicate MayHave(s: State, i: nat, now: int)
    requires Has(s, i)
  {
    var run, row := RunOf(s, i), RowOf(s, KeyOf(s.runs, s.attempts[i]));
    && Guarded(s, i, now) && !AccountBusy(s, run, row)
    && (row.None? || row.value.owner == run || row.value.until.None? || row.value.until.value < now)
  }

  /** It gets the next fence for a minute, or it is put off and the leases stay. */
  ghost predicate Acquired(s: State, s': State, i: nat, now: int)
    requires Has(s, i)
  {
    var run, key := RunOf(s, i), KeyOf(s.runs, s.attempts[i]);
    var row := RowOf(s, key);
    && Has(s', i)
    && if MayHave(s, i, now) then
         && s'.pcs[i] == Leased(s.pcs[i].Admitted? && s.pcs[i].cancelled)
         && s'.leases == s.leases[key := L.Lease(run, (if row.Some? then row.value.fence else 0) + 1, Some(now + 60000))]
         && s'.attempts[i].leaseFence == (if row.Some? then row.value.fence else 0) + 1
       else s'.leases == s.leases && s'.pcs[i].Left? && s'.pcs[i].result.RetryLater?
  }

  lemma BusyIsBlocked(s: State, run: string)
    requires Known(s.tasks, s.runs, s.attempts, s.stages) && run in s.runs
    ensures Blocked(s, run) <==> AccountBusy(s, run, RowOf(s, LeaseKey(s.runs[run])))
  {
    hide LeaseKey;
    if k :| RunningStage(s.stages, k) && k.run != run && Account(s.runs, k.run) == Account(s.runs, run) {
      assert k in s.stages && k.run in s.runs;
    }
    if k :| k in s.stages && s.stages[k].status == Running && k.run in s.runs && s.runs[k.run] == s.runs[run] && k.run != run {
      assert RunningStage(s.stages, k);
    }
  }

  lemma Acquires(s: State, i: nat, now: int)
    requires Known(s.tasks, s.runs, s.attempts, s.stages) && Has(s, i) && RunOf(s, i) in s.runs && s.pcs[i].Admitted?
    ensures Acquired(s, Acquire(s, i, now), i, now)
  {
    BusyIsBlocked(s, RunOf(s, i));
    hide AccountBusy, Blocked, Guarded, Known;
  }

  lemma ReachedRow(h: History, i: nat)
    requires Has(After(h), i)
    ensures var s := After(h); Known(s.tasks, s.runs, s.attempts, s.stages) && RunOf(s, i) in s.runs
  {
    Always(h);
    hide After;
    Basic(After(h), i);
  }

  /** In every reachable state an admitted attempt gets the account exactly if it may have it. */
  lemma {:induction false} AcquiresExactly(h: History, n: nat, i: nat)
    requires n < |h| && h[n].event == Does(i, DoAcquire) && Has(After(h[..n]), i) && After(h[..n]).pcs[i].Admitted?
    ensures Acquired(After(h[..n]), After(h[..n + 1]), i, h[n].now)
  {
    AfterNext(h, n);
    ReachedRow(h[..n], i);
    hide After, Acquired, Known;
    DoesAct(After(h[..n]), h[n]);
    Acquires(After(h[..n]), i, h[n].now);
    hide Step, Acquire;
  }

  // ---- keeping it ----

  /** The lease row is the attempt's own, and has not run out. */
  predicate OwnsUntil(s: State, i: nat, now: int)
    requires Has(s, i)
  {
    var row := RowOf(s, KeyOf(s.runs, s.attempts[i]));
    && row.Some? && row.value.owner == RunOf(s, i) && row.value.fence == s.attempts[i].leaseFence
    && row.value.until.Some? && now < row.value.until.value
  }

  /** The body goes on exactly if the attempt is current and owns an unexpired lease, which then lasts another minute. */
  predicate RenewedOrOut(s: State, s': State, i: nat, now: int)
    requires Has(s, i)
  {
    var key := KeyOf(s.runs, s.attempts[i]);
    && Has(s', i)
    && if Guarded(s, i, now) && OwnsUntil(s, i, now)
       then InBody(s'.pcs[i]) && key in s.leases && s'.leases == s.leases[key := s.leases[key].(until := Some(now + 60000))]
       else !InBody(s'.pcs[i]) && s'.leases == s.leases
  }

  lemma StageRenews(s: State, i: nat, now: int)
    requires Has(s, i) && RunOf(s, i) in s.runs && s.pcs[i].StageRead?
    ensures RenewedOrOut(s, RenewForStage(s, i, now), i, now)
  {
    hide Guarded, HasRunning;
  }

  lemma PollRenews(s: State, i: nat, now: int)
    requires Has(s, i) && RunOf(s, i) in s.runs && s.pcs[i].Polling?
    ensures RenewedOrOut(s, RenewForPoll(s, i, now), i, now)
  {
    hide Guarded, HasRunning;
  }

  lemma PulseRenews(s: State, i: nat, now: int)
    requires Has(s, i) && RunOf(s, i) in s.runs && InBody(s.pcs[i])
    ensures RenewedOrOut(s, Pulse(s, i, now), i, now)
  {
    hide Guarded, HasRunning;
  }

  /** The steps that renew the lease: before a stage, before each poll of one, and the pulse beside the body. */
  predicate IsRenewal(pc: Pc, a: Action) {
    (a.DoRenewForStage? && pc.StageRead?) || (a.DoRenewForPoll? && pc.Polling?) || (a.DoPulse? && InBody(pc))
  }

  lemma ActRenews(s: State, i: nat, a: Action, now: int)
    requires Has(s, i) && RunOf(s, i) in s.runs && IsRenewal(s.pcs[i], a)
    ensures RenewedOrOut(s, Act(s, i, a, now), i, now)
  {
    hide RenewedOrOut, RenewForStage, RenewForPoll, Pulse;
    if a.DoPulse? { PulseRenews(s, i, now); } else if a.DoRenewForStage? { StageRenews(s, i, now); } else { PollRenews(s, i, now); }
  }

  /** In every reachable state no stage is taken up and no Compile polled without a lease that has just been renewed. */
  lemma {:induction false} RenewsExactly(h: History, n: nat, i: nat)
    requires n < |h| && Has(After(h[..n]), i)
    requires h[n].event.Does? && h[n].event.i == i && IsRenewal(After(h[..n]).pcs[i], h[n].event.action)
    ensures RenewedOrOut(After(h[..n]), After(h[..n + 1]), i, h[n].now)
  {
    AfterNext(h, n);
    ReachedRow(h[..n], i);
    hide After, RenewedOrOut, Known, Act;
    DoesAct(After(h[..n]), h[n]);
    ActRenews(After(h[..n]), i, h[n].event.action, h[n].now);
    hide Step;
  }

  // ---- leaving ----

  lemma QuietMeans(s: State, run: string)
    ensures HasRunning(s, run) <==> !Quiet(s.stages, run)
  {
    if k :| RunningStage(s.stages, k) && k.run == run { assert k in s.stages && s.stages[k].status == Running; }
    if k :| k in s.stages && k.run == run && s.stages[k].status == Running { assert RunningStage(s.stages, k); }
  }

  /** The account is given up exactly if the row is the attempt's own and no stage of its run is running. */
  ghost predicate LetGo(s: State, s': State, i: nat)
    requires Has(s, i)
  {
    var key := KeyOf(s.runs, s.attempts[i]);
    && Has(s', i)
    && s'.leases == if Quiet(s.stages, RunOf(s, i)) && L.Holds(s.leases, key, RunOf(s, i), s.attempts[i].leaseFence)
                    then s.leases[key := L.Lease("", s.leases[key].fence, None)] else s.leases
  }

  lemma Releases(s: State, i: nat)
    requires Has(s, i) && RunOf(s, i) in s.runs && s.pcs[i].Leaving?
    ensures LetGo(s, Release(s, i), i)
    ensures Release(s, i).pcs[i] == if s.pcs[i].outcome.Some? then Left(s.pcs[i].outcome.value) else Gone
  {
    QuietMeans(s, RunOf(s, i));
    hide Quiet, HasRunning;
  }

  /** On its way out an attempt lets the account go or keeps it for the Compile in flight; its answer was decided before. */
  lemma {:induction false} LeavesExactly(h: History, n: nat, i: nat)
    requires n < |h| && h[n].event == Does(i, DoRelease) && Has(After(h[..n]), i) && After(h[..n]).pcs[i].Leaving?
    ensures var s, s' := After(h[..n]), After(h[..n + 1]);
            LetGo(s, s', i) && s'.pcs[i] == if s.pcs[i].outcome.Some? then Left(s.pcs[i].outcome.value) else Gone
  {
    AfterNext(h, n);
    ReachedRow(h[..n], i);
    hide After, LetGo, Known;
    DoesAct(After(h[..n]), h[n]);
    Releases(After(h[..n]), i);
    hide Step, Release;
  }

  lemma Throws(s: State, i: nat)
    requires Has(s, i) && InBody(s.pcs[i])
    ensures Exit(s, i, DoThrow).leases == s.leases
    ensures Exit(s, i, DoThrow).pcs[i]
            == Leaving(Some(if Quiet(s.stages, RunOf(s, i)) then W.RetryLater("handler_exception", 0) else W.Reconciling))
  {
    QuietMeans(s, RunOf(s, i));
    hide Quiet, HasRunning;
  }

  /** An exception in the body is answered by reconciling exactly if a stage of the run is running, else by a retry. */
  lemma {:induction false} RaisesExactly(h: History, n: nat, i: nat)
    requires n < |h| && h[n].event == Does(i, DoThrow) && Has(After(h[..n]), i) && InBody(After(h[..n]).pcs[i])
    ensures var s, s' := After(h[..n]), After(h[..n + 1]);
            && Has(s', i) && s'.leases == s.leases
            && s'.pcs[i] == Leaving(Some(if Quiet(s.stages, RunOf(s, i)) then W.RetryLater("handler_exception", 0) else W.Reconciling))
  {
    AfterNext(h, n);
    hide After, Quiet;
    DoesAct(After(h[..n]), h[n]);
    Throws(After(h[..n]), i);
    hide Step, Exit;
  }

  // ---- beginning and ending ----

  /** The body's end: the run's result is stored. */
  predicate Ends(s: State, x: Timed, run: string) {
    && x.event.Does? && x.event.action == DoFinish
    && var i := x.event.i;
    && Has(s, i) && RunOf(s, i) == run && s.pcs[i].Working? && s.pcs[i].plan == Plan(false, map[])
    && Guarded(s, i, x.now) && !CancelSeen(s, i)
  }

  /** A run becomes finished exactly when a current attempt ends a body that has nothing to recover and no cancel to obey. */
  lemma {:induction false} FinishesExactly(h: History, n: nat, run: string)
    requires n < |h| && run !in After(h[..n]).finished
    ensures run in After(h[..n + 1]).finished <==> Ends(After(h[..n]), h[n], run)
  {
    AfterNext(h, n);
    hide After;
    StepFinishes(After(h[..n]), h[n], run);
    hide Step;
  }

  lemma CompileFinishes(s: State, i: nat, a: Action, now: int)
    requires Has(s, i)
    ensures Compile(s, i, a, now).finished == s.finished
  {
    hide Compile;
  }

  lemma ActFinishes(s: State, i: nat, a: Action, now: int)
    requires Has(s, i)
    ensures !(a.DoFinish? && s.pcs[i].Working?) ==> Act(s, i, a, now).finished == s.finished
  {
    hide Compile, Finish, Guarded, Blocked, Unsettled, HasRunning, Q.AfterWrite, Q.AfterBeat, W.WriteOf;
    CompileFinishes(s, i, a, now);
  }

  lemma StepFinishes(s: State, x: Timed, run: string)
    requires run !in s.finished
    ensures run in Step(s, x).finished <==> Ends(s, x, run)
  {
    hide Guarded, CancelSeen, HasRunning, Act, Finish, Accept, Claim, Q.AfterCancelRequest, Q.AfterRequeue;
    OutsideFinishes(s, x);
    if x.event.Does? && Has(s, x.event.i) {
      ActFinishes(s, x.event.i, x.event.action, x.now);
      DoesAct(s, x);
      if x.event.action.DoFinish? && s.pcs[x.event.i].Working? {
        ActEnds(s, x.event.i, x.now);
        BodyEnds(s, x.event.i, x.now);
      }
    }
  }

  lemma OutsideFinishes(s: State, x: Timed)
    ensures !(x.event.Does? && Has(s, x.event.i)) ==> Step(s, x).finished == s.finished
  {
    hide Act, Q.AfterCancelRequest, Q.AfterRequeue, Q.IsPick, Q.Claimed, Q.NewRow;
  }

  lemma BodyEnds(s: State, i: nat, now: int)
    requires Has(s, i) && s.pcs[i].Working?
    ensures Finish(s, i, now).finished == s.finished +
              if s.pcs[i].plan == Plan(false, map[]) && Guarded(s, i, now) && !CancelSeen(s, i) then {RunOf(s, i)} else {}
  {
    hide Guarded, CancelSeen, HasRunning;
  }

  lemma ActEnds(s: State, i: nat, now: int)
    requires Has(s, i) && s.pcs[i].Working?
    ensures Act(s, i, DoFinish, now) == Finish(s, i, now)
  {
  }

  /** What an attempt finds to recover: exactly the stages of its run that are marked running, with their inputs. */
  lemma {:induction false} RecoversExactly(h: History, n: nat, i: nat)
    requires n < |h| && h[n].event == Does(i, DoRecover) && Has(After(h[..n]), i) && After(h[..n]).pcs[i].Leased?
    ensures var s, s' := After(h[..n]), After(h[..n + 1]);
            && Has(s', i) && s'.pcs[i].Working? && s'.pcs[i].plan.cancelled == s.pcs[i].cancelled
            && var todo := s'.pcs[i].plan.todo;
            && (forall key :: key in todo <==> RunningStage(s.stages, StageId(RunOf(s, i), key)))
            && (forall key | key in todo :: todo[key] == s.stages[StageId(RunOf(s, i), key)].input)
  {
    AfterNext(h, n);
    hide After;
    DoesAct(After(h[..n]), h[n]);
    Recovers(After(h[..n]), i);
    hide Step, Recover;
  }

  lemma Recovers(s: State, i: nat)
    requires Has(s, i) && s.pcs[i].Leased?
    ensures var s' := Recover(s, i);
            && Has(s', i) && s'.pcs[i].Working? && s'.pcs[i].plan.cancelled == s.pcs[i].cancelled
            && var todo := s'.pcs[i].plan.todo;
            && (forall key :: key in todo <==> RunningStage(s.stages, StageId(RunOf(s, i), key)))
            && (forall key | key in todo :: todo[key] == s.stages[StageId(RunOf(s, i), key)].input)
  {
    var run, todo := RunOf(s, i), Unsettled(s, RunOf(s, i));
    forall key ensures key in todo <==> RunningStage(s.stages, StageId(run, key)) {
      if RunningStage(s.stages, StageId(run, key)) { assert StageId(run, key) in s.stages; }
    }
  }

  /** A current attempt that records its upstream task leaves the task's id in the stage and in the worker's row. */
  lemma {:induction false} RecordsTask(h: History, n: nat, i: nat)
    requires n < |h| && h[n].event == Does(i, DoRecord) && Has(After(h[..n]), i) && After(h[..n]).pcs[i].Recording?
    requires Guarded(After(h[..n]), i, h[n].now)
    ensures var s, s' := After(h[..n]), After(h[..n + 1]);
            var run, pc := RunOf(s, i), s.pcs[i];
            && StageId(run, pc.key) in s'.stages && s'.stages[StageId(run, pc.key)].upstream == pc.job
            && run in s'.tasks && s'.tasks[run].upstream == pc.job
            && Has(s', i) && s'.pcs[i].Polling? && s'.pcs[i].job == pc.job && s'.pcs[i].key == pc.key
  {
    AfterNext(h, n);
    hide After;
    DoesAct(After(h[..n]), h[n]);
    Records(After(h[..n]), i, h[n].now);
    hide Step, Record;
  }

  lemma Records(s: State, i: nat, now: int)
    requires Has(s, i) && s.pcs[i].Recording? && Guarded(s, i, now)
    ensures var s' := Record(s, i, now);
            var run, pc := RunOf(s, i), s.pcs[i];
            && StageId(run, pc.key) in s'.stages && s'.stages[StageId(run, pc.key)].upstream == pc.job
            && run in s'.tasks && s'.tasks[run].upstream == pc.job
            && Has(s', i) && s'.pcs[i].Polling? && s'.pcs[i].job == pc.job && s'.pcs[i].key == pc.key
  {
  }

  /** A cancel request takes no attempt its right to write, and gives none: whoever works on an effect may finish it. */
  lemma {:induction false} CancelLeavesTheGuard(h: History, n: nat, i: nat, now: int)
    requires n < |h| && h[n].event.CancelRequested? && Has(After(h[..n]), i)
    ensures Has(After(h[..n + 1]), i)
    ensures Guarded(After(h[..n + 1]), i, now) <==> Guarded(After(h[..n]), i, now)
    ensures After(h[..n + 1]).stages == After(h[..n]).stages && After(h[..n + 1]).leases == After(h[..n]).leases
  {
    AfterNext(h, n);
    hide After;
    StepCancels(After(h[..n]), h[n], i, now);
    hide Step, Guarded;
  }

  lemma StepCancels(s: State, x: Timed, i: nat, now: int)
    requires x.event.CancelRequested? && Has(s, i)
    ensures Has(Step(s, x), i) && (Guarded(Step(s, x), i, now) <==> Guarded(s, i, now))
    ensures Step(s, x).stages == s.stages && Step(s, x).leases == s.leases
  {
  }
}
