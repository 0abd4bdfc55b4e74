/** What the Memory protocol promises in every reachable state and over every history. */
module MemoryTheorems {
  import opened Basics
  import Q = WorkerQueue
  import L = ResourceLeases
  import W = Worker
  import opened MemoryProtocol
  import opened MemoryInvariant
  import opened MemorySteps

  lemma AfterNext(h: History, i: nat)
    requires i < |h|
    ensures After(h[..i + 1]) == Step(After(h[..i]), h[i])
  {
    assert h[..i + 1][..i] == h[..i];
  }

  /** All stages in flight of one account belong to one run, in every reachable state. */
  lemma {:induction false} AccountExclusion(h: History, k: StageId, l: StageId)
    requires RunningStage(After(h).stages, k) && RunningStage(After(h).stages, l)
    requires Account(After(h).runs, k.run) == Account(After(h).runs, l.run)
    ensures k.run == l.run
  {
    Always(h);
  }

  /** An upstream task created for `k` that has not ended. */
  predicate Unfinished(s: State, k: StageId) {
    k in s.submissions && s.submissions[k] in s.jobs && !Final(s.jobs[s.submissions[k]])
  }

  /**
   The same for the work itself: whatever late submissions stalled attempts still make, all
   unfinished upstream Compile tasks of one account belong to one run.
   */
  lemma {:induction false} UpstreamExclusion(h: History, k: StageId, l: StageId)
    requires Unfinished(After(h), k) && Unfinished(After(h), l)
    requires Account(After(h).runs, k.run) == Account(After(h).runs, l.run)
    ensures k.run == l.run
  {
    Always(h);
    assert RunningStage(After(h).stages, k) && RunningStage(After(h).stages, l);
  }

  /** Stronger still: an account has at most one stage in flight, and at most one unfinished task at the upstream. */
  lemma {:induction false} OneCompilePerAccount(h: History, k: StageId, l: StageId)
    requires Account(After(h).runs, k.run) == Account(After(h).runs, l.run)
    ensures RunningStage(After(h).stages, k) && RunningStage(After(h).stages, l) ==> k == l
    ensures Unfinished(After(h), k) && Unfinished(After(h), l) ==> k == l
  {
    Always(h);
    OneEach(After(h));
    hide After;
  }

  /** A run that succeeded has finished every Compile it started. */
  lemma {:induction false} SucceededIsQuiet(h: History, run: string)
    requires run in After(h).tasks && After(h).tasks[run].status == Q.Succeeded
    ensures Quiet(After(h).stages, run)
    ensures forall k | k in After(h).submissions && k.run == run :: !Unfinished(After(h), k)
  {
    Always(h);
    hide After;
  }

  /** The key fact: a current attempt in its body owns the lease row, with its own fence. */
  lemma {:induction false} CurrentAttemptOwnsLease(h: History, i: nat, now: int)
    requires Has(After(h), i) && InBody(After(h).pcs[i]) && Guarded(After(h), i, now)
    ensures var s := After(h);
            L.Holds(s.leases, KeyOf(s.runs, s.attempts[i]), RunOf(s, i), s.attempts[i].leaseFence)
  {
    Always(h);
    assert Holder(After(h), i);
  }

  // ---- checkpoints ----

  /** What one event may do to a checkpoint. */
  predicate StageMoves(a: Stage, b: Stage) {
    && b.input == a.input
    && (a.upstream != "" ==> b.upstream == a.upstream)
    && (a.status == Succeeded ==> b == a)
  }

  lemma SaveMoves(s: State, i: nat, id: StageId, input: string, status: StageStatus, upstream: string, k: StageId)
    requires k in s.stages && (id in s.stages ==> s.stages[id].status != Succeeded)
    requires id in s.stages && s.stages[id].upstream != "" ==> upstream == s.stages[id].upstream
    ensures var t := SaveStage(s.stages, id, input, status, upstream); k in t && StageMoves(s.stages[k], t[k])
  {
  }

  lemma MarkMoves(s: State, i: nat, now: int, k: StageId)
    requires Inv(s) && Has(s, i) && s.pcs[i].Marking? && k in s.stages
    ensures k in Mark(s, i, now).stages && StageMoves(s.stages[k], Mark(s, i, now).stages[k])
  {
    hide Global;
    Basic(s, i);
    if Guarded(s, i, now) {
      assert Holder(s, i);
      SaveMoves(s, i, StageId(RunOf(s, i), s.pcs[i].key), s.pcs[i].input, Running, "", k);
    }
  }

  lemma RecordMoves(s: State, i: nat, now: int, k: StageId)
    requires Inv(s) && Has(s, i) && s.pcs[i].Recording? && k in s.stages
    ensures k in Record(s, i, now).stages && StageMoves(s.stages[k], Record(s, i, now).stages[k])
  {
    hide Global;
    Basic(s, i);
    if Guarded(s, i, now) {
      assert Holder(s, i);
      SaveMoves(s, i, StageId(RunOf(s, i), s.pcs[i].key), s.pcs[i].input, Running, s.pcs[i].job, k);
    }
  }

  lemma SettleMoves(s: State, i: nat, now: int, k: StageId)
    requires Inv(s) && Has(s, i) && s.pcs[i].Settling? && k in s.stages
    ensures k in Settle(s, i, now).stages && StageMoves(s.stages[k], Settle(s, i, now).stages[k])
  {
    hide Global;
    Basic(s, i);
    var pc := s.pcs[i];
    if Guarded(s, i, now) && Final(pc.final) {
      assert Holder(s, i);
      var status := if pc.final != Done || pc.stop then StatusOf(pc.final)
                    else if CancelSeen(s, i) then Cancelled else Succeeded;
      SaveMoves(s, i, StageId(RunOf(s, i), pc.key), pc.input, status, pc.job, k);
    }
  }

  lemma CompileMoves(s: State, i: nat, a: Action, now: int, k: StageId)
    requires Inv(s) && Has(s, i) && k in s.stages
    ensures k in Compile(s, i, a, now).stages && StageMoves(s.stages[k], Compile(s, i, a, now).stages[k])
  {
    hide Inv, Mark, Record, Settle;
    if a.DoMark? {
      if s.pcs[i].Marking? { MarkMoves(s, i, now, k); }
    } else if a.DoRecord? {
      if s.pcs[i].Recording? { RecordMoves(s, i, now, k); }
    } else if a.DoSettle? {
      if s.pcs[i].Settling? { SettleMoves(s, i, now, k); }
    }
  }

  lemma StepMoves(s: State, x: Timed, k: StageId)
    requires Inv(s) && k in s.stages
    ensures k in Step(s, x).stages && StageMoves(s.stages[k], Step(s, x).stages[k])
  {
    hide Inv, Compile, Act, Claim, Accept;
    match x.event {
      case Does(i, a) => if Has(s, i) { CompileMoves(s, i, a, x.now, k); }
      case _ =>
    }
  }

  /**
   Over every history a stage's input never changes, its upstream task id is written once, and a
   succeeded stage is never left or changed.
   */
  lemma {:induction false} CheckpointForGood(h: History, i: nat, j: nat, k: StageId)
    requires i <= j <= |h| && k in After(h[..i]).stages
    ensures k in After(h[..j]).stages && StageMoves(After(h[..i]).stages[k], After(h[..j]).stages[k])
    decreases j
  {
    hide Step;
    if i < j {
      CheckpointForGood(h, i, j - 1, k);
      AfterNext(h, j - 1);
      Always(h[..j - 1]);
      StepMoves(After(h[..j - 1]), h[j - 1], k);
    }
  }

  // ---- upstream tasks ----

  /** Every upstream task was created for a stage, and there are as many of them as stages submitted. */
  ghost predicate Tally(submissions: map<StageId, string>, jobs: map<string, JobState>) {
    && (forall u | u in jobs :: exists k :: k in submissions && submissions[k] == u)
    && |submissions| == |jobs|
  }

  lemma UpstreamTally(s: State, id: StageId, newId: string)
    requires Tally(s.submissions, s.jobs)
    ensures var s' := Upstream(s, id, newId);
            && Tally(s'.submissions, s'.jobs)
            && forall k | k in s.submissions :: k in s'.submissions && s'.submissions[k] == s.submissions[k]
  {
    var s' := Upstream(s, id, newId);
    if s' != s {
      assert s'.submissions[id] == newId;
      assert forall k | k in s.submissions :: k in s'.submissions && s'.submissions[k] == s.submissions[k];
    }
  }

  lemma SubmitTally(s: State, i: nat, newId: string, lost: bool)
    requires Has(s, i) && s.pcs[i].Submitting? && Tally(s.submissions, s.jobs)
    ensures var s' := Submit(s, i, newId, lost);
            && Tally(s'.submissions, s'.jobs)
            && forall k | k in s.submissions :: k in s'.submissions && s'.submissions[k] == s.submissions[k]
  {
    hide Upstream, HasRunning, Tally;
    UpstreamTally(s, StageId(RunOf(s, i), s.pcs[i].key), newId);
  }

  lemma MoveTally(s: State, job: string, state: JobState)
    requires Tally(s.submissions, s.jobs) && job in s.jobs
    ensures Tally(s.submissions, s.jobs[job := state])
  {
    assert s.jobs[job := state].Keys == s.jobs.Keys;
  }

  lemma StepTally(s: State, x: Timed)
    requires Tally(s.submissions, s.jobs)
    ensures var s' := Step(s, x);
            && Tally(s'.submissions, s'.jobs)
            && forall k | k in s.submissions :: k in s'.submissions && s'.submissions[k] == s.submissions[k]
  {
    hide Tally, Act, Claim, Accept, Submit;
    match x.event {
      case Does(i, a) =>
        if Has(s, i) && a.DoSubmit? && s.pcs[i].Submitting? { SubmitTally(s, i, a.newId, a.lost); }
      case UpstreamMoves(job, state) => if job in s.jobs { MoveTally(s, job, state); }
      case _ =>
    }
  }

  /** Over every history the upstream holds exactly one task per submitted stage. */
  lemma {:induction false} OneTaskPerStage(h: History)
    ensures Tally(After(h).submissions, After(h).jobs)
    ensures forall k, l | k in After(h).submissions && l in After(h).submissions :: After(h).submissions[k] == After(h).submissions[l] ==> k == l
  {
    Always(h);
    if h != [] {
      OneTaskPerStage(h[..|h| - 1]);
      StepTally(After(h[..|h| - 1]), h[|h| - 1]);
    }
  }

  /** ... and the task of a stage, once created, is the task of that stage for good. */
  lemma {:induction false} SubmissionForGood(h: History, i: nat, j: nat, k: StageId)
    requires i <= j <= |h| && k in After(h[..i]).submissions
    ensures k in After(h[..j]).submissions && After(h[..j]).submissions[k] == After(h[..i]).submissions[k]
    decreases j
  {
    hide Step, Tally;
    if i < j {
      SubmissionForGood(h, i, j - 1, k);
      AfterNext(h, j - 1);
      OneTaskPerStage(h[..j - 1]);
      StepTally(After(h[..j - 1]), h[j - 1]);
    }
  }

  /** A checkpoint that is no longer running has its upstream task, and that task has ended. */
  lemma {:induction false} SettledStageEnded(h: History, k: StageId)
    requires k in After(h).stages && After(h).stages[k].status != Running
    ensures k in After(h).submissions && !Unfinished(After(h), k)
  {
    Always(h);
  }

  // ---- a run cancelled while it waits for a retry leaves its Compile in flight ----

  /** The run is cancelled for good and one of its stages is still marked running. */
  predicate Stranded(s: State, k: StageId) {
    k.run in s.tasks && s.tasks[k.run].status == Q.Cancelled && RunningStage(s.stages, k)
  }

  /** An attempt of a cancelled task is not current: it writes no checkpoint of its run. */
  lemma CancelledIsNotCurrent(s: State, i: nat, now: int, run: string)
    requires Has(s, i) && run in s.tasks && s.tasks[run].status == Q.Cancelled
    ensures RunOf(s, i) == run ==> !Guarded(s, i, now)
  {
  }

  lemma SavesElsewhere(t: map<StageId, Stage>, id: StageId, input: string, status: StageStatus, upstream: string, k: StageId)
    requires k.run != id.run
    ensures RunningStage(SaveStage(t, id, input, status, upstream), k) <==> RunningStage(t, k)
  {
  }

  /** A checkpoint step of another run, or of an attempt that is not current, changes nothing about stage `k`. */
  lemma CompileKeepsStranded(s: State, i: nat, a: Action, now: int, k: StageId)
    requires Has(s, i) && Stranded(s, k)
    ensures Stranded(Compile(s, i, a, now), k)
  {
    CancelledIsNotCurrent(s, i, now, k.run);
    forall key: string, input: string, status, upstream: string | RunOf(s, i) != k.run
      ensures RunningStage(SaveStage(s.stages, StageId(RunOf(s, i), key), input, status, upstream), k)
    {
      SavesElsewhere(s.stages, StageId(RunOf(s, i), key), input, status, upstream, k);
    }
    hide Guarded, Raised, HasRunning, SaveStage, RunningStage, CancelSeen;
    hide OpenStage, RenewForStage, Ask, Submit, RenewForPoll, CheckCancel, Poll;
    if a.DoRecord? && s.pcs[i].Recording? { NotesElsewhere(s, i, s.pcs[i].job, now, k.run); }
    hide Q.AfterUpstream;
  }

  lemma NotesElsewhere(s: State, i: nat, job: string, now: int, run: string)
    requires Has(s, i) && run in s.tasks
    ensures var t := Q.AfterUpstream(s.tasks, s.attempts[i].ticket, job, now); run in t && t[run].status == s.tasks[run].status
  {
  }

  lemma ActKeepsStranded(s: State, i: nat, a: Action, now: int, k: StageId)
    requires Has(s, i) && Stranded(s, k)
    ensures Stranded(Act(s, i, a, now), k)
  {
    CompileKeepsStranded(s, i, a, now, k);
    hide Compile, Admit, Acquire, Recover, Finish, Pulse, Release, Exit, W.WriteOf;
  }

  lemma StepKeepsStranded(s: State, x: Timed, k: StageId)
    requires Stranded(s, k)
    ensures Stranded(Step(s, x), k)
  {
    hide Act;
    match x.event {
      case Does(i, a) => if Has(s, i) { ActKeepsStranded(s, i, a, x.now, k); }
      case _ =>
    }
  }

  lemma {:induction false} StrandedForGood(h: History, i: nat, j: nat, k: StageId)
    requires i <= j <= |h| && Stranded(After(h[..i]), k)
    ensures Stranded(After(h[..j]), k)
    decreases j
  {
    hide Step, Stranded;
    if i < j {
      StrandedForGood(h, i, j - 1, k);
      AfterNext(h, j - 1);
      StepKeepsStranded(After(h[..j - 1]), h[j - 1], k);
    }
  }

  /** From then on no other run of the account is ever admitted to the lease. */
  lemma StrandedBlocksAccount(h: History, i: nat, j: nat, k: StageId, run: string)
    requires i <= j <= |h| && Stranded(After(h[..i]), k)
    requires run in After(h[..j]).runs && run != k.run
    requires Account(After(h[..j]).runs, k.run) == After(h[..j]).runs[run]
    ensures Blocked(After(h[..j]), run)
  {
    StrandedForGood(h, i, j, k);
    Always(h[..j]);
    assert k in After(h[..j]).stages;
  }

  /** One step of `request_cancel`: the run ends at once if it waits, and its stage stays as it was. */
  lemma CancelStrands(s: State, now: int, k: StageId)
    requires k.run in s.tasks && s.tasks[k.run].status != Q.Cancelled
    ensures Stranded(Step(s, At(now, CancelRequested(k.run))), k) <==>
              Q.Waiting(s.tasks[k.run].status) && RunningStage(s.stages, k)
  {
  }

  /** A result that marks its task cancelled is accepted only from the latest attempt, whose run has nothing in flight. */
  lemma OnlyCancelledCancels(t: Q.Table, c: Q.ClaimedTask, r: W.HandlerResult, maxAttempts: int, jitter: int, now: int, run: string)
    requires run in t && t[run].status != Q.Cancelled
    ensures var w := W.WriteOf(c, r, maxAttempts, jitter);
            var t' := Q.AfterWrite(t, c.taskId, c.owner, c.fence, w, now);
            run in t' && (t'[run].status == Q.Cancelled ==> r.Cancelled? && run == c.taskId && t[run].fence == c.fence)
  {
  }

  lemma WriteStrandsNothing(s: State, i: nat, maxAttempts: int, jitter: int, now: int, k: StageId)
    requires Inv(s) && Has(s, i) && s.pcs[i].Left? && !Stranded(s, k)
    ensures !Stranded(WriteBack(s, i, maxAttempts, jitter, now), k)
  {
    hide Inv, StageKnowledge, Q.AfterWrite, W.WriteOf;
    Basic(s, i);
    if k.run in s.tasks && s.tasks[k.run].status != Q.Cancelled {
      OnlyCancelledCancels(s.tasks, s.attempts[i].ticket, s.pcs[i].result, maxAttempts, jitter, now, k.run);
    } else if k.run !in s.tasks {
      WritesNoRow(s.tasks, s.attempts[i].ticket, s.pcs[i].result, maxAttempts, jitter, now);
    }
  }

  lemma WritesNoRow(t: Q.Table, c: Q.ClaimedTask, r: W.HandlerResult, maxAttempts: int, jitter: int, now: int)
    ensures Q.AfterWrite(t, c.taskId, c.owner, c.fence, W.WriteOf(c, r, maxAttempts, jitter), now).Keys == t.Keys
  {
  }

  lemma BeatStrandsNothing(s: State, id: string, owner: string, fence: nat, lease: int, now: int, k: StageId)
    requires !Stranded(s, k)
    ensures !Stranded(s.(tasks := Q.AfterBeat(s.tasks, id, owner, fence, lease, now)), k)
  {
  }

  /** ... so it puts nothing in flight either, and no step of a stage cancels a task. */
  lemma CompileStrandsNothing(s: State, i: nat, a: Action, now: int, k: StageId)
    requires Has(s, i) && !Stranded(s, k)
    ensures !Stranded(Compile(s, i, a, now), k)
  {
    if k.run in s.tasks && s.tasks[k.run].status == Q.Cancelled { CancelledIsNotCurrent(s, i, now, k.run); }
    forall key: string, input: string, status, upstream: string | RunOf(s, i) != k.run
      ensures RunningStage(SaveStage(s.stages, StageId(RunOf(s, i), key), input, status, upstream), k) <==> RunningStage(s.stages, k)
    {
      SavesElsewhere(s.stages, StageId(RunOf(s, i), key), input, status, upstream, k);
    }
    hide Guarded, Raised, HasRunning, SaveStage, RunningStage, CancelSeen;
    hide OpenStage, RenewForStage, Ask, Submit, RenewForPoll, CheckCancel, Poll;
    if a.DoRecord? && s.pcs[i].Recording? {
      if k.run in s.tasks { NotesElsewhere(s, i, s.pcs[i].job, now, k.run); } else { NotesNoRow(s, i, s.pcs[i].job, now); }
    }
    hide Q.AfterUpstream;
  }

  lemma NotesNoRow(s: State, i: nat, job: string, now: int)
    requires Has(s, i)
    ensures Q.AfterUpstream(s.tasks, s.attempts[i].ticket, job, now).Keys == s.tasks.Keys
  {
  }

  lemma ActStrandsNothing(s: State, i: nat, a: Action, now: int, k: StageId)
    requires Inv(s) && Has(s, i) && !Stranded(s, k)
    ensures !Stranded(Act(s, i, a, now), k)
  {
    hide Inv, Compile, Admit, Acquire, Recover, Finish, Pulse, Release, Exit, WriteBack, W.WriteOf, Q.AfterBeat;
    CompileStrandsNothing(s, i, a, now, k);
    if a.DoWriteBack? && s.pcs[i].Left? {
      WriteStrandsNothing(s, i, a.maxAttempts, a.jitter, now, k);
    } else if a.DoBeat? {
      BeatStrandsNothing(s, RunOf(s, i), s.attempts[i].ticket.owner, s.attempts[i].ticket.fence, a.lease, now, k);
    }
  }

  /** The event is a cancel request that finds its run between attempts with stage `k` in flight. */
  predicate Strands(s: State, x: Timed, k: StageId) {
    && x.event == CancelRequested(k.run) && k.run in s.tasks
    && Q.Waiting(s.tasks[k.run].status) && RunningStage(s.stages, k)
  }

  lemma ClaimStrandsNothing(s: State, owner: string, lease: int, locked: set<string>, pick: Option<string>, now: int, k: StageId)
    requires !Stranded(s, k)
    ensures !Stranded(Claim(s, owner, lease, locked, pick, now), k)
  {
  }

  lemma RowsStrandNothing(s: State, run: string, account: string, now: int, k: StageId)
    requires !Stranded(s, k)
    ensures !Stranded(Accept(s, run, account, now), k)
    ensures !Stranded(s.(tasks := Q.AfterRequeue(s.tasks, run, now)), k)
  {
  }

  lemma StepStrands(s: State, x: Timed, k: StageId)
    requires Inv(s) && !Stranded(s, k)
    ensures Stranded(Step(s, x), k) ==> Strands(s, x, k)
  {
    hide Inv, Act, Claim, Accept, Q.AfterRequeue;
    match x.event {
      case Does(i, a) => if Has(s, i) { ActStrandsNothing(s, i, a, x.now, k); }
      case Claims(owner, lease, locked, pick) => ClaimStrandsNothing(s, owner, lease, locked, pick, x.now, k);
      case Accepts(run, account) => RowsStrandNothing(s, run, account, x.now, k);
      case Requeued(run) => RowsStrandNothing(s, run, "", x.now, k);
      case _ =>
    }
  }

  lemma {:induction false} StrandedHasCause(h: History, k: StageId)
    requires Stranded(After(h), k)
    ensures exists i :: 0 <= i < |h| && Strands(After(h[..i]), h[i], k)
    decreases |h|
  {
    hide Step, Stranded;
    if h == [] {
      NothingStranded(k);
    } else {
      var n := |h| - 1;
      var front := h[..n];
      Always(front);
      assert After(h) == Step(After(front), h[n]);
      if Stranded(After(front), k) {
        StrandedHasCause(front, k);
        var i :| 0 <= i < |front| && Strands(After(front[..i]), front[i], k);
        assert front[..i] == h[..i] && front[i] == h[i];
      } else {
        StepStrands(After(front), h[n], k);
        assert h[..n] == front;
      }
    }
  }

  lemma NothingStranded(k: StageId)
    ensures !Stranded(After([]), k)
  {
  }

  /**
   Over every history: a run is cancelled for good with stage `k` still in flight exactly if some cancel request
   found it waiting between two attempts with that stage in flight. No other event of any attempt, however late,
   leaves a cancelled run with a running stage.
   */
  lemma {:induction false} StrandedExactly(h: History, k: StageId)
    ensures Stranded(After(h), k) <==> exists i :: 0 <= i < |h| && Strands(After(h[..i]), h[i], k)
  {
    hide Step, Stranded;
    if Stranded(After(h), k) { StrandedHasCause(h, k); }
    if i :| 0 <= i < |h| && Strands(After(h[..i]), h[i], k) {
      AfterNext(h, i);
      assert Stranded(After(h[..i + 1]), k) by { CancelStrandsNow(After(h[..i]), h[i], k); }
      StrandedForGood(h, i + 1, |h|, k);
      assert h[..|h|] == h;
    }
  }

  lemma CancelStrandsNow(s: State, x: Timed, k: StageId)
    requires Strands(s, x, k)
    ensures Stranded(Step(s, x), k)
  {
    CancelStrands(s, x.now, k);
  }
}
