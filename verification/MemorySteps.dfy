/** Every event of the Memory protocol keeps the invariant. */
module MemorySteps {
  import opened Basics
  import Q = WorkerQueue
  import L = ResourceLeases
  import W = Worker
  import opened MemoryProtocol
  import opened MemoryInvariant

  lemma Basic(s: State, i: nat)
    requires Inv(s) && Has(s, i)
    ensures RunOf(s, i) in s.runs && RunOf(s, i) in s.tasks && s.attempts[i].ticket.fence <= s.tasks[RunOf(s, i)].fence
    ensures NoParking(s.pcs[i]) && StageKnowledge(s, i) && PlanKnowledge(s, i)
  {
    assert s.attempts[i] in s.attempts && s.pcs[i] in s.pcs;
  }

  lemma RowsOf(s: State)
    requires Inv(s)
    ensures forall r | r in s.tasks :: s.tasks[r].status != Q.WaitingExternal
    ensures forall r | r in s.tasks && s.tasks[r].status == Q.Succeeded :: r in s.finished
  {
  }

  lemma BookOf(s: State, id: StageId)
    requires Inv(s) && id in s.stages && s.stages[id].upstream != ""
    ensures Submitted(s, id, s.stages[id].upstream)
  {
  }

  // ---- steps that only move an attempt, its task row or a deadline ----

  lemma RaisedInv(s: State, i: nat)
    requires Inv(s) && Has(s, i)
    ensures Inv(Raised(s, i))
  {
    hide Global, LocalKnowledge;
    CarefreeInv(s, i, Raised(s, i).pcs[i]);
  }

  lemma RenewedInv(s: State, i: nat, now: int)
    requires Inv(s) && Has(s, i) && RunOf(s, i) in s.runs
    ensures Inv(Renewed(s, i, now))
  {
    hide Global;
    HeartbeatInv(s, Renewed(s, i, now).leases);
  }

  lemma AdmitKnows(s: State, i: nat, now: int)
    requires Has(s, i) && s.pcs[i].Entered?
    ensures PlanKnowledge(Admit(s, i, now), i)
  {
    hide PlanKnowledge;
    AdmitGoes(s, i, now);
    AtTheDoor(Admit(s, i, now), i);
  }

  lemma AdmitGoes(s: State, i: nat, now: int)
    requires Has(s, i) && s.pcs[i].Entered?
    ensures var s' := Admit(s, i, now);
            Has(s', i) && s'.finished == s.finished && RunOf(s', i) == RunOf(s, i) && TurnedAway(s', i)
  {
    hide Guarded, CancelSeen;
  }

  /** Put off, told the stored result, or admitted to a run that has none. */
  predicate TurnedAway(s: State, i: nat)
    requires Has(s, i)
  {
    var pc := s.pcs[i];
    || pc == Left(W.RetryLater("handler_exception", 0))
    || (pc == Left(W.Succeeded(RunOf(s, i))) && RunOf(s, i) in s.finished)
    || (pc.Admitted? && RunOf(s, i) !in s.finished)
  }

  lemma AtTheDoor(s: State, i: nat)
    requires Has(s, i) && TurnedAway(s, i)
    ensures PlanKnowledge(s, i)
  {
    hide Quiet, Planned, OnlyStage;
  }

  lemma AdmitInv(s: State, i: nat, now: int)
    requires Inv(s) && Has(s, i) && s.pcs[i].Entered?
    ensures Inv(Admit(s, i, now))
  {
    hide Global, StageKnowledge, PlanKnowledge, Guarded, CancelSeen;
    AdmitKnows(s, i, now);
    BlankInv(s, i, Admit(s, i, now).pcs[i]);
  }

  /** What is listed for recovery is what is in flight: at most one stage. */
  lemma UnsettledIsPlanned(s: State, run: string, cancelled: bool)
    requires OneStagePerRun(s.stages)
    ensures Planned(s.stages, run, Plan(cancelled, Unsettled(s, run)))
    ensures forall x, y | x in Unsettled(s, run) && y in Unsettled(s, run) :: x == y
  {
    forall k | RunningStage(s.stages, k) && k.run == run ensures k.key in Unsettled(s, run) {}
    forall x | x in Unsettled(s, run) ensures RunningStage(s.stages, StageId(run, x)) {
      var id :| id in s.stages && id.run == run && s.stages[id].status == Running && id.key == x;
      assert id == StageId(run, x);
    }
    forall x, y | x in Unsettled(s, run) && y in Unsettled(s, run) ensures x == y {
      assert RunningStage(s.stages, StageId(run, x)) && RunningStage(s.stages, StageId(run, y));
    }
  }

  lemma RecoveredKnows(s: State, i: nat)
    requires Has(s, i) && s.pcs[i].Leased? && PlanKnowledge(s, i) && OneStagePerRun(s.stages)
    ensures PlanKnowledge(Recover(s, i), i)
  {
    UnsettledIsPlanned(s, RunOf(s, i), s.pcs[i].cancelled);
    hide Unsettled, Planned, OneStagePerRun;
  }

  lemma WorkInv(s: State, i: nat, plan: Plan)
    requires Inv(s) && Has(s, i) && InBody(s.pcs[i]) && PlanKnowledge(Goto(s, i, Working(plan)), i)
    ensures Inv(Goto(s, i, Working(plan)))
  {
    hide Inv, PlanKnowledge, StageKnowledge;
    BlankInv(s, i, Working(plan));
  }

  lemma RecoverInv(s: State, i: nat)
    requires Inv(s) && Has(s, i) && s.pcs[i].Leased?
    ensures Inv(Recover(s, i))
  {
    hide Inv, Unsettled, PlanKnowledge, StageKnowledge, OneStagePerRun;
    OneEach(s);
    Basic(s, i);
    RecoveredKnows(s, i);
    WorkInv(s, i, Plan(s.pcs[i].cancelled, Unsettled(s, RunOf(s, i))));
  }

  /** The plan and the stage in hand stay the same over most steps of a stage. */
  lemma StaysInHand(s: State, i: nat, pc: Pc)
    requires Has(s, i) && InHand(s.pcs[i]) && InHand(pc) && PlanKnowledge(s, i)
    requires pc.key == s.pcs[i].key && pc.plan == s.pcs[i].plan
    ensures PlanKnowledge(Goto(s, i, pc), i)
  {
  }

  /** Marking the stage in hand as running puts nothing else in flight. */
  lemma MarkedOnly(stages: map<StageId, Stage>, run: string, key: string, input: string, upstream: string)
    requires OnlyStage(stages, run, key)
    ensures OnlyStage(SaveStage(stages, StageId(run, key), input, Running, upstream), run, key)
  {
  }

  lemma InHandPlan(s: State, i: nat)
    requires Has(s, i) && InHand(s.pcs[i])
    ensures PlanKnowledge(s, i) <==>
              && (forall x | x in s.pcs[i].plan.todo :: x == s.pcs[i].key)
              && (Latest(s, i) ==> RunOf(s, i) !in s.finished && OnlyStage(s.stages, RunOf(s, i), s.pcs[i].key))
  {
    hide OnlyStage, Quiet, Planned, Latest;
  }

  lemma MarkedInHand(s: State, i: nat, input: string, upstream: string, pc: Pc)
    requires Has(s, i) && InHand(s.pcs[i]) && InHand(pc) && PlanKnowledge(s, i)
    requires pc.key == s.pcs[i].key && pc.plan == s.pcs[i].plan
    ensures var id := StageId(RunOf(s, i), pc.key);
            PlanKnowledge(Goto(s.(stages := SaveStage(s.stages, id, input, Running, upstream)), i, pc), i)
  {
    var id := StageId(RunOf(s, i), pc.key);
    var s' := Goto(s.(stages := SaveStage(s.stages, id, input, Running, upstream)), i, pc);
    InHandPlan(s, i);
    InHandPlan(s', i);
    hide PlanKnowledge, OnlyStage, SaveStage;
    if OnlyStage(s.stages, RunOf(s, i), pc.key) { MarkedOnly(s.stages, RunOf(s, i), pc.key, input, upstream); }
  }

  /** Settling the stage in hand leaves the run with nothing in flight. */
  lemma SettledQuiet(s: State, i: nat, input: string, status: StageStatus, job: string)
    requires Has(s, i) && InHand(s.pcs[i]) && PlanKnowledge(s, i) && Latest(s, i) && status != Running
    ensures Quiet(SaveStage(s.stages, StageId(RunOf(s, i), s.pcs[i].key), input, status, job), RunOf(s, i))
    ensures RunOf(s, i) !in s.finished && Without(s.pcs[i].plan, s.pcs[i].key).todo == map[]
  {
    hide Holder;
    var id := StageId(RunOf(s, i), s.pcs[i].key);
    var stages := SaveStage(s.stages, id, input, status, job);
    assert forall k | RunningStage(stages, k) :: k != id && RunningStage(s.stages, k);
  }

  /** A place that is right for a run with nothing in flight. */
  lemma QuietKnows(s: State, i: nat)
    requires Has(s, i) && Quiet(s.stages, RunOf(s, i)) && RunOf(s, i) !in s.finished
    requires if s.pcs[i].Working? then s.pcs[i].plan.todo == map[] else Carefree(s.pcs[i]) || Returns(s.pcs[i], W.Cancelled)
    ensures LocalKnowledge(s, i)
  {
    hide Holder, Latest;
  }

  lemma OneEach(s: State)
    requires Inv(s)
    ensures OneStagePerRun(s.stages)
  {
  }

  /** A body opens only the stage it has to recover, or any stage when its run has none in flight. */
  lemma OpensOnly(s: State, i: nat, key: string, input: string)
    requires Inv(s) && Has(s, i) && s.pcs[i].Working? && MayOpen(s.pcs[i].plan, key, input)
    ensures forall x | x in s.pcs[i].plan.todo :: x == key
    ensures Latest(s, i) ==> OnlyStage(s.stages, RunOf(s, i), key)
  {
    Basic(s, i);
    OneEach(s);
    hide Global, LocalKnowledge;
  }

  lemma ReadKnows(s: State, i: nat, id: StageId, pc: Pc)
    requires Has(s, i) && s.pcs[i].Working? && PlanKnowledge(s, i) && id.run == RunOf(s, i)
    requires pc.StageRead? && pc.key == id.key && pc.plan == s.pcs[i].plan
    requires pc.seen == if id in s.stages then Some(s.stages[id]) else None
    requires id in s.stages ==> s.stages[id].status != Succeeded
    requires id in s.stages && s.stages[id].upstream != "" ==> Submitted(s, id, s.stages[id].upstream)
    requires (forall x | x in pc.plan.todo :: x == pc.key) && (Latest(s, i) ==> OnlyStage(s.stages, RunOf(s, i), pc.key))
    ensures StageKnowledge(Goto(s, i, pc), i) && PlanKnowledge(Goto(s, i, pc), i)
  {
    assert StageId(RunOf(s, i), pc.key) == id;
  }

  lemma ReadStage(s: State, i: nat, id: StageId, input: string, plan: Plan)
    requires Inv(s) && Has(s, i) && s.pcs[i].Working? && id.run == RunOf(s, i) && plan == s.pcs[i].plan
    requires id in s.stages ==> s.stages[id].status != Succeeded
    requires MayOpen(plan, id.key, input)
    ensures Inv(Goto(s, i, StageRead(id.key, input, if id in s.stages then Some(s.stages[id]) else None, plan)))
  {
    var pc := StageRead(id.key, input, if id in s.stages then Some(s.stages[id]) else None, plan);
    Basic(s, i);
    OpensOnly(s, i, id.key, input);
    if id in s.stages && s.stages[id].upstream != "" { BookOf(s, id); }
    ReadKnows(s, i, id, pc);
    hide Inv, Global, MayOpen, PlanKnowledge, StageKnowledge;
    GotoInv(s, i, pc);
  }

  lemma SkipStage(s: State, i: nat, id: StageId, input: string)
    requires Inv(s) && Has(s, i) && s.pcs[i].Working? && id.run == RunOf(s, i)
    requires id in s.stages && s.stages[id].status == Succeeded && MayOpen(s.pcs[i].plan, id.key, input)
    ensures Inv(Goto(s, i, Working(Without(s.pcs[i].plan, id.key))))
  {
    hide Global;
    Basic(s, i);
    OpensOnly(s, i, id.key, input);
    hide StageKnowledge;
    BlankInv(s, i, Working(Without(s.pcs[i].plan, id.key)));
  }

  lemma {:induction false} OpenStageInv(s: State, i: nat, key: string, input: string, now: int)
    requires Inv(s) && Has(s, i) && s.pcs[i].Working?
    ensures Inv(OpenStage(s, i, key, input, now))
  {
    hide Inv, Guarded, HasRunning, LocalKnowledge, Raised, MayOpen;
    var s', id, plan := OpenStage(s, i, key, input, now), StageId(RunOf(s, i), key), s.pcs[i].plan;
    if !MayOpen(plan, key, input) {
    } else if !Guarded(s, i, now) {
      RaisedInv(s, i);
    } else if id in s.stages && s.stages[id].input != input {
      CarefreeInv(s, i, Leaving(Some(W.Failed("memory_pipeline_invalid"))));
    } else if id in s.stages && s.stages[id].status == Succeeded {
      SkipStage(s, i, id, input);
    } else {
      ReadStage(s, i, id, input, plan);
    }
  }

  lemma RenewForStageInv(s: State, i: nat, now: int)
    requires Inv(s) && Has(s, i) && s.pcs[i].StageRead?
    ensures Inv(RenewForStage(s, i, now))
  {
    hide Global;
    if CanRenew(s, i, now) {
      var m := Renewed(s, i, now);
      RenewedInv(s, i, now);
      Basic(m, i);
      StaysInHand(m, i, RenewForStage(s, i, now).pcs[i]);
      hide PlanKnowledge;
      GotoInv(m, i, RenewForStage(s, i, now).pcs[i]);
    } else {
      RaisedInv(s, i);
    }
  }

  lemma AskInv(s: State, i: nat)
    requires Inv(s) && Has(s, i) && s.pcs[i].Asking?
    ensures Inv(Ask(s, i))
  {
    hide Global;
    Basic(s, i);
    StaysInHand(s, i, Ask(s, i).pcs[i]);
    hide PlanKnowledge;
    GotoInv(s, i, Ask(s, i).pcs[i]);
  }

  /** A mark is made by a current attempt, for the one stage its run may have in flight. */
  lemma MayMark(s: State, i: nat, now: int)
    requires Inv(s) && Has(s, i) && InHand(s.pcs[i]) && Guarded(s, i, now)
    ensures Holder(s, i) && Latest(s, i)
    ensures OnlyStage(s.stages, RunOf(s, i), s.pcs[i].key) && RunOf(s, i) !in s.finished
  {
    Basic(s, i);
    hide Global, StageKnowledge;
  }

  /** A cancel stops a mark only while the stage is not running, so the run has nothing in flight. */
  lemma UnmarkedIsQuiet(s: State, i: nat)
    requires Has(s, i) && s.pcs[i].Marking? && StageKnowledge(s, i) && PlanKnowledge(s, i) && Holder(s, i)
    requires !(s.pcs[i].seen.Some? && s.pcs[i].seen.value.status == Running)
    ensures Quiet(s.stages, RunOf(s, i))
  {
    assert forall k | RunningStage(s.stages, k) && k.run == RunOf(s, i) :: k == StageId(RunOf(s, i), s.pcs[i].key);
  }

  lemma MarkedInv(s: State, i: nat, now: int)
    requires Inv(s) && Has(s, i) && s.pcs[i].Marking? && Guarded(s, i, now)
    ensures var pc := s.pcs[i];
            Inv(Goto(s.(stages := SaveStage(s.stages, StageId(RunOf(s, i), pc.key), pc.input, Running, "")), i,
                     Submitting(pc.key, pc.input, pc.submitted, pc.plan)))
  {
    hide Global, HasRunning;
    var pc := s.pcs[i];
    var next := Submitting(pc.key, pc.input, pc.submitted, pc.plan);
    Basic(s, i);
    MayMark(s, i, now);
    MarkedInHand(s, i, pc.input, "", next);
    hide PlanKnowledge, OnlyStage;
    SaveInv(s, i, StageId(RunOf(s, i), pc.key), pc.input, Running, "", next);
  }

  lemma {:induction false} MarkInv(s: State, i: nat, now: int)
    requires Inv(s) && Has(s, i) && s.pcs[i].Marking?
    ensures Inv(Mark(s, i, now))
  {
    hide Global, HasRunning;
    var pc, s' := s.pcs[i], Mark(s, i, now);
    Basic(s, i);
    if !Guarded(s, i, now) {
      RaisedInv(s, i);
    } else if !s'.pcs[i].Submitting? {
      MayMark(s, i, now);
      UnmarkedIsQuiet(s, i);
      hide PlanKnowledge, StageKnowledge;
      QuietKnows(s', i);
      BlankInv(s, i, s'.pcs[i]);
    } else {
      hide Inv, StageKnowledge, PlanKnowledge;
      MarkedInv(s, i, now);
    }
  }

  lemma {:induction false} RecordInv(s: State, i: nat, now: int)
    requires Inv(s) && Has(s, i) && s.pcs[i].Recording?
    ensures Inv(Record(s, i, now))
  {
    hide Global, HasRunning;
    var pc, s' := s.pcs[i], Record(s, i, now);
    Basic(s, i);
    if !Guarded(s, i, now) {
      RaisedInv(s, i);
    } else {
      MayMark(s, i, now);
      RowsOf(s);
      MarkedInHand(s, i, pc.input, pc.job, s'.pcs[i]);
      hide PlanKnowledge, OnlyStage;
      SaveInv(s, i, StageId(RunOf(s, i), pc.key), pc.input, Running, pc.job, s'.pcs[i]);
      RelaxInv(Goto(s.(stages := s'.stages), i, s'.pcs[i]), s'.tasks);
    }
  }

  lemma RenewForPollInv(s: State, i: nat, now: int)
    requires Inv(s) && Has(s, i) && s.pcs[i].Polling?
    ensures Inv(RenewForPoll(s, i, now))
  {
    hide Global;
    if CanRenew(s, i, now) {
      var m := Renewed(s, i, now);
      RenewedInv(s, i, now);
      Basic(m, i);
      StaysInHand(m, i, RenewForPoll(s, i, now).pcs[i]);
      hide PlanKnowledge;
      GotoInv(m, i, RenewForPoll(s, i, now).pcs[i]);
    } else {
      RaisedInv(s, i);
    }
  }

  lemma CheckCancelInv(s: State, i: nat, now: int)
    requires Inv(s) && Has(s, i) && s.pcs[i].Checking?
    ensures Inv(CheckCancel(s, i, now))
  {
    hide Global, HasRunning;
    Basic(s, i);
    if Guarded(s, i, now) {
      StaysInHand(s, i, CheckCancel(s, i, now).pcs[i]);
      hide PlanKnowledge;
      GotoInv(s, i, CheckCancel(s, i, now).pcs[i]);
    } else {
      RaisedInv(s, i);
    }
  }

  lemma PollInv(s: State, i: nat)
    requires Inv(s) && Has(s, i) && s.pcs[i].Watching?
    ensures Inv(Poll(s, i))
  {
    hide Global, HasRunning;
    Basic(s, i);
    if s.pcs[i].job in s.jobs {
      StaysInHand(s, i, Poll(s, i).pcs[i]);
      hide PlanKnowledge;
      GotoInv(s, i, Poll(s, i).pcs[i]);
    } else {
      RaisedInv(s, i);
    }
  }

  lemma {:induction false} SettleInv(s: State, i: nat, now: int)
    requires Inv(s) && Has(s, i) && s.pcs[i].Settling?
    ensures Inv(Settle(s, i, now))
  {
    hide Global;
    var pc, s' := s.pcs[i], Settle(s, i, now);
    Basic(s, i);
    if !Guarded(s, i, now) || !Final(pc.final) {
      RaisedInv(s, i);
    } else {
      var status := if pc.final != Done || pc.stop then StatusOf(pc.final)
                    else if CancelSeen(s, i) then Cancelled else Succeeded;
      MayMark(s, i, now);
      SettledQuiet(s, i, pc.input, status, pc.job);
      hide PlanKnowledge, Quiet, OnlyStage, SaveStage;
      QuietKnows(s', i);
      SaveInv(s, i, StageId(RunOf(s, i), pc.key), pc.input, status, pc.job, s'.pcs[i]);
    }
  }

  /** The run's result is stored by its latest attempt, which then leaves the body. */
  function Stored(s: State, i: nat): State
    requires Has(s, i)
  {
    Goto(s.(finished := s.finished + {RunOf(s, i)}), i, Leaving(Some(W.Succeeded(RunOf(s, i)))))
  }

  lemma StoredUndisturbed(s: State, i: nat, j: nat)
    requires Global(s) && Has(s, i) && Has(s, j) && i != j && Latest(s, i)
    ensures Undisturbed(s, Stored(s, i), j)
  {
    if Latest(s, j) && RunOf(s, j) == RunOf(s, i) { LatestUnique(s, i, j); }
    hide Global;
  }

  lemma StoredInv(s: State, i: nat)
    requires Inv(s) && Has(s, i) && InBody(s.pcs[i]) && Latest(s, i) && Quiet(s.stages, RunOf(s, i))
    ensures Inv(Stored(s, i))
  {
    hide Global, LocalKnowledge, Undisturbed, Quiet;
    var s' := Stored(s, i);
    StoredGlobal(s, RunOf(s, i));
    GotoGlobal(s.(finished := s.finished + {RunOf(s, i)}), i, Leaving(Some(W.Succeeded(RunOf(s, i)))));
    forall j: nat | Has(s', j) ensures LocalKnowledge(s', j) {
      if j == i {
        LeavesKnow(s', i);
      } else {
        StoredUndisturbed(s, i, j);
        KnowledgeKept(s, s', j);
      }
    }
  }

  lemma LeavesKnow(s: State, i: nat)
    requires Has(s, i) && RunOf(s, i) in s.finished && s.pcs[i] == Leaving(Some(W.Succeeded(RunOf(s, i))))
    ensures LocalKnowledge(s, i)
  {
  }

  lemma StoredGlobal(s: State, run: string)
    requires Global(s) && Quiet(s.stages, run)
    ensures Global(s.(finished := s.finished + {run}))
  {
    hide LeasesOrdered, OneRunPerAccount, Books, LiveJobsMarked, OneStagePerRun, TicketsDistinct, Known, NeverParked;
    var s' := s.(finished := s.finished + {run});
    assert forall j: nat :: Holder(s', j) == Holder(s, j);
  }

  lemma CancelledKnows(s: State, i: nat)
    requires Has(s, i) && s.pcs[i].Working? && s.pcs[i].plan.todo == map[] && PlanKnowledge(s, i)
    ensures PlanKnowledge(Goto(s, i, Leaving(Some(W.Cancelled))), i)
    ensures Latest(s, i) ==> Quiet(s.stages, RunOf(s, i))
  {
  }

  lemma FinishInv(s: State, i: nat, now: int)
    requires Inv(s) && Has(s, i) && s.pcs[i].Working?
    ensures Inv(Finish(s, i, now))
  {
    Basic(s, i);
    hide Global, LocalKnowledge, StageKnowledge, HasRunning;
    if s.pcs[i].plan.todo != map[] {
    } else if s.pcs[i].plan.cancelled || (Guarded(s, i, now) && CancelSeen(s, i)) {
      CancelledKnows(s, i);
      hide Inv, PlanKnowledge;
      BlankInv(s, i, Leaving(Some(W.Cancelled)));
    } else if !Guarded(s, i, now) {
      RaisedInv(s, i);
    } else {
      CancelledKnows(s, i);
      StoredInv(s, i);
    }
  }

  lemma PulseInv(s: State, i: nat, now: int)
    requires Inv(s) && Has(s, i) && InBody(s.pcs[i])
    ensures Inv(Pulse(s, i, now))
  {
    hide Global;
    if CanRenew(s, i, now) { RenewedInv(s, i, now); } else { RaisedInv(s, i); }
  }

  lemma ThrowInv(s: State, i: nat)
    requires Inv(s) && Has(s, i)
    ensures Inv(Throw(s, i))
  {
    hide Global, LocalKnowledge;
    var s' := Throw(s, i);
    if s' != s { CarefreeInv(s, i, s'.pcs[i]); }
  }

  lemma WriteIsUnparked(c: Q.ClaimedTask, r: W.HandlerResult, maxAttempts: int, jitter: int)
    requires !r.WaitingOn?
    ensures !W.WriteOf(c, r, maxAttempts, jitter).WaitExternal?
    ensures W.WriteOf(c, r, maxAttempts, jitter).Succeed? <==> r.Succeeded?
  {
  }

  lemma WriteRelaxes(t: Q.Table, c: Q.ClaimedTask, w: Q.Write, now: int, finished: set<string>)
    requires !w.WaitExternal? && (w.Succeed? ==> c.taskId in finished)
    requires forall r | r in t :: t[r].status != Q.WaitingExternal
    requires forall r | r in t && t[r].status == Q.Succeeded :: r in finished
    ensures RowsRelax(t, Q.AfterWrite(t, c.taskId, c.owner, c.fence, w, now), finished)
  {
  }

  lemma WrittenRelax(s: State, i: nat, maxAttempts: int, jitter: int, now: int)
    requires Has(s, i) && s.pcs[i].Left? && NoParking(s.pcs[i])
    requires forall r | r in s.tasks :: s.tasks[r].status != Q.WaitingExternal
    requires forall r | r in s.tasks && s.tasks[r].status == Q.Succeeded :: r in s.finished
    requires s.pcs[i].result.Succeeded? ==> RunOf(s, i) in s.finished
    ensures RowsRelax(s.tasks, WriteBack(s, i, maxAttempts, jitter, now).tasks, s.finished)
  {
    hide RowsRelax, Q.AfterWrite, W.WriteOf;
    var c := s.attempts[i].ticket;
    WriteIsUnparked(c, s.pcs[i].result, maxAttempts, jitter);
    WriteRelaxes(s.tasks, c, W.WriteOf(c, s.pcs[i].result, maxAttempts, jitter), now, s.finished);
  }

  lemma WriteBackInv(s: State, i: nat, maxAttempts: int, jitter: int, now: int)
    requires Inv(s) && Has(s, i) && s.pcs[i].Left?
    ensures Inv(WriteBack(s, i, maxAttempts, jitter, now))
  {
    var s' := WriteBack(s, i, maxAttempts, jitter, now);
    RowsOf(s);
    Basic(s, i);
    WrittenRelax(s, i, maxAttempts, jitter, now);
    hide Global, LocalKnowledge, RowsRelax, Q.AfterWrite, W.WriteOf;
    RelaxInv(s, s'.tasks);
    CarefreeInv(s.(tasks := s'.tasks), i, Gone);
  }

  // ---- steps on the lease, the task table and the upstream ----

  lemma LeaseKeyInjective(a: string, b: string)
    requires LeaseKey(a) == LeaseKey(b)
    ensures a == b
  {
    var p := "memory:account:";
    assert a == LeaseKey(a)[|p|..] && b == LeaseKey(b)[|p|..];
  }

  /** No other attempt is a holder of an account whose lease is free to `run`. */
  lemma UnblockedIsAlone(s: State, run: string, j: nat)
    requires Global(s) && run in s.runs && !Blocked(s, run)
    requires Holder(s, j) && Account(s.runs, RunOf(s, j)) == s.runs[run]
    ensures RunOf(s, j) == run
  {
    assert L.Holds(s.leases, KeyOf(s.runs, s.attempts[j]), RunOf(s, j), s.attempts[j].leaseFence);
  }

  /** Two attempts of one run cannot both carry the fence of its row. */
  lemma SameTicket(s: State, i: nat, j: nat)
    requires Global(s) && Has(s, i) && Has(s, j) && RunOf(s, i) == RunOf(s, j)
    requires s.attempts[i].ticket.fence == s.attempts[j].ticket.fence
    ensures i == j
  {
  }

  lemma AcquireLeases(s: State, i: nat, key: string, owner: string, until: int)
    requires LeasesOrdered(s.runs, s.attempts, s.leases) && i < |s.attempts| && key == KeyOf(s.runs, s.attempts[i])
    ensures LeasesOrdered(s.runs, s.attempts[i := s.attempts[i].(leaseFence := L.NextFence(s.leases, key))],
                          s.leases[key := L.Lease(owner, L.NextFence(s.leases, key), Some(until))])
  {
    var c := s.attempts[i].(leaseFence := L.NextFence(s.leases, key));
    var attempts, leases := s.attempts[i := c], s.leases[key := L.Lease(owner, L.NextFence(s.leases, key), Some(until))];
    forall d | d in attempts && d.leaseFence > 0
      ensures KeyOf(s.runs, d) in leases && d.leaseFence <= leases[KeyOf(s.runs, d)].fence
    {
      assert d in s.attempts || d == c;
    }
    forall a, b | 0 <= a < b < |attempts| && KeyOf(s.runs, attempts[a]) == KeyOf(s.runs, attempts[b]) && attempts[a].leaseFence > 0
      ensures attempts[a].leaseFence != attempts[b].leaseFence
    {
      assert s.attempts[a] in s.attempts && s.attempts[b] in s.attempts;
    }
  }

  /** A granted acquire: the only attempt of the account that can be a holder afterwards is the one granted. */
  lemma GrantedLonely(s: State, i: nat, now: int, j: nat)
    requires Global(s) && Has(s, i) && s.pcs[i].Admitted? && Guarded(s, i, now)
    requires RunOf(s, i) in s.runs && !Blocked(s, RunOf(s, i))
    requires j != i && Holder(Granted(s, i, now), j)
    ensures Holder(s, j) && Account(s.runs, RunOf(s, j)) != s.runs[RunOf(s, i)]
  {
    hide Global, Blocked;
    assert Holder(s, j);
    if Account(s.runs, RunOf(s, j)) == s.runs[RunOf(s, i)] {
      UnblockedIsAlone(s, RunOf(s, i), j);
      SameTicket(s, i, j);
    }
  }

  lemma GrantedOwn(s: State, i: nat, now: int)
    requires Global(s) && Has(s, i) && s.pcs[i].Admitted? && Guarded(s, i, now)
    requires RunOf(s, i) in s.runs && !Blocked(s, RunOf(s, i))
    ensures HoldersOwn(Granted(s, i, now))
  {
    hide Global, Blocked, Guarded;
    var s', run := Granted(s, i, now), RunOf(s, i);
    HoldersFacts(s);
    forall j: nat | Holder(s', j)
      ensures L.Holds(s'.leases, KeyOf(s'.runs, s'.attempts[j]), RunOf(s', j), s'.attempts[j].leaseFence)
    {
      if j != i {
        GrantedLonely(s, i, now, j);
        if KeyOf(s.runs, s.attempts[j]) == LeaseKey(s.runs[run]) {
          LeaseKeyInjective(Account(s.runs, RunOf(s, j)), s.runs[run]);
        }
      }
    }
  }

  lemma UnblockedIsQuiet(s: State, run: string, k: StageId)
    requires Global(s) && run in s.runs && !Blocked(s, run)
    requires RunningStage(s.stages, k) && Account(s.runs, k.run) == s.runs[run]
    ensures k.run == run
  {
    assert k.run in s.runs;
  }

  lemma GrantedAlone(s: State, i: nat, now: int)
    requires Global(s) && Has(s, i) && s.pcs[i].Admitted? && Guarded(s, i, now)
    requires RunOf(s, i) in s.runs && !Blocked(s, RunOf(s, i))
    ensures HoldersAlone(Granted(s, i, now))
  {
    hide Global, Blocked, Guarded;
    var s' := Granted(s, i, now);
    HoldersFacts(s);
    forall j: nat, k | Holder(s', j) && RunningStage(s'.stages, k) && Account(s'.runs, k.run) == Account(s'.runs, RunOf(s', j))
      ensures k.run == RunOf(s', j)
    {
      if j != i { GrantedLonely(s, i, now, j); } else { UnblockedIsQuiet(s, RunOf(s, i), k); }
    }
  }

  lemma HoldersFacts(s: State)
    requires Global(s)
    ensures HoldersOwn(s) && HoldersAlone(s)
  {
  }

  /** A change of one attempt's lease fence keeps the facts about tickets. */
  lemma KnownAfterGrant(s: State, i: nat, fence: nat)
    requires Known(s.tasks, s.runs, s.attempts, s.stages) && TicketsDistinct(s.attempts) && i < |s.attempts|
    ensures var attempts := s.attempts[i := s.attempts[i].(leaseFence := fence)];
            Known(s.tasks, s.runs, attempts, s.stages) && TicketsDistinct(attempts)
  {
    var attempts := s.attempts[i := s.attempts[i].(leaseFence := fence)];
    forall c | c in attempts ensures c.ticket.taskId in s.runs && c.ticket.fence <= s.tasks[c.ticket.taskId].fence {
      assert s.attempts[i] in s.attempts && (c in s.attempts || c == attempts[i]);
    }
  }

  lemma GrantedGlobal(s: State, i: nat, now: int)
    requires Global(s) && Has(s, i) && s.pcs[i].Admitted? && Guarded(s, i, now)
    requires RunOf(s, i) in s.runs && !Blocked(s, RunOf(s, i))
    ensures Global(Granted(s, i, now))
  {
    hide Blocked, Guarded, HoldersOwn, HoldersAlone, Known, TicketsDistinct, LeasesOrdered;
    hide OneRunPerAccount, Books, LiveJobsMarked;
    var run := RunOf(s, i);
    var key := LeaseKey(s.runs[run]);
    GrantedOwn(s, i, now);
    GrantedAlone(s, i, now);
    KnownAfterGrant(s, i, L.NextFence(s.leases, key));
    AcquireLeases(s, i, key, run, now + LEASE_MS);
  }

  lemma GrantedInv(s: State, i: nat, now: int)
    requires Inv(s) && Has(s, i) && s.pcs[i].Admitted? && Guarded(s, i, now)
    requires RunOf(s, i) in s.runs && !Blocked(s, RunOf(s, i))
    ensures Inv(Granted(s, i, now))
  {
    hide Global, LocalKnowledge, PlanKnowledge, StageKnowledge, Blocked, Guarded;
    var s' := Granted(s, i, now);
    GrantedGlobal(s, i, now);
    Basic(s, i);
    GrantedKnows(s, i, now);
    forall j: nat | Has(s', j) ensures LocalKnowledge(s', j) {
      if j != i { KnowledgeKept(s, s', j); }
    }
  }

  lemma {:induction false} AcquireInv(s: State, i: nat, now: int)
    requires Inv(s) && Has(s, i) && s.pcs[i].Admitted?
    ensures Inv(Acquire(s, i, now))
  {
    hide Global, LocalKnowledge, PlanKnowledge, StageKnowledge, Blocked, Guarded;
    var s' := Acquire(s, i, now);
    if s'.pcs[i].Leased? {
      GrantedInv(s, i, now);
    } else {
      CarefreeInv(s, i, s'.pcs[i]);
    }
  }

  lemma GrantedKnows(s: State, i: nat, now: int)
    requires Has(s, i) && s.pcs[i].Admitted? && RunOf(s, i) in s.runs && PlanKnowledge(s, i)
    ensures LocalKnowledge(Granted(s, i, now), i)
  {
  }

  lemma BlankKnows(s: State, i: nat)
    requires Has(s, i) && Blank(s.pcs[i]) && PlanKnowledge(s, i)
    ensures LocalKnowledge(s, i)
  {
  }

  lemma ReleaseOthers(s: State, i: nat, j: nat)
    requires Global(s) && Has(s, i) && s.pcs[i].Leaving? && Holder(s, j)
    requires L.Holds(s.leases, KeyOf(s.runs, s.attempts[i]), RunOf(s, i), s.attempts[i].leaseFence)
    ensures KeyOf(s.runs, s.attempts[j]) != KeyOf(s.runs, s.attempts[i])
  {
    assert L.Holds(s.leases, KeyOf(s.runs, s.attempts[j]), RunOf(s, j), s.attempts[j].leaseFence);
    assert s.attempts[j].leaseFence > 0;
  }

  lemma FreedOwn(s: State, i: nat)
    requires Global(s) && Has(s, i) && s.pcs[i].Leaving?
    ensures HoldersOwn(s.(leases := Freed(s, i)))
  {
    hide Global;
    var m := s.(leases := Freed(s, i));
    HoldersFacts(s);
    forall j: nat | Holder(m, j)
      ensures L.Holds(m.leases, KeyOf(m.runs, m.attempts[j]), RunOf(m, j), m.attempts[j].leaseFence)
    {
      assert Holder(s, j);
      if m.leases != s.leases { ReleaseOthers(s, i, j); }
    }
  }

  lemma FreedGlobal(s: State, i: nat)
    requires Global(s) && Has(s, i) && s.pcs[i].Leaving?
    ensures Global(s.(leases := Freed(s, i)))
  {
    hide OneRunPerAccount, Books, LiveJobsMarked, TicketsDistinct, HoldersOwn, Known;
    var m := s.(leases := Freed(s, i));
    FreedOwn(s, i);
    assert forall j: nat :: Holder(m, j) == Holder(s, j);
  }

  lemma ReleaseInv(s: State, i: nat)
    requires Inv(s) && Has(s, i) && s.pcs[i].Leaving?
    ensures Inv(Release(s, i))
  {
    hide Global, LocalKnowledge, HasRunning;
    var s', m := Release(s, i), s.(leases := Freed(s, i));
    Basic(s, i);
    FreedGlobal(s, i);
    assert forall j: nat :: Holder(m, j) == Holder(s, j);
    AllKept(s, m);
    if HasRunning(s, RunOf(s, i)) {
      BlankInv(s, i, s'.pcs[i]);
    } else {
      BlankInv(m, i, s'.pcs[i]);
    }
  }

  lemma EnlistedLists(s: State, c: Attempt)
    requires Known(s.tasks, s.runs, s.attempts, s.stages) && TicketsDistinct(s.attempts)
    requires LeasesOrdered(s.runs, s.attempts, s.leases)
    requires c.leaseFence == 0 && c.ticket.taskId in s.runs && c.ticket.fence > s.tasks[c.ticket.taskId].fence
    ensures TicketsDistinct(s.attempts + [c]) && LeasesOrdered(s.runs, s.attempts + [c], s.leases)
  {
    forall j | 0 <= j < |s.attempts| && s.attempts[j].ticket.taskId == c.ticket.taskId
      ensures s.attempts[j].ticket.fence != c.ticket.fence
    {
      assert s.attempts[j] in s.attempts;
    }
  }

  lemma EnlistedHolders(s: State, run: string, row: Q.Row)
    requires Global(s) && run in s.tasks && row.fence == s.tasks[run].fence + 1
    ensures forall j: nat :: Holder(Enlisted(s, run, row), j) ==> j < |s.attempts| && Holder(s, j)
    ensures forall j: nat :: j < |s.attempts| && Latest(Enlisted(s, run, row), j) ==> Latest(s, j)
    ensures HoldersOwn(Enlisted(s, run, row)) && HoldersAlone(Enlisted(s, run, row))
  {
    hide TicketsDistinct, LeasesOrdered, OneRunPerAccount, Books, LiveJobsMarked, OneStagePerRun, FinishedQuiet;
    var s', n := Enlisted(s, run, row), |s.attempts|;
    assert forall j: nat | j < n :: s'.attempts[j] == s.attempts[j] && s.attempts[j] in s.attempts && s'.pcs[j] == s.pcs[j];
    assert forall j: nat :: Holder(s', j) ==> j < n && Holder(s, j);
    assert forall j: nat | j < n :: Latest(s', j) ==> Latest(s, j);
  }

  lemma EnlistedGlobal(s: State, run: string, row: Q.Row)
    requires Global(s) && run in s.runs && run in s.tasks && row.fence == s.tasks[run].fence + 1 && row.status == Q.Running
    ensures Global(Enlisted(s, run, row))
  {
    hide TicketsDistinct, LeasesOrdered, OneRunPerAccount, Books, LiveJobsMarked, HoldersOwn, HoldersAlone;
    EnlistedLists(s, Attempt(Q.ClaimTicket(run, row), 0));
    EnlistedHolders(s, run, row);
  }

  lemma {:induction false} ClaimInv(s: State, owner: string, lease: int, locked: set<string>, pick: Option<string>, now: int)
    requires Inv(s)
    ensures Inv(Claim(s, owner, lease, locked, pick, now))
  {
    hide Global, LocalKnowledge;
    var s', n := Claim(s, owner, lease, locked, pick, now), |s.attempts|;
    if s'.attempts != s.attempts {
      EnlistedGlobal(s, pick.value, s'.tasks[pick.value]);
      EnlistedHolders(s, pick.value, s'.tasks[pick.value]);
      SameLength(s);
      forall j: nat | Has(s', j) ensures LocalKnowledge(s', j) {
        if j < n { KnowledgeKept(s, s', j); } else { BlankKnows(s', j); }
      }
    }
  }

  lemma SameLength(s: State)
    requires Inv(s)
    ensures |s.pcs| == |s.attempts|
  {
  }

  /** The accounts of the runs already known do not change. */
  lemma AcceptedLists(s: State, run: string, account: string)
    requires Known(s.tasks, s.runs, s.attempts, s.stages) && run !in s.runs
    requires LeasesOrdered(s.runs, s.attempts, s.leases) && OneRunPerAccount(s.runs, s.stages)
    ensures LeasesOrdered(s.runs[run := account], s.attempts, s.leases)
    ensures OneRunPerAccount(s.runs[run := account], s.stages)
    ensures forall c | c in s.attempts :: KeyOf(s.runs[run := account], c) == KeyOf(s.runs, c)
  {
    var runs := s.runs[run := account];
    assert forall c | c in s.attempts :: KeyOf(runs, c) == KeyOf(s.runs, c);
    forall a, b | 0 <= a < b < |s.attempts| && KeyOf(runs, s.attempts[a]) == KeyOf(runs, s.attempts[b]) && s.attempts[a].leaseFence > 0
      ensures s.attempts[a].leaseFence != s.attempts[b].leaseFence
    {
      assert s.attempts[a] in s.attempts && s.attempts[b] in s.attempts;
    }
  }

  lemma AcceptLatest(s: State, run: string, account: string, now: int)
    requires Global(s)
    ensures var s' := Accept(s, run, account, now);
            forall j: nat :: Latest(s', j) == Latest(s, j) && Holder(s', j) == Holder(s, j)
  {
    hide OneStagePerRun, FinishedQuiet, LeasesOrdered, OneRunPerAccount, Books, LiveJobsMarked, TicketsDistinct, NeverParked;
    hide HoldersOwn, HoldersAlone;
    assert forall j: nat | j < |s.attempts| :: s.attempts[j] in s.attempts;
  }

  lemma AcceptHolders(s: State, run: string, account: string, now: int)
    requires Global(s)
    ensures var s' := Accept(s, run, account, now);
            && HoldersOwn(s') && HoldersAlone(s')
            && (forall j: nat :: Holder(s', j) == Holder(s, j)) && (forall j: nat :: Latest(s', j) == Latest(s, j))
  {
    hide OneStagePerRun, FinishedQuiet, LeasesOrdered, OneRunPerAccount, Books, LiveJobsMarked, TicketsDistinct, NeverParked;
    AcceptLatest(s, run, account, now);
    hide Latest;
  }

  lemma AcceptGlobal(s: State, run: string, account: string, now: int)
    requires Global(s)
    ensures Global(Accept(s, run, account, now))
  {
    hide LeasesOrdered, OneRunPerAccount, Books, LiveJobsMarked, TicketsDistinct, HoldersOwn, HoldersAlone;
    if Accept(s, run, account, now) != s {
      AcceptedLists(s, run, account);
      AcceptHolders(s, run, account, now);
    }
  }

  lemma AcceptInv(s: State, run: string, account: string, now: int)
    requires Inv(s)
    ensures Inv(Accept(s, run, account, now))
  {
    hide Global, LocalKnowledge;
    AcceptGlobal(s, run, account, now);
    AcceptHolders(s, run, account, now);
    AllKept(s, Accept(s, run, account, now));
  }

  /** Only the upstream's own tables change, and they stay consistent. */
  lemma UpstreamTables(s: State, submissions: map<StageId, string>, jobs: map<string, JobState>)
    requires Global(s) && Books(s.stages, submissions, jobs) && LiveJobsMarked(s.stages, submissions, jobs)
    ensures var s' := s.(submissions := submissions, jobs := jobs);
            Global(s') && forall j: nat :: Holder(s', j) == Holder(s, j)
  {
    hide Books, LiveJobsMarked, Known, TicketsDistinct, NeverParked, LeasesOrdered, OneRunPerAccount;
    var s' := s.(submissions := submissions, jobs := jobs);
    assert forall j: nat :: Holder(s', j) == Holder(s, j);
  }

  lemma MovedBooks(s: State, job: string, state: JobState)
    requires Books(s.stages, s.submissions, s.jobs) && LiveJobsMarked(s.stages, s.submissions, s.jobs)
    requires job in s.jobs && (Final(s.jobs[job]) ==> Final(state))
    ensures Books(s.stages, s.submissions, s.jobs[job := state])
    ensures LiveJobsMarked(s.stages, s.submissions, s.jobs[job := state])
  {
  }

  lemma UpstreamMovesInv(s: State, job: string, state: JobState)
    requires Inv(s) && job in s.jobs && (Final(s.jobs[job]) ==> Final(state))
    ensures Inv(s.(jobs := s.jobs[job := state]))
  {
    MovedBooks(s, job, state);
    UpstreamTables(s, s.submissions, s.jobs[job := state]);
    hide Global, LocalKnowledge;
    AllKept(s, s.(jobs := s.jobs[job := state]));
  }

  lemma FreshBooks(stages: map<StageId, Stage>, submissions: map<StageId, string>, jobs: map<string, JobState>, id: StageId, job: string)
    requires Books(stages, submissions, jobs) && id !in submissions && job != "" && job !in jobs
    ensures Books(stages, submissions[id := job], jobs[job := Pending])
  {
  }

  lemma FreshMarked(stages: map<StageId, Stage>, submissions: map<StageId, string>, jobs: map<string, JobState>, id: StageId, job: string)
    requires Books(stages, submissions, jobs) && LiveJobsMarked(stages, submissions, jobs)
    requires RunningStage(stages, id) && job !in jobs
    ensures LiveJobsMarked(stages, submissions[id := job], jobs[job := Pending])
  {
    hide RunningStage;
  }

  lemma NewTaskBooks(s: State, id: StageId, newId: string)
    requires Books(s.stages, s.submissions, s.jobs) && LiveJobsMarked(s.stages, s.submissions, s.jobs)
    requires id in s.submissions || RunningStage(s.stages, id)
    ensures var s' := Upstream(s, id, newId);
            Books(s.stages, s'.submissions, s'.jobs) && LiveJobsMarked(s.stages, s'.submissions, s'.jobs)
  {
    hide Books, LiveJobsMarked, RunningStage;
    if id !in s.submissions && newId != "" && newId !in s.jobs {
      FreshBooks(s.stages, s.submissions, s.jobs, id, newId);
      FreshMarked(s.stages, s.submissions, s.jobs, id, newId);
    }
  }

  lemma UpstreamGlobal(s: State, id: StageId, newId: string)
    requires Global(s) && (id in s.submissions || RunningStage(s.stages, id))
    ensures Global(Upstream(s, id, newId))
    ensures forall j: nat :: Holder(Upstream(s, id, newId), j) == Holder(s, j)
  {
    var s' := Upstream(s, id, newId);
    NewTaskBooks(s, id, newId);
    UpstreamTables(s, s'.submissions, s'.jobs);
  }

  /** The upstream creates a task only for a stage that is marked running. */
  lemma UpstreamInv(s: State, id: StageId, newId: string)
    requires Inv(s) && (id in s.submissions || RunningStage(s.stages, id))
    ensures Inv(Upstream(s, id, newId))
  {
    hide Global, LocalKnowledge;
    UpstreamGlobal(s, id, newId);
    AllKept(s, Upstream(s, id, newId));
  }

  lemma {:induction false} SubmitInv(s: State, i: nat, newId: string, lost: bool)
    requires Inv(s) && Has(s, i) && s.pcs[i].Submitting?
    ensures Inv(Submit(s, i, newId, lost))
  {
    hide Global;
    var pc, s' := s.pcs[i], Submit(s, i, newId, lost);
    var id := StageId(RunOf(s, i), pc.key);
    Basic(s, i);
    if pc.submitted.Some? {
      StaysInHand(s, i, s'.pcs[i]);
      hide PlanKnowledge;
      GotoInv(s, i, s'.pcs[i]);
    } else {
      var m := Upstream(s, id, newId);
      UpstreamInv(s, id, newId);
      Basic(m, i);
      if lost || id !in m.submissions {
        RaisedInv(m, i);
      } else {
        StaysInHand(m, i, s'.pcs[i]);
        hide PlanKnowledge;
        GotoInv(m, i, s'.pcs[i]);
      }
    }
  }

  lemma ExitIsCarefree(s: State, i: nat, a: Action)
    requires Has(s, i) && !a.DoThrow? && Exit(s, i, a) != s
    ensures var s' := Exit(s, i, a); Has(s', i) && s' == Goto(s, i, s'.pcs[i]) && Carefree(s'.pcs[i]) && NoParking(s'.pcs[i])
  {
    hide HasRunning, Throw;
  }

  lemma ExitInv(s: State, i: nat, a: Action)
    requires Inv(s) && Has(s, i)
    ensures Inv(Exit(s, i, a))
  {
    if a.DoThrow? {
      hide Inv, Throw;
      ThrowInv(s, i);
    } else if Exit(s, i, a) != s {
      hide Inv, Exit, Carefree, NoParking, Goto;
      ExitIsCarefree(s, i, a);
      CarefreeInv(s, i, Exit(s, i, a).pcs[i]);
    }
  }

  lemma CompileInv(s: State, i: nat, a: Action, now: int)
    requires Inv(s) && Has(s, i)
    ensures Inv(Compile(s, i, a, now))
  {
    hide Inv, OpenStage, RenewForStage, Ask, Mark, Submit, Record, RenewForPoll, CheckCancel, Poll, Settle;
    var pc := s.pcs[i];
    match a {
      case DoOpenStage(key, input) => if pc.Working? { OpenStageInv(s, i, key, input, now); }
      case DoRenewForStage => if pc.StageRead? { RenewForStageInv(s, i, now); }
      case DoAsk => if pc.Asking? { AskInv(s, i); }
      case DoMark => if pc.Marking? { MarkInv(s, i, now); }
      case DoSubmit(newId, lost) => if pc.Submitting? { SubmitInv(s, i, newId, lost); }
      case DoRecord => if pc.Recording? { RecordInv(s, i, now); }
      case DoRenewForPoll => if pc.Polling? { RenewForPollInv(s, i, now); }
      case DoCheckCancel => if pc.Checking? { CheckCancelInv(s, i, now); }
      case DoPoll => if pc.Watching? { PollInv(s, i); }
      case DoSettle => if pc.Settling? { SettleInv(s, i, now); }
      case _ =>
    }
  }

  lemma BeatInv(s: State, i: nat, lease: int, now: int)
    requires Inv(s) && Has(s, i)
    ensures Inv(s.(tasks := Q.AfterBeat(s.tasks, RunOf(s, i), s.attempts[i].ticket.owner, s.attempts[i].ticket.fence, lease, now)))
  {
    hide Global, LocalKnowledge;
    RowsOf(s);
    RelaxInv(s, Q.AfterBeat(s.tasks, RunOf(s, i), s.attempts[i].ticket.owner, s.attempts[i].ticket.fence, lease, now));
  }

  lemma ActInv(s: State, i: nat, a: Action, now: int)
    requires Inv(s) && Has(s, i)
    ensures Inv(Act(s, i, a, now))
  {
    hide Inv, Admit, Acquire, Recover, Finish, Pulse, Release, WriteBack, Exit, Compile, Q.AfterBeat;
    var pc := s.pcs[i];
    match a {
      case DoAdmit => if pc.Entered? { AdmitInv(s, i, now); }
      case DoAcquire => if pc.Admitted? { AcquireInv(s, i, now); }
      case DoRecover => if pc.Leased? { RecoverInv(s, i); }
      case DoFinish => if pc.Working? { FinishInv(s, i, now); }
      case DoPulse => if InBody(pc) { PulseInv(s, i, now); }
      case DoRelease => if pc.Leaving? { ReleaseInv(s, i); }
      case DoWriteBack(maxAttempts, jitter) => if pc.Left? { WriteBackInv(s, i, maxAttempts, jitter, now); }
      case DoBeat(lease) => BeatInv(s, i, lease, now);
      case DoThrow => ExitInv(s, i, a);
      case DoInvalid => ExitInv(s, i, a);
      case DoAbandon => ExitInv(s, i, a);
      case DoCutOff(_) => ExitInv(s, i, a);
      case DoCrash => ExitInv(s, i, a);
      case _ => CompileInv(s, i, a, now);
    }
  }

  lemma RowsInv(s: State, run: string, now: int)
    requires Inv(s)
    ensures Inv(s.(tasks := Q.AfterCancelRequest(s.tasks, run)))
    ensures Inv(s.(tasks := Q.AfterRequeue(s.tasks, run, now)))
  {
    hide Global, LocalKnowledge;
    RowsOf(s);
    RelaxInv(s, Q.AfterCancelRequest(s.tasks, run));
    RelaxInv(s, Q.AfterRequeue(s.tasks, run, now));
  }

  lemma StepInv(s: State, x: Timed)
    requires Inv(s)
    ensures Inv(Step(s, x))
  {
    hide Global, LocalKnowledge, Inv;
    match x.event {
      case Accepts(run, account) => AcceptInv(s, run, account, x.now);
      case Claims(owner, lease, locked, pick) => ClaimInv(s, owner, lease, locked, pick, x.now);
      case CancelRequested(run) => RowsInv(s, run, x.now);
      case Requeued(run) => RowsInv(s, run, x.now);
      case UpstreamMoves(job, state) =>
        if job in s.jobs && (Final(s.jobs[job]) ==> Final(state)) { UpstreamMovesInv(s, job, state); }
      case Does(i, a) => if Has(s, i) { ActInv(s, i, a, x.now); }
    }
  }

  /** The invariant holds in every reachable state. */
  lemma {:induction false} Always(h: History)
    ensures Inv(After(h))
  {
    hide Global;
    if h == [] {
      InitialInv();
    } else {
      Always(h[..|h| - 1]);
      StepInv(After(h[..|h| - 1]), h[|h| - 1]);
    }
  }
}
