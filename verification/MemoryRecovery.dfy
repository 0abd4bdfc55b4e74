/** What an attempt has to recover, and that nothing on record keeps it from doing so. */
module MemoryRecovery {
  import opened Basics
  import Q = WorkerQueue
  import W = Worker
  import opened MemoryProtocol
  import opened MemoryInvariant
  import opened MemorySteps
  import opened MemoryTheorems
  import opened MemoryOutcomes
  import opened MemoryConduct

  /** The stages an attempt still has to recover, with their inputs. */
  function TodoOf(pc: Pc): map<string, string> {
    if pc.Working? || InHand(pc) then pc.plan.todo else map[]
  }

  /** Nothing is added to the list, and no input in it changes. */
  predicate Shrinks(p: Pc, q: Pc) {
    forall x | x in TodoOf(q) :: x in TodoOf(p) && TodoOf(p)[x] == TodoOf(q)[x]
  }

  /** Every stage on the list has a row, with the input on the list. */
  predicate Recorded(s: State, i: nat)
    requires Has(s, i)
  {
    forall x | x in TodoOf(s.pcs[i]) ::
      StageId(RunOf(s, i), x) in s.stages && s.stages[StageId(RunOf(s, i), x)].input == TodoOf(s.pcs[i])[x]
  }

  lemma ShrinksItself(p: Pc)
    ensures Shrinks(p, p)
  {
  }

  lemma OpenShrinks(s: State, i: nat, key: string, input: string, now: int)
    requires Has(s, i) && s.pcs[i].Working?
    ensures Shrinks(s.pcs[i], OpenStage(s, i, key, input, now).pcs[i])
  {
    hide OpenStage, MayOpen;
    OpenGoes(s, i, key, input, now);
  }

  lemma RenewForStageShrinks(s: State, i: nat, now: int)
    requires Has(s, i) && s.pcs[i].StageRead?
    ensures Shrinks(s.pcs[i], RenewForStage(s, i, now).pcs[i])
  {
    hide HasRunning, CanRenew;
  }

  lemma AskShrinks(s: State, i: nat)
    requires Has(s, i) && s.pcs[i].Asking?
    ensures Shrinks(s.pcs[i], Ask(s, i).pcs[i])
  {
    hide HasRunning;
  }

  lemma MarkShrinks(s: State, i: nat, now: int)
    requires Has(s, i) && s.pcs[i].Marking?
    ensures Shrinks(s.pcs[i], Mark(s, i, now).pcs[i])
  {
    hide Mark;
    MarkGoes(s, i, now);
  }

  lemma SubmitShrinks(s: State, i: nat, newId: string, lost: bool)
    requires Has(s, i) && s.pcs[i].Submitting?
    ensures Shrinks(s.pcs[i], Submit(s, i, newId, lost).pcs[i])
  {
    hide Upstream, HasRunning;
  }

  lemma RecordShrinks(s: State, i: nat, now: int)
    requires Has(s, i) && s.pcs[i].Recording?
    ensures Shrinks(s.pcs[i], Record(s, i, now).pcs[i])
  {
    hide HasRunning, Guarded, SaveStage, Q.AfterUpstream;
  }

  lemma RenewForPollShrinks(s: State, i: nat, now: int)
    requires Has(s, i) && s.pcs[i].Polling?
    ensures Shrinks(s.pcs[i], RenewForPoll(s, i, now).pcs[i])
  {
    hide HasRunning, CanRenew;
  }

  lemma CheckCancelShrinks(s: State, i: nat, now: int)
    requires Has(s, i) && s.pcs[i].Checking?
    ensures Shrinks(s.pcs[i], CheckCancel(s, i, now).pcs[i])
  {
    hide HasRunning, Guarded, CancelSeen;
  }

  lemma PollShrinks(s: State, i: nat)
    requires Has(s, i) && s.pcs[i].Watching?
    ensures Shrinks(s.pcs[i], Poll(s, i).pcs[i])
  {
    hide HasRunning;
  }

  lemma SettleShrinks(s: State, i: nat, now: int)
    requires Has(s, i) && s.pcs[i].Settling?
    ensures Shrinks(s.pcs[i], Settle(s, i, now).pcs[i])
  {
    hide Settle;
    SettleGoes(s, i, now);
  }

  lemma FinishShrinks(s: State, i: nat, now: int)
    requires Has(s, i) && s.pcs[i].Working?
    ensures Shrinks(s.pcs[i], Finish(s, i, now).pcs[i])
  {
    hide Finish;
    FinishGoes(s, i, now);
  }

  lemma ExitShrinks(s: State, i: nat, a: Action)
    requires Has(s, i)
    ensures Shrinks(s.pcs[i], Exit(s, i, a).pcs[i])
  {
    hide Exit;
    ExitGoes(s, i, a);
  }

  lemma AdmitShrinks(s: State, i: nat, now: int)
    requires Has(s, i) && s.pcs[i].Entered?
    ensures Shrinks(s.pcs[i], Admit(s, i, now).pcs[i])
  {
    hide Guarded, CancelSeen;
  }

  lemma ReleaseShrinks(s: State, i: nat)
    requires Has(s, i) && s.pcs[i].Leaving?
    ensures Shrinks(s.pcs[i], Release(s, i).pcs[i])
  {
    hide Freed;
  }

  lemma PulseShrinks(s: State, i: nat, now: int)
    requires Has(s, i) && InBody(s.pcs[i])
    ensures Shrinks(s.pcs[i], Pulse(s, i, now).pcs[i])
  {
    hide HasRunning, CanRenew;
  }

  lemma AcquireShrinks(s: State, i: nat, now: int)
    requires Has(s, i) && s.pcs[i].Admitted?
    ensures Shrinks(s.pcs[i], Acquire(s, i, now).pcs[i])
  {
  }

  lemma WriteBackShrinks(s: State, i: nat, maxAttempts: int, jitter: int, now: int)
    requires Has(s, i) && s.pcs[i].Left?
    ensures Shrinks(s.pcs[i], WriteBack(s, i, maxAttempts, jitter, now).pcs[i])
  {
  }

  /** The list is made from the rows. */
  lemma RecoverRecords(s: State, i: nat)
    requires Has(s, i) && s.pcs[i].Leased?
    ensures Has(Recover(s, i), i) && Recorded(Recover(s, i), i)
  {
  }

  lemma CompileShrinks(s: State, i: nat, a: Action, now: int)
    requires Has(s, i)
    ensures Has(Compile(s, i, a, now), i) && Shrinks(s.pcs[i], Compile(s, i, a, now).pcs[i])
  {
    hide Shrinks, MovesOnly, OpenStage, RenewForStage, Ask, Mark, Submit, Record, RenewForPoll, CheckCancel, Poll, Settle, Arrives, Cause;
    var pc := s.pcs[i];
    CompilePlaces(s, i, a, now);
    StillThere(s, Compile(s, i, a, now), i);
    ShrinksItself(pc);
    match a {
      case DoOpenStage(key, input) => if pc.Working? { OpenShrinks(s, i, key, input, now); }
      case DoRenewForStage => if pc.StageRead? { RenewForStageShrinks(s, i, now); }
      case DoAsk => if pc.Asking? { AskShrinks(s, i); }
      case DoMark => if pc.Marking? { MarkShrinks(s, i, now); }
      case DoSubmit(newId, lost) => if pc.Submitting? { SubmitShrinks(s, i, newId, lost); }
      case DoRecord => if pc.Recording? { RecordShrinks(s, i, now); }
      case DoRenewForPoll => if pc.Polling? { RenewForPollShrinks(s, i, now); }
      case DoCheckCancel => if pc.Checking? { CheckCancelShrinks(s, i, now); }
      case DoPoll => if pc.Watching? { PollShrinks(s, i); }
      case DoSettle => if pc.Settling? { SettleShrinks(s, i, now); }
      case _ =>
    }
  }

  lemma ActShrinks(s: State, i: nat, a: Action, now: int)
    requires Has(s, i)
    ensures var s' := Act(s, i, a, now);
            Has(s', i) && (Shrinks(s.pcs[i], s'.pcs[i]) || (a.DoRecover? && s.pcs[i].Leased? && s' == Recover(s, i)))
  {
    hide Shrinks, MovesOnly, Compile, Admit, Acquire, Recover, Finish, Pulse, Release, WriteBack, Exit, Arrives, Cause, Q.AfterBeat;
    var pc := s.pcs[i];
    ActPlaces(s, i, a, now);
    StillThere(s, Act(s, i, a, now), i);
    ShrinksItself(pc);
    CompileShrinks(s, i, a, now);
    match a {
      case DoAdmit => if pc.Entered? { AdmitShrinks(s, i, now); }
      case DoAcquire => if pc.Admitted? { AcquireShrinks(s, i, now); }
      case DoFinish => if pc.Working? { FinishShrinks(s, i, now); }
      case DoPulse => if InBody(pc) { PulseShrinks(s, i, now); }
      case DoRelease => if pc.Leaving? { ReleaseShrinks(s, i); }
      case DoWriteBack(maxAttempts, jitter) => if pc.Left? { WriteBackShrinks(s, i, maxAttempts, jitter, now); }
      case DoThrow => ExitShrinks(s, i, a);
      case DoInvalid => ExitShrinks(s, i, a);
      case DoAbandon => ExitShrinks(s, i, a);
      case DoCutOff(_) => ExitShrinks(s, i, a);
      case DoCrash => ExitShrinks(s, i, a);
      case _ =>
    }
  }

  lemma ShrunkIsRecorded(s: State, s': State, i: nat)
    requires Has(s, i) && Has(s', i) && Recorded(s, i) && InputsStay(s, s') && RunOf(s', i) == RunOf(s, i)
    requires Shrinks(s.pcs[i], s'.pcs[i])
    ensures Recorded(s', i)
  {
    hide TodoOf;
  }

  lemma NothingToDo(s: State, i: nat)
    requires Has(s, i) && s.pcs[i].Entered?
    ensures Recorded(s, i)
  {
  }

  lemma StepRecords(s: State, x: Timed, i: nat)
    requires Inv(s) && Has(Step(s, x), i) && (Has(s, i) ==> Recorded(s, i))
    ensures Recorded(Step(s, x), i)
  {
    StepInputs(s, x);
    AttemptsMatch(s);
    hide Inv, Recorded, Shrinks, InputsStay;
    if Has(s, i) {
      StepPlaces(s, x, i);
      ShrinksItself(s.pcs[i]);
      if x.event.Does? && x.event.i == i {
        ActShrinks(s, i, x.event.action, x.now);
        DoesAct(s, x);
        hide Act, Step;
        if Shrinks(s.pcs[i], Step(s, x).pcs[i]) { ShrunkIsRecorded(s, Step(s, x), i); } else { RecoverRecords(s, i); }
      } else {
        hide Step;
        ShrunkIsRecorded(s, Step(s, x), i);
      }
    } else {
      NewAttempt(s, x, i);
      hide Step;
      NothingToDo(Step(s, x), i);
    }
  }

  /** In every reachable state what an attempt has to recover is on record, with the inputs it has in mind. */
  lemma {:induction false} TodoIsRecorded(h: History, i: nat)
    requires Has(After(h), i)
    ensures Recorded(After(h), i)
  {
    if h != [] {
      var front := h[..|h| - 1];
      Always(front);
      hide Step, Inv, Recorded;
      if Has(After(front), i) { TodoIsRecorded(front, i); }
      StepRecords(After(front), h[|h| - 1], i);
    }
  }

  /** How an attempt goes on that is told to open a stage. */
  ghost predicate Opens(s: State, s': State, i: nat, key: string, input: string, now: int)
    requires Has(s, i) && s.pcs[i].Working?
  {
    var id, todo := StageId(RunOf(s, i), key), s.pcs[i].plan.todo;
    && Has(s', i)
    && (todo != map[] && !(key in todo && todo[key] == input) ==> s' == s)
    && (todo == map[] && s.pcs[i].plan.cancelled ==> s' == s)
    && (key in todo && todo[key] == input && Guarded(s, i, now) ==>
          && id in s.stages
          && s'.pcs[i] == if s.stages[id].status == Succeeded then Working(Without(s.pcs[i].plan, key))
                          else StageRead(key, input, Some(s.stages[id]), s.pcs[i].plan))
  }

  lemma OpensAsTold(s: State, i: nat, key: string, input: string, now: int)
    requires Has(s, i) && s.pcs[i].Working? && Recorded(s, i)
    ensures Opens(s, OpenStage(s, i, key, input, now), i, key, input, now)
  {
    hide Guarded, Without, Raised, Goto;
    var id, plan := StageId(RunOf(s, i), key), s.pcs[i].plan;
    RaisedGoes(s, i);
    GotoGoes(s, i, Leaving(Some(W.Failed("memory_pipeline_invalid"))));
    GotoGoes(s, i, Working(Without(plan, key)));
    GotoGoes(s, i, StageRead(key, input, if id in s.stages then Some(s.stages[id]) else None, plan));
  }

  /**
   While there is something to recover an attempt opens nothing else, and after that a cancelled one opens nothing; a
   current attempt always gets to recover what is on its list, which it never takes for a changed input.
   */
  lemma {:induction false} RecoveryOpens(h: History, n: nat, i: nat, key: string, input: string)
    requires n < |h| && h[n].event == Does(i, DoOpenStage(key, input)) && Has(After(h[..n]), i) && After(h[..n]).pcs[i].Working?
    ensures Opens(After(h[..n]), After(h[..n + 1]), i, key, input, h[n].now)
  {
    AfterNext(h, n);
    TodoIsRecorded(h[..n], i);
    hide After, Recorded, Opens;
    OpensAsTold(After(h[..n]), i, key, input, h[n].now);
    DoesAct(After(h[..n]), h[n]);
    hide Step, OpenStage;
  }
}
