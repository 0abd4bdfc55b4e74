/** How a Compile ended is what its stage records and what the attempt that saw it answers. */
module MemoryOutcomes {
  import opened Basics
  import Q = WorkerQueue
  import L = ResourceLeases
  import W = Worker
  import opened MemoryProtocol
  import opened MemorySteps
  import opened MemoryTheorems

  /** Event `c` is attempt `i` reading its cancel flag, which says `stop`. */
  predicate ReadFlag(h: History, c: nat, i: nat, stop: bool) {
    && c < |h| && h[c].event == Does(i, DoCheckCancel)
    && Has(After(h[..c]), i) && After(h[..c]).pcs[i].Checking? && CancelSeen(After(h[..c]), i) == stop
  }

  /** Event `m` is attempt `i` asking the upstream about `job`, which has ended as `final`. */
  predicate SawEnd(h: History, m: nat, i: nat, job: string, final: JobState) {
    && m < |h| && h[m].event == Does(i, DoPoll)
    && Has(After(h[..m]), i) && After(h[..m]).pcs[i].Watching? && After(h[..m]).pcs[i].job == job
    && job in After(h[..m]).jobs && After(h[..m]).jobs[job] == final && Final(final)
  }

  /** Attempt `i` read its flag and then saw the end of `job`, both before event `n`. */
  ghost predicate Seen(h: History, n: nat, i: nat, job: string, final: JobState, stop: bool) {
    exists c: nat, m: nat :: c < m < n && ReadFlag(h, c, i, stop) && SawEnd(h, m, i, job, final)
  }

  /** Where the answer of an attempt about a Compile comes from: the flag it read, then the end it saw. */
  ghost predicate Sourced(h: History, n: nat, i: nat, pc: Pc) {
    match pc
    case Watching(_, _, _, stop, _) => exists c | 0 <= c < n :: ReadFlag(h, c, i, stop)
    case Settling(_, _, job, final, stop, _) => Seen(h, n, i, job, final, stop)
    case _ => true
  }

  /** Attempt `i` has just begun to watch or to settle a Compile. */
  ghost predicate Arrives(s: State, s': State, i: nat) {
    && Has(s', i) && (s'.pcs[i].Watching? || s'.pcs[i].Settling?) && !(Has(s, i) && s.pcs[i] == s'.pcs[i])
  }

  /** By which step it did so, and what the step read. */
  predicate Cause(s: State, a: Action, i: nat, pc: Pc)
    requires pc.Watching? || pc.Settling?
  {
    && Has(s, i)
    && if pc.Watching? then a.DoCheckCancel? && s.pcs[i].Checking? && pc.stop == CancelSeen(s, i)
       else
         && a.DoPoll? && s.pcs[i].Watching? && pc.stop == s.pcs[i].stop && pc.job == s.pcs[i].job
         && pc.job in s.jobs && pc.final == s.jobs[pc.job] && Final(pc.final)
  }

  /** Only attempt `j` moves. */
  predicate MovesOnly(s: State, s': State, j: nat) {
    && j < |s.attempts| == |s'.attempts| && s'.attempts == s.attempts[j := s.attempts[j].(leaseFence := s'.attempts[j].leaseFence)]
    && j < |s.pcs| == |s'.pcs| && s'.pcs == s.pcs[j := s'.pcs[j]]
  }

  lemma Elsewhere(s: State, m: State, i: nat, pc: Pc)
    requires Has(s, i) && m.pcs == s.pcs && m.attempts == s.attempts && !pc.Watching? && !pc.Settling?
    ensures MovesOnly(s, Goto(m, i, pc), i) && !Arrives(s, Goto(m, i, pc), i)
  {
  }

  lemma Stays(s: State, i: nat)
    requires Has(s, i)
    ensures MovesOnly(s, s, i) && !Arrives(s, s, i)
  {
  }

  // ---- where the steps with most branches lead ----

  predicate RaisesFrom(pc: Pc) {
    pc == Leaving(Some(AfterError(true))) || pc == Leaving(Some(AfterError(false)))
  }

  lemma OpenGoes(s: State, i: nat, key: string, input: string, now: int)
    requires Has(s, i) && s.pcs[i].Working?
    ensures var p, q := s.pcs[i], OpenStage(s, i, key, input, now).pcs[i];
            var id := StageId(RunOf(s, i), key);
            || q == p || RaisesFrom(q) || q == Leaving(Some(W.Failed("memory_pipeline_invalid"))) || q == Working(Without(p.plan, key))
            || (q == StageRead(key, input, if id in s.stages then Some(s.stages[id]) else None, p.plan)
                && MayOpen(p.plan, key, input) && (id in s.stages ==> s.stages[id].input == input))
  {
  }

  lemma MarkGoes(s: State, i: nat, now: int)
    requires Has(s, i) && s.pcs[i].Marking?
    ensures var p, q := s.pcs[i], Mark(s, i, now).pcs[i];
            RaisesFrom(q) || q == Leaving(Some(W.Cancelled)) || q == Submitting(p.key, p.input, p.submitted, p.plan)
  {
    hide Guarded, CancelSeen, SaveStage, HasRunning;
  }

  lemma SettleRaises(s: State, i: nat, now: int)
    requires Has(s, i) && s.pcs[i].Settling? && !(Guarded(s, i, now) && Final(s.pcs[i].final))
    ensures Settle(s, i, now) == Raised(s, i)
  {
    hide Guarded, HasRunning;
  }

  lemma SettleGoes(s: State, i: nat, now: int)
    requires Has(s, i) && s.pcs[i].Settling?
    ensures var p, q := s.pcs[i], Settle(s, i, now).pcs[i];
            || RaisesFrom(q) || q == Leaving(Some(W.Cancelled)) || q == Leaving(Some(W.Failed("memory_pipeline_invalid")))
            || q == Working(Without(p.plan, p.key))
  {
    hide Settle, Guarded, HasRunning, CancelSeen, Without;
    if Guarded(s, i, now) && Final(s.pcs[i].final) { SettleAnswers(s, i, now); } else { SettleRaises(s, i, now); }
  }

  lemma FinishGoes(s: State, i: nat, now: int)
    requires Has(s, i) && s.pcs[i].Working?
    ensures var p, q := s.pcs[i], Finish(s, i, now).pcs[i];
            || q == p || RaisesFrom(q) || q == Leaving(Some(W.Cancelled))
            || (q == Leaving(Some(W.Succeeded(RunOf(s, i)))) && !p.plan.cancelled)
  {
    hide Finish, Raised, Goto, RaisesFrom, Guarded, CancelSeen, HasRunning;
    FinishCases(s, i, now);
    RaisedGoes(s, i);
    GotoGoes(s, i, Leaving(Some(W.Cancelled)));
    GotoGoes(s.(finished := s.finished + {RunOf(s, i)}), i, Leaving(Some(W.Succeeded(RunOf(s, i)))));
  }

  lemma FinishCases(s: State, i: nat, now: int)
    requires Has(s, i) && s.pcs[i].Working?
    ensures var s' := Finish(s, i, now);
            || s' == s || s' == Raised(s, i) || s' == Goto(s, i, Leaving(Some(W.Cancelled)))
            || (!s.pcs[i].plan.cancelled
                && s' == Goto(s.(finished := s.finished + {RunOf(s, i)}), i, Leaving(Some(W.Succeeded(RunOf(s, i))))))
  {
    hide Guarded, CancelSeen, HasRunning, Raised, Goto;
  }

  lemma RaisedGoes(s: State, i: nat)
    requires Has(s, i)
    ensures Has(Raised(s, i), i) && RaisesFrom(Raised(s, i).pcs[i])
  {
    hide HasRunning;
  }

  lemma GotoGoes(s: State, i: nat, pc: Pc)
    requires Has(s, i)
    ensures Has(Goto(s, i, pc), i) && Goto(s, i, pc).pcs[i] == pc
  {
  }

  lemma ExitGoes(s: State, i: nat, a: Action)
    requires Has(s, i)
    ensures var p, q := s.pcs[i], Exit(s, i, a).pcs[i];
            || q == p || RaisesFrom(q) || q == Left(W.RetryLater("handler_exception", 0))
            || q == Leaving(Some(W.Failed("memory_pipeline_invalid"))) || q == Leaving(None) || q == Gone
  {
  }

  /** Attempt `i` alone moves, and if it begins to watch or settle then for the reason given. */
  ghost predicate OneMove(s: State, s': State, i: nat, a: Action) {
    MovesOnly(s, s', i) && (Arrives(s, s', i) ==> Cause(s, a, i, s'.pcs[i]))
  }

  lemma StillThere(s: State, s': State, i: nat)
    requires Has(s, i) && MovesOnly(s, s', i)
    ensures Has(s', i)
  {
  }

  lemma OpenStagePlaces(s: State, i: nat, key: string, input: string, now: int)
    requires Has(s, i) && s.pcs[i].Working?
    ensures OneMove(s, OpenStage(s, i, key, input, now), i, DoOpenStage(key, input))
  {
    hide MovesOnly, Arrives, Cause, Guarded, HasRunning, MayOpen, Without;
    var id, plan := StageId(RunOf(s, i), key), s.pcs[i].plan;
    var seen := if id in s.stages then Some(s.stages[id]) else None;
    Stays(s, i);
    Elsewhere(s, s, i, Leaving(Some(AfterError(HasRunning(s, RunOf(s, i))))));
    Elsewhere(s, s, i, Leaving(Some(W.Failed("memory_pipeline_invalid"))));
    Elsewhere(s, s, i, Working(Without(plan, key)));
    Elsewhere(s, s, i, StageRead(key, input, seen, plan));
  }

  lemma RenewForStagePlaces(s: State, i: nat, now: int)
    requires Has(s, i) && s.pcs[i].StageRead?
    ensures OneMove(s, RenewForStage(s, i, now), i, DoRenewForStage)
  {
  }

  lemma AskPlaces(s: State, i: nat)
    requires Has(s, i) && s.pcs[i].Asking?
    ensures OneMove(s, Ask(s, i), i, DoAsk)
  {
  }

  lemma MarkPlaces(s: State, i: nat, now: int)
    requires Has(s, i) && s.pcs[i].Marking?
    ensures OneMove(s, Mark(s, i, now), i, DoMark)
  {
    hide MovesOnly, Arrives, Cause, Guarded, HasRunning, SaveStage, CancelSeen, AfterError;
    var pc, t := s.pcs[i], s.(stages := Mark(s, i, now).stages);
    Elsewhere(s, s, i, Leaving(Some(AfterError(HasRunning(s, RunOf(s, i))))));
    Elsewhere(s, s, i, Leaving(Some(W.Cancelled)));
    Elsewhere(s, t, i, Submitting(pc.key, pc.input, pc.submitted, pc.plan));
  }

  lemma SubmitPlaces(s: State, i: nat, newId: string, lost: bool)
    requires Has(s, i) && s.pcs[i].Submitting?
    ensures OneMove(s, Submit(s, i, newId, lost), i, DoSubmit(newId, lost))
  {
  }

  lemma RecordPlaces(s: State, i: nat, now: int)
    requires Has(s, i) && s.pcs[i].Recording?
    ensures OneMove(s, Record(s, i, now), i, DoRecord)
  {
  }

  lemma RenewForPollPlaces(s: State, i: nat, now: int)
    requires Has(s, i) && s.pcs[i].Polling?
    ensures OneMove(s, RenewForPoll(s, i, now), i, DoRenewForPoll)
  {
  }

  lemma CheckCancelPlaces(s: State, i: nat, now: int)
    requires Has(s, i) && s.pcs[i].Checking?
    ensures OneMove(s, CheckCancel(s, i, now), i, DoCheckCancel)
  {
  }

  lemma PollPlaces(s: State, i: nat)
    requires Has(s, i) && s.pcs[i].Watching?
    ensures OneMove(s, Poll(s, i), i, DoPoll)
  {
  }

  lemma SettlePlaces(s: State, i: nat, now: int)
    requires Has(s, i) && s.pcs[i].Settling?
    ensures OneMove(s, Settle(s, i, now), i, DoSettle)
  {
    hide MovesOnly, Arrives, Cause, Guarded, HasRunning, SaveStage, CancelSeen, Without, AfterError;
    var pc, t := s.pcs[i], s.(stages := Settle(s, i, now).stages);
    Elsewhere(s, s, i, Leaving(Some(AfterError(HasRunning(s, RunOf(s, i))))));
    Elsewhere(s, t, i, Leaving(Some(W.Cancelled)));
    Elsewhere(s, t, i, Leaving(Some(W.Failed("memory_pipeline_invalid"))));
    Elsewhere(s, t, i, Working(Without(pc.plan, pc.key)));
  }

  lemma AdmitPlaces(s: State, i: nat, now: int)
    requires Has(s, i) && s.pcs[i].Entered?
    ensures MovesOnly(s, Admit(s, i, now), i) && !Arrives(s, Admit(s, i, now), i)
  {
  }

  lemma AcquirePlaces(s: State, i: nat, now: int)
    requires Has(s, i) && s.pcs[i].Admitted?
    ensures MovesOnly(s, Acquire(s, i, now), i) && !Arrives(s, Acquire(s, i, now), i)
  {
  }

  lemma RecoverPlaces(s: State, i: nat)
    requires Has(s, i) && s.pcs[i].Leased?
    ensures MovesOnly(s, Recover(s, i), i) && !Arrives(s, Recover(s, i), i)
  {
  }

  lemma FinishPlaces(s: State, i: nat, now: int)
    requires Has(s, i) && s.pcs[i].Working?
    ensures MovesOnly(s, Finish(s, i, now), i) && !Arrives(s, Finish(s, i, now), i)
  {
    Elsewhere(s, s, i, Leaving(Some(W.Cancelled)));
    Elsewhere(s, s, i, Leaving(Some(AfterError(HasRunning(s, RunOf(s, i))))));
    Elsewhere(s, s.(finished := s.finished + {RunOf(s, i)}), i, Leaving(Some(W.Succeeded(RunOf(s, i)))));
    Stays(s, i);
  }

  lemma PulsePlaces(s: State, i: nat, now: int)
    requires Has(s, i) && InBody(s.pcs[i])
    ensures MovesOnly(s, Pulse(s, i, now), i) && !Arrives(s, Pulse(s, i, now), i)
  {
  }

  lemma ReleasePlaces(s: State, i: nat)
    requires Has(s, i) && s.pcs[i].Leaving?
    ensures MovesOnly(s, Release(s, i), i) && !Arrives(s, Release(s, i), i)
  {
  }

  lemma WriteBackPlaces(s: State, i: nat, maxAttempts: int, jitter: int, now: int)
    requires Has(s, i) && s.pcs[i].Left?
    ensures MovesOnly(s, WriteBack(s, i, maxAttempts, jitter, now), i) && !Arrives(s, WriteBack(s, i, maxAttempts, jitter, now), i)
  {
  }

  lemma ExitPlaces(s: State, i: nat, a: Action)
    requires Has(s, i)
    ensures MovesOnly(s, Exit(s, i, a), i) && !Arrives(s, Exit(s, i, a), i)
  {
    hide MovesOnly, Arrives, HasRunning, AfterError;
    Stays(s, i);
    Elsewhere(s, s, i, Leaving(Some(AfterError(HasRunning(s, RunOf(s, i))))));
    Elsewhere(s, s, i, Left(W.RetryLater("handler_exception", 0)));
    Elsewhere(s, s, i, Leaving(Some(W.Failed("memory_pipeline_invalid"))));
    Elsewhere(s, s, i, Leaving(None));
    Elsewhere(s, s, i, Gone);
    if a.DoCutOff? { Elsewhere(s, s, i, Leaving(Some(AfterError(a.active)))); }
  }

  lemma CompilePlaces(s: State, i: nat, a: Action, now: int)
    requires Has(s, i)
    ensures OneMove(s, Compile(s, i, a, now), i, a)
  {
    hide SameStore, SameUpstream, MovesOnly, Arrives, Cause, OpenStage, RenewForStage, Ask, Mark, Submit, Record, RenewForPoll, CheckCancel, Poll, Settle;
    var pc := s.pcs[i];
    Stays(s, i);
    match a {
      case DoOpenStage(key, input) => if pc.Working? { OpenStagePlaces(s, i, key, input, now); }
      case DoRenewForStage => if pc.StageRead? { RenewForStagePlaces(s, i, now); }
      case DoAsk => if pc.Asking? { AskPlaces(s, i); }
      case DoMark => if pc.Marking? { MarkPlaces(s, i, now); }
      case DoSubmit(newId, lost) => if pc.Submitting? { SubmitPlaces(s, i, newId, lost); }
      case DoRecord => if pc.Recording? { RecordPlaces(s, i, now); }
      case DoRenewForPoll => if pc.Polling? { RenewForPollPlaces(s, i, now); }
      case DoCheckCancel => if pc.Checking? { CheckCancelPlaces(s, i, now); }
      case DoPoll => if pc.Watching? { PollPlaces(s, i); }
      case DoSettle => if pc.Settling? { SettlePlaces(s, i, now); }
      case _ =>
    }
  }

  lemma ActPlaces(s: State, i: nat, a: Action, now: int)
    requires Has(s, i)
    ensures OneMove(s, Act(s, i, a, now), i, a)
  {
    hide SameStore, SameUpstream, MovesOnly, Arrives, Cause, Compile, Admit, Acquire, Recover, Finish, Pulse, Release, WriteBack, Exit, Q.AfterBeat;
    var pc := s.pcs[i];
    Stays(s, i);
    CompilePlaces(s, i, a, now);
    match a {
      case DoAdmit => if pc.Entered? { AdmitPlaces(s, i, now); }
      case DoAcquire => if pc.Admitted? { AcquirePlaces(s, i, now); }
      case DoRecover => if pc.Leased? { RecoverPlaces(s, i); }
      case DoFinish => if pc.Working? { FinishPlaces(s, i, now); }
      case DoPulse => if InBody(pc) { PulsePlaces(s, i, now); }
      case DoRelease => if pc.Leaving? { ReleasePlaces(s, i); }
      case DoWriteBack(maxAttempts, jitter) => if pc.Left? { WriteBackPlaces(s, i, maxAttempts, jitter, now); }
      case DoBeat(_) => BeatPlaces(s, i, Act(s, i, a, now), a);
      case _ => ExitPlaces(s, i, a);
    }
  }

  lemma BeatPlaces(s: State, i: nat, s': State, a: Action)
    requires Has(s, i) && s'.pcs == s.pcs && s'.attempts == s.attempts
    ensures OneMove(s, s', i, a)
  {
  }

  lemma DoesAct(s: State, x: Timed)
    requires x.event.Does? && Has(s, x.event.i)
    ensures Step(s, x) == Act(s, x.event.i, x.event.action, x.now)
  {
    hide Act;
  }

  lemma AcceptPlaces(s: State, run: string, account: string, now: int)
    ensures Accept(s, run, account, now).pcs == s.pcs && Accept(s, run, account, now).attempts == s.attempts
  {
    hide Q.NewRow;
  }

  lemma ClaimPlaces(s: State, owner: string, lease: int, locked: set<string>, pick: Option<string>, now: int, i: nat)
    requires Has(s, i) && |s.pcs| == |s.attempts|
    ensures var s' := Claim(s, owner, lease, locked, pick, now); Has(s', i) && s'.pcs[i] == s.pcs[i] && s'.attempts[i] == s.attempts[i]
  {
    hide Q.IsPick, Q.Claimed;
  }

  lemma OutsidePlaces(s: State, x: Timed, i: nat)
    requires Has(s, i) && |s.pcs| == |s.attempts| && !(x.event.Does? && Has(s, x.event.i))
    ensures Has(Step(s, x), i) && RunOf(Step(s, x), i) == RunOf(s, i) && Step(s, x).pcs[i] == s.pcs[i]
  {
    hide Act, Accept, Claim, Q.AfterCancelRequest, Q.AfterRequeue;
    match x.event {
      case Accepts(run, account) => AcceptPlaces(s, run, account, x.now);
      case Claims(owner, lease, locked, pick) => ClaimPlaces(s, owner, lease, locked, pick, x.now, i);
      case _ =>
    }
  }

  /** An attempt that was not there before is a claim's, at its beginning. */
  lemma NewAttempt(s: State, x: Timed, i: nat)
    requires |s.pcs| == |s.attempts| && !Has(s, i) && Has(Step(s, x), i)
    ensures Step(s, x).pcs[i].Entered?
  {
    hide Act, Q.AfterCancelRequest, Q.AfterRequeue, Q.IsPick, Q.Claimed, Q.NewRow;
    if x.event.Does? && Has(s, x.event.i) {
      ActPlaces(s, x.event.i, x.event.action, x.now);
    }
  }

  /** Places and tickets stay, except for the place of the attempt that acts. */
  lemma StepPlaces(s: State, x: Timed, i: nat)
    requires Has(s, i) && |s.pcs| == |s.attempts|
    ensures Has(Step(s, x), i) && RunOf(Step(s, x), i) == RunOf(s, i)
    ensures !(x.event.Does? && x.event.i == i) ==> Step(s, x).pcs[i] == s.pcs[i]
  {
    hide Step, Act, Arrives, Cause;
    if x.event.Does? && Has(s, x.event.i) {
      ActPlaces(s, x.event.i, x.event.action, x.now);
      DoesAct(s, x);
    } else {
      OutsidePlaces(s, x, i);
    }
  }

  lemma StepArrives(s: State, x: Timed, i: nat)
    requires |s.pcs| == |s.attempts| && Arrives(s, Step(s, x), i)
    ensures x.event.Does? && x.event.i == i && Cause(s, x.event.action, i, Step(s, x).pcs[i])
  {
    hide Step, Act, Cause;
    if Has(s, i) {
      StepPlaces(s, x, i);
      ActPlaces(s, i, x.event.action, x.now);
      DoesAct(s, x);
    } else {
      NewAttempt(s, x, i);
    }
  }

  lemma {:induction false} PlacesMatch(h: History)
    ensures |After(h).pcs| == |After(h).attempts|
  {
    Always(h);
    hide After;
  }

  lemma SourcedEmpty(h: History, n: nat, i: nat, pc: Pc)
    requires !pc.Watching? && !pc.Settling?
    ensures Sourced(h, n, i, pc)
  {
  }

  lemma SourcedStill(h: History, n: nat, i: nat)
    requires 0 < n <= |h| && Has(After(h[..n - 1]), i) && Has(After(h[..n]), i) && !Arrives(After(h[..n - 1]), After(h[..n]), i)
    requires Sourced(h, n - 1, i, After(h[..n - 1]).pcs[i])
    ensures Sourced(h, n, i, After(h[..n]).pcs[i])
  {
    hide After, ReadFlag, SawEnd;
  }

  lemma SourcedNow(h: History, n: nat, i: nat)
    requires 0 < n <= |h| && Arrives(After(h[..n - 1]), After(h[..n]), i)
    requires h[n - 1].event.Does? && h[n - 1].event.i == i && Cause(After(h[..n - 1]), h[n - 1].event.action, i, After(h[..n]).pcs[i])
    requires Has(After(h[..n - 1]), i) && Sourced(h, n - 1, i, After(h[..n - 1]).pcs[i])
    ensures Sourced(h, n, i, After(h[..n]).pcs[i])
  {
    hide After, CancelSeen;
    var pc := After(h[..n]).pcs[i];
    if pc.Watching? { assert ReadFlag(h, n - 1, i, pc.stop); } else { assert SawEnd(h, n - 1, i, pc.job, pc.final); }
  }

  lemma {:induction false} AllSourced(h: History, n: nat, i: nat)
    requires n <= |h| && Has(After(h[..n]), i)
    ensures Sourced(h, n, i, After(h[..n]).pcs[i])
    decreases n
  {
    if n > 0 {
      AfterNext(h, n - 1);
      PlacesMatch(h[..n - 1]);
      hide Step, After, CancelSeen, Sourced, Arrives, Cause, Seen;
      var s, x := After(h[..n - 1]), h[n - 1];
      if Arrives(s, After(h[..n]), i) {
        StepArrives(s, x, i);
        AllSourced(h, n - 1, i);
        SourcedNow(h, n, i);
      } else if Has(s, i) {
        AllSourced(h, n - 1, i);
        SourcedStill(h, n, i);
      } else {
        NewAttempt(s, x, i);
        SourcedEmpty(h, n, i, After(h[..n]).pcs[i]);
      }
    } else {
      hide Sourced;
    }
  }

  // ---- what a settled stage records ----

  /** What a stage records of its Compile's end, `stop` and `late` being the cancel flag before that end and after it. */
  function Recorded(final: JobState, stop: bool, late: bool): StageStatus
    requires Final(final)
  {
    match final
    case Done => if late && !stop then Cancelled else Succeeded
    case Broken => Failed
    case Stopped => Cancelled
  }

  /** What the attempt answers; None if its body goes on. */
  function Answer(final: JobState, stop: bool, late: bool): Option<W.HandlerResult> {
    if stop || (late && final == Done) || final == Stopped then Some(W.Cancelled)
    else if final == Done then None
    else Some(W.Failed("memory_pipeline_invalid"))
  }

  /** Stage `k` has just been settled. */
  predicate JustSettled(s: State, s': State, k: StageId) {
    k in s'.stages && s'.stages[k].status != Running && (k !in s.stages || s.stages[k] != s'.stages[k])
  }

  /** Attempt `i` of the stage's run settles it, records how the Compile ended and answers for it. */
  predicate SettledBy(s: State, s': State, k: StageId, i: nat)
    requires k in s'.stages
  {
    && Has(s, i) && Has(s', i) && RunOf(s, i) == k.run && s.pcs[i].Settling? && s.pcs[i].key == k.key
    && var pc, late := s.pcs[i], CancelSeen(s, i);
    && Final(pc.final) && s'.stages[k].upstream == pc.job && s'.stages[k].status == Recorded(pc.final, pc.stop, late)
    && var answer := Answer(pc.final, pc.stop, late);
    s'.pcs[i] == if answer.None? then Working(Without(pc.plan, pc.key)) else Leaving(answer)
  }

  lemma SettleStores(s: State, i: nat, now: int, k: StageId)
    requires Has(s, i) && s.pcs[i].Settling? && JustSettled(s, Settle(s, i, now), k)
    ensures var pc, s' := s.pcs[i], Settle(s, i, now);
            && Guarded(s, i, now) && Final(pc.final) && k == StageId(RunOf(s, i), pc.key)
            && s'.stages[k].upstream == pc.job && s'.stages[k].status == Recorded(pc.final, pc.stop, CancelSeen(s, i))
  {
    hide Guarded, HasRunning, Without, SaveStage, CancelSeen;
    var pc := s.pcs[i];
    assert Guarded(s, i, now) && Final(pc.final);
    SavedStage(s.stages, StageId(RunOf(s, i), pc.key), pc.input, Recorded(pc.final, pc.stop, CancelSeen(s, i)), pc.job, k);
  }

  lemma SettleAnswers(s: State, i: nat, now: int)
    requires Has(s, i) && s.pcs[i].Settling? && Guarded(s, i, now) && Final(s.pcs[i].final)
    ensures var pc := s.pcs[i];
            var answer := Answer(pc.final, pc.stop, CancelSeen(s, i));
            Settle(s, i, now).pcs[i] == if answer.None? then Working(Without(pc.plan, pc.key)) else Leaving(answer)
  {
    hide Guarded, HasRunning, Without, SaveStage, CancelSeen;
  }

  lemma SettleSettles(s: State, i: nat, now: int, k: StageId)
    requires Has(s, i) && s.pcs[i].Settling? && JustSettled(s, Settle(s, i, now), k)
    ensures SettledBy(s, Settle(s, i, now), k, i)
  {
    hide Guarded, HasRunning, Without, SaveStage, CancelSeen, Recorded, Answer;
    SettleStores(s, i, now, k);
    SettleAnswers(s, i, now);
  }

  lemma SavedStage(t: map<StageId, Stage>, id: StageId, input: string, status: StageStatus, upstream: string, k: StageId)
    ensures var t' := SaveStage(t, id, input, status, upstream);
            if k == id then k in t' && t'[k].status == status && t'[k].upstream == upstream
            else (k in t' <==> k in t) && (k in t ==> t'[k] == t[k])
  {
  }

  lemma MarkSettlesNothing(s: State, i: nat, now: int, k: StageId)
    requires Has(s, i) && s.pcs[i].Marking?
    ensures !JustSettled(s, Mark(s, i, now), k)
  {
    hide Guarded, HasRunning;
  }

  lemma RecordSettlesNothing(s: State, i: nat, now: int, k: StageId)
    requires Has(s, i) && s.pcs[i].Recording?
    ensures !JustSettled(s, Record(s, i, now), k)
  {
    hide Guarded, HasRunning, Q.AfterUpstream;
  }

  lemma StepSettles(s: State, x: Timed, k: StageId)
    requires JustSettled(s, Step(s, x), k)
    ensures x.event.Does? && x.event.action.DoSettle? && SettledBy(s, Step(s, x), k, x.event.i)
  {
    hide Act, Claim, Accept, Compile, SettledBy, Mark, Record, Settle;
    if x.event.Does? && Has(s, x.event.i) {
      var i, a := x.event.i, x.event.action;
      assert SameStore(s, Act(s, i, a, x.now)) || Act(s, i, a, x.now) == Compile(s, i, a, x.now);
      CompileSettles(s, i, a, x.now, k);
    }
  }

  lemma CompileSettles(s: State, i: nat, a: Action, now: int, k: StageId)
    requires Has(s, i)
    ensures JustSettled(s, Compile(s, i, a, now), k) ==> a.DoSettle? && SettledBy(s, Compile(s, i, a, now), k, i)
  {
    hide SettledBy, Mark, Record, Settle;
    if a.DoMark? {
      if s.pcs[i].Marking? { MarkSettlesNothing(s, i, now, k); }
    } else if a.DoRecord? {
      if s.pcs[i].Recording? { RecordSettlesNothing(s, i, now, k); }
    } else if a.DoSettle? && s.pcs[i].Settling? && JustSettled(s, Settle(s, i, now), k) {
      SettleSettles(s, i, now, k);
    }
  }

  /** The attempt that settles a stage read the cancel flag it goes by and saw the Compile end as it records it. */
  lemma {:induction false} SettledAsSeen(h: History, n: nat, k: StageId)
    requires n < |h| && JustSettled(After(h[..n]), After(h[..n + 1]), k)
    ensures h[n].event.Does? && SettledBy(After(h[..n]), After(h[..n + 1]), k, h[n].event.i)
    ensures var i := h[n].event.i; var pc := After(h[..n]).pcs[i];
            Seen(h, n, i, After(h[..n + 1]).stages[k].upstream, pc.final, pc.stop)
  {
    AfterNext(h, n);
    hide After, Step, ReadFlag, SawEnd;
    StepSettles(After(h[..n]), h[n], k);
    AllSourced(h, n, h[n].event.i);
  }

  /** A stage that is not running was settled last as it is now. */
  lemma {:induction false} WasSettled(h: History, n: nat, k: StageId) returns (j: nat)
    requires n <= |h| && k in After(h[..n]).stages && After(h[..n]).stages[k].status != Running
    ensures j < n && JustSettled(After(h[..j]), After(h[..j + 1]), k) && After(h[..j + 1]).stages[k] == After(h[..n]).stages[k]
    decreases n
  {
    hide Step;
    if n > 0 {
      j := n - 1;
      hide After;
      if !JustSettled(After(h[..n - 1]), After(h[..n]), k) { j := WasSettled(h, n - 1, k); }
    }
  }

  /** A ticket is never exchanged: an attempt belongs to one run for good. */
  lemma {:induction false} RunStays(h: History, m: nat, n: nat, i: nat)
    requires m <= n <= |h| && Has(After(h[..m]), i)
    ensures Has(After(h[..n]), i) && RunOf(After(h[..n]), i) == RunOf(After(h[..m]), i)
    decreases n
  {
    hide After, Step;
    if m < n {
      RunStays(h, m, n - 1, i);
      AfterNext(h, n - 1);
      PlacesMatch(h[..n - 1]);
      TicketStays(After(h[..n - 1]), h[n - 1], i);
    }
  }

  lemma TicketStays(s: State, x: Timed, i: nat)
    requires Has(s, i) && |s.pcs| == |s.attempts|
    ensures Has(Step(s, x), i) && RunOf(Step(s, x), i) == RunOf(s, i)
  {
    hide Step;
    StepPlaces(s, x, i);
  }

  /** Which ends of a Compile a settled stage can record. */
  predicate Fits(status: StageStatus, final: JobState) {
    match status
    case Running => false
    case Succeeded => final == Done
    case Failed => final == Broken
    case Cancelled => final == Stopped || final == Done
  }

  lemma RecordedFits(final: JobState, stop: bool, late: bool)
    requires Final(final)
    ensures Fits(Recorded(final, stop, late), final)
  {
  }

  /** An attempt of the stage's run saw its upstream task end so. */
  ghost predicate Witnessed(h: History, k: StageId, stage: Stage) {
    exists i: nat, m: nat, final ::
      SawEnd(h, m, i, stage.upstream, final) && RunOf(After(h[..m]), i) == k.run && Fits(stage.status, final)
  }

  lemma SettledWitnessed(h: History, n: nat, k: StageId)
    requires n < |h| && JustSettled(After(h[..n]), After(h[..n + 1]), k)
    ensures Witnessed(h, k, After(h[..n + 1]).stages[k])
  {
    hide After, Fits, Recorded;
    SettledAsSeen(h, n, k);
    var i := h[n].event.i;
    var pc, stage := After(h[..n]).pcs[i], After(h[..n + 1]).stages[k];
    var c: nat, m: nat :| c < m < n && ReadFlag(h, c, i, pc.stop) && SawEnd(h, m, i, stage.upstream, pc.final);
    RunStays(h, m, n, i);
    RecordedFits(pc.final, pc.stop, CancelSeen(After(h[..n]), i));
    hide SawEnd, ReadFlag;
  }

  /**
   In every reachable state: a stage is succeeded only if an attempt of its run saw its upstream task done, failed
   only if it saw it broken, and cancelled only if it saw it stopped, or done with a cancel requested.
   */
  lemma {:induction false} RecordsTheEnd(h: History, k: StageId)
    requires k in After(h).stages && After(h).stages[k].status != Running
    ensures Witnessed(h, k, After(h).stages[k])
    ensures k in After(h).submissions
  {
    assert h[..|h|] == h;
    hide After, Witnessed;
    var n := WasSettled(h, |h|, k);
    SettledWitnessed(h, n, k);
    Always(h);
  }

  // ---- a Compile that did not end well ends the attempt ----

  /** The attempt is over, and what it answers is no success. */
  predicate Over(pc: Pc) {
    || pc.Gone? || (pc.Left? && !pc.result.Succeeded?)
    || (pc.Leaving? && (pc.outcome.None? || !pc.outcome.value.Succeeded?))
  }

  lemma OverIdles(s: State, i: nat, a: Action, now: int)
    requires Has(s, i) && Over(s.pcs[i])
    ensures !InBody(s.pcs[i]) && !s.pcs[i].Entered? && !s.pcs[i].Admitted? && Compile(s, i, a, now) == s
  {
    hide SameStore, SameUpstream;
  }

  lemma OverLeaves(s: State, i: nat)
    requires Has(s, i) && s.pcs[i].Leaving? && Over(s.pcs[i])
    ensures Has(Release(s, i), i) && Over(Release(s, i).pcs[i])
  {
    hide SameStore, SameUpstream, HasRunning, Freed;
  }

  lemma OverWrites(s: State, i: nat, maxAttempts: int, jitter: int, now: int)
    requires Has(s, i) && s.pcs[i].Left?
    ensures Has(WriteBack(s, i, maxAttempts, jitter, now), i) && Over(WriteBack(s, i, maxAttempts, jitter, now).pcs[i])
  {
    hide SameStore, SameUpstream, Q.AfterWrite, W.WriteOf;
  }

  lemma OverExits(s: State, i: nat, a: Action)
    requires Has(s, i) && Over(s.pcs[i])
    ensures Has(Exit(s, i, a), i) && Over(Exit(s, i, a).pcs[i])
  {
    hide SameStore, SameUpstream, HasRunning;
  }

  lemma OverActs(s: State, i: nat, a: Action, now: int)
    requires Has(s, i) && Over(s.pcs[i])
    ensures Has(Act(s, i, a, now), i) && Over(Act(s, i, a, now).pcs[i])
  {
    hide SameStore, SameUpstream, Over, Admit, Acquire, Recover, Finish, Pulse, Release, WriteBack, Exit, Compile, Q.AfterBeat;
    var pc := s.pcs[i];
    OverIdles(s, i, a, now);
    match a {
      case DoRelease => if pc.Leaving? { OverLeaves(s, i); }
      case DoWriteBack(maxAttempts, jitter) => if pc.Left? { OverWrites(s, i, maxAttempts, jitter, now); }
      case DoBeat(_) =>
      case _ => OverExits(s, i, a);
    }
  }

  lemma OverSteps(s: State, now: int, i: nat, a: Action)
    requires Has(s, i) && Over(s.pcs[i])
    ensures Has(Step(s, At(now, Does(i, a))), i) && Over(Step(s, At(now, Does(i, a))).pcs[i])
  {
    hide Act, Over;
    OverActs(s, i, a, now);
  }

  lemma OverStays(s: State, x: Timed, i: nat)
    requires Has(s, i) && |s.pcs| == |s.attempts| && Over(s.pcs[i])
    ensures Has(Step(s, x), i) && Over(Step(s, x).pcs[i])
  {
    hide Step, Over;
    StepPlaces(s, x, i);
    if x.event.Does? && x.event.i == i { OverSteps(s, x.now, i, x.event.action); }
  }

  /**
   An attempt that records anything but success for a Compile is over from then on and never answers success itself.
   */
  lemma {:induction false} BadEndEndsAttempt(h: History, n: nat, j: nat, k: StageId)
    requires n < j <= |h| && JustSettled(After(h[..n]), After(h[..n + 1]), k) && After(h[..n + 1]).stages[k].status != Succeeded
    ensures h[n].event.Does? && var i := h[n].event.i; Has(After(h[..j]), i) && Over(After(h[..j]).pcs[i])
    decreases j
  {
    hide After, Step;
    if n + 1 == j {
      SettledAsSeen(h, n, k);
    } else {
      BadEndEndsAttempt(h, n, j - 1, k);
      AfterNext(h, j - 1);
      PlacesMatch(h[..j - 1]);
      OverStays(After(h[..j - 1]), h[j - 1], h[n].event.i);
    }
  }
}
