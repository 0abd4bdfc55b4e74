/** How attempts end: through the `finally` block, with an answer that stands. */
module MemoryEndings {
  import opened Basics
  import Q = WorkerQueue
  import W = Worker
  import opened MemoryProtocol
  import opened MemoryInvariant
  import opened MemoryTheorems
  import opened MemoryOutcomes

  // ---- an answer stands ----

  predicate Answered(pc: Pc) {
    pc.Left? || pc.Gone?
  }

  lemma AnsweredExits(s: State, i: nat, a: Action)
    requires Has(s, i) && Answered(s.pcs[i])
    ensures Exit(s, i, a).pcs[i] in {s.pcs[i], Gone}
  {
    hide HasRunning, Raised;
  }

  lemma AnsweredWrites(s: State, i: nat, maxAttempts: int, jitter: int, now: int)
    requires Has(s, i) && s.pcs[i].Left?
    ensures WriteBack(s, i, maxAttempts, jitter, now).pcs[i] == Gone
  {
    hide Q.AfterWrite, W.WriteOf;
  }

  lemma AnsweredActs(s: State, i: nat, a: Action, now: int)
    requires Has(s, i) && Answered(s.pcs[i])
    ensures Has(Act(s, i, a, now), i) && Act(s, i, a, now).pcs[i] in {s.pcs[i], Gone}
  {
    hide SameStore, SameUpstream, Admit, Acquire, Recover, Finish, Pulse, Release, WriteBack, Exit, Q.AfterBeat, MovesOnly, Arrives, Cause;
    ActPlaces(s, i, a, now);
    StillThere(s, Act(s, i, a, now), i);
    match a {
      case DoWriteBack(maxAttempts, jitter) => if s.pcs[i].Left? { AnsweredWrites(s, i, maxAttempts, jitter, now); }
      case DoThrow => AnsweredExits(s, i, a);
      case DoInvalid => AnsweredExits(s, i, a);
      case DoAbandon => AnsweredExits(s, i, a);
      case DoCutOff(_) => AnsweredExits(s, i, a);
      case DoCrash => AnsweredExits(s, i, a);
      case _ =>
    }
  }

  lemma AnsweredStays(s: State, x: Timed, i: nat)
    requires |s.pcs| == |s.attempts| && Has(s, i) && Answered(s.pcs[i])
    ensures Has(Step(s, x), i) && Step(s, x).pcs[i] in {s.pcs[i], Gone}
  {
    StepPlaces(s, x, i);
    hide Act, Answered;
    if x.event.Does? && x.event.i == i {
      AnsweredActs(s, i, x.event.action, x.now);
      DoesAct(s, x);
    }
    hide Step;
  }

  /** What an attempt has answered it never takes back: it writes just that, or it is gone. */
  lemma {:induction false} AnswerStands(h: History, m: nat, n: nat, i: nat)
    requires m <= n <= |h| && Has(After(h[..m]), i) && Answered(After(h[..m]).pcs[i])
    ensures Has(After(h[..n]), i) && After(h[..n]).pcs[i] in {After(h[..m]).pcs[i], Gone}
    decreases n
  {
    hide After, Step;
    if m < n {
      AnswerStands(h, m, n - 1, i);
      AfterNext(h, n - 1);
      PlacesMatch(h[..n - 1]);
      AnsweredStays(After(h[..n - 1]), h[n - 1], i);
    }
  }

  // ---- the way through an attempt ----

  predicate Before(pc: Pc) {
    pc.Entered? || pc.Admitted?
  }

  /**
   The body is entered by the grant of the account alone and left for the `finally` block, and that is left by the
   release, unless it throws itself. Only a crash cuts in.
   */
  predicate InOrder(p: Pc, a: Action, q: Pc) {
    && (Before(p) ==> !q.Leaving? && (InBody(q) ==> a.DoAcquire?))
    && (InBody(p) ==> InBody(q) || q.Leaving? || (q.Gone? && a.DoCrash?))
    && (p.Leaving? ==> q.Leaving? || (Answered(q) && (a.DoRelease? || a.DoThrow? || a.DoCrash?)))
    && (Answered(p) ==> Answered(q))
  }

  lemma RestsInOrder(p: Pc, a: Action)
    ensures InOrder(p, a, p)
  {
  }

  lemma OpenInOrder(s: State, i: nat, key: string, input: string, now: int)
    requires Has(s, i) && s.pcs[i].Working?
    ensures InOrder(s.pcs[i], DoOpenStage(key, input), OpenStage(s, i, key, input, now).pcs[i])
  {
    hide OpenStage, MayOpen;
    OpenGoes(s, i, key, input, now);
  }

  lemma RenewForStageInOrder(s: State, i: nat, now: int)
    requires Has(s, i) && s.pcs[i].StageRead?
    ensures InOrder(s.pcs[i], DoRenewForStage, RenewForStage(s, i, now).pcs[i])
  {
    hide HasRunning, CanRenew;
  }

  lemma AskInOrder(s: State, i: nat)
    requires Has(s, i) && s.pcs[i].Asking?
    ensures InOrder(s.pcs[i], DoAsk, Ask(s, i).pcs[i])
  {
    hide HasRunning;
  }

  lemma MarkInOrder(s: State, i: nat, now: int)
    requires Has(s, i) && s.pcs[i].Marking?
    ensures InOrder(s.pcs[i], DoMark, Mark(s, i, now).pcs[i])
  {
    hide Mark;
    MarkGoes(s, i, now);
  }

  lemma SubmitInOrder(s: State, i: nat, newId: string, lost: bool)
    requires Has(s, i) && s.pcs[i].Submitting?
    ensures InOrder(s.pcs[i], DoSubmit(newId, lost), Submit(s, i, newId, lost).pcs[i])
  {
    hide Upstream, HasRunning;
  }

  lemma RecordInOrder(s: State, i: nat, now: int)
    requires Has(s, i) && s.pcs[i].Recording?
    ensures InOrder(s.pcs[i], DoRecord, Record(s, i, now).pcs[i])
  {
    hide HasRunning, Guarded, SaveStage, Q.AfterUpstream;
  }

  lemma RenewForPollInOrder(s: State, i: nat, now: int)
    requires Has(s, i) && s.pcs[i].Polling?
    ensures InOrder(s.pcs[i], DoRenewForPoll, RenewForPoll(s, i, now).pcs[i])
  {
    hide HasRunning, CanRenew;
  }

  lemma CheckCancelInOrder(s: State, i: nat, now: int)
    requires Has(s, i) && s.pcs[i].Checking?
    ensures InOrder(s.pcs[i], DoCheckCancel, CheckCancel(s, i, now).pcs[i])
  {
    hide HasRunning, Guarded, CancelSeen;
  }

  lemma PollInOrder(s: State, i: nat)
    requires Has(s, i) && s.pcs[i].Watching?
    ensures InOrder(s.pcs[i], DoPoll, Poll(s, i).pcs[i])
  {
    hide HasRunning;
  }

  lemma SettleInOrder(s: State, i: nat, now: int)
    requires Has(s, i) && s.pcs[i].Settling?
    ensures InOrder(s.pcs[i], DoSettle, Settle(s, i, now).pcs[i])
  {
    hide Settle;
    SettleGoes(s, i, now);
  }

  lemma FinishInOrder(s: State, i: nat, now: int)
    requires Has(s, i) && s.pcs[i].Working?
    ensures InOrder(s.pcs[i], DoFinish, Finish(s, i, now).pcs[i])
  {
    hide Finish;
    FinishGoes(s, i, now);
  }

  lemma AdmitInOrder(s: State, i: nat, now: int)
    requires Has(s, i) && s.pcs[i].Entered?
    ensures InOrder(s.pcs[i], DoAdmit, Admit(s, i, now).pcs[i])
  {
    hide Guarded, CancelSeen;
  }

  lemma AcquireInOrder(s: State, i: nat, now: int)
    requires Has(s, i) && s.pcs[i].Admitted?
    ensures InOrder(s.pcs[i], DoAcquire, Acquire(s, i, now).pcs[i])
  {
  }

  lemma RecoverInOrder(s: State, i: nat)
    requires Has(s, i) && s.pcs[i].Leased?
    ensures InOrder(s.pcs[i], DoRecover, Recover(s, i).pcs[i])
  {
    hide Unsettled;
  }

  lemma PulseInOrder(s: State, i: nat, now: int)
    requires Has(s, i) && InBody(s.pcs[i])
    ensures InOrder(s.pcs[i], DoPulse, Pulse(s, i, now).pcs[i])
  {
    hide HasRunning, CanRenew;
  }

  lemma ReleaseInOrder(s: State, i: nat)
    requires Has(s, i) && s.pcs[i].Leaving?
    ensures InOrder(s.pcs[i], DoRelease, Release(s, i).pcs[i])
  {
    hide Freed;
  }

  lemma ExitInOrder(s: State, i: nat, a: Action)
    requires Has(s, i) && (a.DoThrow? || a.DoInvalid? || a.DoAbandon? || a.DoCutOff? || a.DoCrash?)
    ensures InOrder(s.pcs[i], a, Exit(s, i, a).pcs[i])
  {
    hide Goto, Raised, HasRunning, AfterError;
    RaisedGoes(s, i);
    GotoGoes(s, i, Left(W.RetryLater("handler_exception", 0)));
    GotoGoes(s, i, Leaving(Some(W.Failed("memory_pipeline_invalid"))));
    GotoGoes(s, i, Leaving(None));
    GotoGoes(s, i, Gone);
    if a.DoCutOff? { GotoGoes(s, i, Leaving(Some(AfterError(a.active)))); }
  }

  lemma CompileInOrder(s: State, i: nat, a: Action, now: int)
    requires Has(s, i)
    ensures Has(Compile(s, i, a, now), i) && InOrder(s.pcs[i], a, Compile(s, i, a, now).pcs[i])
  {
    hide InOrder, MovesOnly, OpenStage, RenewForStage, Ask, Mark, Submit, Record, RenewForPoll, CheckCancel, Poll, Settle, Arrives, Cause;
    var pc := s.pcs[i];
    CompilePlaces(s, i, a, now);
    StillThere(s, Compile(s, i, a, now), i);
    RestsInOrder(pc, a);
    match a {
      case DoOpenStage(key, input) => if pc.Working? { OpenInOrder(s, i, key, input, now); }
      case DoRenewForStage => if pc.StageRead? { RenewForStageInOrder(s, i, now); }
      case DoAsk => if pc.Asking? { AskInOrder(s, i); }
      case DoMark => if pc.Marking? { MarkInOrder(s, i, now); }
      case DoSubmit(newId, lost) => if pc.Submitting? { SubmitInOrder(s, i, newId, lost); }
      case DoRecord => if pc.Recording? { RecordInOrder(s, i, now); }
      case DoRenewForPoll => if pc.Polling? { RenewForPollInOrder(s, i, now); }
      case DoCheckCancel => if pc.Checking? { CheckCancelInOrder(s, i, now); }
      case DoPoll => if pc.Watching? { PollInOrder(s, i); }
      case DoSettle => if pc.Settling? { SettleInOrder(s, i, now); }
      case _ =>
    }
  }

  lemma ActInOrder(s: State, i: nat, a: Action, now: int)
    requires Has(s, i)
    ensures Has(Act(s, i, a, now), i) && InOrder(s.pcs[i], a, Act(s, i, a, now).pcs[i])
  {
    hide InOrder, MovesOnly, Compile, Admit, Acquire, Recover, Finish, Pulse, Release, WriteBack, Exit, Arrives, Cause, Q.AfterBeat;
    var pc := s.pcs[i];
    ActPlaces(s, i, a, now);
    StillThere(s, Act(s, i, a, now), i);
    RestsInOrder(pc, a);
    CompileInOrder(s, i, a, now);
    match a {
      case DoAdmit => if pc.Entered? { AdmitInOrder(s, i, now); }
      case DoAcquire => if pc.Admitted? { AcquireInOrder(s, i, now); }
      case DoRecover => if pc.Leased? { RecoverInOrder(s, i); }
      case DoFinish => if pc.Working? { FinishInOrder(s, i, now); }
      case DoPulse => if InBody(pc) { PulseInOrder(s, i, now); }
      case DoRelease => if pc.Leaving? { ReleaseInOrder(s, i); }
      case DoWriteBack(maxAttempts, jitter) => if pc.Left? { WrittenInOrder(s, i, maxAttempts, jitter, now); }
      case DoThrow => ExitInOrder(s, i, a);
      case DoInvalid => ExitInOrder(s, i, a);
      case DoAbandon => ExitInOrder(s, i, a);
      case DoCutOff(_) => ExitInOrder(s, i, a);
      case DoCrash => ExitInOrder(s, i, a);
      case _ =>
    }
  }

  lemma WrittenInOrder(s: State, i: nat, maxAttempts: int, jitter: int, now: int)
    requires Has(s, i) && s.pcs[i].Left?
    ensures InOrder(s.pcs[i], DoWriteBack(maxAttempts, jitter), WriteBack(s, i, maxAttempts, jitter, now).pcs[i])
  {
    hide WriteBack;
    AnsweredWrites(s, i, maxAttempts, jitter, now);
  }

  /** The next step, if the attempt makes it, goes in order; else the attempt stays where it is. */
  lemma NextInOrder(h: History, n: nat, i: nat)
    requires n < |h| && Has(After(h[..n]), i)
    ensures Has(After(h[..n + 1]), i)
    ensures var p, q := After(h[..n]).pcs[i], After(h[..n + 1]).pcs[i];
            q == p || (h[n].event.Does? && h[n].event.i == i && InOrder(p, h[n].event.action, q))
  {
    AfterNext(h, n);
    PlacesMatch(h[..n]);
    hide After, InOrder;
    var s, x := After(h[..n]), h[n];
    StepPlaces(s, x, i);
    if x.event.Does? && x.event.i == i {
      ActInOrder(s, i, x.event.action, x.now);
      DoesAct(s, x);
    }
    hide Step, Act;
  }

  lemma NoneYet(h: History, i: nat)
    ensures !Has(After(h[..0]), i)
  {
    assert h[..0] == [];
  }

  lemma LeavesFrom(h: History, n: nat, i: nat)
    requires n < |h| && Has(After(h[..n + 1]), i) && After(h[..n + 1]).pcs[i].Leaving?
    ensures Has(After(h[..n]), i) && (InBody(After(h[..n]).pcs[i]) || After(h[..n]).pcs[i].Leaving?)
  {
    hide After;
    if Has(After(h[..n]), i) {
      NextInOrder(h, n, i);
    } else {
      AfterNext(h, n);
      PlacesMatch(h[..n]);
      hide Step;
      NewAttempt(After(h[..n]), h[n], i);
    }
  }

  /** Whoever is on its way out has been in the body. */
  lemma {:induction false} LeavesTheBody(h: History, n: nat, i: nat) returns (m: nat)
    requires n <= |h| && Has(After(h[..n]), i) && After(h[..n]).pcs[i].Leaving?
    ensures m < n && Has(After(h[..m]), i) && InBody(After(h[..m]).pcs[i])
    decreases n
  {
    hide After, InBody;
    NoneYet(h, i);
    m := n - 1;
    LeavesFrom(h, m, i);
    if After(h[..m]).pcs[i].Leaving? { m := LeavesTheBody(h, m, i); }
  }

  /** Event `k` ends the `finally` block of attempt `i`: by its release, or by an exception of its own. */
  predicate Finally(h: History, k: nat, i: nat) {
    && k < |h| && h[k].event.Does? && h[k].event.i == i && (h[k].event.action.DoRelease? || h[k].event.action.DoThrow?)
    && Has(After(h[..k]), i) && After(h[..k]).pcs[i].Leaving?
  }

  predicate Crashes(h: History, k: nat, i: nat) {
    k < |h| && h[k].event == Does(i, DoCrash)
  }

  /** An attempt that was in the body ends through its `finally` block, whatever happens to it, unless it crashes. */
  lemma {:induction false} FinallyRuns(h: History, m: nat, n: nat, i: nat)
    requires m <= n <= |h| && Has(After(h[..m]), i) && (InBody(After(h[..m]).pcs[i]) || After(h[..m]).pcs[i].Leaving?)
    requires Has(After(h[..n]), i) && !InBody(After(h[..n]).pcs[i]) && !After(h[..n]).pcs[i].Leaving?
    ensures exists k | m <= k < n :: Finally(h, k, i) || Crashes(h, k, i)
    decreases n - m
  {
    assert m < n;
    NextInOrder(h, m, i);
    hide After;
    var p, q := After(h[..m]).pcs[i], After(h[..m + 1]).pcs[i];
    if InBody(q) || q.Leaving? {
      FinallyRuns(h, m + 1, n, i);
    } else {
      assert Finally(h, m, i) || Crashes(h, m, i);
    }
  }

  // ---- failures and heartbeats ----

  /** What a failure that is no ordinary exception makes of the body; a renewal that fails late has either answer. */
  function Outcome(a: Action): Option<W.HandlerResult>
    requires a.DoInvalid? || a.DoAbandon? || a.DoCutOff?
  {
    match a
    case DoInvalid => Some(W.Failed("memory_pipeline_invalid"))
    case DoAbandon => None
    case DoCutOff(active) => Some(if active then W.Reconciling else W.RetryLater("handler_exception", 0))
  }

  /** Such a failure ends the body at once, with the stages and leases as they are. */
  lemma {:induction false} FailuresExactly(h: History, n: nat, i: nat)
    requires n < |h| && h[n].event.Does? && h[n].event.i == i
    requires h[n].event.action.DoInvalid? || h[n].event.action.DoAbandon? || h[n].event.action.DoCutOff?
    requires Has(After(h[..n]), i) && InBody(After(h[..n]).pcs[i])
    ensures var s, s' := After(h[..n]), After(h[..n + 1]);
            Has(s', i) && s'.pcs[i] == Leaving(Outcome(h[n].event.action)) && s'.stages == s.stages && s'.leases == s.leases
  {
    AfterNext(h, n);
    hide After;
    DoesAct(After(h[..n]), h[n]);
    Fails(After(h[..n]), i, h[n].event.action);
    hide Step, Exit;
  }

  lemma Fails(s: State, i: nat, a: Action)
    requires (a.DoInvalid? || a.DoAbandon? || a.DoCutOff?) && Has(s, i) && InBody(s.pcs[i])
    ensures var s' := Exit(s, i, a);
            Has(s', i) && s'.pcs[i] == Leaving(Outcome(a)) && s'.stages == s.stages && s'.leases == s.leases
  {
    hide HasRunning, Raised;
  }

  /** The deadline of the attempt's row is moved if it may be, and nothing else changes. */
  predicate Kept(s: State, s': State, i: nat, lease: int, now: int)
    requires Has(s, i)
  {
    var run, c := RunOf(s, i), s.attempts[i].ticket;
    if s.pcs[i].Gone? || !Q.Beats(s.tasks, run, c.owner, c.fence, now) then s' == s
    else s' == s.(tasks := s.tasks[run := s.tasks[run].(leaseUntil := Some(now + lease))])
  }

  lemma Beats(s: State, i: nat, lease: int, now: int)
    requires Has(s, i)
    ensures Kept(s, Act(s, i, DoBeat(lease), now), i, lease, now)
  {
    hide Q.Beats;
  }

  /** The worker's heartbeat beside the handler: it keeps the task as long as the attempt is there, and never revives one. */
  lemma {:induction false} BeatsExactly(h: History, n: nat, i: nat, lease: int)
    requires n < |h| && h[n].event == Does(i, DoBeat(lease)) && Has(After(h[..n]), i)
    ensures Kept(After(h[..n]), After(h[..n + 1]), i, lease, h[n].now)
  {
    hide After, Act, Kept;
    AfterNext(h, n);
    DoesAct(After(h[..n]), h[n]);
    Beats(After(h[..n]), i, lease, h[n].now);
    hide Step;
  }
}
