/** What an attempt does in order, and what it never does: recovery, submission, cancelling, leaving. */
module MemoryConduct {
  import opened Basics
  import Q = WorkerQueue
  import L = ResourceLeases
  import W = Worker
  import opened MemoryProtocol
  import opened MemoryInvariant
  import opened MemorySteps
  import opened MemoryTheorems
  import opened MemoryOutcomes

  // ---- a stage is compiled from the input on record ----

  /** Once its attempt has found or made the stage's row, the input in hand is the row's. */
  predicate Recalls(s: State, i: nat)
    requires Has(s, i)
  {
    var pc := s.pcs[i];
    InHand(pc) && ((pc.StageRead? || pc.Asking? || pc.Marking?) ==> pc.seen.Some?) ==>
      StageId(RunOf(s, i), pc.key) in s.stages && s.stages[StageId(RunOf(s, i), pc.key)].input == pc.input
  }

  /** No row disappears and no row's input changes. */
  predicate InputsStay(s: State, s': State) {
    forall k | k in s.stages :: k in s'.stages && s'.stages[k].input == s.stages[k].input
  }

  /** The same stage is still in hand, with the same input, or none is. */
  predicate SameWork(p: Pc, q: Pc) {
    InHand(q) ==>
      && InHand(p) && q.key == p.key && q.input == p.input
      && ((q.StageRead? || q.Asking? || q.Marking?) <== (p.StageRead? || p.Asking? || p.Marking?) && p.seen.None?)
      && (q.StageRead? || q.Asking? || q.Marking? ==> (p.StageRead? || p.Asking? || p.Marking?) && q.seen == p.seen)
  }

  /** How an attempt comes to mark a checkpoint, or to submit. */
  predicate Caused(s: State, a: Action, i: nat, q: Pc)
    requires Has(s, i)
  {
    var p := s.pcs[i];
    && (q.Marking? ==>
          || (a.DoRenewForStage? && p.StageRead? && q.key == p.key && q.seen == p.seen && q.submitted.None?
              && !(p.seen.Some? && p.seen.value.status == Running))
          || (a.DoAsk? && p.Asking? && q.key == p.key && q.seen == p.seen
              && q.submitted == if StageId(RunOf(s, i), p.key) in s.submissions then Some(s.submissions[StageId(RunOf(s, i), p.key)]) else None))
    && (q.Submitting? ==> a.DoMark? && p.Marking? && q.key == p.key && q.submitted == p.submitted)
  }

  /** No checkpoint is about to be marked, nor a task to be submitted, that was not before. */
  predicate Prepares(p: Pc, q: Pc) {
    (q.Marking? || q.Submitting?) && q != p
  }

  lemma OpenSame(s: State, i: nat, key: string, input: string, now: int)
    requires Has(s, i) && s.pcs[i].Working?
    ensures var s' := OpenStage(s, i, key, input, now); Has(s', i) && s'.stages == s.stages && RunOf(s', i) == RunOf(s, i)
  {
    hide Guarded, HasRunning, MayOpen, Without;
  }

  /** Marking, where it happens, leaves a row with the input in hand. */
  lemma MarkStores(s: State, i: nat, now: int)
    requires Inv(s) && Has(s, i) && s.pcs[i].Marking? && Recalls(s, i)
    ensures var s' := Mark(s, i, now);
            var id := StageId(RunOf(s, i), s.pcs[i].key);
            && Has(s', i) && RunOf(s', i) == RunOf(s, i)
            && (s'.pcs[i].Submitting? ==> id in s'.stages && s'.stages[id].input == s.pcs[i].input)
  {
    hide HasRunning, PlanKnowledge;
    if Guarded(s, i, now) {
      Basic(s, i);
      assert Holder(s, i);
      hide Inv, Guarded;
    } else {
      assert !Mark(s, i, now).pcs[i].Submitting?;
    }
  }

  lemma OpenRecalls(s: State, i: nat, key: string, input: string, now: int)
    requires Has(s, i) && s.pcs[i].Working?
    ensures Recalls(OpenStage(s, i, key, input, now), i)
    ensures !Prepares(s.pcs[i], OpenStage(s, i, key, input, now).pcs[i])
  {
    hide OpenStage, MayOpen;
    OpenGoes(s, i, key, input, now);
    OpenSame(s, i, key, input, now);
  }

  lemma RenewRecalls(s: State, i: nat, now: int)
    requires Has(s, i) && s.pcs[i].StageRead? && Recalls(s, i)
    ensures Recalls(RenewForStage(s, i, now), i)
    ensures Caused(s, DoRenewForStage, i, RenewForStage(s, i, now).pcs[i])
  {
    hide Guarded, CanRenew, HasRunning;
  }

  lemma MarkRecalls(s: State, i: nat, now: int)
    requires Inv(s) && Has(s, i) && s.pcs[i].Marking? && Recalls(s, i)
    ensures Recalls(Mark(s, i, now), i)
    ensures Caused(s, DoMark, i, Mark(s, i, now).pcs[i])
  {
    hide Mark, Inv;
    MarkGoes(s, i, now);
    MarkStores(s, i, now);
  }

  lemma AskWorks(s: State, i: nat)
    requires Has(s, i) && s.pcs[i].Asking?
    ensures SameWork(s.pcs[i], Ask(s, i).pcs[i])
    ensures Caused(s, DoAsk, i, Ask(s, i).pcs[i])
  {
  }

  lemma SubmitWorks(s: State, i: nat, newId: string, lost: bool)
    requires Has(s, i) && s.pcs[i].Submitting?
    ensures SameWork(s.pcs[i], Submit(s, i, newId, lost).pcs[i])
    ensures !Prepares(s.pcs[i], Submit(s, i, newId, lost).pcs[i])
  {
    hide Upstream, HasRunning;
  }

  lemma RecordWorks(s: State, i: nat, now: int)
    requires Has(s, i) && s.pcs[i].Recording?
    ensures SameWork(s.pcs[i], Record(s, i, now).pcs[i])
    ensures !Prepares(s.pcs[i], Record(s, i, now).pcs[i])
  {
  }

  lemma RenewForPollWorks(s: State, i: nat, now: int)
    requires Has(s, i) && s.pcs[i].Polling?
    ensures SameWork(s.pcs[i], RenewForPoll(s, i, now).pcs[i])
    ensures !Prepares(s.pcs[i], RenewForPoll(s, i, now).pcs[i])
  {
  }

  lemma CheckCancelWorks(s: State, i: nat, now: int)
    requires Has(s, i) && s.pcs[i].Checking?
    ensures SameWork(s.pcs[i], CheckCancel(s, i, now).pcs[i])
    ensures !Prepares(s.pcs[i], CheckCancel(s, i, now).pcs[i])
  {
  }

  lemma PollWorks(s: State, i: nat)
    requires Has(s, i) && s.pcs[i].Watching?
    ensures SameWork(s.pcs[i], Poll(s, i).pcs[i])
    ensures !Prepares(s.pcs[i], Poll(s, i).pcs[i])
  {
  }

  lemma SettleWorks(s: State, i: nat, now: int)
    requires Has(s, i) && s.pcs[i].Settling?
    ensures SameWork(s.pcs[i], Settle(s, i, now).pcs[i])
    ensures !Prepares(s.pcs[i], Settle(s, i, now).pcs[i])
  {
    hide Settle;
    SettleGoes(s, i, now);
  }

  lemma AdmitWorks(s: State, i: nat, now: int)
    requires Has(s, i) && s.pcs[i].Entered?
    ensures SameWork(s.pcs[i], Admit(s, i, now).pcs[i])
    ensures !Prepares(s.pcs[i], Admit(s, i, now).pcs[i])
  {
  }

  lemma AcquireWorks(s: State, i: nat, now: int)
    requires Has(s, i) && s.pcs[i].Admitted?
    ensures SameWork(s.pcs[i], Acquire(s, i, now).pcs[i])
    ensures !Prepares(s.pcs[i], Acquire(s, i, now).pcs[i])
  {
  }

  lemma RecoverWorks(s: State, i: nat)
    requires Has(s, i) && s.pcs[i].Leased?
    ensures SameWork(s.pcs[i], Recover(s, i).pcs[i])
    ensures !Prepares(s.pcs[i], Recover(s, i).pcs[i])
  {
  }

  lemma FinishWorks(s: State, i: nat, now: int)
    requires Has(s, i) && s.pcs[i].Working?
    ensures SameWork(s.pcs[i], Finish(s, i, now).pcs[i])
    ensures !Prepares(s.pcs[i], Finish(s, i, now).pcs[i])
  {
    hide Finish;
    FinishGoes(s, i, now);
  }

  lemma PulseWorks(s: State, i: nat, now: int)
    requires Has(s, i) && InBody(s.pcs[i])
    ensures SameWork(s.pcs[i], Pulse(s, i, now).pcs[i])
    ensures !Prepares(s.pcs[i], Pulse(s, i, now).pcs[i])
  {
  }

  lemma ReleaseWorks(s: State, i: nat)
    requires Has(s, i) && s.pcs[i].Leaving?
    ensures SameWork(s.pcs[i], Release(s, i).pcs[i])
    ensures !Prepares(s.pcs[i], Release(s, i).pcs[i])
  {
  }

  lemma WriteBackWorks(s: State, i: nat, maxAttempts: int, jitter: int, now: int)
    requires Has(s, i) && s.pcs[i].Left?
    ensures SameWork(s.pcs[i], WriteBack(s, i, maxAttempts, jitter, now).pcs[i])
    ensures !Prepares(s.pcs[i], WriteBack(s, i, maxAttempts, jitter, now).pcs[i])
  {
  }

  lemma ExitWorks(s: State, i: nat, a: Action)
    requires Has(s, i)
    ensures SameWork(s.pcs[i], Exit(s, i, a).pcs[i])
    ensures !Prepares(s.pcs[i], Exit(s, i, a).pcs[i])
  {
    hide Exit;
    ExitGoes(s, i, a);
  }

  lemma WorkRecalls(s: State, s': State, i: nat)
    requires Has(s, i) && Has(s', i) && Recalls(s, i) && InputsStay(s, s') && RunOf(s', i) == RunOf(s, i)
    requires SameWork(s.pcs[i], s'.pcs[i])
    ensures Recalls(s', i)
  {
  }

  /** One step of attempt `i` itself: what it remembers stays true, and what it prepares it has reason for. */
  ghost predicate Conducts(s: State, s': State, i: nat, a: Action)
    requires Has(s, i)
  {
    && Has(s', i)
    && (Recalls(s', i) || SameWork(s.pcs[i], s'.pcs[i]))
    && (Prepares(s.pcs[i], s'.pcs[i]) ==> Caused(s, a, i, s'.pcs[i]))
  }

  lemma CompileConducts(s: State, i: nat, a: Action, now: int)
    requires Inv(s) && Has(s, i) && Recalls(s, i)
    ensures Conducts(s, Compile(s, i, a, now), i, a)
  {
    hide Inv, Recalls, SameWork, Caused, OpenStage, RenewForStage, Ask, Mark, Submit, Record, RenewForPoll, CheckCancel, Poll, Settle;
    var pc := s.pcs[i];
    CompilePlaces(s, i, a, now);
    hide Arrives, Cause;
    match a {
      case DoOpenStage(key, input) => if pc.Working? { OpenRecalls(s, i, key, input, now); }
      case DoRenewForStage => if pc.StageRead? { RenewRecalls(s, i, now); }
      case DoAsk => if pc.Asking? { AskWorks(s, i); }
      case DoMark => if pc.Marking? { MarkRecalls(s, i, now); }
      case DoSubmit(newId, lost) => if pc.Submitting? { SubmitWorks(s, i, newId, lost); }
      case DoRecord => if pc.Recording? { RecordWorks(s, i, now); }
      case DoRenewForPoll => if pc.Polling? { RenewForPollWorks(s, i, now); }
      case DoCheckCancel => if pc.Checking? { CheckCancelWorks(s, i, now); }
      case DoPoll => if pc.Watching? { PollWorks(s, i); }
      case DoSettle => if pc.Settling? { SettleWorks(s, i, now); }
      case _ =>
    }
  }

  lemma ActConducts(s: State, i: nat, a: Action, now: int)
    requires Inv(s) && Has(s, i) && Recalls(s, i)
    ensures Conducts(s, Act(s, i, a, now), i, a)
  {
    hide Inv, Recalls, SameWork, Caused, Compile, Admit, Acquire, Recover, Finish, Pulse, Release, WriteBack, Exit, Q.AfterBeat;
    var pc := s.pcs[i];
    CompileConducts(s, i, a, now);
    ActPlaces(s, i, a, now);
    hide Arrives, Cause;
    match a {
      case DoAdmit => if pc.Entered? { AdmitWorks(s, i, now); }
      case DoAcquire => if pc.Admitted? { AcquireWorks(s, i, now); }
      case DoRecover => if pc.Leased? { RecoverWorks(s, i); }
      case DoFinish => if pc.Working? { FinishWorks(s, i, now); }
      case DoPulse => if InBody(pc) { PulseWorks(s, i, now); }
      case DoRelease => if pc.Leaving? { ReleaseWorks(s, i); }
      case DoWriteBack(maxAttempts, jitter) => if pc.Left? { WriteBackWorks(s, i, maxAttempts, jitter, now); }
      case DoBeat(_) => SameWorkItself(s.pcs[i]);
      case _ => ExitWorks(s, i, a);
    }
  }

  lemma SameWorkItself(p: Pc)
    ensures SameWork(p, p)
  {
  }

  lemma StepInputs(s: State, x: Timed)
    requires Inv(s)
    ensures InputsStay(s, Step(s, x))
  {
    hide Step, Inv;
    forall k | k in s.stages ensures k in Step(s, x).stages && Step(s, x).stages[k].input == s.stages[k].input {
      StepMoves(s, x, k);
    }
  }

  /** Another attempt's step, or an event outside, leaves this attempt's memory true. */
  lemma StepRecalls(s: State, x: Timed, i: nat)
    requires Inv(s) && Has(Step(s, x), i) && (Has(s, i) ==> Recalls(s, i))
    ensures Recalls(Step(s, x), i)
  {
    StepInputs(s, x);
    if Has(s, i) {
      AttemptsMatch(s);
      hide Inv, Recalls, SameWork, InputsStay;
      StepPlaces(s, x, i);
      SameWorkItself(s.pcs[i]);
      if x.event.Does? && x.event.i == i {
        ActConducts(s, i, x.event.action, x.now);
        hide Act;
        if !Recalls(Step(s, x), i) { WorkRecalls(s, Step(s, x), i); }
      } else {
        hide Step;
        WorkRecalls(s, Step(s, x), i);
      }
    } else {
      AttemptsMatch(s);
      NewAttempt(s, x, i);
    }
  }

  lemma AttemptsMatch(s: State)
    requires Inv(s)
    ensures |s.pcs| == |s.attempts|
  {
  }

  /** In every reachable state an attempt that has a stage in hand works on the input its row records. */
  lemma {:induction false} WorksOnRecord(h: History, i: nat)
    requires Has(After(h), i)
    ensures Recalls(After(h), i)
  {
    if h != [] {
      var front := h[..|h| - 1];
      Always(front);
      hide Step, Inv, Recalls;
      if Has(After(front), i) { WorksOnRecord(front, i); }
      StepRecalls(After(front), h[|h| - 1], i);
    }
  }

  // ---- a stage found running is asked for before it is submitted again ----

  /** Event `a` is attempt `i` asking the upstream for its stage and hearing that there is no task. */
  predicate AskedInVain(h: History, a: nat, i: nat, id: StageId) {
    && a < |h| && h[a].event == Does(i, DoAsk) && Has(After(h[..a]), i)
    && After(h[..a]).pcs[i].Asking? && id == StageId(RunOf(After(h[..a]), i), After(h[..a]).pcs[i].key)
    && id !in After(h[..a]).submissions
  }

  /** Event `m` is attempt `i` marking its stage, whose checkpoint it read as `seen`, with no task known. */
  predicate MarkedUnknown(h: History, m: nat, i: nat, id: StageId, seen: Option<Stage>) {
    && m < |h| && h[m].event == Does(i, DoMark) && Has(After(h[..m]), i)
    && After(h[..m]).pcs[i].Marking? && id == StageId(RunOf(After(h[..m]), i), After(h[..m]).pcs[i].key)
    && After(h[..m]).pcs[i].seen == seen && After(h[..m]).pcs[i].submitted.None?
  }

  predicate SeenRunning(seen: Option<Stage>) {
    seen.Some? && seen.value.status == Running
  }

  ghost predicate AskedBefore(h: History, n: nat, i: nat, id: StageId) {
    exists a: nat :: a < n && AskedInVain(h, a, i, id)
  }

  /** The checkpoint was marked by this attempt, after asking in vain if it had been found running. */
  ghost predicate MarkedBefore(h: History, n: nat, i: nat, id: StageId) {
    exists m: nat, seen :: m < n && MarkedUnknown(h, m, i, id, seen) && (SeenRunning(seen) ==> AskedBefore(h, m, i, id))
  }

  /** What led an attempt to mark, or to submit, with no task known. */
  ghost predicate Led(h: History, n: nat, i: nat)
    requires n <= |h| && Has(After(h[..n]), i)
  {
    var pc := After(h[..n]).pcs[i];
    && (pc.Marking? && pc.submitted.None? && SeenRunning(pc.seen) ==> AskedBefore(h, n, i, StageId(RunOf(After(h[..n]), i), pc.key)))
    && (pc.Submitting? && pc.submitted.None? ==> MarkedBefore(h, n, i, StageId(RunOf(After(h[..n]), i), pc.key)))
  }

  lemma {:induction false} AllLed(h: History, n: nat, i: nat)
    requires n <= |h| && Has(After(h[..n]), i)
    ensures Led(h, n, i)
    decreases n
  {
    if n > 0 {
      AfterNext(h, n - 1);
      Always(h[..n - 1]);
      var s, x := After(h[..n - 1]), h[n - 1];
      hide After, Step, Inv, Recalls, SameWork;
      if Has(s, i) {
        AllLed(h, n - 1, i);
        WorksOnRecord(h[..n - 1], i);
        AttemptsMatch(s);
        StepPlaces(s, x, i);
        if x.event.Does? && x.event.i == i {
          ActConducts(s, i, x.event.action, x.now);
          DoesAct(s, x);
          LedOn(h, n, i);
        } else {
          LedStill(h, n, i);
        }
      } else {
        AttemptsMatch(s);
        NewAttempt(s, x, i);
      }
    }
  }

  lemma BeforeLater(h: History, n: nat, i: nat, id: StageId)
    requires n > 0
    ensures AskedBefore(h, n - 1, i, id) ==> AskedBefore(h, n, i, id)
    ensures MarkedBefore(h, n - 1, i, id) ==> MarkedBefore(h, n, i, id)
  {
    hide AskedInVain, MarkedUnknown;
    if AskedBefore(h, n - 1, i, id) {
      var a: nat :| a < n - 1 && AskedInVain(h, a, i, id);
      assert a < n && AskedInVain(h, a, i, id);
    }
    if MarkedBefore(h, n - 1, i, id) {
      var m: nat, seen :| m < n - 1 && MarkedUnknown(h, m, i, id, seen) && (SeenRunning(seen) ==> AskedBefore(h, m, i, id));
      assert m < n && MarkedUnknown(h, m, i, id, seen);
    }
  }

  lemma LedStill(h: History, n: nat, i: nat)
    requires 0 < n <= |h| && Has(After(h[..n - 1]), i) && Has(After(h[..n]), i) && Led(h, n - 1, i)
    requires After(h[..n]).pcs[i] == After(h[..n - 1]).pcs[i] && RunOf(After(h[..n]), i) == RunOf(After(h[..n - 1]), i)
    ensures Led(h, n, i)
  {
    hide After, AskedBefore, MarkedBefore;
    var pc := After(h[..n]).pcs[i];
    if pc.Marking? || pc.Submitting? { BeforeLater(h, n, i, StageId(RunOf(After(h[..n]), i), pc.key)); }
  }

  lemma LedOn(h: History, n: nat, i: nat)
    requires 0 < n <= |h| && Has(After(h[..n - 1]), i) && Has(After(h[..n]), i) && Led(h, n - 1, i)
    requires h[n - 1].event.Does? && h[n - 1].event.i == i && RunOf(After(h[..n]), i) == RunOf(After(h[..n - 1]), i)
    requires Conducts(After(h[..n - 1]), After(h[..n]), i, h[n - 1].event.action)
    ensures Led(h, n, i)
  {
    hide After, Recalls, SameWork, AskedBefore, MarkedBefore;
    var p, q, run := After(h[..n - 1]).pcs[i], After(h[..n]).pcs[i], RunOf(After(h[..n - 1]), i);
    if p == q {
      LedStill(h, n, i);
    } else if q.Marking? && q.submitted.None? && SeenRunning(q.seen) {
      assert AskedInVain(h, n - 1, i, StageId(run, q.key));
      JustAsked(h, n, i, StageId(run, q.key));
    } else if q.Submitting? && q.submitted.None? {
      assert MarkedUnknown(h, n - 1, i, StageId(run, q.key), p.seen);
      JustMarked(h, n, i, StageId(run, q.key), p.seen);
    }
  }

  lemma JustAsked(h: History, n: nat, i: nat, id: StageId)
    requires n > 0 && AskedInVain(h, n - 1, i, id)
    ensures AskedBefore(h, n, i, id)
  {
  }

  lemma JustMarked(h: History, n: nat, i: nat, id: StageId, seen: Option<Stage>)
    requires n > 0 && MarkedUnknown(h, n - 1, i, id, seen) && (SeenRunning(seen) ==> AskedBefore(h, n - 1, i, id))
    ensures MarkedBefore(h, n, i, id)
  {
    hide AskedBefore, MarkedUnknown;
  }

  /**
   Whenever an attempt submits a Compile, it has marked the stage first, and if it had found the stage running, so
   that an earlier attempt may have submitted it, it has asked the upstream for it in vain before that. What it
   submits is the input its row records.
   */
  lemma {:induction false} SubmitsUnknown(h: History, n: nat, i: nat, newId: string, lost: bool)
    requires n < |h| && h[n].event == Does(i, DoSubmit(newId, lost)) && Has(After(h[..n]), i)
    requires After(h[..n]).pcs[i].Submitting? && After(h[..n]).pcs[i].submitted.None?
    ensures var s := After(h[..n]);
            var id := StageId(RunOf(s, i), s.pcs[i].key);
            MarkedBefore(h, n, i, id) && id in s.stages && s.stages[id].input == s.pcs[i].input
  {
    AllLed(h, n, i);
    WorksOnRecord(h[..n], i);
    hide After, MarkedBefore;
  }

  // ---- cancelling ----

  /** A stage that was not running is marked running only by a current attempt of its run that no cancel was asked of. */
  lemma {:induction false} NothingNewAfterCancel(h: History, n: nat, k: StageId)
    requires n < |h| && !RunningStage(After(h[..n]).stages, k) && RunningStage(After(h[..n + 1]).stages, k)
    ensures h[n].event.Does? && h[n].event.action == DoMark
    ensures var s, i := After(h[..n]), h[n].event.i;
            Has(s, i) && RunOf(s, i) == k.run && Guarded(s, i, h[n].now) && !CancelSeen(s, i)
  {
    Always(h[..n]);
    AfterNext(h, n);
    hide After;
    StepStarts(After(h[..n]), h[n], k);
  }

  ghost predicate Begun(s: State, s': State, k: StageId) {
    !RunningStage(s.stages, k) && RunningStage(s'.stages, k)
  }

  lemma MarkStarts(s: State, i: nat, now: int, k: StageId)
    requires Inv(s) && Has(s, i) && s.pcs[i].Marking? && Begun(s, Mark(s, i, now), k)
    ensures RunOf(s, i) == k.run && Guarded(s, i, now) && !CancelSeen(s, i)
  {
    Basic(s, i);
    assert Guarded(s, i, now) ==> Holder(s, i);
    hide Inv, HasRunning, Guarded, PlanKnowledge;
  }

  lemma RecordStartsNothing(s: State, i: nat, now: int, k: StageId)
    requires Inv(s) && Has(s, i) && s.pcs[i].Recording?
    ensures !Begun(s, Record(s, i, now), k)
  {
    Basic(s, i);
    assert Guarded(s, i, now) ==> Holder(s, i);
    hide Inv, HasRunning, Guarded, PlanKnowledge, Q.AfterUpstream;
  }

  lemma SettleSaves(s: State, i: nat, now: int)
    requires Has(s, i) && s.pcs[i].Settling?
    ensures var pc, t := s.pcs[i], Settle(s, i, now).stages;
            var id := StageId(RunOf(s, i), pc.key);
            || t == s.stages || t == SaveStage(s.stages, id, pc.input, Succeeded, pc.job)
            || t == SaveStage(s.stages, id, pc.input, Failed, pc.job) || t == SaveStage(s.stages, id, pc.input, Cancelled, pc.job)
  {
    hide SaveStage, Guarded, HasRunning, CancelSeen, Without;
  }

  lemma SettleStartsNothing(s: State, i: nat, now: int, k: StageId)
    requires Has(s, i) && s.pcs[i].Settling?
    ensures !Begun(s, Settle(s, i, now), k)
  {
    hide Settle, SaveStage;
    SettleSaves(s, i, now);
    var pc := s.pcs[i];
    var id := StageId(RunOf(s, i), pc.key);
    SavedStage(s.stages, id, pc.input, Succeeded, pc.job, k);
    SavedStage(s.stages, id, pc.input, Failed, pc.job, k);
    SavedStage(s.stages, id, pc.input, Cancelled, pc.job, k);
  }

  lemma StepStarts(s: State, x: Timed, k: StageId)
    requires Inv(s) && Begun(s, Step(s, x), k)
    ensures x.event.Does? && x.event.action == DoMark && Has(s, x.event.i)
    ensures RunOf(s, x.event.i) == k.run && Guarded(s, x.event.i, x.now) && !CancelSeen(s, x.event.i)
  {
    hide Inv, Act, Claim, Accept, Compile, Mark, Record, Settle, Guarded, CancelSeen;
    if x.event.Does? && Has(s, x.event.i) {
      var i, a := x.event.i, x.event.action;
      assert SameStore(s, Act(s, i, a, x.now)) || Act(s, i, a, x.now) == Compile(s, i, a, x.now);
      CompileStarts(s, i, a, x.now, k);
    }
  }

  lemma CompileStarts(s: State, i: nat, a: Action, now: int, k: StageId)
    requires Inv(s) && Has(s, i)
    ensures Begun(s, Compile(s, i, a, now), k) ==>
              a == DoMark && RunOf(s, i) == k.run && Guarded(s, i, now) && !CancelSeen(s, i)
  {
    hide Inv, Begun, Mark, Record, Settle, Guarded, CancelSeen;
    if a.DoMark? && s.pcs[i].Marking? {
      if Begun(s, Mark(s, i, now), k) { MarkStarts(s, i, now, k); }
    } else if a.DoRecord? && s.pcs[i].Recording? {
      RecordStartsNothing(s, i, now, k);
    } else if a.DoSettle? && s.pcs[i].Settling? {
      SettleStartsNothing(s, i, now, k);
    } else {
      NoneBegun(s, Compile(s, i, a, now), k);
    }
  }

  lemma NoneBegun(s: State, s': State, k: StageId)
    requires s'.stages == s.stages
    ensures !Begun(s, s', k)
  {
  }

  /** An attempt that found its run cancelled: it only finishes stages it found running, and never answers success. */
  predicate Cleans(pc: Pc) {
    || (pc.Admitted? && pc.cancelled) || (pc.Leased? && pc.cancelled)
    || (pc.Working? && pc.plan.cancelled)
    || (InHand(pc) && pc.plan.cancelled && pc.key in pc.plan.todo)
    || Over(pc)
  }

  lemma OpenCleans(s: State, i: nat, key: string, input: string, now: int)
    requires Has(s, i) && s.pcs[i].Working? && Cleans(s.pcs[i])
    ensures Cleans(OpenStage(s, i, key, input, now).pcs[i])
  {
    hide OpenStage;
    OpenGoes(s, i, key, input, now);
  }

  lemma RenewForStageCleans(s: State, i: nat, now: int)
    requires Has(s, i) && s.pcs[i].StageRead? && Cleans(s.pcs[i])
    ensures Cleans(RenewForStage(s, i, now).pcs[i])
  {
  }

  lemma AskCleans(s: State, i: nat)
    requires Has(s, i) && s.pcs[i].Asking? && Cleans(s.pcs[i])
    ensures Cleans(Ask(s, i).pcs[i])
  {
  }

  lemma MarkCleans(s: State, i: nat, now: int)
    requires Has(s, i) && s.pcs[i].Marking? && Cleans(s.pcs[i])
    ensures Cleans(Mark(s, i, now).pcs[i])
  {
    hide Mark;
    MarkGoes(s, i, now);
  }

  lemma SubmitCleans(s: State, i: nat, newId: string, lost: bool)
    requires Has(s, i) && s.pcs[i].Submitting? && Cleans(s.pcs[i])
    ensures Cleans(Submit(s, i, newId, lost).pcs[i])
  {
  }

  lemma RecordCleans(s: State, i: nat, now: int)
    requires Has(s, i) && s.pcs[i].Recording? && Cleans(s.pcs[i])
    ensures Cleans(Record(s, i, now).pcs[i])
  {
  }

  lemma RenewForPollCleans(s: State, i: nat, now: int)
    requires Has(s, i) && s.pcs[i].Polling? && Cleans(s.pcs[i])
    ensures Cleans(RenewForPoll(s, i, now).pcs[i])
  {
  }

  lemma CheckCancelCleans(s: State, i: nat, now: int)
    requires Has(s, i) && s.pcs[i].Checking? && Cleans(s.pcs[i])
    ensures Cleans(CheckCancel(s, i, now).pcs[i])
  {
  }

  lemma PollCleans(s: State, i: nat)
    requires Has(s, i) && s.pcs[i].Watching? && Cleans(s.pcs[i])
    ensures Cleans(Poll(s, i).pcs[i])
  {
  }

  lemma SettleCleans(s: State, i: nat, now: int)
    requires Has(s, i) && s.pcs[i].Settling? && Cleans(s.pcs[i])
    ensures Cleans(Settle(s, i, now).pcs[i])
  {
    hide Settle;
    SettleGoes(s, i, now);
  }

  lemma AcquireCleans(s: State, i: nat, now: int)
    requires Has(s, i) && s.pcs[i].Admitted? && Cleans(s.pcs[i])
    ensures Cleans(Acquire(s, i, now).pcs[i])
  {
  }

  lemma RecoverCleans(s: State, i: nat)
    requires Has(s, i) && s.pcs[i].Leased? && Cleans(s.pcs[i])
    ensures Cleans(Recover(s, i).pcs[i])
  {
  }

  lemma FinishCleans(s: State, i: nat, now: int)
    requires Has(s, i) && s.pcs[i].Working? && Cleans(s.pcs[i])
    ensures Cleans(Finish(s, i, now).pcs[i])
  {
    hide Finish;
    FinishGoes(s, i, now);
  }

  lemma PulseCleans(s: State, i: nat, now: int)
    requires Has(s, i) && InBody(s.pcs[i]) && Cleans(s.pcs[i])
    ensures Cleans(Pulse(s, i, now).pcs[i])
  {
  }

  lemma ExitCleans(s: State, i: nat, a: Action)
    requires Has(s, i) && Cleans(s.pcs[i])
    ensures Cleans(Exit(s, i, a).pcs[i])
  {
    hide Exit;
    ExitGoes(s, i, a);
  }

  lemma CompileCleans(s: State, i: nat, a: Action, now: int)
    requires Has(s, i) && Cleans(s.pcs[i])
    ensures Has(Compile(s, i, a, now), i) && Cleans(Compile(s, i, a, now).pcs[i])
  {
    hide MovesOnly, Cleans, OpenStage, RenewForStage, Ask, Mark, Submit, Record, RenewForPoll, CheckCancel, Poll, Settle;
    var pc := s.pcs[i];
    CompilePlaces(s, i, a, now);
    StillThere(s, Compile(s, i, a, now), i);
    match a {
      case DoOpenStage(key, input) => if pc.Working? { OpenCleans(s, i, key, input, now); }
      case DoRenewForStage => if pc.StageRead? { RenewForStageCleans(s, i, now); }
      case DoAsk => if pc.Asking? { AskCleans(s, i); }
      case DoMark => if pc.Marking? { MarkCleans(s, i, now); }
      case DoSubmit(newId, lost) => if pc.Submitting? { SubmitCleans(s, i, newId, lost); }
      case DoRecord => if pc.Recording? { RecordCleans(s, i, now); }
      case DoRenewForPoll => if pc.Polling? { RenewForPollCleans(s, i, now); }
      case DoCheckCancel => if pc.Checking? { CheckCancelCleans(s, i, now); }
      case DoPoll => if pc.Watching? { PollCleans(s, i); }
      case DoSettle => if pc.Settling? { SettleCleans(s, i, now); }
      case _ =>
    }
  }

  lemma ActCleans(s: State, i: nat, a: Action, now: int)
    requires Has(s, i) && Cleans(s.pcs[i])
    ensures Has(Act(s, i, a, now), i) && Cleans(Act(s, i, a, now).pcs[i])
  {
    if Over(s.pcs[i]) {
      OverActs(s, i, a, now);
      hide Act, Over;
    } else {
      hide MovesOnly, Cleans, Compile, Acquire, Recover, Finish, Pulse, Exit, Q.AfterBeat;
      var pc := s.pcs[i];
      NotLeft(pc);
      CompileCleans(s, i, a, now);
      match a {
        case DoAcquire => if pc.Admitted? { AcquireCleans(s, i, now); ActPlaces(s, i, a, now); StillThere(s, Act(s, i, a, now), i); }
        case DoRecover => if pc.Leased? { RecoverCleans(s, i); ActPlaces(s, i, a, now); StillThere(s, Act(s, i, a, now), i); }
        case DoFinish => if pc.Working? { FinishCleans(s, i, now); ActPlaces(s, i, a, now); StillThere(s, Act(s, i, a, now), i); }
        case DoPulse => if InBody(pc) { PulseCleans(s, i, now); ActPlaces(s, i, a, now); StillThere(s, Act(s, i, a, now), i); }
        case DoThrow => ExitCleans(s, i, a); ActPlaces(s, i, a, now); StillThere(s, Act(s, i, a, now), i);
        case DoInvalid => ExitCleans(s, i, a); ActPlaces(s, i, a, now); StillThere(s, Act(s, i, a, now), i);
        case DoAbandon => ExitCleans(s, i, a); ActPlaces(s, i, a, now); StillThere(s, Act(s, i, a, now), i);
        case DoCutOff(_) => ExitCleans(s, i, a); ActPlaces(s, i, a, now); StillThere(s, Act(s, i, a, now), i);
        case DoCrash => ExitCleans(s, i, a); ActPlaces(s, i, a, now); StillThere(s, Act(s, i, a, now), i);
        case _ =>
      }
    }
  }

  lemma NotLeft(pc: Pc)
    requires Cleans(pc) && !Over(pc)
    ensures !pc.Entered? && !pc.Leaving? && !pc.Left? && !pc.Gone?
  {
  }

  lemma AdmitCleans(s: State, i: nat, now: int)
    requires Has(s, i) && s.pcs[i].Entered? && CancelSeen(s, i) && RunOf(s, i) !in s.finished
    ensures Cleans(Admit(s, i, now).pcs[i])
  {
  }

  lemma AdmissionCleans(s: State, x: Timed, i: nat)
    requires |s.pcs| == |s.attempts| && x.event == Does(i, DoAdmit)
    requires Has(s, i) && s.pcs[i].Entered? && CancelSeen(s, i) && RunOf(s, i) !in s.finished
    ensures Has(Step(s, x), i) && Cleans(Step(s, x).pcs[i])
  {
    AdmitCleans(s, i, x.now);
    StepPlaces(s, x, i);
    DoesAct(s, x);
    hide Step, Admit, Cleans, CancelSeen;
  }

  lemma StepCleans(s: State, x: Timed, i: nat)
    requires |s.pcs| == |s.attempts| && Has(s, i) && Cleans(s.pcs[i])
    ensures Has(Step(s, x), i) && Cleans(Step(s, x).pcs[i])
  {
    StepPlaces(s, x, i);
    hide Act, Cleans;
    if x.event.Does? && x.event.i == i {
      ActCleans(s, i, x.event.action, x.now);
      DoesAct(s, x);
      hide Step;
    }
  }

  /** An attempt that finds its unfinished run cancelled when it is admitted only cleans up from then on. */
  lemma {:induction false} CancelledCleansUp(h: History, n: nat, j: nat, i: nat)
    requires n < j <= |h| && h[n].event == Does(i, DoAdmit)
    requires Has(After(h[..n]), i) && After(h[..n]).pcs[i].Entered?
    requires CancelSeen(After(h[..n]), i) && RunOf(After(h[..n]), i) !in After(h[..n]).finished
    ensures Has(After(h[..j]), i) && Cleans(After(h[..j]).pcs[i])
    decreases j
  {
    hide *;
    AfterNext(h, j - 1);
    assert h[..j - 1 + 1] == h[..j];
    PlacesMatch(h[..j - 1]);
    if n + 1 == j {
      AdmissionCleans(After(h[..n]), h[n], i);
    } else {
      CancelledCleansUp(h, n, j - 1, i);
      StepCleans(After(h[..j - 1]), h[j - 1], i);
    }
  }
}
