/**
 A history in which a cancel request does abandon a Compile midway: a worker crashes after
 marking the stage, the next attempt fails before it takes the account lease and goes to
 `retry_wait`, and the user cancels there.
 */
module MemoryStranding {
  import opened Basics
  import Q = WorkerQueue
  import L = ResourceLeases
  import W = Worker
  import opened MemoryProtocol
  import opened MemoryTheorems

  const TARGET := StageId("r", "publish")

  function RowAt(fence: nat, until: int): Q.Row {
    Q.Row("memory.aggregate", 0, Q.Running, fence, "w", fence, Some(until), 0, false, "", "", "")
  }

  function Ticket(fence: nat): Q.ClaimedTask {
    Q.ClaimedTask("r", "memory.aggregate", fence, fence, false, "", "w")
  }

  function Held(): L.Leases {
    map[LeaseKey("a") := L.Lease("r", 1, Some(LEASE_MS))]
  }

  /** Nothing to recover. */
  const FRESH := Plan(false, map[])

  /** The run `r` of account `a` in its first attempt, before and after the lease. */
  function First(leases: L.Leases, leaseFence: nat, pc: Pc): State {
    State(map["r" := RowAt(1, LEASE_MS)], leases, map["r" := "a"], {}, map[], map[], map[], [Attempt(Ticket(1), leaseFence)], [pc])
  }

  lemma Start()
    ensures After([At(0, Accepts("r", "a")), At(0, Claims("w", LEASE_MS, {}, Some("r")))]) == First(map[], 0, Entered)
  {
    var h := [At(0, Accepts("r", "a")), At(0, Claims("w", LEASE_MS, {}, Some("r")))];
    assert h[..1] == [h[0]] && h[..1][..0] == [];
    assert After(h[..1]) == Step(INITIAL, h[0]);
    assert Q.Claimable(After(h[..1]).tasks, 0, None, {}) == {"r"};
  }

  lemma ToAdmit()
    ensures Step(First(map[], 0, Entered), At(0, Does(0, DoAdmit))) == First(map[], 0, Admitted(false))
  {
  }

  lemma NothingUnsettled(s: State, run: string)
    requires s.stages == map[]
    ensures Unsettled(s, run) == map[]
  {
  }

  lemma ToRecover()
    ensures Step(First(Held(), 1, Leased(false)), At(0, Does(0, DoRecover))) == First(Held(), 1, Working(FRESH))
  {
    hide Unsettled;
    NothingUnsettled(First(Held(), 1, Leased(false)), "r");
  }

  lemma ToOpen()
    ensures Step(First(Held(), 1, Working(FRESH)), At(0, Does(0, DoOpenStage("publish", "p"))))
            == First(Held(), 1, StageRead("publish", "p", None, FRESH))
  {
  }

  lemma ToMark()
    ensures Step(First(Held(), 1, StageRead("publish", "p", None, FRESH)), At(0, Does(0, DoRenewForStage)))
            == First(Held(), 1, Marking("publish", "p", None, None, FRESH))
  {
  }

  lemma ToLease()
    ensures Step(First(map[], 0, Admitted(false)), At(0, Does(0, DoAcquire))) == First(Held(), 1, Leased(false))
  {
  }

  /** The stage is marked running; `rows` and the attempts are what happens to the task afterwards. */
  function Marked(row: Q.Row, attempts: seq<Attempt>, pcs: seq<Pc>): State {
    State(map["r" := row], Held(), map["r" := "a"], {}, map[TARGET := Stage("p", Running, "")], map[], map[], attempts, pcs)
  }

  const ONE := [Attempt(Ticket(1), 1)]
  const TWO := [Attempt(Ticket(1), 1), Attempt(Ticket(2), 0)]

  lemma ToSubmit()
    ensures Step(First(Held(), 1, Marking("publish", "p", None, None, FRESH)), At(0, Does(0, DoMark)))
            == Marked(RowAt(1, LEASE_MS), ONE, [Submitting("publish", "p", None, FRESH)])
  {
  }

  lemma ToCrash()
    ensures Step(Marked(RowAt(1, LEASE_MS), ONE, [Submitting("publish", "p", None, FRESH)]), At(0, Does(0, DoCrash)))
            == Marked(RowAt(1, LEASE_MS), ONE, [Gone])
  {
  }

  lemma ToReclaim()
    ensures Step(Marked(RowAt(1, LEASE_MS), ONE, [Gone]), At(LEASE_MS + 1, Claims("w", LEASE_MS, {}, Some("r"))))
            == Marked(RowAt(2, 2 * LEASE_MS + 1), TWO, [Gone, Entered])
  {
    assert Q.Claimable(Marked(RowAt(1, LEASE_MS), ONE, [Gone]).tasks, LEASE_MS + 1, None, {}) == {"r"};
  }

  function Waits(): Q.Row {
    RowAt(2, 0).(status := Q.RetryWait, owner := "", leaseUntil := None, errorCode := "handler_exception",
                 availableAt := LEASE_MS + 1 + 30000)
  }

  lemma ToRetryWait()
    ensures Step(Marked(RowAt(2, 2 * LEASE_MS + 1), TWO, [Gone, Entered]), At(LEASE_MS + 1, Does(1, DoThrow)))
            == Marked(RowAt(2, 2 * LEASE_MS + 1), TWO, [Gone, Left(W.RetryLater("handler_exception", 0))])
    ensures Step(Marked(RowAt(2, 2 * LEASE_MS + 1), TWO, [Gone, Left(W.RetryLater("handler_exception", 0))]),
                 At(LEASE_MS + 1, Does(1, DoWriteBack(3, 0)))) == Marked(Waits(), TWO, [Gone, Gone])
  {
  }

  /** One more event after a history. */
  lemma Then(h: History, s: State, e: Event, now: int) returns (h': History)
    requires After(h) == s
    ensures After(h') == Step(s, At(now, e))
  {
    h' := h + [At(now, e)];
    assert h'[..|h|] == h;
  }

  /** The first attempt, up to the crash of its worker. */
  lemma Crashed() returns (h: History)
    ensures After(h) == Marked(RowAt(1, LEASE_MS), ONE, [Gone])
  {
    hide After, Step, Held, RowAt, First, Marked;
    Start(); ToAdmit(); ToLease(); ToRecover(); ToOpen(); ToMark(); ToSubmit(); ToCrash();
    h := [At(0, Accepts("r", "a")), At(0, Claims("w", LEASE_MS, {}, Some("r")))];
    h := Then(h, First(map[], 0, Entered), Does(0, DoAdmit), 0);
    h := Then(h, First(map[], 0, Admitted(false)), Does(0, DoAcquire), 0);
    h := Then(h, First(Held(), 1, Leased(false)), Does(0, DoRecover), 0);
    h := Then(h, First(Held(), 1, Working(FRESH)), Does(0, DoOpenStage("publish", "p")), 0);
    h := Then(h, First(Held(), 1, StageRead("publish", "p", None, FRESH)), Does(0, DoRenewForStage), 0);
    h := Then(h, First(Held(), 1, Marking("publish", "p", None, None, FRESH)), Does(0, DoMark), 0);
    h := Then(h, Marked(RowAt(1, LEASE_MS), ONE, [Submitting("publish", "p", None, FRESH)]), Does(0, DoCrash), 0);
  }

  /** The second attempt, up to its retry. */
  lemma Retried() returns (h: History)
    ensures After(h) == Marked(Waits(), TWO, [Gone, Gone])
  {
    hide After, Step, Held, RowAt, First, Marked, Waits;
    ToReclaim(); ToRetryWait();
    h := Crashed();
    h := Then(h, Marked(RowAt(1, LEASE_MS), ONE, [Gone]), Claims("w", LEASE_MS, {}, Some("r")), LEASE_MS + 1);
    h := Then(h, Marked(RowAt(2, 2 * LEASE_MS + 1), TWO, [Gone, Entered]), Does(1, DoThrow), LEASE_MS + 1);
    h := Then(h, Marked(RowAt(2, 2 * LEASE_MS + 1), TWO, [Gone, Left(W.RetryLater("handler_exception", 0))]),
              Does(1, DoWriteBack(3, 0)), LEASE_MS + 1);
  }

  lemma StrandedByCancel()
    ensures Stranded(Step(Marked(Waits(), TWO, [Gone, Gone]), At(LEASE_MS + 2, CancelRequested("r"))), TARGET)
  {
    CancelStrands(Marked(Waits(), TWO, [Gone, Gone]), LEASE_MS + 2, TARGET);
  }

  /** A cancelled run can have a Compile in flight that nobody will ever finish. */
  lemma CancelCanStrand()
    ensures exists h: History :: Stranded(After(h), TARGET)
  {
    hide After, Step, Held, RowAt, Marked, Waits, Stranded;
    StrandedByCancel();
    var h := Retried();
    h := Then(h, Marked(Waits(), TWO, [Gone, Gone]), CancelRequested("r"), LEASE_MS + 2);
  }
}
