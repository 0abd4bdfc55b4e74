/** What every step of the Memory protocol keeps. */
module MemoryInvariant {
  import opened Basics
  import Q = WorkerQueue
  import L = ResourceLeases
  import W = Worker
  import opened MemoryProtocol

  predicate Alive(st: Q.Status) {
    st == Q.Running || st == Q.Reconciling
  }

  function Account(runs: map<string, string>, run: string): string {
    if run in runs then runs[run] else ""
  }

  /** The attempt is in its body and its task row still carries its fence in a live status. */
  predicate Holder(s: State, i: nat) {
    && Has(s, i) && InBody(s.pcs[i]) && RunOf(s, i) in s.tasks
    && s.tasks[RunOf(s, i)].fence == s.attempts[i].ticket.fence
    && Alive(s.tasks[RunOf(s, i)].status)
  }

  /** The task row still carries the attempt's fence: no later attempt of the run has been claimed. */
  predicate Latest(s: State, i: nat) {
    Has(s, i) && RunOf(s, i) in s.tasks && s.tasks[RunOf(s, i)].fence == s.attempts[i].ticket.fence
  }

  ghost predicate Known(tasks: Q.Table, runs: map<string, string>, attempts: seq<Attempt>, stages: map<StageId, Stage>) {
    && runs.Keys <= tasks.Keys
    && (forall c | c in attempts :: c.ticket.taskId in runs && c.ticket.fence <= tasks[c.ticket.taskId].fence)
    && (forall k | k in stages :: k.run in runs)
  }

  ghost predicate TicketsDistinct(attempts: seq<Attempt>) {
    forall i, j | 0 <= i < j < |attempts| && attempts[i].ticket.taskId == attempts[j].ticket.taskId ::
      attempts[i].ticket.fence != attempts[j].ticket.fence
  }

  predicate NoParking(pc: Pc) {
    (pc.Left? ==> !pc.result.WaitingOn?) && (pc.Leaving? && pc.outcome.Some? ==> !pc.outcome.value.WaitingOn?)
  }

  /** Memory tasks are never parked on an external task. */
  ghost predicate NeverParked(tasks: Q.Table, pcs: seq<Pc>) {
    && (forall r | r in tasks :: tasks[r].status != Q.WaitingExternal)
    && (forall pc | pc in pcs :: NoParking(pc))
  }

  function KeyOf(runs: map<string, string>, c: Attempt): string {
    LeaseKey(Account(runs, c.ticket.taskId))
  }

  /** Lease fences were handed out once each. */
  ghost predicate LeasesOrdered(runs: map<string, string>, attempts: seq<Attempt>, leases: L.Leases) {
    && (forall c | c in attempts && c.leaseFence > 0 ::
          KeyOf(runs, c) in leases && c.leaseFence <= leases[KeyOf(runs, c)].fence)
    && (forall i, j | 0 <= i < j < |attempts| && KeyOf(runs, attempts[i]) == KeyOf(runs, attempts[j])
          && attempts[i].leaseFence > 0 :: attempts[i].leaseFence != attempts[j].leaseFence)
  }

  ghost predicate BodiesLeased(s: State) {
    |s.pcs| == |s.attempts| && forall i | 0 <= i < |s.pcs| && InBody(s.pcs[i]) :: s.attempts[i].leaseFence > 0
  }

  /** A current attempt past its acquire keeps the lease row: owner and fence are its own. */
  ghost predicate HoldersOwn(s: State) {
    forall i: nat | Holder(s, i) ::
      L.Holds(s.leases, KeyOf(s.runs, s.attempts[i]), RunOf(s, i), s.attempts[i].leaseFence)
  }

  predicate RunningStage(stages: map<StageId, Stage>, k: StageId) {
    k in stages && stages[k].status == Running
  }

  /** While an attempt is a holder no other run of its account has a Compile in flight. */
  ghost predicate HoldersAlone(s: State) {
    forall i: nat, k | Holder(s, i) && RunningStage(s.stages, k) && Account(s.runs, k.run) == Account(s.runs, RunOf(s, i)) ::
      k.run == RunOf(s, i)
  }

  ghost predicate OneRunPerAccount(runs: map<string, string>, stages: map<StageId, Stage>) {
    forall k, l | RunningStage(stages, k) && RunningStage(stages, l) && Account(runs, k.run) == Account(runs, l.run) ::
      k.run == l.run
  }

  /** A run has at most one Compile in flight. */
  ghost predicate OneStagePerRun(stages: map<StageId, Stage>) {
    forall k, l | RunningStage(stages, k) && RunningStage(stages, l) && k.run == l.run :: k == l
  }

  /** The run has no Compile in flight. */
  ghost predicate Quiet(stages: map<StageId, Stage>, run: string) {
    forall k | RunningStage(stages, k) :: k.run != run
  }

  /** A run whose result is stored has nothing in flight, and only such a run succeeds. */
  ghost predicate FinishedQuiet(tasks: Q.Table, finished: set<string>, stages: map<StageId, Stage>) {
    && (forall r | r in finished :: Quiet(stages, r))
    && (forall r | r in tasks && tasks[r].status == Q.Succeeded :: r in finished)
  }

  /** The upstream's books: one task per key, and checkpoints name that task. */
  ghost predicate Books(stages: map<StageId, Stage>, submissions: map<StageId, string>, jobs: map<string, JobState>) {
    && (forall k | k in submissions :: submissions[k] in jobs && submissions[k] != "")
    && (forall k, l | k in submissions && l in submissions && submissions[k] == submissions[l] :: k == l)
    && (forall k | k in stages && stages[k].upstream != "" :: k in submissions && submissions[k] == stages[k].upstream)
    && (forall k | k in stages && stages[k].status != Running :: k in submissions)
  }

  /** An unfinished upstream task belongs to a stage that is marked running. */
  ghost predicate LiveJobsMarked(stages: map<StageId, Stage>, submissions: map<StageId, string>, jobs: map<string, JobState>) {
    forall k | k in submissions && submissions[k] in jobs && !Final(jobs[submissions[k]]) :: RunningStage(stages, k)
  }

  predicate Sees(s: State, id: StageId, seen: Option<Stage>) {
    seen == if id in s.stages then Some(s.stages[id]) else None
  }

  predicate Marked(s: State, id: StageId, upstream: string) {
    id in s.stages && s.stages[id].status == Running && s.stages[id].upstream == upstream
  }

  predicate Submitted(s: State, id: StageId, job: string) {
    id in s.submissions && s.submissions[id] == job
  }

  /** What an attempt knows, and what stays true of it while it is a holder or the latest attempt. */
  ghost predicate LocalKnowledge(s: State, i: nat)
    requires Has(s, i)
  {
    StageKnowledge(s, i) && PlanKnowledge(s, i)
  }

  /** The stage in hand, outside of which a running body has nothing in flight. */
  predicate InHand(pc: Pc) {
    InBody(pc) && !pc.Leased? && !pc.Working?
  }

  /** What the body still has to recover is what is in flight; what it returns is true of the run. */
  ghost predicate PlanKnowledge(s: State, i: nat)
    requires Has(s, i)
  {
    var run, pc := RunOf(s, i), s.pcs[i];
    && (Latest(s, i) && (pc.Admitted? || InBody(pc)) ==> run !in s.finished)
    && (pc.Working? ==> forall x, y | x in pc.plan.todo && y in pc.plan.todo :: x == y)
    && (pc.Working? && Latest(s, i) ==> Planned(s.stages, run, pc.plan))
    && (InHand(pc) ==> (forall x | x in pc.plan.todo :: x == pc.key) && (Latest(s, i) ==> OnlyStage(s.stages, run, pc.key)))
    && (Returns(pc, W.Cancelled) && Latest(s, i) ==> Quiet(s.stages, run))
    && ((pc.Left? && pc.result.Succeeded?) || (pc.Leaving? && pc.outcome.Some? && pc.outcome.value.Succeeded?) ==> run in s.finished)
  }

  predicate Returns(pc: Pc, r: W.HandlerResult) {
    pc == Left(r) || pc == Leaving(Some(r))
  }

  ghost predicate Planned(stages: map<StageId, Stage>, run: string, plan: Plan) {
    && (forall k | RunningStage(stages, k) && k.run == run :: k.key in plan.todo)
    && (forall x | x in plan.todo :: RunningStage(stages, StageId(run, x)))
  }

  ghost predicate OnlyStage(stages: map<StageId, Stage>, run: string, key: string) {
    forall k | RunningStage(stages, k) && k.run == run :: k.key == key
  }

  ghost predicate StageKnowledge(s: State, i: nat)
    requires Has(s, i)
  {
    var run := RunOf(s, i);
    match s.pcs[i]
    case StageRead(key, _, seen, _) =>
      && (seen.Some? ==> seen.value.status != Succeeded)
      && (seen.Some? && seen.value.upstream != "" ==> Submitted(s, StageId(run, key), seen.value.upstream))
      && (Holder(s, i) ==> Sees(s, StageId(run, key), seen))
    case Asking(key, _, seen, _) =>
      && (seen.Some? ==> seen.value.status != Succeeded && seen.value.upstream == "")
      && (Holder(s, i) ==> Sees(s, StageId(run, key), seen))
    case Marking(key, _, seen, submitted, _) =>
      && (seen.Some? ==> seen.value.status != Succeeded && seen.value.upstream == "")
      && (submitted.Some? ==> Submitted(s, StageId(run, key), submitted.value))
      && (Holder(s, i) ==> Sees(s, StageId(run, key), seen))
    case Submitting(key, _, submitted, _) =>
      && (StageId(run, key) in s.submissions || RunningStage(s.stages, StageId(run, key)))
      && (submitted.Some? ==> Submitted(s, StageId(run, key), submitted.value))
      && (Holder(s, i) ==> Marked(s, StageId(run, key), ""))
    case Recording(key, _, job, _) =>
      Submitted(s, StageId(run, key), job) && (Holder(s, i) ==> Marked(s, StageId(run, key), ""))
    case Polling(key, _, job, _) => Follows(s, i, StageId(run, key), job)
    case Checking(key, _, job, _) => Follows(s, i, StageId(run, key), job)
    case Watching(key, _, job, _, _) => Follows(s, i, StageId(run, key), job)
    case Settling(key, _, job, final, _, _) =>
      && Follows(s, i, StageId(run, key), job)
      && Final(final) && job in s.jobs && Final(s.jobs[job])
    case _ => true
  }

  predicate Follows(s: State, i: nat, id: StageId, job: string) {
    && Submitted(s, id, job)
    && (Holder(s, i) ==> id in s.stages && s.stages[id].upstream == job && s.stages[id].status != Succeeded)
  }

  ghost predicate Global(s: State) {
    && Known(s.tasks, s.runs, s.attempts, s.stages) && TicketsDistinct(s.attempts) && NeverParked(s.tasks, s.pcs)
    && LeasesOrdered(s.runs, s.attempts, s.leases) && BodiesLeased(s) && HoldersOwn(s) && HoldersAlone(s)
    && OneRunPerAccount(s.runs, s.stages) && Books(s.stages, s.submissions, s.jobs)
    && LiveJobsMarked(s.stages, s.submissions, s.jobs)
    && OneStagePerRun(s.stages) && FinishedQuiet(s.tasks, s.finished, s.stages)
  }

  ghost predicate Inv(s: State) {
    Global(s) && forall i: nat | Has(s, i) :: LocalKnowledge(s, i)
  }

  lemma InitialInv()
    ensures Inv(INITIAL)
  {
  }

  /** What an attempt knows survives a change that leaves it in place and does not touch its stage. */
  ghost predicate Undisturbed(s: State, s': State, j: nat)
    requires Has(s, j) && Has(s', j)
  {
    && s'.attempts[j] == s.attempts[j] && s'.pcs[j] == s.pcs[j]
    && (Holder(s', j) ==> Holder(s, j))
    && (Latest(s', j) ==> Latest(s, j))
    && s.finished <= s'.finished && (Latest(s', j) && RunOf(s, j) in s'.finished ==> RunOf(s, j) in s.finished)
    && (forall k | k in s.submissions :: k in s'.submissions && s'.submissions[k] == s.submissions[k])
    && (forall u | u in s.jobs && Final(s.jobs[u]) :: u in s'.jobs && Final(s'.jobs[u]))
    && (forall k: StageId | k.run == RunOf(s, j) && RunningStage(s.stages, k) :: RunningStage(s'.stages, k) || k in s'.submissions)
    && (Latest(s', j) ==> forall k: StageId | k.run == RunOf(s, j) ::
          && (k in s'.stages <==> k in s.stages)
          && (k in s.stages ==> s'.stages[k] == s.stages[k]))
  }

  lemma PlanKept(s: State, s': State, j: nat)
    requires Has(s, j) && Has(s', j) && Undisturbed(s, s', j) && PlanKnowledge(s, j)
    ensures PlanKnowledge(s', j)
  {
    hide Holder, Latest;
    if Latest(s', j) {
      var run := RunOf(s, j);
      assert forall k: StageId | k.run == run :: RunningStage(s'.stages, k) <==> RunningStage(s.stages, k);
      assert forall x: string :: StageId(run, x).run == run;
    }
  }

  lemma KnowledgeKept(s: State, s': State, j: nat)
    requires Has(s, j) && Has(s', j) && Undisturbed(s, s', j) && LocalKnowledge(s, j)
    ensures LocalKnowledge(s', j)
  {
    PlanKept(s, s', j);
    hide PlanKnowledge;
    assert Holder(s', j) ==> Latest(s', j);
    match s.pcs[j]
    case Submitting(key, _, submitted, _) =>
      assert StageId(RunOf(s, j), key).run == RunOf(s, j);
    case _ =>
  }

  // ---- the kinds of change a step is made of ----

  lemma GotoGlobal(s: State, i: nat, pc: Pc)
    requires Global(s) && Has(s, i)
    requires InBody(pc) ==> InBody(s.pcs[i])
    requires NoParking(pc)
    ensures Global(Goto(s, i, pc))
    ensures forall j: nat :: Holder(Goto(s, i, pc), j) ==> Holder(s, j)
  {
    var s' := Goto(s, i, pc);
    assert forall j: nat :: Holder(s', j) ==> Holder(s, j);
  }

  /** Only the place of attempt `i` changes. */
  lemma GotoInv(s: State, i: nat, pc: Pc)
    requires Inv(s) && Has(s, i)
    requires InBody(pc) ==> InBody(s.pcs[i])
    requires NoParking(pc) && LocalKnowledge(Goto(s, i, pc), i)
    ensures Inv(Goto(s, i, pc))
  {
    var s' := Goto(s, i, pc);
    GotoGlobal(s, i, pc);
    forall j: nat | Has(s', j) ensures LocalKnowledge(s', j) {
      if j != i { KnowledgeKept(s, s', j); }
    }
  }

  /** Places that remember nothing about a stage. */
  predicate Blank(pc: Pc) {
    pc.Entered? || pc.Admitted? || pc.Leased? || pc.Working? || pc.Leaving? || pc.Left? || pc.Gone?
  }

  lemma BlankInv(s: State, i: nat, pc: Pc)
    requires Inv(s) && Has(s, i) && Blank(pc) && NoParking(pc)
    requires InBody(pc) ==> InBody(s.pcs[i])
    requires PlanKnowledge(Goto(s, i, pc), i)
    ensures Inv(Goto(s, i, pc))
  {
    hide Global, PlanKnowledge;
    GotoInv(s, i, pc);
  }

  /** Places from which an attempt promises nothing about its run. */
  predicate Carefree(pc: Pc) {
    || pc.Entered? || pc.Gone? || pc == Leaving(None)
    || (pc.Left? && !pc.result.Cancelled? && !pc.result.Succeeded?)
    || (pc.Leaving? && pc.outcome.Some? && !pc.outcome.value.Cancelled? && !pc.outcome.value.Succeeded?)
  }

  lemma CarefreeInv(s: State, i: nat, pc: Pc)
    requires Inv(s) && Has(s, i) && Carefree(pc) && NoParking(pc)
    ensures Inv(Goto(s, i, pc))
  {
    hide Global;
    BlankInv(s, i, pc);
  }

  /** A change that disturbs no attempt keeps what they all know. */
  lemma AllKept(s: State, s': State)
    requires Inv(s) && Global(s')
    requires forall j: nat | Has(s', j) :: Has(s, j) && Undisturbed(s, s', j)
    ensures Inv(s')
  {
    hide Global;
    forall j: nat | Has(s', j) ensures LocalKnowledge(s', j) {
      KnowledgeKept(s, s', j);
    }
  }

  /** Task rows may change as long as no attempt becomes current by it and only finished runs succeed. */
  predicate RowsRelax(t: Q.Table, t': Q.Table, finished: set<string>) {
    && t.Keys <= t'.Keys
    && (forall r | r in t' :: t'[r].status != Q.WaitingExternal)
    && (forall r | r in t :: t'[r].fence == t[r].fence && (Alive(t'[r].status) ==> Alive(t[r].status)))
    && (forall r | r in t' && t'[r].status == Q.Succeeded :: r in finished)
  }

  lemma RelaxGlobal(s: State, t: Q.Table)
    requires Global(s) && RowsRelax(s.tasks, t, s.finished)
    ensures Global(s.(tasks := t))
    ensures forall j: nat :: Holder(s.(tasks := t), j) ==> Holder(s, j)
    ensures forall j: nat :: Latest(s.(tasks := t), j) ==> Latest(s, j)
  {
    hide LeasesOrdered, OneRunPerAccount, Books, LiveJobsMarked, OneStagePerRun, TicketsDistinct;
    var s' := s.(tasks := t);
    forall j: nat | Latest(s', j) ensures Latest(s, j) {
      assert s.attempts[j] in s.attempts;
    }
    assert forall j: nat :: Holder(s', j) ==> Latest(s', j);
    assert forall j: nat :: Holder(s', j) ==> Holder(s, j);
  }

  lemma RelaxInv(s: State, t: Q.Table)
    requires Inv(s) && RowsRelax(s.tasks, t, s.finished)
    ensures Inv(s.(tasks := t))
  {
    RelaxGlobal(s, t);
    hide Global;
    AllKept(s, s.(tasks := t));
  }

  /** Heartbeats move deadlines only. */
  predicate SameGrants(l: L.Leases, l': L.Leases) {
    l'.Keys == l.Keys && forall k | k in l :: l'[k].owner == l[k].owner && l'[k].fence == l[k].fence
  }

  lemma HeartbeatGlobal(s: State, l: L.Leases)
    requires Global(s) && SameGrants(s.leases, l)
    ensures Global(s.(leases := l)) && forall j: nat :: Holder(s.(leases := l), j) == Holder(s, j)
  {
    hide Books, LiveJobsMarked, OneRunPerAccount, TicketsDistinct, NeverParked, Known, OneStagePerRun, FinishedQuiet;
    var s' := s.(leases := l);
    assert forall j: nat :: Holder(s', j) == Holder(s, j);
  }

  lemma HeartbeatInv(s: State, l: L.Leases)
    requires Inv(s) && SameGrants(s.leases, l)
    ensures Inv(s.(leases := l))
  {
    HeartbeatGlobal(s, l);
    hide Global;
    AllKept(s, s.(leases := l));
  }

  /** Two holders of one account are one attempt. */
  lemma HolderUnique(s: State, i: nat, j: nat)
    requires Global(s) && Holder(s, i) && Holder(s, j)
    requires Account(s.runs, RunOf(s, i)) == Account(s.runs, RunOf(s, j))
    ensures i == j
  {
    assert L.Holds(s.leases, KeyOf(s.runs, s.attempts[j]), RunOf(s, j), s.attempts[j].leaseFence);
    assert L.Holds(s.leases, KeyOf(s.runs, s.attempts[i]), RunOf(s, i), s.attempts[i].leaseFence);
  }

  /** The latest attempt of a run is one attempt. */
  lemma LatestUnique(s: State, i: nat, j: nat)
    requires Global(s) && Latest(s, i) && Latest(s, j) && RunOf(s, i) == RunOf(s, j)
    ensures i == j
  {
    hide LeasesOrdered, OneRunPerAccount, Books, LiveJobsMarked, HoldersOwn, HoldersAlone, FinishedQuiet;
  }

  /** Saving a stage of the only run in flight keeps the stage tables consistent. */
  lemma SaveTables(s: State, id: StageId, input: string, status: StageStatus, upstream: string)
    requires OneRunPerAccount(s.runs, s.stages) && Books(s.stages, s.submissions, s.jobs)
    requires LiveJobsMarked(s.stages, s.submissions, s.jobs)
    requires forall k | RunningStage(s.stages, k) && Account(s.runs, k.run) == Account(s.runs, id.run) :: k.run == id.run
    requires upstream != "" ==> Submitted(s, id, upstream)
    requires status != Running ==> id in s.submissions && Final(s.jobs[s.submissions[id]])
    ensures var stages := SaveStage(s.stages, id, input, status, upstream);
            && OneRunPerAccount(s.runs, stages) && Books(stages, s.submissions, s.jobs)
            && LiveJobsMarked(stages, s.submissions, s.jobs)
  {
    var stages := SaveStage(s.stages, id, input, status, upstream);
    assert forall k | RunningStage(stages, k) && k != id :: RunningStage(s.stages, k);
  }

  lemma SaveQuiet(s: State, id: StageId, input: string, status: StageStatus, upstream: string)
    requires OneStagePerRun(s.stages) && FinishedQuiet(s.tasks, s.finished, s.stages)
    requires status == Running ==> OnlyStage(s.stages, id.run, id.key) && id.run !in s.finished
    ensures var stages := SaveStage(s.stages, id, input, status, upstream);
            OneStagePerRun(stages) && FinishedQuiet(s.tasks, s.finished, stages)
  {
    var stages := SaveStage(s.stages, id, input, status, upstream);
    assert forall k | RunningStage(stages, k) && k != id :: RunningStage(s.stages, k);
  }

  lemma SaveAlone(s: State, i: nat, id: StageId, input: string, status: StageStatus, upstream: string)
    requires Global(s) && Holder(s, i) && id.run == RunOf(s, i)
    ensures HoldersAlone(s.(stages := SaveStage(s.stages, id, input, status, upstream)))
  {
    hide Books, LiveJobsMarked, OneRunPerAccount, TicketsDistinct, NeverParked, LeasesOrdered, Known;
    hide OneStagePerRun, FinishedQuiet;
    var s' := s.(stages := SaveStage(s.stages, id, input, status, upstream));
    forall j: nat, k | Holder(s', j) && RunningStage(s'.stages, k) && Account(s.runs, k.run) == Account(s.runs, RunOf(s, j))
      ensures k.run == RunOf(s', j)
    {
      assert Holder(s, j);
      if k == id { HolderUnique(s, i, j); } else { assert RunningStage(s.stages, k); }
    }
  }

  /** A holder saves a checkpoint of its own run. */
  lemma SaveGlobal(s: State, i: nat, id: StageId, input: string, status: StageStatus, upstream: string)
    requires Global(s) && Holder(s, i) && id.run == RunOf(s, i)
    requires upstream != "" ==> Submitted(s, id, upstream)
    requires status != Running ==> id in s.submissions && Final(s.jobs[s.submissions[id]])
    requires status == Running ==> OnlyStage(s.stages, id.run, id.key) && id.run !in s.finished
    ensures Global(s.(stages := SaveStage(s.stages, id, input, status, upstream)))
  {
    var s' := s.(stages := SaveStage(s.stages, id, input, status, upstream));
    assert s.attempts[i] in s.attempts;
    SaveAlone(s, i, id, input, status, upstream);
    SaveTables(s, id, input, status, upstream);
    SaveQuiet(s, id, input, status, upstream);
    hide Books, LiveJobsMarked, OneRunPerAccount, TicketsDistinct, NeverParked, LeasesOrdered, HoldersAlone;
    hide OneStagePerRun, FinishedQuiet;
    assert HoldersOwn(s') by {
      assert forall j: nat :: Holder(s', j) == Holder(s, j);
    }
  }

  /** A holder saves a checkpoint of its own run and moves on. */
  lemma SaveInv(s: State, i: nat, id: StageId, input: string, status: StageStatus, upstream: string, pc: Pc)
    requires Inv(s) && Holder(s, i) && id.run == RunOf(s, i)
    requires upstream != "" ==> Submitted(s, id, upstream)
    requires status != Running ==> id in s.submissions && Final(s.jobs[s.submissions[id]])
    requires status == Running ==> OnlyStage(s.stages, id.run, id.key) && id.run !in s.finished
    requires InBody(pc) ==> InBody(s.pcs[i])
    requires NoParking(pc)
    requires LocalKnowledge(Goto(s.(stages := SaveStage(s.stages, id, input, status, upstream)), i, pc), i)
    ensures Inv(Goto(s.(stages := SaveStage(s.stages, id, input, status, upstream)), i, pc))
  {
    hide Global;
    var m := s.(stages := SaveStage(s.stages, id, input, status, upstream));
    SaveGlobal(s, i, id, input, status, upstream);
    GotoGlobal(m, i, pc);
    var s' := Goto(m, i, pc);
    assert Latest(s, i);
    forall j: nat | Latest(s, j) && RunOf(s, j) == RunOf(s, i) ensures j == i {
      LatestUnique(s, i, j);
    }
    hide LocalKnowledge;
    forall j: nat | Has(s', j) ensures LocalKnowledge(s', j) {
      if j != i { KnowledgeKept(s, s', j); }
    }
  }
}
