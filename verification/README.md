# TeamEvolver: verified models of its stateful core

A Dafny project that models the parts of TeamEvolver whose correctness rests on interleaving, state or
arithmetic, and proves what they are for. `dafny verify dfyconfig.toml` checks it.

| files | part of the system |
|---|---|
| `WorkerQueue`, `Worker`, `QueueRuns` | the task queue: claims, fences, result writes, attempts over whole histories |
| `ResourceLeases` | leases with fences, and the replay slots built on them |
| `MemoryProtocol`, `MemoryInvariant`, `MemorySteps`, `MemoryTheorems`, `MemoryStranding`, `MemoryOutcomes`, `MemoryConduct`, `MemoryLeasing`, `MemoryRecovery`, `MemoryEndings` | memory runs over the queue: account exclusion, checkpointed Compile submissions, and what stages record |
| `TreeLevels`, `SourceGroups`, `Numerals` | the fan-in reduction and the other groupings of sources |
| `ReplayMetrics`, `ReplayPolicy`, `ReplayAggregate`, `ReplayOrder`, `Disclosure`, `RuntimeMatrix` | True Replay: figures, checklists, verdicts, their aggregation, progressive disclosure, the runtime matrix |
| `Boundaries`, `BoundaryMeaning`, `LateSegments`, `SessionSplit`, `Text` | the topic split of sessions |
| `RollingLog` | the rolling log file |
| `Administrators`, `ConsoleSessions` | the identity control plane |
| `ContextLog` | the context event log |
| `Basics` | shared vocabulary |

Code that updates rows, fields or files in place is modelled by classes and methods; every such method is tied
to a function of the old state, and the theorems are about those functions over whole histories. A repository
call is one transaction, hence one atomic step, with its own reading of the database clock; workers are any
number of attempts whose next step can come at any time, late or never. Clock readings of different
transactions need not be ordered, except in `RollingLog`, where the clock is monotone.

## What the code does that its documentation does not say

* `request_cancel` says that a cancel does not abandon an external effect midway. It does, exactly when it finds the
  run waiting between attempts while one of its stages is marked running (`MemoryTheorems.StrandedExactly`, over
  every history). `MemoryStranding.CancelCanStrand` is such a history, and from then on the account stays blocked
  (`MemoryTheorems.StrandedBlocksAccount`).
* `_coerce_boundaries` speaks of contiguous segments. Entries that start after the last turn are not dropped, so
  the result need not be a partition: `BoundaryMeaning.LateStartBreaksPartition` gives failing replies, and
  `BoundaryMeaning.WhenPartition` says exactly when it is.
* Such late entries can also give two parts of a session the same id (`SessionSplit.TwinParts`).
  `SessionSplit.DistinctIdsExactly` says for every reply when the ids are distinct; parts that share one are empty
  (`SessionSplit.SharedIdIsEmpty`).
* `resolve` rechecks its cached object so that a concurrent logout is not undone. A resolve that has read the store
  but not yet merged caches the session again and can still answer after a logout (`ConsoleSessions.LogoutOvertaken`);
  `ConsoleSessions.LogoutDuringResolve` says exactly when, on its own replica and across replicas. The stored row is
  never recreated.
* A single tied case is returned with `no_regression` true, while an aggregate containing it has it false
  (`team_replay/runner.py` lines 93-94 and 106-108). `ReplayAggregate.ATieDiffers` is such a case and
  `ReplayAggregate.ShortcutDiffersExactly` the exact condition; verdict and acceptance always agree
  (`ReplayAggregate.VerdictIgnoresOrder`).
* A part of a split session without reported totals falls back to its input plus output tokens, so the parts'
  `total_tokens` need not add up to the session's: `SessionSplit.TotalsCanDiffer`, and the exact condition in
  `SessionSplit.TotalsConservedExactly`.
* The guard against losing the last platform administrator counts only users of an edit whose status is written out,
  while a missing status is stored as active: an edit whose only platform administrator has none is refused although
  it would keep one: `Administrators.SilentAdminRefused`, and the exact condition in
  `Administrators.PlatformAgreesExactly`.

## Model

| member | source | states |
|---|---|---|
| WorkerQueue.WorkerTasks.Enqueue | teamEvolver/runtime/repository.py:71-128 | a new task starts queued with attempt and fence 0; a second insert of an id changes nothing |
| WorkerQueue.WorkerTasks.Claim | teamEvolver/runtime/repository.py:132-188 | the claim takes a first ready row in (available_at, created_at) order among the unlocked ones, or there is none; ready is a due row that waits or whose lease has run out; it bumps attempt and fence and changes no other row |
| WorkerQueue.WorkerTasks.RequireCurrent | teamEvolver/runtime/repository.py:192-204 | an attempt may commit exactly if every check passes; at that moment it may also heartbeat and write any final result |
| WorkerQueue.WorkerTasks.Heartbeat | teamEvolver/runtime/repository.py:206-226 | a heartbeat succeeds exactly for the current owner and fence on a live, unexpired row, and then moves the deadline only |
| WorkerQueue.WorkerTasks.Transition | teamEvolver/runtime/repository.py:230-298 | a result write lands exactly when owner, fence and source state match, and then is the whole change |
| WorkerQueue.WorkerTasks.RequestCancel | teamEvolver/runtime/repository.py:302-321 | waiting tasks end at once, live ones are flagged, finished ones are left alone |
| WorkerQueue.WorkerTasks.Requeue | teamEvolver/runtime/repository.py:331-351 | exactly failed tasks go back to queued, keeping attempt and fence |
| WorkerQueue.FirstExists | teamEvolver/runtime/repository.py:154-162 | a nonempty set of ready rows has a first one in claim order |
| Worker.BackoffForAttempt | teamEvolver/runtime/worker.py:53-61 | the schedule is 5, 30, then 120 seconds for every later attempt, plus nonnegative jitter |
| Worker.WriteResult | teamEvolver/runtime/worker.py:157-195 | a handler result becomes one fenced write (an exhausted retry a failure) and exactly the accepted ones are counted, under their own counter |
| Worker.StoredResult | teamEvolver/runtime/worker.py:157-195 | what each handler result leaves in the row, the retry schedule and the exhausted retry included |
| QueueRuns.AttemptIsFence | teamEvolver/runtime/repository.py:149-153 | in every reachable state attempt equals fence |
| QueueRuns.FencedOut | teamEvolver/runtime/repository.py:192-253 | once a row is past a fence, no write, heartbeat or domain commit at that fence is ever accepted |
| QueueRuns.ClaimFencesOut | teamEvolver/runtime/repository.py:149-165 | a claim raises the fence by one and so fences out every earlier attempt for good |
| QueueRuns.Settled | teamEvolver/runtime/repository.py:242-253 | a row that left the active states at a fence never becomes active at that fence again |
| QueueRuns.OneFinalWrite | teamEvolver/runtime/repository.py:230-329 | for each fence at most one finalising write is accepted, and no write after it |
| QueueRuns.CurrentIsLatest | teamEvolver/runtime/repository.py:192-204 | a ticket that passes require_current is the last one handed out for its task, and no finalising write of its attempt has been accepted |
| QueueRuns.CurrentIsNeverClaimed | teamEvolver/runtime/repository.py:154-162 | over every history no claim takes a task while an attempt of it is current |
| QueueRuns.ClaimTakes | teamEvolver/runtime/repository.py:154-162 | a claim takes a due row that is queued or waits for a retry, or one whose deadline lies before the clock |
| QueueRuns.FreshTicketIsCurrent | teamEvolver/runtime/repository.py:172-204 | a new ticket is current exactly until its lease runs out, for a cancelled task only to clean up |
| QueueRuns.DeadlineDecides | teamEvolver/runtime/repository.py:154-226 | an active row can be heartbeaten by its owner exactly before its deadline and claimed by anybody exactly after it |
| QueueRuns.BackoffIsKept | teamEvolver/runtime/repository.py:253-262 | after an accepted retry no claim comes before the backoff is over |
| QueueRuns.DelayIsKept | teamEvolver/runtime/repository.py:71-128 | a new task is not claimed before its delay is over |
| QueueRuns.FinishedForGood | teamEvolver/runtime/repository.py:331-349 | succeeded and cancelled rows never change again |
| QueueRuns.FailedUntilRequeued | teamEvolver/runtime/repository.py:331-349 | a failed row changes only through requeue |
| QueueRuns.TicketAttempt | teamEvolver/runtime/repository.py:172-188 | every ticket a worker holds carries its fence as attempt number |
| QueueRuns.Ledger | teamEvolver/runtime/worker.py:186-193 | after every prefix of a history retries, activity and claims of a task stay within one initial attempt plus retries, reclaims and requeues |
| QueueRuns.RetriesBounded | teamEvolver/runtime/worker.py:186-193 | at most max_attempts - 1 retries of a task are ever accepted |
| QueueRuns.AttemptsBounded | teamEvolver/runtime/worker.py:186-193 | attempts exceed max_attempts only by lease-expiry reclaims and operator requeues |
| ResourceLeases.LeaseTable.Acquire | teamEvolver/runtime/repository.py:396-423 | a lease is granted exactly when absent, free, past its deadline or already the caller's, with the next fence |
| ResourceLeases.LeaseTable.Heartbeat | teamEvolver/runtime/repository.py:425-442 | only the current owner and fence extend an unexpired lease |
| ResourceLeases.LeaseTable.Release | teamEvolver/runtime/repository.py:444-456 | a release frees the row exactly for its owner and fence |
| ResourceLeases.LeaseTable.AcquireSlot | team_replay/handlers.py:53-65 | a run gets the first slot grantable to it, every earlier one being taken, or none is |
| ResourceLeases.GrantsIncrease | teamEvolver/runtime/repository.py:405-423 | over the life of a key every later grant has a larger fence |
| ResourceLeases.OneLiveHolder | teamEvolver/runtime/repository.py:425-442 | of all grants ever made on a key at most one can heartbeat at any moment |
| ResourceLeases.SlotBound | team_replay/handlers.py:57-63 | with N slot keys at most N runs hold a live slot, over any history |
| ResourceLeases.TakenOver | teamEvolver/runtime/repository.py:401-404 | a holder whose lease was granted again can neither heartbeat nor release it |
| ResourceLeases.LiveKeepsOthersOut | teamEvolver/runtime/repository.py:401-442 | whatever the table, no other owner is granted a key whose holder can still heartbeat |
| ResourceLeases.LiveIsNotTaken | teamEvolver/runtime/repository.py:401-423 | over every history nobody else is granted a key while its grant is live |
| ResourceLeases.GrantedExactly | teamEvolver/runtime/repository.py:405-456 | after the last grant of a key an acquire is granted exactly to the same owner, after a release, or after the deadline that the accepted heartbeats left |
| ResourceLeases.FirstIsGranted | teamEvolver/runtime/repository.py:405-423 | the first acquire of a key is granted, with fence 1 |
| ResourceLeases.LiveExactly | teamEvolver/runtime/repository.py:425-456 | a grant can heartbeat exactly if it is the last of its key, was not released and its deadline lies ahead |
| MemoryProtocol.StageTable.Save | team_memory/repository.py:48-57 | a stage upsert replaces status and upstream id and never the input of an existing row |
| MemorySteps.AcquireInv | team_memory/handlers.py:31-48 | the blocked check and the lease grant together keep the invariant: the granted attempt is alone in its account |
| MemorySteps.RecoverInv | team_memory/handlers.py:63-80 | listing the stages to finish before anything else keeps it: the list is exact while the attempt is the latest |
| MemorySteps.OpenStageInv | team_memory/merge.py:14-22 | reading a checkpoint keeps it, and a stage is opened only from the recovery list or once that list is empty; a changed input is refused |
| MemorySteps.MarkInv | team_memory/merge.py:34-36 | marking a stage running keeps it, cancelled or not, current or not |
| MemorySteps.SubmitInv | team_memory/merge.py:37-38 | a submission, answered or lost, keeps it |
| MemorySteps.RecordInv | team_memory/merge.py:39-46 | recording the upstream id keeps it |
| MemorySteps.SettleInv | team_memory/merge.py:59-78 | settling a finished Compile keeps it; how the stage is left is the subject of `MemoryOutcomes` |
| MemorySteps.ReleaseInv | team_memory/handlers.py:101-113 | the unguarded finally block never takes the lease from a later attempt |
| MemorySteps.WriteBackInv | teamEvolver/runtime/worker.py:157-195 | a late result write makes no attempt current |
| MemorySteps.ClaimInv | teamEvolver/runtime/repository.py:132-188 | a reclaim keeps it: the overtaken attempt stops being a holder |
| MemorySteps.Always | team_memory/handlers.py:17-113 | the protocol invariant holds in every reachable state, over any number of workers, crashes, stalls, expiries, reclaims, cancels and requeues, bodies that go on after a failed renewal included |
| MemoryTheorems.AccountExclusion | team_memory/handlers.py:27-48 | in every reachable state all stages marked running in one account belong to one run |
| MemoryTheorems.UpstreamExclusion | team_memory/handlers.py:27-48 | and so do all unfinished Compile tasks at the upstream, late submissions of stalled workers included |
| MemoryTheorems.OneCompilePerAccount | team_memory/handlers.py:27-80 | at most one stage of an account is marked running, and at most one of its Compile tasks is unfinished, at any time |
| MemoryTheorems.SucceededIsQuiet | team_memory/handlers.py:63-91 | a run whose task succeeded has no running stage and no unfinished Compile |
| MemoryTheorems.CurrentAttemptOwnsLease | team_memory/handlers.py:45-56 | a current attempt past its acquire owns the account's lease row with its own fence |
| MemoryTheorems.CheckpointForGood | team_memory/merge.py:14-79 | over every history a stage's input never changes, its upstream id is written once, and a succeeded stage stays as it is |
| MemoryTheorems.OneTaskPerStage | teamEvolver/openviking/compile.py:41-69 | the upstream holds exactly one task per submitted stage, whatever crashes and resubmissions there were |
| MemoryTheorems.SubmissionForGood | team_memory/merge.py:24-46 | the upstream task of a stage is its task for good |
| MemoryTheorems.SettledStageEnded | team_memory/merge.py:55-79 | a stage that is not running has its upstream task and that task has ended |
| MemoryOutcomes.RecordsTheEnd | team_memory/merge.py:50-79 | over every history a stage that is not running records how some attempt of its run saw its Compile end: succeeded only if it was done, failed only if it was broken, cancelled only if it was stopped or done |
| MemoryOutcomes.SettledAsSeen | team_memory/merge.py:50-79 | the attempt that settles a stage had read the cancel flag it obeys, and after that saw the very end it records |
| MemoryOutcomes.BadEndEndsAttempt | team_memory/merge.py:59-79 | an attempt that settles a stage as anything but succeeded never works again and never reports success |
| MemoryConduct.WorksOnRecord | team_memory/merge.py:16-34 | in every reachable state an attempt that has a stage in hand works on the input its row records |
| MemoryConduct.SubmitsUnknown | team_memory/merge.py:25-38 | a task is submitted only after the row was marked running, with the row's input, by an attempt that found the row not running or asked the upstream and was told that it knew no task |
| MemoryConduct.NothingNewAfterCancel | team_memory/merge.py:34-36 | a stage becomes running only by a current attempt of its run that no cancel was asked of |
| MemoryConduct.CancelledCleansUp | team_memory/handlers.py:63-80 | an attempt that finds its unfinished run cancelled on entry only finishes what was running, from then on |
| MemoryLeasing.AcquiresExactly | team_memory/handlers.py:31-48 | in every reachable state an admitted attempt gets the account exactly if no stage of another run is running there, no live task of another run holds the lease, and the lease is free to it |
| MemoryLeasing.RenewsExactly | team_memory/handlers.py:50-56 | no stage is taken up and no Compile polled without a lease renewed at that moment |
| MemoryLeasing.LeavesExactly | team_memory/handlers.py:101-113 | on its way out an attempt frees the account exactly if it is its own and no stage of the run is running |
| MemoryLeasing.RaisesExactly | team_memory/handlers.py:92-99 | an exception is answered by reconciling exactly if a stage of the run is running |
| MemoryLeasing.RecoversExactly | team_memory/handlers.py:63-77 | what is recovered is exactly the running stages, with their inputs |
| MemoryLeasing.CancelLeavesTheGuard | teamEvolver/runtime/repository.py:302-321 | over every history a cancel request changes no attempt's right to write, no stage and no lease |
| MemoryRecovery.TodoIsRecorded | team_memory/handlers.py:63-77 | in every reachable state what an attempt still has to recover is on record, with the inputs it has in mind |
| MemoryRecovery.RecoveryOpens | team_memory/handlers.py:63-80 | while there is something to recover an attempt opens nothing else, then a cancelled one nothing; a current attempt always gets to recover what is on its list, whose inputs are never taken for changed |
| MemoryLeasing.RecordsTask | team_memory/merge.py:39-46 | recording leaves the upstream id in the stage and in the worker's row |
| MemoryEndings.AnswerStands | team_memory/handlers.py:86-113 | over every history an attempt never takes its answer back: it writes just that, or it is gone |
| MemoryEndings.FinallyRuns | team_memory/handlers.py:82-113 | over every history an attempt that was in the body ends through its finally block, whatever happens to it, unless it crashes |
| MemoryEndings.LeavesTheBody | team_memory/handlers.py:82-113 | whoever is in the finally block has been in the body |
| MemoryEndings.FailuresExactly | team_memory/handlers.py:82-100 | a failure that is no ordinary exception ends the body at once, with stages and leases as they are |
| MemoryEndings.BeatsExactly | teamEvolver/runtime/repository.py:206-226 | the worker's heartbeat keeps the task exactly while the attempt is there and its lease runs, and changes nothing else |
| MemoryLeasing.FinishesExactly | team_memory/handlers.py:78-88 | a run becomes finished exactly when a current attempt ends a body with nothing to recover and no cancel to obey |
| MemoryTheorems.StrandedForGood | teamEvolver/runtime/repository.py:302-321 | a cancelled run with a running stage keeps that stage running for ever |
| MemoryTheorems.StrandedBlocksAccount | team_memory/handlers.py:39-44 | and from then on no other run of the account passes the blocked check |
| MemoryTheorems.StrandedExactly | teamEvolver/runtime/repository.py:302-321 | after any history a stage is stranded if and only if some cancel request found the run waiting between attempts with that stage marked running |
| MemoryStranding.CancelCanStrand | teamEvolver/runtime/repository.py:302-321 | such a history exists: cancel is not always cooperative with a Compile in flight |
| TreeLevels.BuildLevel | team_memory/merge.py:86-92 | the inner loop cuts a level into its groups and returns their outputs as the next roots |
| TreeLevels.TreeLevels | team_memory/merge.py:82-94 | the generator terminates for fan_in of at least 2 and yields the planned levels |
| TreeLevels.LevelAt | team_memory/merge.py:86-94 | every group has at most fan_in inputs (and at least one), merge groups carry their level and number, and only the last level is the publish group |
| TreeLevels.OutputsDistinct | team_memory/merge.py:89-90 | no two merge groups of a plan write to the same place |
| TreeLevels.KeysDistinct | team_memory/merge.py:86-94 | no two groups of a plan have the same stage key |
| TreeLevels.Depth | team_memory/merge.py:85-93 | with d levels the sources number more than fan_in^(d-1) (if d > 1) and at most fan_in^d |
| TreeLevels.MergeLevels | team_memory/merge.py:85-93 | the number of merge levels is the least L with n <= fan_in^(L+1) |
| TreeLevels.CeilIsDivision | team_memory/merge.py:87-90 | a level of n roots has n / fan_in groups, rounded up |
| TreeLevels.Lossless | team_memory/pipeline.py:171-179 | executing the plan publishes every source exactly once and in order, if no source has the name of a merge output |
| SourceGroups.SourceIsNoOutput | team_memory/pipeline.py:111-150 | no source the pipeline stages has such a name |
| SourceGroups.TreeLosesNothing | team_memory/pipeline.py:171-179 | so over staged sources the tree always publishes each exactly once and in order |
| SourceGroups.BatchesLoseNothing | team_memory/pipeline.py:154-158 | incremental batches hold the selected sources once each and in order |
| SourceGroups.BatchSizes | team_memory/pipeline.py:156-158 | each batch has one to `size` sources and there are as few batches as possible |
| SourceGroups.PartitionSources | team_memory/pipeline.py:159-164 | each used bucket holds exactly its sources in staging order |
| SourceGroups.PartitionsLoseNothing | team_memory/pipeline.py:161-170 | all partitions together hold every source as often as it was staged |
| SourceGroups.PartitionTreesApart | team_memory/pipeline.py:165-170 | merge trees of different partitions never share an output |
| SourceGroups.PartitionStagesDistinct | team_memory/pipeline.py:165-179 | no two groups of a partitioned run have the same stage key |
| SourceGroups.BatchKeysDistinct | team_memory/pipeline.py:154-158 | no two batches do |
| SourceGroups.PartitionedRunLosesNothing | team_memory/pipeline.py:159-179 | running the trees of all partitions one after another in one store publishes every staged source exactly as often as it was staged, each partition its own |
| ReplayMetrics.ReadMetrics | team_replay/metrics.py:35-40 | exactly finite nonnegative numbers are kept as figures |
| ReplayMetrics.BranchEfficiency | team_replay/metrics.py:35-44 | a tool trace supplies a missing tool-call count; nothing else is made up |
| ReplayMetrics.ObjectiveDecision | team_replay/metrics.py:94-193 | the decision and the improved, regressed and unchanged lists the loop builds |
| ReplayMetrics.NoneCompared | team_replay/metrics.py:173-177 | the three lists are empty together exactly when no metric could be compared |
| ReplayMetrics.ObjectiveMeans | team_replay/metrics.py:144-177 | accept and reject for any two branches, whatever figures they lack: turns alone, else tool calls and tokens |
| ReplayMetrics.UnavailableExactly | team_replay/metrics.py:173-177 | missing figures are blamed exactly when the branches share no metric |
| ReplayMetrics.ObjectiveIsLess | team_replay/metrics.py:144-177 | with the deciding figures there, less effort accepts, more turns or at equal turns more of either rejects, and exactly a tie is inconclusive |
| ReplayPolicy.NormalizeReport | team_replay/policy.py:57-123 | the report against a checklist, or of the raw items alone; the unmet count is zero exactly when every item is satisfied |
| ReplayPolicy.NormalizeTwice | team_replay/policy.py:86-99 | normalising a saved report again changes nothing |
| ReplayPolicy.MetExactly | team_replay/policy.py:57-123 | a checklist is met exactly if the judge's last word under each expected id is yes, with evidence |
| ReplayPolicy.ProgressiveAccepts | team_replay/policy.py:156-202 | acceptance means both judged, the candidate complete, and either the baseline incomplete or the candidate cheaper |
| ReplayPolicy.ProgressiveRejects | team_replay/policy.py:156-202 | rejection means both judged and either the candidate alone incomplete, or nothing incomplete and the comparison rejects |
| ReplayPolicy.ProgressiveTies | team_replay/policy.py:156-202 | inconclusive means a judge missing, both incomplete, or nothing incomplete and the comparison ties |
| ReplayPolicy.Progressive | team_replay/policy.py:156-213 | the accepted flag is the accept verdict, and acceptance implies no regression |
| ReplayPolicy.AggregateChecklists | team_replay/policy.py:126-153 | the merged checklist of one branch over all cases |
| ReplayPolicy.MergeMeans | team_replay/policy.py:139-153 | merged means: all satisfied iff each is, judge missing iff one nonempty report's is, empty iff all are |
| ReplayAggregate.EvaluateCase | team_replay/runner.py:57-68 | a case's verdict with the metric and branch-failure overrides in their order; `CaseVerdict` says what it means |
| ReplayAggregate.CaseVerdict | team_replay/runner.py:57-68 | accept and reject exactly, in the branches' own terms; whatever else happens is inconclusive, a failed branch and a missing figure or judge included |
| ReplayAggregate.TotalFigures | team_replay/aggregation.py:36-58 | a metric is summed over all evaluated cases and unavailable if one lacks it |
| ReplayAggregate.AggregateWindows | team_replay/aggregation.py:11-96 | the aggregate over evaluated cases; an unevaluated one turns an accept into inconclusive |
| ReplayAggregate.WindowsExactly | team_replay/aggregation.py:11-96 | the decision before any override, in the cases' own terms: when there is none, when it rejects and when it accepts |
| ReplayAggregate.AggregateResults | team_replay/runner.py:99-110 | the aggregate with the overrides for rejected, inconclusive and failed cases |
| ReplayAggregate.AcceptedCase | team_replay/runner.py:57-70 | an accepted case had all deciding figures and both judgements, and its candidate completed the checklist and either the baseline did not or the candidate took less effort |
| ReplayAggregate.LessAdds | team_replay/aggregation.py:50-62 | less effort in every case is less effort in the sums |
| ReplayAggregate.Unanimous | team_replay/aggregation.py:59-73 | unanimous accepts survive summing the figures and merging the checklists |
| ReplayAggregate.AggregateIsFold | team_replay/runner.py:99-110 | the aggregate verdict is the fold of the case verdicts: reject over inconclusive over accept |
| ReplayAggregate.VerdictIgnoresOrder | team_replay/runner.py:91-110 | permuting the cases changes nothing, and the single-case shortcut gives the same verdict |
| ReplayAggregate.ShortcutDiffersExactly | team_replay/runner.py:91-110 | the one-case shortcut and the aggregate differ in no_regression exactly for two good, judged branches of equal effort whose checklists leave nothing to choose between them |
| ReplayAggregate.ATieDiffers | team_replay/runner.py:91-110 | there is such a case |
| ReplayOrder.SwappedRejects | team_replay/policy.py:163-202 | no treatment beats itself, and swapping an accepted comparison rejects |
| ReplayOrder.BeatsTransitive | team_replay/policy.py:163-202 | acceptance is transitive |
| ReplayOrder.BeatsDescends | team_replay/metrics.py:144-177 | each acceptance strictly decreases (checklist incomplete, turns, tool calls + tokens) |
| ReplayOrder.NoEndlessImprovement | team_replay/metrics.py:144-177 | there is no infinite chain of acceptances over counted metrics |
| Disclosure.SelectFacts | team_replay/policy.py:216-242 | a batch has 1 to batch_size unmet items, is empty only if all are met, and repeats one only if every unmet item has been disclosed |
| Disclosure.MetMeans | team_replay/policy.py:224-228 | an id is met exactly if the last entry under it says so |
| Disclosure.RunBranch | team_replay/execution.py:59-145 | the loop against any agent and judge: every disclosure, the stop condition, the result flags and the metric totals |
| Disclosure.DisclosedInTime | team_replay/execution.py:109-126 | an item at position p that stays unmet is disclosed by round p / batch_size + 1 |
| Disclosure.RepeatsOnlyAtTheEnd | team_replay/policy.py:229-242 | no round repeats an item while an unmet one is undisclosed |
| Disclosure.GoodRun | team_replay/execution.py:97-145 | a run that ended well was judged in all of its 1 to 20 rounds, has its turns counted, and stopped early only with every item met |
| Disclosure.GoodExactly | team_replay/execution.py:59-145 | a run ends well exactly if every round was answered, judged and not cut short and the last one stops it, and completes exactly if that round was satisfied |
| RuntimeMatrix.BuildMatrix | team_replay/runtime_matrix.py:43-89 | the matrix the loops build, decisions read in lower case |
| RuntimeMatrix.StatusIsMaximum | team_replay/runtime_matrix.py:58-89 | a runtime's status is the maximum over its entries in missing < accepted < inconclusive < rejected |
| RuntimeMatrix.SaysMeans | team_replay/runtime_matrix.py:58-89 | what one entry says, by its flags, its word in either case of letters, and its status |
| RuntimeMatrix.EntriesMean | team_replay/runtime_matrix.py:47-75 | which entries speak for a runtime |
| RuntimeMatrix.AnswerMeans | team_replay/runtime_matrix.py:91-140 | the answer in the entries' own terms |
| RuntimeMatrix.Evaluate | team_replay/runtime_matrix.py:26-140 | the answer: the worst status decides, except that a missing runtime holds up a pass |
| RuntimeMatrix.PassedExactly | team_replay/runtime_matrix.py:123-128 | passed exactly when every required runtime has an entry and all of its entries accept |
| RuntimeMatrix.OrderAndRepetition | team_replay/runtime_matrix.py:47-89 | order and repetition of results change no status and no answer |
| Boundaries.SortIsStable | session_ingestion/split.py:112 | sorting by start is a stable permutation |
| Boundaries.CoerceBoundaries | session_ingestion/split.py:83-141 | the three loops compute the filled boundaries |
| BoundaryMeaning.OrderKeepsTopics | session_ingestion/split.py:112-121 | clipping overlaps keeps the first covering topic of every turn and leaves disjoint spans in order |
| BoundaryMeaning.OrderInside | session_ingestion/split.py:114-121 | a span starting beyond the last turn survives unless the turns are used up before |
| BoundaryMeaning.FillTopics | session_ingestion/split.py:125-139 | filling holes passes a topic on to the uncovered turns after it |
| BoundaryMeaning.TurnTopic | session_ingestion/split.py:112-141 | each turn gets the topic of the first entry covering it in stable start order, else that of the turn before, else none |
| BoundaryMeaning.CoercedChain | session_ingestion/split.py:125-141 | for every reply the segments chain up from turn 1 and the last ends with the last turn |
| BoundaryMeaning.WhenPartition | session_ingestion/split.py:83-141 | the segments partition the turns exactly when all usable entries start in time or the turns are used up early |
| BoundaryMeaning.SeveralExactly | session_ingestion/split.py:83-141 | when a reply makes more than one segment |
| BoundaryMeaning.PartitionIsKept | session_ingestion/split.py:83-141 | a reply that is a partition, with stripped topics of at most 80 characters, is taken unchanged |
| BoundaryMeaning.LateStartBreaksPartition | session_ingestion/split.py:106-121 | every reply with one entry that starts after the last turn yields an empty segment |
| SessionSplit.TurnsConserved | session_ingestion/split.py:352-356 | for every reply the parts' turns concatenate to the session's turns |
| SessionSplit.SplitExactly | session_ingestion/split.py:321-356 | when a session is split, and then into as many parts as segments |
| SessionSplit.CountsConserved | session_ingestion/split.py:208-221 | messages concatenate; turn, message, tool-call, API-call and input/output token counts add up |
| SessionSplit.MeasureColumns | session_ingestion/split.py:208-224 | each count is the sum of its own column over the turns |
| SessionSplit.TotalsConservedExactly | session_ingestion/split.py:222-224 | when the parts' total tokens add up to the session's: for nonnegative counts exactly if the parts that report no total have no tokens, or no turn reports a total; and the condition for all integers |
| SessionSplit.TotalsCanDiffer | session_ingestion/split.py:222-224 | there is a split whose parts' total tokens do not add up |
| SessionSplit.MeasureCounts | session_ingestion/split.py:261-263 | interaction turns and message count are the lengths |
| SessionSplit.IdShowsRange | session_ingestion/split.py:241-253 | a segment id determines its turn range, truncation to 200 characters notwithstanding |
| LateSegments.RangesExactly | session_ingestion/split.py:106-141 | for every usable reply no two segments have the same range exactly when the turns are used up early, or at most two entries start together after the last turn, and two right after it only with another one further on |
| SessionSplit.DistinctIdsExactly | session_ingestion/split.py:353-356 | for every reply that splits, that is exactly when the parts' ids are pairwise distinct |
| SessionSplit.SharedIdIsEmpty | session_ingestion/split.py:241-253 | whatever the reply, parts that share an id hold no turn |
| SessionSplit.TwinParts | session_ingestion/split.py:106-121 | a reply of two entries that start right after the last turn gives every session two empty parts with one id |
| SessionSplit.SplitOnce | session_ingestion/split.py:326-328 | splitting every part again gives the same parts, whatever the model would answer for each |
| RollingLog.Trim | teamEvolver/logging_runtime.py:225-233 | cleanup removes the shortest prefix of the oldest archives that meets retention and budget, all of them if none does |
| RollingLog.RollingFile.Open | teamEvolver/logging_runtime.py:189-215 | opening an existing or new file, at start or after a crash, restores size and day and then cleans up |
| RollingLog.RollingFile.Cleanup | teamEvolver/logging_runtime.py:225-233 | cleanup touches nothing but that prefix |
| RollingLog.RollingFile.Reserve | teamEvolver/logging_runtime.py:241-249 | the reserved name is the first free number after the day's last one; no archive is overwritten |
| RollingLog.RollingFile.Move | teamEvolver/logging_runtime.py:250 | moving the active file into the reserved archive moves no line |
| RollingLog.RollingFile.Roll | teamEvolver/logging_runtime.py:240-252 | a roll archives the whole active file under a new name behind all others |
| RollingLog.RollingFile.Write | teamEvolver/logging_runtime.py:235-256 | a write appends its line, rolling first exactly when the day or the limit asks; what is on disk stays the end of what was written |
| RollingLog.CharBytesLeast | teamEvolver/logging_runtime.py:235-238 | a character counts the fewest bytes whose UTF-8 form has room for its code |
| RollingLog.BytesOfText | teamEvolver/logging_runtime.py:235-238 | the bytes counted for lines are those of their text in UTF-8, newlines included |
| RollingLog.MovedDirectory | teamEvolver/logging_runtime.py:250 | a crash between the steps of a roll leaves the readback as it was |
| RollingLog.CutDirectory | teamEvolver/logging_runtime.py:225-233 | removing any number of the oldest archives leaves the readback the end of what was written |
| RollingLog.TrimmedDirectory | teamEvolver/logging_runtime.py:225-233 | so does a cleanup, and a crash after any of its removals |
| RollingLog.RollingFile.CrashInCleanup | teamEvolver/logging_runtime.py:225-233 | such a crash leaves a directory that the next start can open |
| Administrators.IdentityStore.EditUsers | teamEvolver/admin/identity_store.py:240-291 | the edit is refused for a last administrator, otherwise users, memberships and imported memberships are stored |
| Administrators.IdentityStore.SetMember | teamEvolver/admin/identity_store.py:306-334 | a membership is written unless the user is unknown or disabled or the tenant's only effective administrator would go |
| Administrators.IdentityStore.ImportUsers | teamEvolver/admin/openviking_accounts.py:575-599 | new users get one membership each; existing ones are skipped; a taken id stops the import |
| Administrators.ImportExactly | teamEvolver/admin/openviking_accounts.py:575-599 | an import fails exactly if a row's identity differs from what is stored or asked for under its id; else new ids become plain active users and existing ones stay |
| Administrators.TenantRefusedExactly | teamEvolver/admin/identity_store.py:255-283 | an edit is refused for a tenant exactly if one with an effective administrator would have none left |
| Administrators.PlatformRefusedExactly | teamEvolver/admin/identity_store.py:240-254 | and for the platform exactly if no administrator with an explicit active status would be left |
| Administrators.PlatformAgreesExactly | teamEvolver/admin/identity_store.py:247-276 | the platform check refuses just what would be lost exactly if it finds an administrator or no administrator of the edit lacks a status |
| Administrators.SilentAdminRefused | teamEvolver/admin/identity_store.py:247-276 | there is an edit it refuses although the stored administrator would stay |
| Administrators.MemberRefusedExactly | teamEvolver/admin/identity_store.py:306-334 | a membership change is refused as the last administrator's exactly if its tenant would be left without one |
| Administrators.EditKeepsAdmin | teamEvolver/admin/identity_store.py:255-283 | an accepted edit leaves every tenant's effective administration in place |
| Administrators.SetKeepsAdmin | teamEvolver/admin/identity_store.py:306-334 | so does an accepted membership change |
| Administrators.ImportIsForNewUsers | teamEvolver/admin/openviking_accounts.py:575-599 | the memberships of an import are for users it creates, and it leaves all others as they were |
| Administrators.AdministratorsStay | teamEvolver/admin/identity_store.py:240-334 | over every history tenants and platform keep their administrators and memberships name existing users |
| Administrators.ImportNeverBlocked | teamEvolver/admin/openviking_accounts.py:575-599 | in a reachable state an import is never refused for an administrator's sake |
| ConsoleSessions.SessionTable.Write | teamEvolver/admin/identity_store.py:213-230 | a renewal writes only an existing row; an issue clears expired rows first |
| ConsoleSessions.SessionTable.Delete | teamEvolver/admin/identity_store.py:217-221 | a deletion removes exactly that row and says whether it was there |
| ConsoleSessions.NeverRecreated | teamEvolver/admin/console_session.py:51-129 | a deleted session row is never recreated, by any step of any replica |
| ConsoleSessions.LateResolveFindsNothing | teamEvolver/admin/console_session.py:70-84 | a resolve that starts after a revocation answers None under every interleaving |
| ConsoleSessions.AnsweredExactly | teamEvolver/admin/console_session.py:70-129 | over every history a resolve answers the user if and only if its session stayed cached from its merge on and either no renewal is due or the stored row is still there |
| ConsoleSessions.ResolveExactly | teamEvolver/admin/console_session.py:70-129 | for a whole call, over every interleaving: a user is answered exactly if the row was found, the merged record names a user and outlives the merge, the user is active, the session stayed cached, and no renewal is due or the row is still there |
| ConsoleSessions.RefusalRevokes | teamEvolver/admin/console_session.py:100-118 | a session that a call finds expired or disabled has no stored row ever after |
| ConsoleSessions.AnswersTheOwner | teamEvolver/admin/console_session.py:103-129 | whoever is answered is the user the token was issued to |
| ConsoleSessions.RenewsWhatItAnswers | teamEvolver/admin/console_session.py:119-126 | a call renews the row exactly if a renewal is due, and then for `ttl` from its own clock |
| ConsoleSessions.LogoutDuringResolve | teamEvolver/admin/console_session.py:79-124 | after a logout during a resolve it still answers exactly if its session stayed cached and no renewal is due; for a logout on its own replica that needs a logout after the read and before the merge |
| ConsoleSessions.LogoutOvertaken | teamEvolver/admin/console_session.py:79-118 | a history where a resolve does answer a user after a logout on its own replica |
| ContextLog.ContextRepository.StartSession | teamEvolver/context/repository.py:34-44 | a session is inserted once: the first start gets it empty, a later one gets the row as it is |
| ContextLog.ContextRepository.EventStatus | teamEvolver/context/repository.py:61-76 | duplicate, reused, closed, out of order or new, in that order of precedence |
| ContextLog.ContextRepository.Append | teamEvolver/context/api/__init__.py:142-149 | one append request in one transaction |
| ContextLog.ContextRepository.Commit | teamEvolver/context/repository.py:91-97 | a commit only sets the flag, once |
| ContextLog.AlwaysNumbered | teamEvolver/context/repository.py:61-89 | in every reachable state the numbers are exactly 1..last_sequence, one event each |
| ContextLog.ReplayChangesNothing | teamEvolver/context/repository.py:68-71 | an accepted event sent again at any later time is a duplicate and changes nothing, after commit too |
| ContextLog.CommitFreezes | teamEvolver/context/repository.py:72-73 | after commit nothing is added, changed or removed |
| ContextLog.RecordedExactly | teamEvolver/context/repository.py:72-76 | a new event is recorded exactly when the session is open and its number is the first unused one |
| ContextLog.StartedExactly | teamEvolver/context/repository.py:34-44 | a session exists exactly if a request started it |
| ContextLog.CommittedExactly | teamEvolver/context/repository.py:91-97 | and is committed exactly if a later request committed it |
| ContextLog.EventsExactly | teamEvolver/context/repository.py:61-89 | the log holds exactly the events it said it had recorded |

## Left out

- SQL text, connection pools, row-level security and tenants: one tenant's rows, one atomic step per transaction.
- SHA-256 and JSON: hashed values are compared directly, and the Compile idempotency key is the pair it is computed from.
- Model and judge calls, adapters, HTTP routes and the upstream service: any answer at any time; a Compile submission is deduplicated by its key, as the client requires.
- Enqueue's lookup of a live `dedupe_key`: it rests on an index that is not part of this model.
- Task kinds other than `memory.aggregate` in the memory protocol: memory tasks never park on `wait_external`, which exclusion needs; the handler never returns it.
- The order in which the pipeline calls `compile_stage`: after recovery a run may open its stages in any order, one at a time, which includes the pipeline's own.
- Stages saved by `durable`, result references, artifacts and the change log: they carry no exclusion or submission.
- The effect of an upstream cancel call: it is one of the upstream's own moves.
- TreeLevels.Lossless: requires that no source has the name of a merge output; `SourceGroups.SourceIsNoOutput` shows it for every staged source.
- Rounding and overflow of sums of floating-point metrics: figures are exact nonnegative reals.
- Cache and reasoning token metrics, reduction ratios and report texts: no verdict reads them.
- ReplayOrder.NoEndlessImprovement: stated for whole-number metrics, since nonnegative reals have infinite descents.
- Disclosure.RunBranch: the wording of feedback, the list of disclosed texts and the measured times are not modelled; timeouts and exceptions are outcomes of a round.
- RuntimeMatrix.Evaluate: runtime names are taken as already normalised, only ASCII letters of a decision are lower-cased (the words it is compared with have no others), and the reason texts are not modelled.
- Titles, skills, timestamps and trace ids of a split session's parts.
- Turns that are not dictionaries, which the split drops before anything else.
- RollingLog.RollingFile: days are UTC days, a line is written completely or not at all, and nobody else changes the archives; the lock file is not modelled.
- Administrators.IdentityStore.EditUsers: an edit is the user table it leaves, keyed by id; audit rows are not modelled.
- ConsoleSessions.NeverRecreated: tokens are never issued twice, as their randomness is meant to ensure; support sessions are not modelled.
- ContextLog.ContextRepository.Append: what the upstream conversation holds after a failed request is not modelled; references and snapshots are left out.
- Redaction, configuration clamping, paths, password handling and web routes: they would add easier members only.
