# process1: verified models of the job engine and its neighbours

A model in Dafny 4.11 of the parts of process1, an init system, that schedule jobs, keep
dependencies, renumber descriptors, persist state and run socket units, with proofs of what
they keep over whole runs. `dafny verify dfyconfig.toml` checks it.

## What is modelled

**The job engine.** A request is expanded along dependencies into a staging table
(`JobExpansion`, `JobTransaction`; `JobRules` tells the result from the stored edges), checked
(`JobVerify`, `JobRequests`), committed into the live table
(`JobTableCommit`, `JobTableCommitIds`) and counted (`JobStat`, `JobCounts`, `JobUnderflow`,
`JobStages`). The live table (`JobTableState`, and in place `JobTableObject`) keeps one record per
unit (`JobUnitRecord`, in place `JobUnitEntry`), an index by id and an index by readiness
(`JobTableIndex`, `JobTableBatch`, `JobCommitBatch`). Jobs (`JobEntry`) are handed over in
dependency order, interrupted, retried, finished or cancelled (`JobTableSteps`, `JobFinish`, `JobReports`);
`JobManager` is the object around it all. `JobUnitInvariant`, `JobTableInvariant`, `JobTableRuns`,
`JobTableProgress`, `JobOrdering`, `JobWakeups` and `JobWork` hold the invariants and the results over runs: order
safety, no lost wakeup, progress, termination. Where a result fails, `JobExamples`,
`JobLateCommits` and `JobLostWakeup` give runs from an idle table that show it, made of the steps
of `JobSingle`.

**The dependency store** (`UnitBase`, `UnitDep`), **descriptor renumbering** (`ShiftFds`), **the
write-back cache** (`Reliability`), **the socket unit** (`SocketState`, `SocketRuns`, in place `SocketMng`) and
**id allocation** (`JobAlloc`) stand on their own; `UnitDep.MirroredOrder` gives the scheduler
the mirrored ordering its results rely on.

## How to read it

- An `assert!`, `expect` or `unreachable!` that fails aborts the process. Functions return
  `Outcome`, whose `Panic` is that abort; methods return `panicked`. Contracts say exactly when.
- Units are numbers; their active states, the answers of their actions, the registered units and
  the configuration are parameters. Results hold for all of them.
- The order in which a hash map or the ready table is walked is arbitrary: a method picks
  elements freely, a function takes the order as a parameter.
- The queue of a unit is kept as the kinds of its jobs, which the original shares with the
  suspended jobs. The up-ready flags of all units are kept as a set. A job of the table is a
  value inside its record. A unit of the batch whose record is gone is a unit without a record.
- The record part of an in-place class is proved equal to a function of the old record, and the
  lemmas are about that function.

## Where the code departs from its own asserts or comments

The code is modelled as it is written. The lemmas named here give the exact condition or the
failing family.

- A restart never ends: its run kind goes from stop to start and then back to restart, and the
  third hand-over aborts (`RestartNeverEnds`, `SuccessCompletesIff`, `RestartIsFatal`).
- After EAgain a job stays running, so the retrigger aborts (`AgainIsFatal`).
- The interrupt flag outlives the job that was to interrupt (`RemoveEntrySettles`,
  `IsolateEntrySettles`, `ResumeEntrySettles`), and the retrigger flag outlives its trigger
  (`TriggerEntrySettles`).
- A nop beside a stop is never queued (`PromotedQueue`).
- A unit that stops being ready while it sits in the batch stays there, and is fatal when it is
  popped (`RewriteBatchIff`, `CommitBatchIff`, `StrandedAborts`); a start that fails at once can do
  it (`FailedStartStrands`), and a request raised while jobs are run (`LateCommitStrands`).
- The emptiness test of a staged unit is inverted, so isolation stops what it starts and is
  refused (`IsolationConflictsIff`, `IsolationRefused`).
- Counters are lowered before they are raised, so a request whose own jobs swallow each other can
  abort (`KindUnderflowIff`, `RestartOfPairAborts`). An interrupted job is never taken off the
  running counter, a waiting one is (`RunCountIs`, `RunUnderflowIff`, `WaitingReportUnderflows`);
  removing a unit lowers it only when there is no trigger (`JobManagerData.RemoveUnit`).
- A report about a paused unit only resumes it (`DoTryFinish`). A commit does not look at the pause
  flag, so a unit can be left paused with nothing to wake it (`CommitWakeupIff`, `BlockerDropped`,
  `JobsLeftUndone`).
- Removing one dependency drops everything stored at both its ends (`RemovedMeaning`,
  `RemoveMirrorsIff`).
- Ids are never given back (`FreeIdIff`).
- The result of a socket is never reset (`FailureSticks`), the states a signal is sent for are
  never entered (`RunSafe`), an unconfigured phase runs leftover commands (`LeftoverRuns`), the
  commands of a phase are run last first, and a child that exits with an error code counts as
  successful.

## Model

| member | source | states |
|---|---|---|
| JobEntry.OneSideWaits | process1/src/manager/unit/job/job_entry.rs:487-500 | Of two ordered units exactly one waits for the other: the later one unless it stops, the earlier one when the later one stops; nops wait for nobody. |
| JobEntry.FinishRetriesIff | process1/src/manager/unit/job/job_entry.rs:205-226 | Finishing a job asks for another phase exactly when a restart succeeds in its stop or in its start phase; otherwise the job ends with the given result. |
| JobEntry.RestartNeverEnds | process1/src/manager/unit/job/job_entry.rs:361-373 | Over every sequence of successful phases a restart is never ended, and from the third hand-over on it has aborted the process. (Intended: stop, then start, then end.) |
| JobEntry.SuccessCompletesIff | process1/src/manager/unit/job/job_entry.rs:193-226 | A waiting job that always succeeds can reach its end exactly when it is not a restart. |
| JobEntry.AgainCannotBeRerun | process1/src/manager/unit/job/job_entry.rs:198-203 | A job answered with EAgain stays running: every further hand-over aborts, it can only be finished. |
| JobEntry.JobCell.Run | process1/src/manager/unit/job/job_entry.rs:198-203 | In place: aborts exactly for a job that is not waiting or has no action; otherwise the stage is running and the answer means what `AnswerMeaning` says: of a start, stop or reload by the answer of the unit, of a verify by its state, and of a nop always success. |
| JobEntry.AnswerMeaning | process1/src/manager/unit/job/job_entry.rs:375-413 | Which answers of a unit launch, retry or end a job, and with which result: a start, stop or reload is done exactly for EAlready and EComm; a verify is done exactly when its unit is active or reloading, tried again exactly when it is activating, and skipped otherwise. |
| JobEntry.JobCell.Finish | process1/src/manager/unit/job/job_entry.rs:205-226 | In place: the whole new stage and run kind, whether a retry is due, and exactly when the stage assert fails. |
| JobUnitRecord.OthersLenMeaning | process1/src/manager/unit/job/job_unit_entry.rs:460-480 | The count of suspended jobs minus stops minus nops is positive exactly when some suspended job is neither stop nor nop. |
| JobUnitRecord.ConflictMeaning | process1/src/manager/unit/job/job_unit_entry.rs:460-468 | A unit is in conflict with itself exactly when beside a stop something other than a nop is suspended. |
| JobUnitRecord.ConflictWithMeaning | process1/src/manager/unit/job/job_unit_entry.rs:470-480 | Two self-consistent sides conflict exactly when one stops what the other does. |
| JobUnitRecord.ReplaceDecidesConflict | process1/src/manager/unit/job/job_unit_entry.rs:482-495 | The two cases of the replacement test cover every conflict between self-consistent sides: it lets one through exactly when nothing irreversible is suspended. |
| JobUnitRecord.NormalFormMeaning | process1/src/manager/unit/job/job_unit_entry.rs:578-595 | The merging of suspended jobs leaves at most one of restart, start and reload, drops or alters no other job, and empties nothing. |
| JobUnitRecord.QueueOfMeaning | process1/src/manager/unit/job/job_unit_entry.rs:597-622 | The queue holds every suspended job except a nop beside a stop, has a stop, restart, start or reload at its front whenever one is suspended, and a nop at its end; it has at most three entries, so neither assert of the ordering fails. |
| JobUnitInvariant.ReshuffleSettles | process1/src/manager/unit/job/job_unit_entry.rs:304-332 | A reshuffle restores the whole record invariant; it aborts exactly for an unpaused unit whose interrupter is gone with everything else. |
| JobUnitInvariant.MergeEntrySettles | process1/src/manager/unit/job/job_unit_entry.rs:274-302 | Merging staged jobs gives the normal form of the staged jobs on a conflict and of the union otherwise; it aborts exactly when an id is that of the trigger. |
| JobUnitInvariant.RemoveEntrySettles | process1/src/manager/unit/job/job_unit_entry.rs:227-246 | A removal takes out exactly the named jobs: the reshuffle after it never merges anything away. It aborts exactly when the last queued job of an unpaused unit was to interrupt the trigger (the interrupt flag is not cleared). |
| JobUnitInvariant.IsolateEntrySettles | process1/src/manager/unit/job/job_unit_entry.rs:248-272 | Isolation leaves nothing suspended; it aborts exactly when an unpaused unit was about to be interrupted. |
| JobUnitInvariant.ResumeEntrySettles | process1/src/manager/unit/job/job_unit_entry.rs:344-352 | Resuming changes only pause and ready; it aborts exactly for a paused unit that has lost its interrupter. |
| JobUnitInvariant.PromotedQueue | process1/src/manager/unit/job/job_unit_entry.rs:597-622 | Triggering the front of the queue leaves queue and suspended jobs in agreement unless a nop was suspended beside a stop: that nop stays suspended and unqueued. |
| JobUnitInvariant.TriggerEntrySettles | process1/src/manager/unit/job/job_unit_entry.rs:526-571 | Triggering aborts exactly when the unit is not ready, or a retrigger is due that is not the start phase of a restart, or the retrigger flag of an earlier trigger is still up; otherwise the invariant holds again. |
| JobUnitInvariant.FinishEntrySettles | process1/src/manager/unit/job/job_unit_entry.rs:377-401 | Finishing aborts only without a trigger; the trigger stays exactly when a restart succeeded in its stop or start phase; the invariant holds again. |
| JobUnitInvariant.RunOpsSettles | process1/src/manager/unit/job/job_unit_entry.rs:204-401 | The record invariant over every sequence of operations: queue and suspended jobs agree, interrupt implies a trigger and a stop or restart in front, retrigger and stage agree, ready equals what it is computed from. |
| JobUnitInvariant.CalmRunNeverAborts | process1/src/manager/unit/job/job_unit_entry.rs:204-401 | No assert fails over any sequence of operations that sees no restart and no EAgain and never removes the job about to interrupt the trigger. |
| JobUnitInvariant.AgainIsFatal | process1/src/manager/unit/job/job_unit_entry.rs:55-79 | After an EAgain, resuming the unit and triggering it again aborts, whatever the unit answers. |
| JobUnitInvariant.RestartIsFatal | process1/src/manager/unit/job/job_unit_entry.rs:377-401 | After a successful stop and a successful start phase a restart is still its unit's trigger, is due once more, and triggering it aborts. |
| JobUnitEntry.JobUnit.MergeSuspends | process1/src/manager/unit/job/job_unit_entry.rs:274-302 | In place: the new record and the lists of the jobs added, dropped and updated, for every order of the hash maps. |
| JobUnitEntry.JobUnit.Reshuffle | process1/src/manager/unit/job/job_unit_entry.rs:304-332 | In place: the new record, which jobs were merged away, and exactly when an assert fails. |
| JobUnitEntry.JobUnit.DoTrigger | process1/src/manager/unit/job/job_unit_entry.rs:55-79 | In place: the new record, the answer and the interrupted trigger, and exactly when an assert fails. |
| JobUnitEntry.JobUnit.FinishTrigger | process1/src/manager/unit/job/job_unit_entry.rs:377-401 | In place: the new record, the job that leaves if one does, and exactly when an assert fails. |
| JobUnitEntry.JobUnit.IsNextTriggerOrderWith | process1/src/manager/unit/job/job_unit_entry.rs:497-524 | Reads only: the next job may go exactly when it ignores the ordering, is a nop, or nothing suspended or running in the other unit has to go before it. |
| JobTableIndex.BackfillMeaning | process1/src/manager/unit/job/job_table.rs:870-883 | Putting the batch back leaves it empty and the ready table holding exactly those of its units that are still ready. |
| JobTableIndex.ReadySyncOk | process1/src/manager/unit/job/job_table.rs:885-915 | Synchronising a rewritten unit makes the index right about it and keeps it right about all others. |
| JobTableBatch.IndexRefinesScan | process1/src/manager/unit/job/job_table.rs:636-653 | With the batch in order a unit is ready exactly when it is in the ready table or in the batch, never in both, and the up-ready flag marks the former. |
| JobTableBatch.RewriteBatchIff | process1/src/manager/unit/job/job_table.rs:905-923 | The exact condition: a step on a unit breaks this exactly when the unit sits in the batch, stops being ready, and no related paused unit wakes up by the step. |
| JobTableBatch.GivenUpInBatch | process1/src/manager/unit/job/job_table.rs:815-850 | The failing family: giving up the last suspended jobs of a unit that waits in the batch leaves the unit there without a record. |
| JobTableBatch.StrandedAborts | process1/src/manager/unit/job/job_table.rs:423-451 | A unit popped from the batch when it is no longer ready aborts the process, whatever the unit would answer. |
| JobTableBatch.RunRefinesScan | process1/src/manager/unit/job/job_table.rs:323-343 | Over every run of commits, tries, finishes, removals and resumptions: as long as no step has stranded a unit the index refines the scan, and the first that does leaves a unit in the batch that is not ready. |
| JobTableBatch.StepBatchIff | process1/src/manager/unit/job/job_table.rs:905-923 | For every step, the exact condition for the batch to hold only ready units after it. |
| JobCommitBatch.CommitBatchIff | process1/src/manager/unit/job/job_table.rs:549-568 | A commit that comes while a batch is being worked off keeps it in order exactly when every unit of the batch ends up ready, or some unit the commit disturbs does, which puts the batch back. |
| JobCommitBatch.EndsReadyMeaning | process1/src/manager/unit/job/job_unit_entry.rs:304-332 | What that means beforehand: a unit disturbed by a new kind of job or by isolation ends up ready exactly when it is not paused and has a job left, or with a trigger a stop, a restart or a due retrigger; any other unit exactly when it was ready. |
| JobExamples.FailedStartStrands | process1/src/manager/unit/job/job_transaction.rs:410-426 | An input that strands one: unit 1 requires unit 0 and is to be started; the start of 0 fails at once while 1 waits in the batch, the failure gives the start of 1 up, and the next round of the manager aborts. |
| JobLateCommits.LateCommitStrands | process1/src/manager/unit/job/job_manager.rs:396-400 | Another, by a request raised while jobs are run: a unit runs its start, is to be interrupted by a stop and waits in the batch; a start committed then takes the place of the stop, and the unit stays in the batch, no longer ready. |
| JobLateCommits.LeftIsFatal | process1/src/manager/unit/job/job_table.rs:423-451 | The next round of the manager then aborts. |
| JobTableSteps.TryTriggerAborts | process1/src/manager/unit/job/job_table.rs:323-343 | Trying the next unit aborts exactly when its record is gone, it is no longer ready, or it may go ahead and triggering it aborts. |
| JobTableSteps.TrySomething | process1/src/manager/unit/job/job_table.rs:423-451 | The unit taken from the batch is paused exactly when a related unit blocks its next job, otherwise its next job is handed over; no other record changes and the table invariant holds. |
| JobTableSteps.FinishTriggerInv | process1/src/manager/unit/job/job_table.rs:785-813 | Finishing rewrites the unit, resumes every related unit, collects an emptied record, drops the ended job's id, and keeps the invariant. |
| JobTableSteps.FinishTriggerAborts | process1/src/manager/unit/job/job_table.rs:570-588 | Finishing aborts exactly when there is no trigger, or a related paused unit has lost its interrupter. |
| JobTableSteps.RemoveSuspendsInv | process1/src/manager/unit/job/job_table.rs:590-610 | Removal rewrites the unit, resumes every related unit, collects an emptied record, drops exactly the ids of the named jobs, and keeps the invariant. |
| JobTableSteps.RemoveSuspendsAborts | process1/src/manager/unit/job/job_table.rs:815-850 | Exactly when a removal aborts. |
| JobTableInvariant.IsRunnableMeaning | process1/src/manager/unit/job/job_table.rs:740-764 | The runnable test says yes exactly when nothing suspended or running in an ordered unit has to go before the next job. |
| JobTableCommit.CommittedRecMeaning | process1/src/manager/unit/job/job_table.rs:491-568 | After a commit a unit has suspended the normal form of the staged jobs on a conflict and of the union otherwise, nothing if isolated, and what it had before if not concerned; its trigger is untouched. |
| JobTableCommitIds.CommitInv | process1/src/manager/unit/job/job_table.rs:67-90 | A commit is refused exactly when an id is used twice, aborts exactly when isolation drops an imminent interrupter, and otherwise gives every unit its own committed record and keeps the invariant, ids included. |
| JobRequests.ModeDrops | process1/src/manager/unit/job/job_table.rs:234-247 | A request that isolates or flushes leaves nothing suspended in units neither staged nor exempt; no other request does so. |
| JobRequests.StartOrReload | process1/src/manager/unit/job/job_unit_entry.rs:644-657 | Where a staged start and a staged reload meet, and no restart, the commit keeps the reload if the unit is active or reloading, and the start if it is not. |
| JobTableCommitIds.CommitOrderIrrelevant | process1/src/manager/unit/job/job_table.rs:524-568 | Records, ids and reported changes are the same for every order in which the hash maps are walked. |
| JobTableRuns.RunKeepsInvariant | process1/src/manager/unit/job/job_table.rs:48-153 | In every state of every run: settled records and none of them empty, so no unit is ever in conflict with itself; a right readiness index; and the id index holds exactly the suspended and triggered jobs under unique ids. |
| JobTableRuns.OrderSafety | process1/src/manager/unit/job/job_table.rs:423-451 | Between commits, as long as a unit still holds a job that must go first, suspended or running, the job that has to wait for it is not handed over. |
| JobTableRuns.AfterMeans | process1/src/manager/unit/job/job_entry.rs:260-270 | With one unit after another, its jobs that do not stop wait for every job of the other, and its stop or restart is waited for. |
| JobOrdering.AfterEdgeHolds | process1/src/manager/unit/job/job_table.rs:740-764 | From the insertion of an After edge, or a Before edge at the other end, to whole runs: no start of the later unit is handed over while the earlier has a job, suspended or running, and no job of the earlier while the later has a stop or restart. |
| JobTableProgress.RunLosesNoWakeup | process1/src/manager/unit/job/job_table.rs:785-868 | Over every run of tries, removals, resumptions and finishes of units that are not paused, which are the steps the manager's loop takes: with only nops ignoring the ordering, a paused unit whose next job is due and not a nop is blocked by a job of a related unit. |
| JobWakeups.CommitWakeupIff | process1/src/manager/unit/job/job_table.rs:549-568 | A commit leaves no paused unit without a reason to wait exactly when every unit paused before, whose first job after it is due, is blocked by a job that a related unit holds after it. |
| JobWakeups.RunWakesUntil | process1/src/manager/unit/job/job_table.rs:785-868 | Over every run with commits in it: as long as every commit satisfies that, no wakeup is lost, and the first that does not loses one. |
| JobWakeups.CommitForgetsPause | process1/src/manager/unit/job/job_table.rs:549-568 | The first way to lose one: a paused unit given a stop stays paused, and is held up for a reason exactly when the stop minds the ordering and a unit it comes before holds a stop or restart that does too. |
| JobLostWakeup.StopForgotten | process1/src/manager/unit/job/job_table.rs:549-568 | An input for it: the later of two ordered starts waits, then its unit is to be stopped. |
| JobLostWakeup.BlockerDropped | process1/src/manager/unit/job/job_table.rs:549-568 | An input for the second way, where the commit drops the job that was in the way: along a chain of three units one start waits for a stop and that for another stop; then the middle unit is to be started instead. |
| JobLostWakeup.JobsLeftUndone | process1/src/manager/unit/job/job_manager.rs:261-296 | From there the manager comes to rest with nothing ready and nothing running, in an acyclic, mirrored ordering, and two starts are never done. |
| JobTableProgress.Progress | process1/src/manager/unit/job/job_table.rs:740-764 | If the ordering is acyclic, nothing runs and some unit has something queued, then some unit's first queued job is blocked by nobody; it is one other than a nop if there is any: the last of those to be stopped, or the first of all. |
| JobTableProgress.NeverStuck | process1/src/manager/unit/job/job_table.rs:740-764 | Where every wakeup is kept, that unit is ready and passes the scheduler's own test. |
| JobTableProgress.NothingLeftUndone | process1/src/manager/unit/job/job_manager.rs:261-296 | So a table in which every wakeup is kept, nothing is ready and nothing runs has no job left undone but nops; `JobManagerData.Run` ends in such a table. |
| JobTableProgress.CommitUnpaused | process1/src/manager/unit/job/job_table.rs:549-568 | A commit into a table without paused units leaves none, so no wakeup is missing where such a run begins. |
| JobTableObject.JobTable.ReadySync | process1/src/manager/unit/job/job_table.rs:885-915 | In place, with its mutual recursion through insertion, removal and backfill: the new index. |
| JobTableObject.JobTable.TryTrigger | process1/src/manager/unit/job/job_table.rs:323-343 | In place: aborts exactly as specified, otherwise the whole new table and what was tried. |
| JobTableObject.JobTable.FinishTrigger | process1/src/manager/unit/job/job_table.rs:570-588 | In place: aborts exactly as specified, otherwise the whole new table and the job that left. |
| JobTableObject.JobTable.RemoveSuspends | process1/src/manager/unit/job/job_table.rs:590-610 | In place: aborts exactly as specified, otherwise the whole new table. |
| JobTableObject.JobTable.Commit | process1/src/manager/unit/job/job_table.rs:67-90 | In place, with the loops over the hash maps: refused or aborting exactly as specified, otherwise the whole new table and the reported changes. |
| JobTableObject.JobTable.IsUvRunnable | process1/src/manager/unit/job/job_table.rs:740-764 | Reads only: the two loops compute the specified test. |
| JobExpansion.LeastIsReachable | process1/src/manager/unit/job/job_transaction.rs:12-43 | A job is in the least closed set over some roots exactly when a chain of pull-ins and propagations leads to it from one of them. |
| JobExpansion.ExpansionOrderIrrelevant | process1/src/manager/unit/job/job_transaction.rs:111-264 | The set does not depend on the order in which the store gives its answers. |
| JobTransaction.StageTable.RecordSuspend | process1/src/manager/unit/job/job_table.rs:28-46 | A job is staged only if its unit has none of that kind; it is made as the mode says, under an id never used before, and nothing staged changes. |
| JobTransaction.StageTable.Expand | process1/src/manager/unit/job/job_transaction.rs:12-43 | Terminates on every finite, possibly cyclic graph; what it adds is called for by the request, and everything the added jobs ask for is staged. The error branches of the callers are never taken. |
| JobTransaction.StageTable.ExpandRoot | process1/src/manager/unit/job/job_transaction.rs:12-43 | Into an empty table: the root as the state of its unit makes of the kind asked for, alone in the two modes that leave dependencies aside, otherwise with the least set closed under the rules that contains it. |
| JobRules.CallsArePulls | process1/src/manager/unit/job/job_transaction.rs:111-264 | One rule of the expansion, told from the stored edges and the states of the units: which job of which unit a start, stop, restart or reload calls for. |
| JobRules.StagedIff | process1/src/manager/unit/job/job_transaction.rs:12-43 | A job is staged exactly when it is asked for or a chain of such rules leads to it. |
| JobRules.StagedStep | process1/src/manager/unit/job/job_transaction.rs:12-43 | What is staged is asked for or called for by a staged job, and everything called for is staged. |
| JobRules.SpreadsToUpUnits | process1/src/manager/unit/job/job_entry.rs:471-485 | A reload or restart reaches every unit it propagates to: as what it is if that unit is active or reloading, and as a nop if not. |
| JobRules.OnlyUpUnits | process1/src/manager/unit/job/job_entry.rs:471-485 | Apart from what is asked for, no unit that is not active or reloading is reloaded or restarted. |
| JobRules.RootMeaning | process1/src/manager/unit/job/job_entry.rs:471-485 | What a request of a compound kind stages for its own unit in each state. |
| JobRules.RequiresMeans | process1/src/manager/unit/job/job_transaction.rs:111-237 | From the insertion of a Requires edge to the stage: the start of one unit starts the other, a stop of the other stops it, a restart of the other restarts it if it is up, and the other's failure to start spreads to it. |
| JobRules.RequisiteMeans | process1/src/manager/unit/job/job_transaction.rs:149-165 | The same for Requisite: a start asks for a verify. |
| JobRules.ConflictsMeans | process1/src/manager/unit/job/job_transaction.rs:166-198 | The same for Conflicts: the start of either unit stops the other. |
| JobRules.PartOfMeans | process1/src/manager/unit/job/job_transaction.rs:203-237 | The same for PartOf: a stop or restart of the whole is one of the part. |
| JobRequests.TriggerModeStops | process1/src/manager/unit/job/job_transaction.rs:327-361 | From the insertion of a Triggers edge to the request: a stop in trigger mode asks for a stop of the unit that triggers. |
| JobTransaction.StageTable.AffectIsolate | process1/src/manager/unit/job/job_transaction.rs:286-325 | Code as written: isolation adds the stops of the units that have something staged and are not exempt, with all these ask for. |
| JobTransaction.StageTable.AffectTrigger | process1/src/manager/unit/job/job_transaction.rs:327-361 | Triggering adds the stops of all units that trigger the unit, with all these ask for. |
| JobVerify.VerifyMeaning | process1/src/manager/unit/job/job_transaction.rs:363-390 | On a settled table the check never aborts, and passes exactly when the stage is self-consistent and every unit it conflicts with may be overridden. |
| JobVerify.ProtectedJobsSurvive | process1/src/manager/unit/job/job_transaction.rs:371-390 | A request that neither isolates nor flushes cancels no suspended job of a unit with an irreversible one; in fail mode it cancels none. |
| JobRequests.StagedAttributes | process1/src/manager/unit/job/job_entry.rs:175-187 | Staged jobs are irreversible exactly in the mode that says so, and ignore the ordering exactly in the mode that does or as nops. |
| JobRequests.AttributesIff | process1/src/manager/unit/job/job_entry.rs:189-191 | After a commit a suspended job is irreversible exactly when the one kept was or the one staged is, and ignores the ordering in the same way. |
| JobRequests.IrreversibleProtects | process1/src/manager/unit/job/job_transaction.rs:370-392 | What a request staged irreversibly, and is still suspended, is dropped by no later request that passes the check, unless that isolates or flushes. |
| JobVerify.CancelledIff | process1/src/manager/unit/job/job_transaction.rs:371-390 | Exactly which units' suspended jobs such a request cancels. |
| JobVerify.IsolationConflictsIff | process1/src/manager/unit/job/job_table.rs:695-697 | The inverted emptiness test: an isolation conflicts with itself exactly when a chain of dependencies leads from it to a job, other than a stop or nop, of a unit that is also stopped: by such a chain, or together with a registered, non-exempt unit the request involves. |
| JobVerify.IsolationRefused | process1/src/manager/unit/job/job_transaction.rs:286-325 | So starting a registered, non-exempt unit in isolate mode is always refused. |
| JobAlloc.FreeIdIff | process1/src/manager/unit/job/job_alloc.rs:49-60 | A number is free exactly while fewer than 2^32 ids were handed out; ids are never given back. |
| JobAlloc.JobAllocData.AllocId | process1/src/manager/unit/job/job_alloc.rs:49-60 | Terminates while a number is free, and returns the first one after the last, cyclically, that was never handed out. |
| JobStat.JobStatData.UpdateKinds | process1/src/manager/unit/job/job_stat.rs:145-177 | Aborts exactly when some kind has more deletions than its counter or ends out of range; otherwise every counter is the old one minus deletions plus additions. |
| JobCounts.CommitCounts | process1/src/manager/unit/job/job_manager.rs:234-246 | Taking a commit's deletions off and adding its additions keeps every kind counter equal to the number of live jobs of that kind. |
| JobUnderflow.KindUnderflowIff | process1/src/manager/unit/job/job_stat.rs:145-177 | With right counters the subtraction of a commit fails for a kind exactly when more new jobs of the kind are swallowed at once, by the jobs staged and suspended beside them, than jobs of the kind stay suspended or are triggers. |
| JobUnderflow.DeletedSize | process1/src/manager/unit/job/job_manager.rs:234-246 | The jobs a commit deletes are the new ones swallowed at once and the suspended ones that give way to a conflict, to isolation or to a kind beside them; the counter of waiting jobs has to cover them. |
| JobExamples.RestartOfPairAborts | process1/src/manager/unit/job/job_manager.rs:218-250 | A request that does it: a restart of one of two active units that require each other, while no start is live. It stages a start and a restart of both, passes the check, and aborts. |
| JobStages.RunCountIs | process1/src/manager/unit/job/job_manager.rs:261-296 | Over every run the counter of running jobs is the number of units that run one, plus how often a running job was interrupted or removed with its unit, less how often a job was finished while it waited between phases or a unit without a trigger was removed. |
| JobStages.RunUnderflowIff | process1/src/manager/unit/job/job_manager.rs:415-438 | So a step takes it below zero exactly when it finishes a job, or removes a unit without a trigger, and the latter two have so far outnumbered the former two by as many units as run. |
| JobExamples.WaitingReportUnderflows | process1/src/manager/unit/job/job_manager.rs:368-402 | A run that does it: a restart is handed over and its stop phase reported as over; a second report about the unit, before the manager triggers the start phase, finds a trigger to finish and nothing running. |
| JobStages.DelTriggerWaits | process1/src/manager/unit/job/job_manager.rs:415-438 | The end of a trigger: one more job waits at most if it is to be triggered again, and every dependant given up waits no longer. |
| JobStages.CommittedWaits | process1/src/manager/unit/job/job_manager.rs:234-246 | What a commit adds waits, and what it deletes waits no longer. |
| JobStages.TriggeredWaits | process1/src/manager/unit/job/job_manager.rs:269-276 | A hand-over takes at least one job out of the waiting ones, an interrupted one included. |
| JobManager.JobManagerData.Exec | process1/src/manager/unit/job/job_manager.rs:218-250 | Exactly what is staged, when the request is refused and why, that a refused request leaves table and counters as they were, that no commit is refused for an id, what every unit has afterwards, and exactly when it aborts: when isolation drops an imminent interrupter, or, told from the staged, suspended and running jobs, when a counter cannot follow. |
| JobManager.JobManagerData.Run | process1/src/manager/unit/job/job_manager.rs:261-296 | Terminates whatever the units answer and report; when it ends without aborting nothing is ready and no batch is left, the counters are right, and in a mirrored ordering no wakeup has been lost; if moreover the ordering is acyclic and nothing runs, no job is left undone but nops. |
| JobManager.JobManagerData.Round | process1/src/manager/unit/job/job_manager.rs:263-294 | One round: the table becomes what the steps on values say; it aborts when they do, and otherwise only if two triggers end in a round that began with the counter of running jobs at zero; there is less to do after it. |
| JobManager.JobManagerData.TryFinish | process1/src/manager/unit/job/job_manager.rs:368-402 | A report: aborts exactly when the table does, or when it finishes a trigger while the counter of running jobs is zero; otherwise all counters are right, and what becomes of all units is what `ReportOutcome` says. |
| JobManager.JobManagerData.EndTrigger | process1/src/manager/unit/job/job_manager.rs:415-438 | The counters of kinds and of waiting jobs never underflow here; it aborts exactly when the table does or the counter of running jobs is zero. |
| JobManager.JobManagerData.EndSuspends | process1/src/manager/unit/job/job_manager.rs:440-466 | It aborts exactly when the table does: no counter ever underflows here. |
| JobManager.JobManagerData.RemoveUnit | process1/src/manager/unit/job/job_manager.rs:355-366 | Code as written: the running counter is lowered exactly when the unit had no trigger, so it aborts exactly for an idle unit while that counter is zero; the waiting counter always covers the jobs that leave. |
| JobWork.TryWork | process1/src/manager/unit/job/job_manager.rs:261-296 | Every round starts a phase of some job, or leaves the work as it is and takes one unit out of the ready ones. |
| JobFinish.LeadsKeeps | process1/src/manager/unit/job/job_manager.rs:368-466 | Whatever ends, fails over or resumes, no work and no job is added, no unit is newly paused, no batch is begun, and the table invariant holds. |
| JobFinish.FallbackClears | process1/src/manager/unit/job/job_transaction.rs:410-426 | After a failure no unit it spreads to has a start or verify pending. |
| JobReports.ReportOutcome | process1/src/manager/unit/job/job_manager.rs:368-438 | A report about a unit that runs a job and is not paused, told from phase and state: a start that leaves the unit failed, a stop after which it is still up and a reload that failed end the job and give up the starts and verifies pending where that spreads to, and nothing else; a phase ends well exactly in the states it may end in, and then no other unit loses a job; any other state changes nothing. |
| JobReports.FailedHandOver | process1/src/manager/unit/job/job_manager.rs:263-294 | A start, stop or verify that is answered with a failure: after the round no start or verify is pending where it spreads to. |
| JobReports.VerifyHolds | process1/src/manager/unit/job/job_entry.rs:380-386 | So a verify of a unit that is neither up nor on its way takes the starts with it that need the unit. |
| JobReports.VerifyPasses | process1/src/manager/unit/job/job_entry.rs:380-386 | And a verify of a unit that is up is over at once, and no other unit loses a job. |
| JobReports.CancelOutcome | process1/src/manager/unit/job/job_manager.rs:440-465 | A suspended job taken out leaves, and of its unit's jobs it alone; with a result other than success the starts and verifies pending where it spreads to go as well, and nothing else. |
| UnitDep.InverseTwice | process1/src/manager/unit/unit_base/ub_relation.rs:4-38 | The inverse of the inverse of a relation is the relation. |
| UnitDep.InverseMeaning | process1/src/manager/unit/unit_base/ub_relation.rs:4-38 | The inverse of a relation is its name at the other end. |
| UnitDep.InsertedMeaning | process1/src/manager/unit/unit_datastore/unit_dep.rs:140-186 | An insertion adds the edge and on request the reference, each at both ends with flipped masks, and changes nothing else; self edges are ignored. |
| UnitDep.InsertedEdge | process1/src/manager/unit/unit_datastore/unit_dep.rs:140-186 | After an insertion the edge is found at both its ends, under its two names. |
| UnitDep.InsertMirrors | process1/src/manager/unit/unit_datastore/unit_dep.rs:140-186 | (s, r, d) with mask (a, b) is stored exactly when (d, inverse r, s) with (b, a) is, without self edges, after every insertion. |
| UnitDep.RemovedMeaning | process1/src/manager/unit/unit_datastore/unit_dep.rs:247-255 | The inverted emptiness test: removing one edge drops everything stored at both its ends, even if the edge was not there. |
| UnitDep.RemoveMirrorsIff | process1/src/manager/unit/unit_datastore/unit_dep.rs:188-193 | So a removal keeps the mirror exactly when the two units have no edge with a third. |
| UnitDep.UnitGoneMirrorsIff | process1/src/manager/unit/unit_datastore/unit_dep.rs:195-208 | Taking a unit away keeps the mirror exactly when no outside unit has an edge to it or to one of its neighbours. |
| UnitDep.ExactlyMirrors | process1/src/manager/unit/unit_datastore/unit_dep.rs:188-193 | The intended removal, of both directions of one edge, always keeps the mirror. |
| UnitDep.RunMirrors | process1/src/manager/unit/unit_datastore/unit_dep.rs:140-255 | Over every sequence of inserts and removes the mirror holds as long as no removal was seen from outside, and the first that was breaks it. |
| UnitDep.RemovalBreaks | process1/src/manager/unit/unit_datastore/unit_dep.rs:247-255 | An input that breaks it: two edges along a chain of three units, the first of them removed; the other is left with one end. |
| UnitDep.MirroredOrder | process1/src/manager/unit/unit_datastore/unit_dep.rs:59-89 | In a mirrored store v is among the units after u exactly when u is among those before v, and no unit is ordered against itself. |
| UnitDep.AtomMeaning | process1/src/manager/unit/unit_base/ub_relation_atom.rs:176-317 | The relations an atom is spread over are exactly the edges its question is about. |
| UnitDep.UnitDepData.Insert | process1/src/manager/unit/unit_datastore/unit_dep.rs:140-186 | In place: the new store, the mirror kept. |
| UnitDep.UnitDepData.Remove | process1/src/manager/unit/unit_datastore/unit_dep.rs:188-193 | In place: the entries of both ends are gone, the rest is unchanged. |
| UnitDep.UnitDepData.RemoveUnit | process1/src/manager/unit/unit_datastore/unit_dep.rs:195-208 | In place: the entries of the unit and of all its neighbours are gone, the rest is unchanged. |
| UnitDep.UnitDepData.GetsAtom | process1/src/manager/unit/unit_datastore/unit_dep.rs:59-65 | The answer holds exactly the units to which an edge leads that the question is about: what a start pulls in, what a stop, restart, reload or failure spreads to, what comes before and after. |
| UnitDep.UnitDepData.IsDepAtomWith | process1/src/manager/unit/unit_datastore/unit_dep.rs:76-89 | Yes exactly for the units that answer holds. |
| ShiftFds.FdTable.DupFd | process1/src/manager/unit/execute/exec_spawn.rs:225-232 | The lowest free descriptor not below the argument, naming the same file, unless the limit is reached. |
| ShiftFds.RoomToMove | process1/src/manager/unit/execute/exec_spawn.rs:225-232 | That descriptor is never further than twice the number of entries plus two. |
| ShiftFds.Pass | process1/src/manager/unit/execute/exec_spawn.rs:218-247 | One pass frees the place of the first entry it could not put there, so the next pass begins further on. |
| ShiftFds.Shift | process1/src/manager/unit/execute/exec_spawn.rs:215-250 | Terminates; on success entry i is descriptor i + 3 naming its original file; on failure too every entry still names its file; it cannot fail while the limit exceeds twice the number of entries plus two. |
| Reliability.FlushSynced | process1/src/manager/reliability.rs:643-655 | A flush makes the store equal to the cache. |
| Reliability.FreshSyncedIff | process1/src/manager/reliability.rs:571-580 | A new table agrees with its store exactly when the store is empty: it must be loaded first. |
| Reliability.RunSynced | process1/src/manager/reliability.rs:498-525 | Over every run of inserts, removes, ignores, commits, imports and crashes that imports after a crash: pending additions and deletions are disjoint, every cache is its store less the deletions overridden by the additions, and the store is what the tables held at the last commit. |
| Reliability.RunHolds | process1/src/manager/reliability.rs:593-617 | Over every such run, for every key of every table: what it holds is what the last insertion or removal said that was not ignored, or what was committed if a load came after it. |
| Reliability.CrashRestores | process1/src/manager/reliability.rs:511-518 | A crash at any moment and an import bring all tables at once back to the last commit. |
| Reliability.CrashKeeps | process1/src/manager/reliability.rs:498-518 | So after a commit, a crash and an import it is still that value. |
| Reliability.ReDb.Insert | process1/src/manager/reliability.rs:593-604 | In place: unless the table ignores changes the key is held with the value, is to be added and no longer to be deleted, and no other key changes; while it ignores nothing changes. |
| Reliability.ReDb.Remove | process1/src/manager/reliability.rs:606-617 | The same for a removal: the key is no longer held nor to be added, and is to be deleted. |
| Reliability.ReDb.CacheToDb | process1/src/manager/reliability.rs:643-655 | The loops leave in the transaction exactly the store with additions put and deletions deleted, and nothing pending. |
| Reliability.ReDb.DbToCache | process1/src/manager/reliability.rs:657-673 | The cache becomes the store, with nothing pending. |
| Reliability.ReliEntry.Commit | process1/src/manager/reliability.rs:498-509 | All tables are flushed into one transaction, in whatever order, and the environment is replaced as a whole. |
| Reliability.ReliEntry.Import | process1/src/manager/reliability.rs:511-518 | All tables are loaded from the environment. |
| Reliability.ReliEntry.IgnoreSet | process1/src/manager/reliability.rs:520-525 | The switch of every table is set and nothing else changes. |
| SocketState.RunSafe | components/socket/src/socket_mng.rs:500-553 | In every state between events: ports are closed unless the state is one of the seven that keep them open, all open from start-post to running, watched only while listening, never closed under a watch; the signal states are never entered; dead means no failure and failed means one. |
| SocketState.FailureSticks | components/socket/src/socket_mng.rs:428-441 | The first recorded failure is never overwritten, not even by a new start: from then on the socket is never dead again, only failed. |
| SocketRuns.RequestOutcome | components/socket/src/socket_mng.rs:265-441 | A start of a socket that has not failed, or a stop, with the commands of all phases, over the ends of all their children: as long as every port opens, every command is spawned and succeeds and every final signal is sent, it is on its way to listening, or dead; from the first thing that goes wrong on it is on its way to failed and nothing else. |
| SocketRuns.FirstFailure | components/socket/src/socket_mng.rs:575-624 | The first thing that goes wrong decides the result: a signal failure if a command ended badly, a resource failure if something could not be spawned, opened or signalled. |
| SocketRuns.CommandsInOrder | components/socket/src/socket_mng.rs:555-573 | While all goes well every phase runs its own commands, the last one first, and there are exactly as many children as there are commands. |
| SocketRuns.ChildGoes | components/socket/src/socket_mng.rs:575-624 | A command that fails ends its phase: in start-pre and stop-post all is over, in start-post the stop-pre commands come next and in stop-pre those of stop-post, with what was left over in place of an unconfigured phase. |
| SocketRuns.StartFails | components/socket/src/socket_mng.rs:265-441 | Over a run: a start whose start-pre fails ends at once without any stop command; one that fails later, when ports or start-post commands go wrong, goes down through the stop-pre and stop-post commands. |
| SocketRuns.ChildrenRunOut | components/socket/src/socket_mng.rs:575-624 | And it gets there: in a phase the end of a child never aborts, and no more of them can end than the phases have commands, and four. |
| SocketRuns.LeftoverRuns | components/socket/src/socket_mng.rs:555-563 | A new socket with two start-post commands and nothing else: when the one run first fails, the other is run as a stop-pre command. |
| SocketRuns.IncomingOutcome | components/socket/src/socket_mng.rs:223-259 | A connection is refused or left alone while the socket is to be stopped; otherwise the socket runs, with its ports open, exactly when the service is up or about to be or can be started, and goes down as failed if not. |
| SocketRuns.StopCheckOutcome | components/socket/src/socket_mng.rs:193-217 | The check before a stop sends a starting socket down by signals, past its stop-pre commands, and leaves any other as it is. |
| SocketRuns.OpenUntilPost | components/socket/src/socket_mng.rs:500-552 | A socket that is stopped with its ports open keeps them open while it runs its stop-pre commands, and has closed them in every state after that. |
| SocketState.OpenFromMeaning | components/socket/src/socket_mng.rs:454-466 | Ports already open keep their descriptor; the closed ones are opened in turn, each with what the system gives, up to the first that is refused; the others stay as they were. |
| SocketState.OpenFromSucceeds | components/socket/src/socket_mng.rs:454-466 | All ports can be opened exactly when none of the closed ones is refused. |
| SocketMng.SocketManager.OpenFds | components/socket/src/socket_mng.rs:454-466 | In place over the port objects: ports already open stay, the others are opened in turn until one fails. |
| SocketMng.SocketManager.SetStateTo | components/socket/src/socket_mng.rs:500-553 | In place: the state, which ports lose their watch and which are closed. |
| SocketMng.SocketManager.Signal | components/socket/src/socket_mng.rs:395-426 | In place, with the recursion through the signal states: terminates in the state the value-level chain gives. |
| SocketMng.SocketManager.StartPreChain | components/socket/src/socket_mng.rs:265-287 | The whole start chain, in place. |
| SocketMng.SocketManager.SigchldEvent | components/socket/src/socket_mng.rs:575-624 | In place: the new state, and exactly when the assert fails. |
| SocketMng.SocketManager.HandleEvent | components/socket/src/socket_mng.rs:185-259 | Every event, in place: aborts exactly as specified and leaves a safe socket safe. |
| SocketMng.SocketPort.OpenPort | components/socket/src/socket_port.rs:281-298 | An open port keeps its descriptor; a closed one gets the new one or an error. |
| SocketMng.SocketPort.Close | components/socket/src/socket_port.rs:300-315 | A closed port stays closed; an open one loses its descriptor. |

## Left out

- Spawning, killing, cgroups, epoll, timers and all other calls to the system: only their results appear, as parameters.
- Plugins, configuration files, the command protocol, logging: plumbing.
- The service unit: the same chain of transitions as the socket unit.
- OnFailure, OnSuccess and the retroactive notifications (`job_notify.rs`): they raise further requests, each of which is an `Exec`; the loop of `Run` is shown to end when none is raised inside it. What a commit that comes inside it does to the batch and to paused units is `CommitBatchIff` and `CommitWakeupIff`.
- The history counters and the record of affected jobs: write-only; a unit's updated jobs are listed (`JobUnit.MergeSuspends`), but not collected over all units.
- Reentrant borrows: calls do not nest.
- `flush_accept` and `flush_fd` of a port: foreign calls. The former closes the listening descriptor in place of the accepted one and keeps its number, which is outside `RunSafe`.
- Fifo ports and accepting sockets: `todo!` in the original; a connection already accepted is an abort here. The watch on the control process and a descriptor lost when binding fails are not followed.
- The recovery callbacks and the tables of last events: stubs around the tables that are modelled.
- Jobs shared between the id index, the record and the queue: modelled as values under their ids, so aliasing inside the table is not captured.
- `JobTableObject.JobTable`: holds unit records as values; the records' own updates in place are those of `JobUnitEntry.JobUnit`.
- `JobTableObject.JobTable.Commit`: brings the id index up to date once at the end, not after each of the three loops, and takes the ids from the sets of added, dropped and merged jobs, not from the lists the units return.
- `JobManager.JobManagerData.RemoveUnit`: requires that the unit does not sit in the batch. Outside a run of the manager there is no batch: every request, report, cancellation and unit removal leaves an empty one empty, and a run ends with an empty one.
- A unit whose record was dropped while the unit waits in the batch, and that gets a new record before its turn: the batch of the original still holds the dropped record, the model's the unit. Inside a run only a request raised there can do this.
- `JobAlloc.JobAllocData.AllocId`: requires a free id; with all 2^32 handed out the original searches for ever.
- `JobTableProgress.RunLosesNoWakeup`: leaves out commits, for which `RunWakesUntil` has the exact condition, the finishing of paused units, which the manager never does, and the removal of units, which resumes nobody.
- `JobManager.JobManagerData.Run`: does not say exactly when it aborts; the conditions of its steps do.
- `SocketState.RunSafe`: takes a connection to come in only while the socket listens, which is the only state in which its ports are watched.
