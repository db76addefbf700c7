# Fuzzing campaign controller: a verified model

The controller takes a job from policy check to validation through AI-reviewed stages, survives crashes of its own
process, retries within limits, divides one machine among parallel jobs, and lets an operator restart a job
without losing evidence. This project models that logic in Dafny and proves what its code and documentation
promise of it. AI verdicts, build results, probe findings, session outcomes, clocks and directory orders are arbitrary
inputs throughout, so every statement holds for all of them. So are I/O faults: a stage call may raise between any
two of its writes, and what it leaves behind is part of the event; the faults that are not covered stand under
"Left out". `dafny verify dfyconfig.toml` checks everything.

## What is modelled

**The job lifecycle** (`Lifecycle`, `Termination`, `Progress`, `RecoveryBudget`, `Worker`, `Campaigns`). A job is its
saved state plus the artifacts that steer it. An event is one stage call, one raised exception with what it left on
disk, one recovery by the central agent, or one operator command. `Lifecycle.Enabled` and `Lifecycle.After` follow,
branch by branch, the dispatcher (src/fuzz_target_scout/pipeline_worker.py:187-310), the error recorder (362-397), the
stage methods of src/fuzz_target_scout/pipeline_runner.py (394-912 and 914-1302, 1547-1650), triage and validation
(src/fuzz_target_scout/triage.py:32-170, src/fuzz_target_scout/validation_agent.py:32-101), the recovery options and
their application (src/fuzz_target_scout/central_agent.py:1485-1809), and the two operator resets. The variant that
makes every run halt is lexicographic: alive, recoveries left, stage failures left, unbuilt, generation cycles left,
repairs left, untried targets, before the first session, AFL lane, milliseconds of budget, open session, crash files
triage has not moved away, stage rank, calls left. Stage failures stand above generation cycles because a failed
rebuild may change the set of targets while it uses up no cycle. `Campaigns` builds whole lives event by event for the
promises that fail.

**Fuzz-time accounting** (`FuzzTime`, `Accounting`). The three records `state.json`, `fuzz-progress.json` and
`fuzz-run.json`, one event per write, and a crash between any two writes. A ledger of every addition ever made and a
counter of totals lost with a record exist only in the model. The stage calls themselves (`Accounting.FuzzRecords`)
are methods whose every write is such an event, so all that is proved about runs holds of them.

**Resources** (`ResourcePlanner`, `WorkerBatches`). The planner's nested minima and floor divisions, its callers that
plan again from one snapshot, the AI capacity choice, the out-of-memory adaptation, and the worker's batch loop.

**Operator transactions** (`JobTree`, `OperatorTransactions`). A job directory in which any operation may raise;
retargeting and harness repair archive entries, write new ones and undo everything on failure.

**Smaller algorithms**: `ArmPreflight` (filter, order, family-diverse selection, budgeted probes, funnel),
`HeaderScanner` and `HeaderScopes` (C++ header text and access sections), `YieldPolicy`, `Cooldown` (failure and
success cooldowns and both quarantine passes), `Dictionary` (writer and reader), `AdaptiveStrategy`,
`CorpusCompaction`, `QueryRotation`, `SourceDependencies`, `SourceExcerpt`, `BoundedLog`.

Durations are integer milliseconds, budgets and session lengths whole seconds, memory whole megabytes. Hashes and
generated ids are injective. A JSON record is replaced atomically.

## Where the code does less than it promises

* `max_automatic_recoveries_per_job` is enforced on every life exactly when it is at most 20 or the route has no
  operator commands: such a command resets the attempt counter, and the history that replaces it keeps twenty
  entries (`RecoveryBudget.LimitEnforcedExactly`, `RecoveryBudget.BudgetOverrun`).
* The completed total survives a rebuilt harness unless the process dies after the progress record was moved to the
  archive and before its continuation was written; that is the only step that can lower it, and some run takes it
  whenever there is a budget (`Accounting.TotalDropsExactly`, `Accounting.TotalCanDropExactly`).
* An AFL lane can be added to the total twice, beyond any bound. The command that runs the lane looks only at the
  stage, a rebuild keeps the lane's record and its session but forgets that it was counted, and taking the record up
  again adds it exactly when it is unmarked (`Accounting.LaneAddedAgainExactly`, `Accounting.LaneCanRepeatExactly`).
  Without that command the lane counts once and the budget holds (`Accounting.ChargedAtMostOnce`,
  `Accounting.BudgetKept`).
* A retry of the fuzzing stage can succeed exactly when review and plan are still approved and there is time left, an
  unused generation cycle, or a fuzz record to finish with. After a failed harness generation the plan is closed, and
  the retry is offered all the same (`Campaigns.RetryWorksExactly`, `Campaigns.DeadRetryOfferedExactly`).
* Crash files that triage takes for artifacts of the run send a job back to fuzzing as ready. It can go on exactly
  under the same condition; one whose probe left them has no plan yet, so a job in whose life nothing failed can only
  fail from there on (`Campaigns.ReturnWorksExactly`, `Campaigns.DeadReturnLife`, `Worker.FuzzedHarnessIsApproved`).
* A job that fails at triage or validation is taken by nobody: the worker skips its status, also over the one the
  validation wrote, and the central agent its stage. With a finding on record the operator commands refuse, too; then
  nothing but the stage's own command, given by hand, can move it (`Progress.NeverStuck`, `Progress.DeadExactly`,
  `Campaigns.DeadTriageLife`).
* A retried coverage analysis can move on exactly when review and probe are there and no plan was written. A fault
  between the plan and the state leaves a plan, and the stage then answers every call from it without saving a state
  (`Campaigns.RetriedAnalysisMovesExactly`, `Campaigns.StuckAnalysisOfferedExactly`).
* The 100-call limit of the dispatcher ends healthy campaigns, too, and records a failure: of a campaign in which
  nothing fails, exactly when the seconds left exceed 98 checkpoints, because the triage behind the sessions is a call
  and finding the job complete takes an iteration (`Worker.Worker.Advance`). The failure stands over a campaign that
  is still fuzzing, over a triage that nobody runs any more, or over triage's verdict (`Campaigns.HealthyLifeGivesUp`).
* The fuzzing processes of a plan fit their container exactly when the memory share of a job reaches the overhead
  plus 256 MB (`ResourcePlanner.ProcessesFitExactly`). Adapted parallel jobs fit together exactly when there is one
  job, or an equal share holds the configured container size or all the workers' raised limits
  (`ResourcePlanner.AdaptFitsTogetherExactly`, `ResourcePlanner.AdaptOvercommitsTogether`).
* The yield policy counts an AFL session for all it requested, the completed total for what it ran. The two agree
  exactly when no AFL session ended early (`YieldPolicy.DurationsMatchTotal`). Such a session hides stagnation exactly
  when the trailing time falls short of the limit that the real time since the last record reaches
  (`YieldPolicy.VerdictDelayedExactly`, `YieldPolicy.EarlyEndHidesStagnation`).
* The failure cooldown is documented to be reset by a success. A failure counts exactly when every newer job failed or
  was skipped for the cooldown, so any other end resets it too, among them the job that the duplicate-selection pass
  skips (`Cooldown.StreakExactly`, `Cooldown.DuplicateSkipReopens`).
* A dictionary token with U+0085, U+2028 or U+2029 is written but never read back, and its pieces use up lines of
  the 512 that are read (`Dictionary.RoundTrip`, `Dictionary.TokenReturnsExactly`).

## Model

| member | source | states |
|---|---|---|
| Termination.EveryRunHalts | src/fuzz_target_scout/pipeline_worker.py:187-310 | from every reachable job, operator commands included, no infinite run of worker steps, triage and validation included, and central recoveries exists, whatever the AI, the builds, the probes and the crash files answer |
| Termination.StepDecreases | src/fuzz_target_scout/pipeline_worker.py:362-397 | every stage call, recorded error and recovery strictly lowers one lexicographic measure; a rebuild enlarges the targets only while an earlier part drops |
| Termination.InvPreserved | src/fuzz_target_scout/pipeline_runner.py:520-636 | no event breaks the link between stage, status, review and coverage plan, and repairs and generations never exceed their limit |
| Termination.ReachableInv | src/fuzz_target_scout/pipeline_runner.py:752-912 | that invariant holds in every state of every life of a job |
| Termination.RejectionLowersUntried | src/fuzz_target_scout/pipeline_runner.py:596-636 | a clean rejection never enlarges the untried targets, and moving on to another target lowers the measure even when the rejected one had been tried before |
| Termination.QuartetDecreases | src/fuzz_target_scout/pipeline_runner.py:520-594 | applying a review, new or replayed, always spends something |
| Termination.RecoveryDecreases | src/fuzz_target_scout/central_agent.py:1678-1809 | every offered recovery, the skip included, spends something although it clears the failure counter |
| Termination.ResultDecreases | src/fuzz_target_scout/pipeline_runner.py:1101-1302 | whatever its verdict, a session that accounts for any time, or a replayed one, spends budget or closes the open session |
| Termination.JudgeDecreases | src/fuzz_target_scout/triage.py:64-152 | every outcome of triage and validation spends something, a return to fuzzing the crash files it moves away |
| Worker.Worker.Advance | src/fuzz_target_scout/pipeline_worker.py:187-310 | the dispatch loop leaves the job at the end of a legal path of at most 100 calls, prepares without fuzzing when asked to, each result says why it stopped, and a campaign in which nothing fails runs into the limit if and only if more than 98 checkpoints of budget are left, and otherwise ends exhausted |
| Worker.FuzzedHarnessIsApproved | src/fuzz_target_scout/pipeline_runner.py:914-944 | over whole lives a harness that is analysed or fuzzed has an approved review and a probe without crash files and with nothing worse than an uncaught C++ exception, and a job marked ready lacks what a session demands if and only if triage returned it from its probe |
| Campaigns.RetryWorksExactly | src/fuzz_target_scout/central_agent.py:1762-1765 | after a retry of the fuzzing stage some stage call is possible if and only if review and plan are approved and time, a generation cycle or a fuzz record to finish with is left |
| Campaigns.ReturnWorksExactly | src/fuzz_target_scout/triage.py:143-147 | after a false positive some stage call is possible if and only if review and plan were approved before and the same things are left |
| Campaigns.DeadReturnLife | src/fuzz_target_scout/triage.py:143-147 | under every configuration a life without any fault ends in a ready job without a possible stage call |
| Campaigns.DeadTriageLife | src/fuzz_target_scout/pipeline_worker.py:274-302 | under every configuration one failed triage call leaves a job on which no event is possible |
| Campaigns.DeadRetryOfferedExactly | src/fuzz_target_scout/central_agent.py:1485-1614 | some life is offered a fuzzing retry that can only fail if and only if recoveries are allowed at all |
| Campaigns.RetriedAnalysisMovesExactly | src/fuzz_target_scout/pipeline_runner.py:708-710 | a retried coverage analysis can leave its stage if and only if the review is approved, the probe is there and no plan was written |
| Campaigns.StuckAnalysisOfferedExactly | src/fuzz_target_scout/pipeline_runner.py:743-755 | some life is offered a retry of an analysis that cannot move on if and only if recoveries are allowed at all |
| Campaigns.HealthyLifeGivesUp | src/fuzz_target_scout/pipeline_worker.py:196-302 | for every budget of more than 98 checkpoints a life without any fault ends in a recorded failure: fuzzing above 100 checkpoints, at triage above 99, complete otherwise |
| Progress.NeverStuck | src/fuzz_target_scout/pipeline_worker.py:167-310 | every reachable job that is not complete is taken by the worker if and only if it does not wait, by the central agent if and only if it waits at a recoverable stage with a saved error, and otherwise by nobody |
| Progress.DeadExactly | src/fuzz_target_scout/pipeline_worker.py:26-39 | no event is possible on such a job if and only if it waits where nobody recovers it and the operator commands refuse it |
| Progress.EventAttended | src/fuzz_target_scout/pipeline_worker.py:362-397 | whatever happens, a waiting job has a recorded failure, an ending status means complete, and a fuzzing job has a status the dispatcher knows |
| Progress.SpentStaysSpent | src/fuzz_target_scout/central_agent.py:1678-1809 | along any stretch of a life without an operator command or a lost record nothing spent comes back: generations, repairs, recoveries, the AFL lane and fuzzing time only grow |
| Progress.FailureOutcome | src/fuzz_target_scout/pipeline_worker.py:362-397 | after an exception the worker goes on by itself if and only if a session was interrupted below the failure limit; the central agent takes every other saved error at a stage it can recover |
| RecoveryBudget.RecoveriesBounded | src/fuzz_target_scout/central_agent.py:1513-1595 | with a limit of at most 20, a whole life sees no more recoveries other than skips than the limit, and no action twice for one failure fingerprint |
| RecoveryBudget.LimitEnforcedExactly | src/fuzz_target_scout/central_agent.py:1771-1807 | the limit holds on every life if and only if it is at most the history's 20 entries or the route has no operator commands |
| RecoveryBudget.BudgetOverrun | src/fuzz_target_scout/retarget.py:288-295 | on the native route, for every larger limit there is a life that exceeds it and repeats an action for the same failure |
| RecoveryBudget.EventExtends | src/fuzz_target_scout/central_agent.py:1485-1614 | every event extends the full log the way the bounded history extends, and keeps the log disciplined |
| RecoveryBudget.HistoryKept | src/fuzz_target_scout/retarget.py:24-27 | nothing but a recovery changes the history, operator commands included |
| Accounting.ChargedAtMostOnce | src/fuzz_target_scout/pipeline_runner.py:1111-1160 | with a crash between any two writes, no session id is added to a total twice, and no AFL lane unless its record was taken up on a job whose lane was neither pending nor running |
| Accounting.BudgetKept | src/fuzz_target_scout/pipeline_runner.py:1016-1034 | the total equals what its session list adds up to; unless a lane was taken up that way it stays below the budget plus a second, and within the budget without interruptions and AFL |
| Accounting.LaneAddedAgainExactly | src/fuzz_target_scout/pipeline_runner.py:1473-1496 | in every reachable world, taking up a lane's record adds it again if and only if the record is one of a lane that worked, the progress is unmarked and its sessions name a lane already; what it adds is not bounded by the time left |
| Accounting.LaneCanRepeatExactly | src/fuzz_target_scout/pipeline_runner.py:1559-1566 | some run counts a lane twice and exceeds the budget by a second or more if and only if there is a budget |
| Accounting.NothingElseLost | src/fuzz_target_scout/pipeline_runner.py:3293-3335 | everything ever added is in the known total or was lost with a record |
| Accounting.TotalDropsExactly | src/fuzz_target_scout/pipeline_runner.py:3307-3323 | the known total drops if and only if a crash hits between moving the progress record and writing its continuation |
| Accounting.TotalCanDropExactly | src/fuzz_target_scout/pipeline_runner.py:3307-3323 | some run charges time and loses it if and only if the budget is at least one second |
| Accounting.ReplayAddsTheSame | src/fuzz_target_scout/pipeline_runner.py:978-998 | after a crash with a finished record on disk, replaying it saves exactly the progress that was about to be saved |
| Accounting.IncompleteNeverCharged | src/fuzz_target_scout/pipeline_runner.py:980-1002 | a record that is not complete and held by no process is never charged later |
| Accounting.SessionLowersRemaining | src/fuzz_target_scout/pipeline_runner.py:1111-1137 | in every reachable world, an ended session that passed or was restarted lowers the whole seconds left unless it spends the budget, or changes nothing when it is on the ledger, which a session that just ended never is |
| Accounting.InvPreserved | src/fuzz_target_scout/pipeline_runner.py:1060-1086 | the tie between the records and the process's memory survives every write and every crash |
| Accounting.ReachableInv | src/fuzz_target_scout/pipeline_runner.py:914-1099 | that invariant holds in every world a run with crashes reaches |
| Accounting.FuzzRecords.Fuzz | src/fuzz_target_scout/pipeline_runner.py:914-1099 | one call adds at most one amount to the ledger and loses none, replays a complete record instead of fuzzing, refuses if and only if no time and no record is left, keeps the total below the budget plus a second, and leaves a fuzzable status only with time left |
| Accounting.FuzzRecords.ApplyResult | src/fuzz_target_scout/pipeline_runner.py:1101-1302 | adds what the budget has left of a session that is not on the ledger and nothing of one that is, and the job stays fuzzable only with time left |
| Accounting.FuzzRecords.ApplyInterruption | src/fuzz_target_scout/pipeline_runner.py:1060-1083 | an interrupted session is on the ledger once with its elapsed time, the total stays below the budget plus a second and equal to its session list, and no session is left open |
| Accounting.FuzzRecords.RunAfl | src/fuzz_target_scout/pipeline_runner.py:1464-1545 | one call in any status of the stage refuses without a progress record to start from or add to, never runs a lane that has a record, and adds nothing if the lane failed or is marked; called while the lane is due it adds it once, and a new lane no more than the seconds left |
| Accounting.FuzzRecords.ApplyAfl | src/fuzz_target_scout/pipeline_runner.py:1547-1617 | the ledger and the total grow by the same amount, a lane that is marked or failed changes neither, and a spent budget or a finding ends the fuzzing |
| Accounting.FuzzRecords.ArchiveForRebuild | src/fuzz_target_scout/pipeline_runner.py:3293-3335 | a rebuild keeps the total, the sessions, the last charged id and the ledger, loses nothing, and leaves no record that could be replayed |
| FuzzTime.ChargeProgress | src/fuzz_target_scout/pipeline_runner.py:1016-1034 | a charge of a second or more exhausts the budget or lowers the floored remainder |
| ResourcePlanner.PlanFits | src/fuzz_target_scout/resources.py:124-195 | for every snapshot and every accepted setting, jobs times container plus reserve fit the memory, jobs times workers plus reserve fit the processors, and containers have 512 MB |
| ResourcePlanner.ProcessesFitExactly | src/fuzz_target_scout/resources.py:161-186 | overhead plus all process limits fit the container if and only if a job's share reaches overhead plus 256 |
| ResourcePlanner.JobsMaximal | src/fuzz_target_scout/resources.py:138-159 | a number of jobs is planned for if and only if it is one or respects every cap and every job's minimum of processors and memory |
| ResourcePlanner.WorkersMaximal | src/fuzz_target_scout/resources.py:161-174 | workers per job are the most the cap, the processors and the memory share allow |
| ResourcePlanner.LimitMaximal | src/fuzz_target_scout/resources.py:175-186 | the process limit is the configured one or the largest that fits, never below 256 |
| ResourcePlanner.ReplanExact | src/fuzz_target_scout/pipeline_worker.py:90-153 | planning again from the same snapshot for any number of jobs the first plan allowed gives exactly that number, with no fewer workers and no less memory each |
| ResourcePlanner.CapacityExact | src/fuzz_target_scout/central_agent.py:1006-1029 | for any AI reply the applied allocation is exactly the clamped request and stays within the ceiling |
| ResourcePlanner.AdaptRaises | src/fuzz_target_scout/pipeline_runner.py:3573-3620 | out-of-memory adaptation never lowers a limit of a plan and changes neither jobs nor workers |
| ResourcePlanner.AdaptMonotone | src/fuzz_target_scout/pipeline_runner.py:3573-3620 | more restarts never mean smaller limits |
| ResourcePlanner.AdaptFitsOneJob | src/fuzz_target_scout/pipeline_runner.py:3573-3620 | one adapted job fits the machine beside the reserve and its configured container size |
| ResourcePlanner.AdaptFitsTogetherExactly | src/fuzz_target_scout/pipeline_runner.py:3573-3620 | for every plan and number of restarts, adapted jobs fit the machine together if and only if there is one job, or an equal share of the usable memory holds the configured container size or overhead plus all workers' raised limits |
| ResourcePlanner.AdaptOvercommitsTogether | src/fuzz_target_scout/pipeline_runner.py:3573-3620 | so a plan for two jobs outgrows its machine after one restart |
| WorkerBatches.NextJobs | src/fuzz_target_scout/pipeline_worker.py:167-185 | the next jobs are different, selectable and untried; one is left out only when the limit is reached and every job taken comes before it |
| WorkerBatches.RunBatch | src/fuzz_target_scout/pipeline_worker.py:107-153 | a batch is planned for exactly its jobs, its threads for exactly the ready ones, both fit the machine, and a thread never gets less than was prepared |
| WorkerBatches.Run | src/fuzz_target_scout/pipeline_worker.py:69-161 | no job is attempted twice in a run, no more jobs report a result than were asked for, every batch fits, and the loop ends |
| JobTree.JobFiles.ArchiveItems | src/fuzz_target_scout/retarget.py:271-275 | moves a prefix of the items into the archive, all of them unless a move raises |
| JobTree.JobFiles.RestoreItems | src/fuzz_target_scout/retarget.py:296-303 | moving the archived items back restores every entry |
| OperatorTransactions.Retarget | src/fuzz_target_scout/retarget.py:263-304 | whichever step raises, every live entry is as before; otherwise the entries are exactly the archived items, the new metadata and the reset state |
| OperatorTransactions.RetargetOutcome | src/fuzz_target_scout/retarget.py:265-295 | path by path: items unchanged in the archive, fresh directories empty, only the retarget counter kept, everything else untouched |
| OperatorTransactions.RepairHarness | src/fuzz_target_scout/harness_repair.py:321-406 | whichever step raises, the old harness and every live entry are back; otherwise the harness, metadata, corpus and state are exactly the new ones |
| OperatorTransactions.RepairOutcome | src/fuzz_target_scout/harness_repair.py:331-395 | path by path: items unchanged in the archive, the integration differs in the harness alone, the corpus is the carried and extra seeds, everything else untouched |
| OperatorTransactions.RollbackRepair | src/fuzz_target_scout/harness_repair.py:396-405 | the undo of a repair restores every entry whether or not the harness had been replaced |
| OperatorTransactions.Rollback | src/fuzz_target_scout/retarget.py:296-303 | removing what was created and moving back what was archived restores every entry |
| OperatorTransactions.CorpusSources | src/fuzz_target_scout/harness_repair.py:135-162 | the carried seeds keep all three limits, every seed is carried or skipped, and no skipped seed could still be added |
| ArmPreflight.Preflight | src/fuzz_target_scout/engine.py:428-698 | for candidates listed once each, the sum of all terminal outcomes grows by exactly the considered ones on every path; a considered candidate ends compatible if and only if a stored or fresh probe of its commit passed |
| ArmPreflight.DistinctLoseNothing | src/fuzz_target_scout/engine.py:50-53 | with no candidate listed twice every considered one has its terminal outcome |
| ArmPreflight.LosesNothingExactly | src/fuzz_target_scout/engine.py:613-645 | a guard for other callers: no attempt limit loses a candidate if and only if none is listed twice |
| ArmPreflight.Filter | src/fuzz_target_scout/engine.py:442-592 | each candidate ends with one outcome or is pending; afterwards it is compatible if and only if a stored pass proved it |
| ArmPreflight.Candidate.RequireProbe | src/fuzz_target_scout/engine.py:481-496 | an architecture label is withdrawn until the current commit is probed |
| ArmPreflight.WithoutKeeps | src/fuzz_target_scout/engine.py:488-493 | withdrawing the missing-evidence blocker removes every copy of it and no other blocker |
| ArmPreflight.PendingIsHandoffReady | src/fuzz_target_scout/engine.py:499-519 | without an AI review every pending or cached candidate already has the handoff score |
| ArmPreflight.SortedKeeps | src/fuzz_target_scout/engine.py:599-611 | the preference order is total on what it compares and the sort loses no candidate |
| ArmPreflight.Select | src/fuzz_target_scout/engine.py:618-640 | the two passes with their early exits pick exactly the leaders of the families and then the best of the rest |
| ArmPreflight.SelectionFills | src/fuzz_target_scout/engine.py:618-640 | the selection has the smaller of the limit and the number of pending candidates |
| ArmPreflight.SelectionSpreads | src/fuzz_target_scout/engine.py:618-640 | it covers the smaller of the limit and the number of families, all of them when they fit |
| ArmPreflight.ChosenIsSound | src/fuzz_target_scout/engine.py:618-640 | nothing is chosen twice and never more than the limit |
| ArmPreflight.LeaderIsBest | src/fuzz_target_scout/engine.py:621-632 | the candidate chosen first from a family is its best |
| ArmPreflight.Probe | src/fuzz_target_scout/engine.py:646-698 | all chosen candidates end: probed with at least a minute left, out of time, or behind the first success |
| ArmPreflight.RecordTerminal | src/fuzz_target_scout/engine.py:438-440 | recording an outcome moves the sum of terminal outcomes by exactly its count |
| HeaderScanner.ScanHeaderLine | src/fuzz_target_scout/generic_integration.py:1438-1482 | the scanner that jumps between marks produces both texts and the comment state of the character automaton |
| HeaderScanner.ReadShape | src/fuzz_target_scout/generic_integration.py:1438-1482 | both texts have the line's length and hold the original or a blank at every position, the structural one never more than the visible one |
| HeaderScanner.VisibleIsClean | src/fuzz_target_scout/generic_integration.py:1438-1482 | scanning the visible text again changes nothing and leaves no comment open |
| HeaderScanner.StructuralIsCode | src/fuzz_target_scout/generic_integration.py:1438-1482 | the structural text holds no comment and no quote |
| HeaderScanner.SkipLiteral | src/fuzz_target_scout/generic_integration.py:1465-1477 | the literal loop reads an escaped character as part of the literal and stops at its quote or the line's end |
| HeaderScanner.SkipComment | src/fuzz_target_scout/generic_integration.py:1443-1454 | a block comment is blanked to its first closing mark or to the end of the line |
| HeaderScopes.AccessibleHeaderLines | src/fuzz_target_scout/generic_integration.py:1396-1435 | yields exactly the lines that are no directive and whose enclosing classes, structs and unions are all in public sections at the line's start |
| HeaderScopes.StackIsAccess | src/fuzz_target_scout/generic_integration.py:1410-1434 | the scope stack is all public if and only if every brace still open by counting belongs to no class or has public as its last direct label |
| HeaderScopes.ListsNext | src/fuzz_target_scout/generic_integration.py:1413-1434 | each token keeps the stack equal to the list of open braces, outside in, with their sections |
| HeaderScopes.YieldedLines | src/fuzz_target_scout/generic_integration.py:1404-1411 | a numbered line is yielded if and only if it qualifies, with its visible text |
| HeaderScopes.YieldedInOrder | src/fuzz_target_scout/generic_integration.py:1404-1411 | yielded numbers increase |
| HeaderScopes.OuterDecides | src/fuzz_target_scout/generic_integration.py:1410-1411 | a public inner scope never opens a non-public outer one |
| YieldPolicy.EvaluateCampaignYield | src/fuzz_target_scout/yield_policy.py:7-85 | the loop decides by the maximum over baseline and sessions and by the time since the last record |
| YieldPolicy.RecordBeatsBest | src/fuzz_target_scout/yield_policy.py:33-36 | beating the running maxima is the same as beating the baseline and every earlier session |
| YieldPolicy.TrailingIsTimeSinceRecord | src/fuzz_target_scout/yield_policy.py:25-43 | when durations add up to the total, stagnation is the time after the last record, and a session without a record raises it by exactly its duration |
| YieldPolicy.VerdictStands | src/fuzz_target_scout/yield_policy.py:53-65 | a verdict and its reason stand under any further sessions and any larger total until one sets a record |
| YieldPolicy.StagnationIsCaught | src/fuzz_target_scout/yield_policy.py:49-65 | enough time without a record always ends in a verdict |
| YieldPolicy.DecisionIsUnique | src/fuzz_target_scout/yield_policy.py:7-85 | the campaign determines the decision |
| YieldPolicy.DurationsMatchTotal | src/fuzz_target_scout/yield_policy.py:92-98 | durations add up to the accounted contributions if and only if no AFL session ended early, and never fall short of them |
| YieldPolicy.TrailingExactly | src/fuzz_target_scout/yield_policy.py:25-43 | the trailing time never exceeds the real time since the last record and equals it if and only if no AFL session up to it ended early or no time passed |
| YieldPolicy.VerdictDelayedExactly | src/fuzz_target_scout/yield_policy.py:53-65 | the verdict differs from the one the real time deserves if and only if a deep enough campaign reaches the limit by that time and not by the trailing time |
| YieldPolicy.EarlyEndHidesStagnation | src/fuzz_target_scout/yield_policy.py:53-65 | a campaign of two sessions that is not stopped for its early AFL end |
| Cooldown.SkipsAreNeutral | src/fuzz_target_scout/pipeline.py:263-298 | histories that differ by cooldown skips anywhere give the same cooldown, its end included |
| Cooldown.SuccessHidesOlder | src/fuzz_target_scout/pipeline.py:217-221 | an entry older than a success changes nothing |
| Cooldown.EndHidesOlder | src/fuzz_target_scout/pipeline.py:266-275 | so does one older than any end that is neither a failure nor a cooldown skip |
| Cooldown.StreakExactly | src/fuzz_target_scout/pipeline.py:263-275 | in a recorded history a failure counts if and only if every newer job failed or was skipped for the cooldown |
| Cooldown.DuplicateSkipReopens | src/fuzz_target_scout/pipeline.py:266-275 | so a newest job skipped as a duplicate ends every cooldown |
| Cooldown.SortedWithoutSkips | src/fuzz_target_scout/pipeline.py:265 | sorting newest first and dropping the skips commute |
| Cooldown.OlderIsTotal | src/fuzz_target_scout/pipeline.py:265 | entries are totally ordered by time, status text, job and reason |
| Cooldown.Consecutive | src/fuzz_target_scout/pipeline.py:263-275 | the loop collects the failures before the first other end |
| Cooldown.RepositoryFailureCooldowns | src/fuzz_target_scout/pipeline.py:210-298 | a repository is blocked if and only if its own history says so, with that detail |
| Cooldown.RepositorySuccessCooldowns | src/fuzz_target_scout/pipeline.py:301-356 | a repository rests if and only if its newest success is young enough |
| Cooldown.NewestSuccessIsNewest | src/fuzz_target_scout/pipeline.py:338-339 | the success kept is one of the history and none is newer |
| Cooldown.JobStore.QuarantineRepositoryCooldownJobs | src/fuzz_target_scout/pipeline.py:421-460 | finishes exactly the untouched jobs of resting repositories and reports exactly those |
| Cooldown.QuarantineIsNeutral | src/fuzz_target_scout/pipeline.py:421-460 | the pass opens and closes no repository, at its own time or any later one |
| Cooldown.QuarantineIsIdempotent | src/fuzz_target_scout/pipeline.py:421-460 | a second pass at the same time does nothing |
| Cooldown.JobStore.QuarantinePreviouslySelectedJobs | src/fuzz_target_scout/pipeline.py:359-418 | finishes exactly the untouched jobs that do not stand for their repository |
| Cooldown.OneSelectionLeft | src/fuzz_target_scout/pipeline.py:359-418 | the job standing for a repository stays, no second untouched one remains, and a started job wins over untouched ones |
| Cooldown.DeduplicationIsIdempotent | src/fuzz_target_scout/pipeline.py:359-418 | a second pass finds nothing to do |
| Dictionary.RoundTrip | src/fuzz_target_scout/adaptive_strategy.py:146-164 | for every list of extracted tokens, reading the rendered file returns exactly the tokens without a line end that stand whole in the first 512 lines, up to 128, in order |
| Dictionary.WholeRoundTrip | src/fuzz_target_scout/stagnation.py:47 | without line ends in the tokens the first 128 come back unchanged |
| Dictionary.TokenReturnsExactly | src/fuzz_target_scout/stagnation.py:69-76 | a token comes back if and only if it holds no line end, and otherwise nothing is read for it |
| Dictionary.EscapeHead | src/fuzz_target_scout/stagnation.py:75-76 | four replacement passes escape character by character |
| Dictionary.DecodeEscaped | src/fuzz_target_scout/adaptive_strategy.py:154-157 | JSON decoding undoes the escaping (RFC 8259, section 7) |
| Dictionary.PieceIsNoToken | src/fuzz_target_scout/adaptive_strategy.py:149-157 | no piece of a broken token reads as a token, stripped or split at an equals sign |
| Dictionary.ExtractedIsReadable | src/fuzz_target_scout/stagnation.py:12 | what the extraction accepts is within the reader's byte limit |
| Dictionary.ReadTokens | src/fuzz_target_scout/adaptive_strategy.py:144-164 | the reading loop with its caps computes the first 128 tokens of the first 512 lines |
| AdaptiveStrategy.StrategiesInAnyOrder | src/fuzz_target_scout/adaptive_strategy.py:50-95 | after any interleaving no strategy occurs twice, there are at most four entries, and an open entry is the newest and current one |
| AdaptiveStrategy.PastIsFixed | src/fuzz_target_scout/adaptive_strategy.py:66-95 | queued strategies keep their place for ever and entries behind the newest never change |
| AdaptiveStrategy.FourthIsLast | src/fuzz_target_scout/adaptive_strategy.py:78-79 | with four entries nothing can be queued |
| AdaptiveStrategy.ApplyKeepsInv | src/fuzz_target_scout/adaptive_strategy.py:98-228 | every operation rewrites the newest entry or adds one |
| AdaptiveStrategy.StrategyFile.QueueStrategy | src/fuzz_target_scout/adaptive_strategy.py:66-95 | returns the open or the new entry, and refuses only an unknown or repeated strategy |
| AdaptiveStrategy.StrategyFile.BeforeSession | src/fuzz_target_scout/pipeline_runner.py:955-977 | a session starts with no pending strategy, and a scheduled follow-up harness prevents the session |
| AdaptiveStrategy.StrategyFile.EvaluateRuntimeStrategy | src/fuzz_target_scout/adaptive_strategy.py:183-214 | the newest entry becomes succeeded if and only if it was active and coverage advanced, ineffective if and only if it was active without and its evaluation time is over, and no other entry or field changes |
| CorpusCompaction.SelectedSurvives | src/fuzz_target_scout/operations.py:398-430 | wherever the deletion stops, one file of every selected digest is untouched |
| CorpusCompaction.CompletedExactly | src/fuzz_target_scout/operations.py:398-437 | a completed run on an unchanged corpus leaves exactly the selected digests within both limits, and kept plus removed is the snapshot in files and bytes |
| CorpusCompaction.CorpusFiles.Compact | src/fuzz_target_scout/operations.py:361-437 | refuses exactly the outputs that are empty, too many, too large, irregular or select a foreign digest; otherwise deletes only redundant files that still have their stat, counts them exactly, always leaves a file, and touches nothing when it refuses |
| CorpusCompaction.CorpusFiles.Delete | src/fuzz_target_scout/operations.py:420-435 | the loop removes exactly the unchanged redundant files before the stop |
| CorpusCompaction.Partition | src/fuzz_target_scout/operations.py:398-410 | the loop keeps the first file of every selected digest |
| CorpusCompaction.KeptCovers | src/fuzz_target_scout/operations.py:395-410 | the kept files carry each selected digest of the snapshot exactly once |
| CorpusCompaction.PartitionIsWhole | src/fuzz_target_scout/operations.py:400-410 | kept and redundant add up to the snapshot in files and bytes |
| QueryRotation.Rotation.NextIdleFocusedQueries | src/fuzz_target_scout/central_agent.py:2182-2197 | a scan selects its window and moves the cursor behind it |
| QueryRotation.RotationIsFair | src/fuzz_target_scout/central_agent.py:2182-2197 | from any cursor, n scans in a row run each of n queries exactly as often as one scan runs queries |
| QueryRotation.RotationCovers | src/fuzz_target_scout/central_agent.py:2182-2197 | a run of scans runs every query if and only if it reads as many positions as there are queries |
| QueryRotation.ScanReadsTurns | src/fuzz_target_scout/central_agent.py:2194-2196 | the positions counted are those a scan selects |
| SourceDependencies.DetectSourceDependencies | src/fuzz_target_scout/generic_integration.py:1526-1544 | the worklist ends with the least set that holds the declared dependencies and everything they require |
| SourceDependencies.ClosureIsMonotone | src/fuzz_target_scout/generic_integration.py:1536-1544 | more declared dependencies never lose one |
| SourceExcerpt.NumberedSourceExcerpt | src/fuzz_target_scout/quartet_gate.py:578-617 | the rows account for every source line once and in order, as shown or omitted; a short source is shown whole, a long one in the lines of highest priority |
| SourceExcerpt.ChooseLines | src/fuzz_target_scout/quartet_gate.py:582-607 | only the header and requested windows are chosen, below the limit all of them, and at the limit by priority: up to any pattern, match and distance either everything asked so far is chosen or nothing later is |
| SourceExcerpt.AllWindowsAreWanted | src/fuzz_target_scout/quartet_gate.py:590-602 | a line is requested if and only if some pattern matches within its radius |
| SourceExcerpt.Render | src/fuzz_target_scout/quartet_gate.py:608-617 | shown lines keep their order and the gaps between and after them are marked exactly |
| BoundedLog.BoundedLogLines | src/fuzz_target_scout/pipeline_runner.py:119-130 | reading in bounded pieces yields every line cut to the limit |
| BoundedLog.ShortLinesKept | src/fuzz_target_scout/pipeline_runner.py:119-130 | a log whose lines are all within the limit is yielded unchanged |

## Left out

- Subprocesses, containers, git, the AI client, GitHub and messaging: their results are arbitrary inputs.
- How triage and validation judge: reproduction, minimization, deduplication, reports and the result store; their outcomes are inputs, and a triage that finds crash files always finds at least one.
- Crashes inside `Lifecycle`: process crashes are modelled in `Accounting`, where only safety is claimed.
- Operator stop signals inside a stage: a stopped stage is one that raised, or a run that ends.
- An error record that cannot be written: the worker swallows that fault and leaves the job as the stage call left it.
- The stage commands of the command line, except the one for the AFL lane in `Accounting`: they check only the stage.
- Accounting.FuzzRecords.Fuzz: called in the statuses in which the worker calls it.
- A checkpoint of zero or less: the code refuses such a session after it was started, the model never starts it.
- Progress.DeadExactly: the operator commands also refuse over crash and report files that no current result names; the model's commands do not look at these.
- Failures of a rollback step itself: undoing an operator transaction is assumed not to raise, as the code assumes.
- Operator transactions before their first archived note: validation, dry runs and locking refuse before any write.
- OperatorTransactions.Retarget: undoes every fault; the code undoes only an `Exception`, so a KeyboardInterrupt or SystemExit leaves a transaction half done.
- OperatorTransactions.RepairHarness: undoes every fault, with the same exception as `Retarget`.
- OperatorTransactions.RetargetOutcome: symbolic links and nested paths inside an archived directory are part of one entry.
- OperatorTransactions.CorpusSources: the walk order is an input, and links and irregular files, which refuse the repair, are not modelled.
- ArmPreflight.Preflight: the funnel is always recorded, static blockers and signals are not tracked, and a probe that raises out of the scan is not modelled.
- HeaderScopes.AccessibleHeaderLines: the regular expressions that find marks and class heads are arbitrary functions of the text.
- YieldPolicy.EvaluateCampaignYield: entries of the session list that are not objects, which the code skips, cannot occur.
- Cooldown.RepositoryFailureCooldowns: unreadable records, which the code skips, are not in the list, and a missing timestamp is already replaced by the file's.
- Dictionary.ReadTokens: seeds built from the tokens and the writing of seed files.
- AdaptiveStrategy.StrategyFile.QueueStrategy: rationale texts and timestamps.
- CorpusCompaction.CorpusFiles.Compact: the merge itself, its time limit before the deletion, and files created by others while the loop runs.
- WorkerBatches.Run: housekeeping between batches; saved jobs have different ids and finitely many appear during one run.
- BoundedLog.BoundedLogLines: decoding of bytes to characters.
- `prepare_jobs`, scoring, policy patterns, prompts, generated build scripts, migrations, dashboards and notifications: single decisions or text, with no invariant across calls.
