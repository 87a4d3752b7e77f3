# Verification of the candidate and deployment pipelines

This project models, in Dafny, how the sync app takes one candidate commit from detection to a prepared
deployment, how it observes and finalizes that deployment after Apply, and the exact-tree algorithms both rest
on. It proves what holds over every run: any interleaving of workers, a crash between any two steps, recovery,
retries and administrative retries.

`dafny verify dfyconfig.toml` checks the whole project.

## What is modelled

* **Candidate pipeline** (`Candidate`, `CandidateInvariant`, `CandidateRuns`, `CandidateProgress`, `CandidateStuck`,
  `CandidateSafety`, `CandidatePaths`, `CandidateLive`). The durable rows of one candidate, the loaders that re-validate
  them, the transactions that write them, and a step machine in which every read, transaction and Supervisor call is its
  own step. `CandidateStore` holds the tables and the
  SQL statements themselves; `BackupExecutor` is one pass of the backup executor over them, proved to be a run of
  the step machine and, by `BackupOutcome`, to finish whatever can be finished; `BackupInventory` is the inventory
  scan it reconciles with.
* **Deployment pipeline** (`Deployment`, `DeploymentInvariant`, `DeploymentRuns`, `DeploymentSteps`,
  `DeploymentSafety`, `DeploymentRoutes`, `DeploymentPlaces`, `DeploymentPasses`, `DeploymentLive`, `DeploymentStore`,
  `DeploymentExecutor`, `HandoffPath`, `AutomationCounts`). The at-most-once restart journal, the two-probe health window, the observation handoffs and finalization, each executor as a
  program counter; `DeploymentExecutor` is one pass of the Core observation executor, proved to be a run of it.
* **Fetch/Stage** (`FetchStage`): the two-resource commit of a renamed directory and a database row, with crashes
  inside directory removals too. A staged directory is its manifest and its tree, written and verified by `StageTree`,
  `StageVerifier` and `StageListing`.
* **Trees** (`Utf8`, `Separated`, `JsonText`, `CanonicalText`, `GitTree`, `TreeRecords`, `TreeDiff`, `StageTree`,
  `StageVerifier`, `StageListing`): strict UTF-8 and its order, the NUL-delimited tree parsers and the bytes they accept,
  the canonical JSON texts whose length is capped, the tree difference and its checkers, materialising and verifying a
  staged tree.
* **Analyses and queries** (`Includes`, `Impact`, `Timestamps`, `AdministrativeRetry`).

## Assumptions

* A database transaction commits as a whole or not at all, and transactions do not overlap.
* SHA-256 is injective: a record digest is modelled as the record it digests, "WHERE record_sha256=?" as equality.
* A backup bearing a candidate's request name exists only if the app asked for it; an inventory lists backups that
  were made. A create call without an answer may still have made its backup, then or later.
* The Supervisor dates a backup by the clock the app records times by. A create call that answers is completed without
  comparing dates, so that its backup is dated no earlier than the recorded start rests on this.
* Nothing is assumed of reference times but that they are not in the future. Where a Fetch/Stage completion is dated
  before its plan the stored row never loads again (`CandidateInvariant.FetchCompletionTime`, `CandidateStuck`); the
  results of `CandidateSafety` hold of such runs too.
* One process at a time executes Fetch/Stage passes, as its state lock ensures; `FetchStage.OverlappingPassesLoseStage`
  shows what happens otherwise.
* Times are integers in the pipelines. `Timestamps` starts from the calendar fields of UTC times.
* Every directory of a staged tree can be listed. `os.walk` is called without `onerror` (candidate_stage.py:490), so a
  directory that cannot be listed would be skipped, and what it hides accepted.
* Identifiers, targets and evidence texts are opaque; their formats, the target and repository binding of the
  loaders (except in `FetchStage`) and their row counts are taken as satisfied.
* The remaining stage lanes repeat recover, claim and execute; one lane, with the stage as a parameter, stands for them.

## Where the code and its documentation differ

* README.md:520 says an explicit administrative retry makes a blocked candidate eligible again. In the code that is
  so exactly while the orchestration has not itself ended (`CandidateInvariant.RetryEligibility`): once it is blocked
  no claim query selects it (`CandidateSafety.EndedForGood`).
* The include rule is stricter than keeping targets under the candidate root: it also refuses targets with a `..` part,
  a backslash or a control character that stay inside, and nothing else (`Includes.RuleIsExact`,
  `Includes.DocumentRuleIsExact`; `x/../y` and `a\b` are such targets).
* The integrity check does not look for deleted paths in the stage (`TreeDiff.AcceptedPatchAgrees`).
* Creating a stage is not capped, reloading it is (`FetchStage.ReloadsWithinCaps`).

## Model

| member | source | states |
|---|---|---|
| Candidate.ValidActionIsDetermined | syncapp/src/ha_syncapp/candidate_orchestration.py:116-162 | the nine phase/action equations of a valid orchestration hold exactly when the action is the one its phase determines and the times are ordered |
| Candidate.LoadCheckpoint | syncapp/src/ha_syncapp/candidate_semantic_execution.py:219-268 | a loaded checkpoint is the stored row, of the right stage and valid; nothing is loaded exactly when no row is stored (the loaders of all seven stages) |
| Candidate.EighthAttemptBlocks | syncapp/src/ha_syncapp/state.py:2372-2404 | transient failures are retried after 60, 120, 240, 480, 960, 1920 and 3600 seconds, and the eighth attempt blocks the row |
| Candidate.RetryGivesEightAttempts | syncapp/src/ha_syncapp/administrative_retry_request.py:79-99 | a blocked row that has been retried by an administrator has all eight attempts again |
| CandidateInvariant.TxPlanKeeps | syncapp/src/ha_syncapp/candidate_backup_execution.py:346-382 | recording a plan keeps the shape of the rows and takes nothing back |
| CandidateInvariant.TxAdvanceKeeps | syncapp/src/ha_syncapp/candidate_semantic_execution.py:344-393 | ending a stage before Backup, by advancing or by blocking, keeps the shape: one more completed checkpoint, or a blocked ending |
| CandidateInvariant.TxTransitionKeeps | syncapp/src/ha_syncapp/candidate_backup_execution.py:408-431 | the compare-and-swap of the journal row keeps the shape and never moves its start |
| CandidateInvariant.TxFinishBackupKeeps | syncapp/src/ha_syncapp/candidate_backup_execution.py:467-532 | finishing the backup keeps the shape, including that preparation, apply row and completion appear together |
| CandidateInvariant.TxRegisterKeeps | syncapp/src/ha_syncapp/candidate_orchestration.py:459-521 | registering a claimed candidate keeps the shape and touches no checkpoint |
| CandidateInvariant.WorkChangeKeeps | syncapp/src/ha_syncapp/state.py:2372-2435 | changing the work row alone, short of success, keeps the shape |
| CandidateInvariant.LoadersAccept | syncapp/src/ha_syncapp/candidate_backup_execution.py:196-235 | in a well-shaped store each loader returns exactly the stored row, re-validating its predecessors recursively |
| CandidateInvariant.CompletedPrefix | syncapp/src/ha_syncapp/candidate_integrity_execution.py:190-237 | checkpoints are a completed prefix of the stage order matching the phase, each bound to its predecessors' record digests |
| CandidateInvariant.BlockedEndings | syncapp/src/ha_syncapp/candidate_static_execution.py:287-340 | the only blocked endings: an invalid static result, or a blocked semantic or backup row, everything earlier completed and everything later absent |
| CandidateInvariant.EndedIsNeverClaimed | syncapp/src/ha_syncapp/candidate_preflight_process.py:234-296 | no lane's claim query selects a completed or blocked orchestration |
| CandidateInvariant.RetryEligibility | syncapp/src/ha_syncapp/candidate_backup_retrigger.py:64-82 | for any rows with a valid orchestration, an administrative retry makes a blocked candidate claimable by some lane if and only if its orchestration has not ended (README.md:520 says without condition) |
| CandidateInvariant.FetchCompletionTime | syncapp/src/ha_syncapp/candidate_fetch_stage_execution.py:119-141 | the Fetch/Stage commit goes through whatever its completion time is; the stored row loads again exactly when that time is not before the planned one |
| BackupInventory.ReconciledSlugIsTheOnlyMatch | syncapp/src/ha_syncapp/candidate_backup.py:386-415 | a reconciled slug belongs to an item of the requested name dated no earlier than the start, and every item of that name is that same item |
| BackupInventory.ReconciledExactly | syncapp/src/ha_syncapp/candidate_backup.py:386-415 | nothing is reconciled exactly when the inventory is too long, some item in it is inadmissible, or the name is borne by no item or by more than one; otherwise it is the slug of the only bearer |
| BackupInventory.ReconcileBackupSlug | syncapp/src/ha_syncapp/candidate_backup.py:386-415 | the inventory scan returns that slug, and nothing for an oversized, malformed, stale or ambiguous inventory |
| CandidateRuns.StepKeeps | syncapp/src/ha_syncapp/candidate_backup_execution.py:99-193 | every step of every worker, crash, recovery, retry and lane keeps the invariant of rows, journal and worker memories |
| CandidateRuns.EveryRunKeepsInv | syncapp/src/ha_syncapp/candidate_backup_execution.py:99-193 | so does every run of any number of interleaved workers |
| CandidateSafety.BackupIsCreatedAtMostOnce | syncapp/src/ha_syncapp/candidate_backup_execution.py:131-189 | over every run at most one create call is issued, none while the journal row is absent or planned, and a completed candidate names the one backup made, dated no earlier than its recorded start |
| CandidateSafety.CreateFollowsDurableStart | syncapp/src/ha_syncapp/candidate_backup_execution.py:137-152 | whenever a create call is issued the started journal row is already durable, it is the first call, and no other worker may issue one |
| CandidateSafety.EveryLoaderAccepts | syncapp/src/ha_syncapp/candidate_semantic_execution.py:219-264 | in every reachable store each loader returns exactly the stored row, except a Fetch/Stage row completed before it was planned, which no loader accepts and no run with ordered reference times stores |
| CandidateSafety.CheckpointsFormChain | syncapp/src/ha_syncapp/candidate_risk_execution.py:119-159 | in every reachable store the checkpoints form a completed prefix matching the phase, the current one bound to the current orchestration digest, later ones absent, all chained by predecessor digests |
| CandidateSafety.PreparationIsAllOrNothing | syncapp/src/ha_syncapp/candidate_backup_execution.py:434-532 | completed backup row, prepared deployment with the same evidence, apply row, completed orchestration and succeeded work row exist together or not at all, in every reachable store |
| CandidateSafety.RunExtends | syncapp/src/ha_syncapp/candidate_orchestration.py:174-456 | over any run the phase rank never falls, ended checkpoints and the journal's start never change, and an ended candidate's records are final |
| CandidateSafety.EndedForGood | syncapp/src/ha_syncapp/candidate_preflight_process.py:234-296 | once completed or blocked, the records stay as they are in every continuation and no lane claims the candidate again, even after an administrative retry |
| CandidateSafety.RetryRevivesUnlessEnded | syncapp/src/ha_syncapp/candidate_backup_retrigger.py:64-82 | the same in every reachable store, also behind a backdated Fetch/Stage row |
| CandidateProgress.StepDepth | syncapp/src/ha_syncapp/candidate_orchestration.py:174-456 | a step that changes the phase ends exactly one more stage; no other step does |
| CandidateStuck.StuckStep | syncapp/src/ha_syncapp/candidate_fetch_stage_execution.py:408-447 | once a Fetch/Stage row completed before it was planned is stored, nothing but work rows ever changes again |
| CandidateStuck.DisorderedConclude | syncapp/src/ha_syncapp/candidate_fetch_stage_execution.py:119-141 | a Fetch/Stage completion dated before its plan is either refused or leaves the candidate in that state |
| CandidateStuck.StepKeepsGoodOrStuck | syncapp/src/ha_syncapp/candidate_orchestration.py:174-456 | without any assumption on reference times, every step leads from a good or stuck state to one, takes nothing back and ends at most one stage |
| CandidateSafety.AtMostSevenPhaseChanges | syncapp/src/ha_syncapp/candidate_orchestration.py:174-456 | every run changes the phase at most seven times, and completion takes exactly seven |
| CandidateLive.StagePasses | syncapp/src/ha_syncapp/candidate_semantic_execution.py:85-216 | whatever state a run has reached, a candidate waiting for a stage before Backup can be claimed and pass it: its row is completed with the evidence found and the phase moves on |
| CandidateLive.BackupEnds | syncapp/src/ha_syncapp/candidate_backup_execution.py:99-193 | whatever state a run has reached, a candidate waiting for its backup can be ended, and completed unless a start is already on record |
| CandidateLive.EndingIsReachable | syncapp/src/ha_syncapp/candidate_orchestration.py:174-456 | from every reachable state, whatever has crashed or failed on the way, the candidate can still end if and only if no backdated Fetch/Stage row is stored, and can still complete while it is not blocked and no backup start is on record |
| CandidateStore.Store.RecordPlan | syncapp/src/ha_syncapp/candidate_backup_execution.py:346-382 | the INSERT under a re-read orchestration is the plan transaction of that candidate's rows; every other candidate is untouched |
| CandidateStore.Store.UpdateCheckpoint | syncapp/src/ha_syncapp/candidate_backup_execution.py:408-431 | UPDATE ... WHERE record digest: the row count and the table afterwards |
| CandidateStore.Store.CompleteAtomically | syncapp/src/ha_syncapp/candidate_static_execution.py:287-340 | two or three conditional UPDATEs with rollback amount to the advance transaction, all or nothing |
| CandidateStore.Store.TransitionCheckpoint | syncapp/src/ha_syncapp/candidate_backup_execution.py:408-431 | compare-and-swap of the journal row |
| CandidateStore.Store.FinishAtomically | syncapp/src/ha_syncapp/candidate_backup_execution.py:467-532 | the INSERTs and UPDATEs of a finished backup, rolled back together on any wrong row count |
| CandidateStore.Store.RegisterClaimedCandidate | syncapp/src/ha_syncapp/candidate_orchestration.py:459-521 | registration only for the exact claimed running row, idempotent for the same identity |
| CandidateStore.Store.ClaimCandidate | syncapp/src/ha_syncapp/candidate_backup_retrigger.py:55-82 | a claim succeeds exactly when the lane's query selects the row, and then only marks it running with one more attempt |
| CandidateStore.Store.ReleaseWork | syncapp/src/ha_syncapp/state.py:2372-2435 | only a row still running with the claimed attempts is released |
| CandidatePaths.PathIsRun | syncapp/src/ha_syncapp/candidate_backup_execution.py:99-193 | the chain of states an executor pass goes through is a run of the step machine, so all results over runs apply to it |
| BackupOutcome.PlanFits | syncapp/src/ha_syncapp/candidate_backup_execution.py:346-382 | over well-formed rows waiting for a backup the plan is always recorded, and the plan row loads |
| BackupOutcome.StartFits | syncapp/src/ha_syncapp/candidate_backup_execution.py:137-139 | a planned journal row can be started at any time not before its records, and the started row loads |
| BackupOutcome.CompletionFits | syncapp/src/ha_syncapp/candidate_backup_execution.py:434-532 | a started or uncertain journal row can be completed with any slug, and the five records then written are, field by field, the completed row, the completed orchestration, the succeeded work row, the prepared deployment with that slug and the pending apply row |
| BackupOutcome.BlockFits | syncapp/src/ha_syncapp/candidate_backup_execution.py:467-532 | an uncertain journal row can be blocked, and the three records then written are, field by field, the blocked row, the blocked orchestration and the blocked work row |
| BackupExecutor.ExecuteBackupOnce | syncapp/src/ha_syncapp/candidate_backup_execution.py:99-193 | one imperative pass over the tables and the Supervisor, cut short by a crash after any number of durable steps, leaves what some run of the step machine leaves, with at most one create call and none past `planned`. Uncut, over well-formed rows whose times fit, its outcome is exact: an answered create finishes the candidate with that slug in journal, preparation and apply row; an unanswered one leaves an uncertain row to reconcile; a start found on record completes with the reconciled slug or, exactly when nothing is reconciled, blocks. An ended row is only replayed and a changed orchestration refused, with nothing written |
| BackupExecutor.ReadPredecessors | syncapp/src/ha_syncapp/candidate_backup_execution.py:282-327 | succeeds exactly when every predecessor loader accepts a completed row, and then remembers them as they are stored |
| BackupExecutor.PlanBackup | syncapp/src/ha_syncapp/candidate_backup_execution.py:346-382 | the plan is recorded under the digests read and confirmed by a re-read, exactly when the transaction commits and the row loads |
| BackupExecutor.CreateOnce | syncapp/src/ha_syncapp/candidate_backup_execution.py:137-161 | durable start, confirmed, then exactly one call, then its outcome recorded: uncut over well-formed rows, an answer completes the candidate with the answered slug, no answer leaves the start uncertain |
| BackupExecutor.CallAndRecord | syncapp/src/ha_syncapp/candidate_backup_execution.py:140-162 | the same from the durable start on |
| BackupExecutor.ResumeOnce | syncapp/src/ha_syncapp/candidate_backup_execution.py:131-189 | a journal row found is used only under the current digests: planned it is created once, otherwise only declared uncertain and read back; uncut over well-formed rows it ends as its phase, the answer and the inventory call for |
| BackupExecutor.ActOnce | syncapp/src/ha_syncapp/candidate_backup_execution.py:128-189 | the same whether or not there is a journal row yet; without one, the row planned first is bound to the current orchestration and to the six completed stages, in order |
| BackupExecutor.DeclareStartUncertain | syncapp/src/ha_syncapp/candidate_backup_execution.py:163-166 | an unconfirmed start becomes uncertain before anything else |
| BackupExecutor.ReconcileUncertain | syncapp/src/ha_syncapp/candidate_backup_execution.py:167-189 | an uncertain start is only ever read back: over well-formed rows it completes with the reconciled slug, or blocks exactly when nothing was reconciled, without a call |
| HandoffPath.HandoffKeepsPath | syncapp/src/ha_syncapp/candidate_startup_error_observation_execution.py:141-189 | handing off from the live row to its dictated successor keeps the rows one path, for any graph whose edges go deeper |
| HandoffPath.PathFromCoversRows | syncapp/src/ha_syncapp/candidate_startup_error_observation_execution.py:141-189 | following succeeded rows from the root goes through every row there is |
| Deployment.ProvedOutcomeIsDictated | syncapp/src/ha_syncapp/candidate_automation_observation_execution.py:113-169 | the outcome a handoff re-proves in its transaction is the one the stored record dictates |
| DeploymentInvariant.ObservationLoads | syncapp/src/ha_syncapp/automation_script_observation.py:262-290 | each observation loader, re-validating its prerequisites recursively, returns exactly the stored observation |
| DeploymentInvariant.DecisionStable | syncapp/src/ha_syncapp/deployment_finalization.py:363-457 | a decision once possible never changes, whatever is recorded later |
| DeploymentInvariant.TxHandoffKeeps | syncapp/src/ha_syncapp/candidate_finalization_execution.py:111-157 | the handoff transaction keeps the records bound and the rows one path |
| DeploymentInvariant.TxRecordObservationKeeps | syncapp/src/ha_syncapp/automation_script_observation.py:293-320 | recording an observation under its prerequisite keeps every record bound and every handoff already dictated |
| DeploymentInvariant.TxFinalizeKeeps | syncapp/src/ha_syncapp/deployment_finalization.py:252-299 | recording the finalization keeps it equal to the decision of the chain |
| DeploymentSteps.StepKeeps | syncapp/src/ha_syncapp/candidate_core_observation_execution.py:49-151 | every step of every worker keeps the invariant of records, rows, restart journal and probes, and takes nothing final back |
| DeploymentSteps.RunKeeps | syncapp/src/ha_syncapp/candidate_core_observation_execution.py:49-151 | so does every run |
| DeploymentSafety.RowsFormOnePath | syncapp/src/ha_syncapp/candidate_resource_observation_execution.py:141-197 | in every reachable store the rows from `candidate_restart` on form one path, all but the last succeeded, each successor dictated by the stored record |
| DeploymentSafety.AtMostOneLiveRow | syncapp/src/ha_syncapp/candidate_finalization_execution.py:93-157 | at most one live row, and never both promotion and rollback |
| DeploymentSafety.RestartIsSentAtMostOnce | syncapp/src/ha_syncapp/core_restart_transport.py:152-197 | over every run at most one restart request is sent, none before a durable start, and `candidate_observe` exists only after it was answered and acknowledged under the stored authorization |
| DeploymentSafety.SendFollowsDurableStart | syncapp/src/ha_syncapp/core_restart_transport.py:229-255 | whoever sends holds the started attempt that is durable at that moment, and nobody else may send |
| DeploymentSafety.SupervisorNeedsTwoProbes | syncapp/src/ha_syncapp/core_health_window.py:135-186 | Supervisor observation is scheduled only with two successful Core probes on record at least the opened window apart, at least 30 seconds |
| DeploymentSafety.OpeningFixesDeadline | syncapp/src/ha_syncapp/core_health_window.py:218-246 | the step that opens the window fixes its deadline by its own pass's observation seconds, 30 to 3600 |
| DeploymentSafety.DeadlineNeverMoves | syncapp/src/ha_syncapp/core_health_window.py:249-288 | whatever happens afterwards, start, deadline and bound probe stay, and a completed window is final |
| DeploymentSafety.ProbesApartBySecondsOfOpening | syncapp/src/ha_syncapp/candidate_core_observation_execution.py:73-143 | in every run that schedules Supervisor observation one earlier step opened the window, and the two successful probes are at least as far apart as the observation seconds of the pass that took it |
| DeploymentSafety.ScheduledRowWaits | syncapp/src/ha_syncapp/candidate_core_observation_execution.py:166-194 | a scheduled row is claimable exactly from the deadline of the stored window on |
| DeploymentSafety.AtMostOneProbePerPass | syncapp/src/ha_syncapp/candidate_core_observation_execution.py:73-143 | no pass probes the Core API twice |
| DeploymentSafety.RecordsAreFinal | syncapp/src/ha_syncapp/automation_script_observation.py:293-320 | a recorded observation, the finalization and a succeeded row never change in any continuation |
| DeploymentSafety.SuccessorFollowsStoredCounts | syncapp/src/ha_syncapp/candidate_automation_observation_execution.py:72-169 | whatever later probes would return, the successor is the one the stored counts dictate and the other branch is not taken next |
| DeploymentRoutes.RowsLedTo | syncapp/src/ha_syncapp/candidate_startup_error_observation_execution.py:141-189 | in every reachable store, kind by kind: a succeeded gating row has a stored observation; without failures it scheduled the named next kind, with failures it scheduled finalization and none of the kinds in between exists; every other succeeded row scheduled the one named next kind; promotion exactly follows a finalization without failure, rollback one with a failure, never both |
| DeploymentRoutes.RowsCameFrom | syncapp/src/ha_syncapp/candidate_startup_error_observation_execution.py:141-189 | and conversely each row but the first was scheduled by a succeeded row of the one kind and with the one outcome that may schedule it |
| DeploymentRoutes.HandoffSchedules | syncapp/src/ha_syncapp/candidate_automation_observation_execution.py:113-169 | the handoff transaction on any store: the claimed row succeeds, the row its proved record schedules is new and due at once, nothing else changes |
| DeploymentRoutes.OnlyProbesFailTransiently | syncapp/src/ha_syncapp/candidate_core_observation_execution.py:73-151 | a pass fails transiently only after a probe whose failure was transient; whatever it finds in the records or becomes of the restart request is final |
| DeploymentRoutes.FinalizationRestsOn | syncapp/src/ha_syncapp/deployment_finalization.py:363-457 | in every reachable store the finalization's evidence is, in order, exactly the gating observations up to the failed one, or all five |
| DeploymentSafety.PromotionAndRollbackMean | syncapp/src/ha_syncapp/deployment_finalization.py:363-457 | promotion only if every gating observation passed; rollback only if one failed, and the recorded failure is the first, with nothing observed after it |
| DeploymentSafety.EveryLoaderAccepts | syncapp/src/ha_syncapp/core_health_window.py:189-215 | every loader accepts every reachable store |
| DeploymentPasses.RestartPasses | syncapp/src/ha_syncapp/core_restart_transport.py:152-197 | a live restart row can be passed on while the request is not on record or is acknowledged |
| DeploymentPasses.HealthPasses | syncapp/src/ha_syncapp/candidate_core_observation_execution.py:49-151 | a live health row can be passed on, in as many passes as first probe, window and deadline take |
| DeploymentPasses.ObservationPasses | syncapp/src/ha_syncapp/automation_script_observation.py:293-320 | a live observation row can be passed on, without adding a failure |
| DeploymentPasses.FinalizePasses | syncapp/src/ha_syncapp/candidate_finalization_execution.py:48-157 | a live finalization row can be passed on: a decision exists by then |
| DeploymentLive.EndingIsReachable | syncapp/src/ha_syncapp/core_restart_transport.py:152-197 | from every reachable state the deployment can still end if and only if no unanswered restart request is out of every worker's hands, and can still be promoted if and only if, besides, no gating observation on record has failed |
| DeploymentStore.Store.RecordStarted | syncapp/src/ha_syncapp/core_restart_transport.py:229-255 | insert-once of the started attempt under the re-validated authorization |
| DeploymentStore.Store.RecordAcknowledged | syncapp/src/ha_syncapp/core_restart_transport.py:258-294 | only a started attempt is acknowledged, by a guarded UPDATE of exactly one row that keeps its start and is read back |
| DeploymentStore.Store.RecordObservedHealth | syncapp/src/ha_syncapp/core_health_observation.py:203-229 | insert-once of the first probe bound to the acknowledged restart, which then loads |
| DeploymentStore.Store.RecordWindowStarted | syncapp/src/ha_syncapp/core_health_window.py:218-246 | insert-once of the window, which then loads |
| DeploymentStore.Store.RecordWindowCompleted | syncapp/src/ha_syncapp/core_health_window.py:249-288 | completion not before the deadline, by a guarded UPDATE of exactly one row, which then loads |
| DeploymentStore.Store.RecordObservation | syncapp/src/ha_syncapp/automation_script_observation.py:293-320 | insert-once of an observation under its prerequisite, which then loads |
| DeploymentStore.Store.RecordFinalization | syncapp/src/ha_syncapp/deployment_finalization.py:252-299 | insert-once of the outcome the chain decides, which then loads |
| DeploymentStore.Store.ScheduleAt | syncapp/src/ha_syncapp/candidate_core_observation_execution.py:166-194 | the row waits for the open window's deadline with its attempts reset |
| DeploymentStore.Store.Finish | syncapp/src/ha_syncapp/candidate_automation_observation_execution.py:113-169 | re-prove, refuse conflicting successors, insert one and succeed the other, or roll both back |
| DeploymentStore.RequestCoreRestartOnce | syncapp/src/ha_syncapp/core_restart_transport.py:152-197 | the request goes out exactly when this call made the start durable; acknowledged is reported exactly when an acknowledged attempt is stored under the given authorization |
| DeploymentStore.Store.Defer | syncapp/src/ha_syncapp/state.py:2406-2435 | only a row still running under the claimed attempts goes back to pending, at once and with its attempts reset; any other table stays as it was |
| DeploymentExecutor.RecordFirstProbe | syncapp/src/ha_syncapp/core_health_observation.py:120-148 | one probe, its record bound to the acknowledged attempt, and the row put back, exactly where the step machine gets to on the same answer |
| DeploymentExecutor.Schedule | syncapp/src/ha_syncapp/candidate_core_observation_execution.py:166-194 | success means the row waits for the deadline of the stored open window; the window is not touched |
| DeploymentExecutor.StartWindow | syncapp/src/ha_syncapp/core_health_window.py:135-165 | opens the window with this pass's seconds, without a probe, and makes the row wait for the deadline it stored |
| DeploymentExecutor.CompleteWindow | syncapp/src/ha_syncapp/candidate_core_observation_execution.py:119-143 | after the deadline: at most one probe, and Supervisor observation only once the window is stored as completed |
| DeploymentExecutor.Finish | syncapp/src/ha_syncapp/candidate_core_observation_execution.py:197-233 | the handoff succeeds only for a proved window and leaves the Supervisor row |
| DeploymentExecutor.AdvanceWindow | syncapp/src/ha_syncapp/candidate_core_observation_execution.py:92-143 | with the first probe on record the pass takes the branch the stored window and its deadline call for |
| DeploymentExecutor.ExecuteCoreObservationOnce | syncapp/src/ha_syncapp/candidate_core_observation_execution.py:49-151 | whatever the Core API answers, the tables and probes of one pass end where a finished run of the step machine ends, other deployments are untouched, and each reported outcome is stored |
| AutomationCounts.FindMatches | syncapp/src/ha_syncapp/automation_script_observation.py:240-242 | exactly the items about one entity, each as often as it occurs, in order |
| AutomationCounts.CountLoaded | syncapp/src/ha_syncapp/automation_script_observation.py:232-246 | loaded is the number of entities about which there is exactly one item, an item whose state is on or off, counted by position in the inventory; failed is the rest, and is zero exactly when that holds of every entity |
| AutomationCounts.LoadedMeansCameUp | syncapp/src/ha_syncapp/automation_script_observation.py:232-246 | one entity counts as loaded exactly when one position of the inventory holds an item about it, that item is on or off, and no other position does |
| AdministrativeRetry.Store.ApplyRequest | syncapp/src/ha_syncapp/administrative_retry_request.py:57-140 | one request as one transaction: replay, refuse, retry or reject |
| AdministrativeRetry.RetriedRowIsDueAtOnce | syncapp/src/ha_syncapp/administrative_retry_request.py:79-99 | a retried row is pending, without attempts and due at the time of the request |
| AdministrativeRetry.ResetsAtMostOnce | syncapp/src/ha_syncapp/administrative_retry_request.py:57-140 | over any run an identifier resets a row at most once, exactly when its receipt says retried |
| AdministrativeRetry.ReplaysReturnFirstOutcome | syncapp/src/ha_syncapp/administrative_retry_request.py:70-77 | later uses of an identifier change nothing and return the first outcome, or are refused for another row |
| AdministrativeRetry.OnlyItsBlockedRow | syncapp/src/ha_syncapp/administrative_retry_request.py:79-99 | a request touches only the row it names, and only when that is blocked |
| Utf8.ByteOrderIsTextOrder | syncapp/src/ha_syncapp/candidate_changes.py:289-292 | byte order of strict UTF-8 is code-point order, for all texts of Unicode scalar values |
| Utf8.DecodeUndoesEncode | syncapp/src/ha_syncapp/candidate_stage.py:339 | strict decoding undoes encoding |
| Utf8.EncodeUndoesDecode | syncapp/src/ha_syncapp/candidate_stage.py:339 | only encodings decode: no overlong, surrogate or truncated form |
| GitTree.ParseUndoesRender | syncapp/src/ha_syncapp/candidate_stage.py:324-346 | parsing undoes rendering for every valid set of entries, in any order, with tabs, spaces and newlines in paths |
| GitTree.AcceptedExactly | syncapp/src/ha_syncapp/candidate_stage.py:324-376 | a byte string is accepted exactly when it renders a valid set of entries (the last NUL may be missing); the result is sorted, duplicate-free and without ancestor conflicts |
| GitTree.SortedIsUnique | syncapp/src/ha_syncapp/candidate_stage.py:345 | the sorted list is determined by its entries |
| GitTree.ParseStageTree | syncapp/src/ha_syncapp/candidate_stage.py:324-376 | the stage parser computes that result, whose bytes `TreeRecords.ParsedExactly` spells out |
| GitTree.ParseChangeTree | syncapp/src/ha_syncapp/candidate_changes.py:221-265 | the change parser computes the same result on the same byte strings |
| TreeRecords.RecordExactly | syncapp/src/ha_syncapp/candidate_stage.py:324-376 | a record parses to an entry exactly when its bytes are the mode 100644 or 100755, space, blob, space, the object id of 40 or 64 lower-case hexadecimal digits, a tab and the UTF-8 path, no component of which is empty, a dot, two dots or .git in any case |
| TreeRecords.FirstBytesAreTheMode | syncapp/src/ha_syncapp/candidate_stage.py:337-344 | an accepted record is executable exactly when its first six bytes are 100755 and plain exactly when they are 100644 |
| TreeRecords.ParsedExactly | syncapp/src/ha_syncapp/candidate_stage.py:324-376 | a byte string parses to a list exactly when the list ascends by encoded path and the bytes list its entries in some order, each record spelled out and ended by a NUL (the last one may be missing), no path equal to or inside another |
| TreeDiff.BuildChanges | syncapp/src/ha_syncapp/candidate_changes.py:283-319 | the built list is exactly the difference: ordered, each change right, every differing path covered |
| TreeDiff.PatchGivesCandidate | syncapp/src/ha_syncapp/candidate_changes.py:283-319 | patching the baseline with the difference gives the candidate |
| TreeDiff.ReverseGivesBaseline | syncapp/src/ha_syncapp/candidate_changes.py:283-319 | reversing the difference gives the baseline back |
| TreeDiff.DiffIsUnique | syncapp/src/ha_syncapp/candidate_changes.py:283-328 | it is the only strictly byte-ordered, shape-valid list consistent with both trees that covers their differences |
| TreeDiff.ConsistentShape | syncapp/src/ha_syncapp/candidate_integrity.py:156-188 | a change consistent with both trees is shape-valid exactly when it is the change between them |
| TreeDiff.ShapeByStatus | syncapp/src/ha_syncapp/candidate_integrity.py:156-188 | for any change whatever, shape validity status by status: which sides it needs, a side being a mode 100644 or 100755 and an object id of 40 or 64 hexadecimal digits, and which of mode and id differ |
| TreeDiff.OrderedIsTextSorted | syncapp/src/ha_syncapp/candidate_dependencies.py:278-281 | the byte-order check and the text re-sort check are the same requirement |
| TreeDiff.EveryCheckerAccepts | syncapp/src/ha_syncapp/candidate_integrity_checkpoint.py:225-242 | integrity and dependency checks accept every difference; the checkpoint does exactly when it has at most 4096 changes and their canonical JSON text is at most 4 MiB long |
| CanonicalText.ChangesTextLength | syncapp/src/ha_syncapp/candidate_integrity_checkpoint.py:225-242 | the length the cap is checked on is that of the JSON text written out character by character |
| CanonicalText.StatusAsWritten | syncapp/src/ha_syncapp/candidate_changes.py:295-318 | each known status stands in that text by its name |
| JsonText.NumberSpells | syncapp/src/ha_syncapp/candidate_stage.py:423-448 | the decimal digits written for a size or an identifier spell that number |
| TreeDiff.AcceptedPatchAgrees | syncapp/src/ha_syncapp/candidate_integrity.py:132-153 | what integrity acceptance gives: on each listed path the patched baseline agrees with the stage, except exactly for a deleted path the stage still holds |
| TreeDiff.DeletedPathMayBeStaged | syncapp/src/ha_syncapp/candidate_integrity.py:146-153 | a deletion of a path still staged is accepted |
| TreeDiff.ValidateResult | syncapp/src/ha_syncapp/candidate_changes.py:322-328 | accepts exactly strictly ordered lists of known statuses |
| TreeDiff.ValidateAgainstStage | syncapp/src/ha_syncapp/candidate_integrity.py:132-153 | the integrity loop decides its predicate |
| TreeDiff.ValidateForCheckpoint | syncapp/src/ha_syncapp/candidate_integrity_checkpoint.py:289-339 | the checkpoint loop decides its predicate, the caps on the number of changes and on the length of their JSON text included |
| TreeDiff.BindToStage | syncapp/src/ha_syncapp/candidate_changes.py:268-280 | accepts exactly equal lists |
| TreeDiff.DetectChanges | syncapp/src/ha_syncapp/candidate_changes.py:66-110 | from raw tree output to evidence: succeeds exactly when both trees parse and the candidate's is the stage, and the result patches both ways and passes the later checks |
| StageTree.InsideIsAbove | syncapp/src/ha_syncapp/candidate_stage.py:364-366 | the prefix test on path strings is ancestry of directory places |
| StageTree.Disk.CreatePrivateParents | syncapp/src/ha_syncapp/candidate_stage.py:393-404 | makes exactly the directories above the file, private |
| StageTree.Disk.MaterialiseEntry | syncapp/src/ha_syncapp/candidate_stage.py:379-390 | a compatible entry is always written and adds exactly its file and directories |
| StageTree.Materialise | syncapp/src/ha_syncapp/candidate_stage.py:82-83 | materialising a valid list fails only for want of blobs and leaves exactly the tree it stands for, with the sizes and digests of the blobs |
| StageTree.OneTreePerStage | syncapp/src/ha_syncapp/candidate_stage.py:82-83 | a list of entries has one tree |
| StageVerifier.ValidateEvidence | syncapp/src/ha_syncapp/candidate_stage.py:208-246 | the evidence check with its running comparison decides: valid entries, strictly sorted by encoded path |
| StageVerifier.VerifyStagedTree | syncapp/src/ha_syncapp/candidate_stage.py:480-521 | for every list that passes the evidence check, the walk accepts a tree if and only if it is exactly the entries' files, modes and contents and exactly their ancestor directories |
| StageVerifier.NoTreeForConflicts | syncapp/src/ha_syncapp/candidate_stage.py:480-521 | no tree matches a list in which one path lies inside another, so the walk refuses every such list |
| StageVerifier.ExactTreeIsTreeFor | syncapp/src/ha_syncapp/candidate_stage.py:379-404 | for a list without such conflicts the accepted tree is the one materialising leaves |
| StageVerifier.ExpectedDirectories | syncapp/src/ha_syncapp/candidate_stage.py:482-486 | the expected directories are the root and every proper prefix of an entry's path |
| StageVerifier.WalkCovers | syncapp/src/ha_syncapp/candidate_stage.py:490-519 | a finished walk has visited every directory and checked every node |
| StageListing.StageAndVerify | syncapp/src/ha_syncapp/candidate_stage.py:81-106 | from raw Git output to a verified tree: it succeeds exactly for bytes that list admissible entries whose blobs can be read, and then on disk stand exactly the listed files, private and executable exactly for the mode 100755, and the private directories above them |
| StageListing.NothingForbiddenOnDisk | syncapp/src/ha_syncapp/candidate_stage.py:349-376 | no place of such a tree has an empty component, a dot, two dots or .git in any case in its path |
| Includes.CheckIncludes | syncapp/src/ha_syncapp/candidate_semantics.py:189-216 | terminates on shared and cyclic graphs, visits no node twice and only the root or an item, key or value of a node visited before; accepts exactly when at most 100000 nodes are reachable and every reachable include node is an allowed scalar, and then has visited the root and every item of every list and both sides of every pair it visited, each one permitted; refuses only at the 100001st node or at a node that is not permitted; an accepted include stays under the root wherever the file lies |
| Includes.AllowedTargetStaysInside | syncapp/src/ha_syncapp/candidate_semantics.py:203-211 | an allowed target stays under the candidate root and under its file's directory |
| Includes.StayingInsideIsNotEnough | syncapp/src/ha_syncapp/candidate_semantics.py:203-211 | `x/../y` stays under the root and is refused |
| Includes.PlainPathsAreRefusedToo | syncapp/src/ha_syncapp/candidate_semantics.py:209-210 | so are a backslash and every control character in a target that climbs nowhere |
| Includes.RuleIsExact | syncapp/src/ha_syncapp/candidate_semantics.py:203-211 | for every target and depth: allowed exactly when it stays under the root and has no `..` part, no backslash and no control character |
| Includes.InsideTargetIsAllowedExactly | syncapp/src/ha_syncapp/candidate_semantics.py:203-211 | of the targets that stay under the root, exactly those without `..` part, backslash and control character are allowed |
| Includes.DocumentRuleIsExact | syncapp/src/ha_syncapp/candidate_semantics.py:189-216 | a document is accepted exactly when at most 100000 nodes are reachable, every reachable include is a scalar staying under the root, and none has a `..` part, a backslash or a control character, whatever the depth of its file |
| Includes.AcceptedIncludeStaysBelow | syncapp/src/ha_syncapp/candidate_semantics.py:203-211 | every include of an accepted document stays under the directory of its file |
| Impact.GroupEdges | syncapp/src/ha_syncapp/candidate_impact.py:153-159 | the index returns for each source exactly its edges in order, and lists no other source |
| Impact.FromKeepsOrder | syncapp/src/ha_syncapp/candidate_impact.py:153-159 | two edges of one source keep their order |
| Impact.ExpandEntity | syncapp/src/ha_syncapp/candidate_impact.py:162-211 | expansion equals the relational definition, in whatever order devices and areas are gone through; malformed identifiers are refused |
| Impact.Collection.Collect | syncapp/src/ha_syncapp/candidate_impact.py:214-235 | one source's edges are taken up one by one |
| Impact.Collection.ExpandSource | syncapp/src/ha_syncapp/candidate_impact.py:185-194 | expanding one more source extends every collected set by that source's targets |
| Impact.NamedDeviceIsNotExpanded | syncapp/src/ha_syncapp/candidate_impact.py:186-189 | for all edges: a device only another device names is reported, is not expanded, and an area only it is located in is not reported |
| Impact.UnexpandedDeviceDoesNotMatter | syncapp/src/ha_syncapp/candidate_impact.py:186-189 | whatever edges leave a device the entity does not belong to directly, the impact is the same |
| Timestamps.IsoOrderIsTimeOrder | syncapp/src/ha_syncapp/candidate_backup_retrigger.py:55-82 | text order of stored UTC timestamps is the order of the microseconds elapsed since year 1, by the Gregorian calendar, although their lengths differ |
| Timestamps.IsoIsInjective | syncapp/src/ha_syncapp/candidate_backup_retrigger.py:55-82 | different times have different texts |
| Timestamps.CalendarInFigures | syncapp/src/ha_syncapp/candidate_backup_retrigger.py:55-82 | the times that count are those of the Gregorian calendar, month by month, in figures |
| Timestamps.DaysInFigures | syncapp/src/ha_syncapp/candidate_backup_retrigger.py:55-82 | the days elapsed since year 1 by the closed formula of the Gregorian calendar |
| Timestamps.ElapsedInFigures | syncapp/src/ha_syncapp/candidate_backup_retrigger.py:55-82 | the time the order is proved against is those days in microseconds, plus the hours, minutes, seconds and microseconds of the day |
| Timestamps.SelectClaim | syncapp/src/ha_syncapp/candidate_preflight_process.py:240-291 | the claim takes the due eligible row least by next attempt, creation time and key, and none exactly when none is due |
| FetchStage.Staging.ExecuteOnce | syncapp/src/ha_syncapp/candidate_fetch_stage_execution.py:246-405 | one pass with a crash after any step: completed rows keep naming directories whose manifest is the recorded one and whose tree is exactly the tree of its entries, none of those is touched; an uninterrupted pass over any leftovers completes with the manifest of the tree it fetched, or is put off exactly for a transient fetch failure, or else refused |
| FetchStage.Staging.ExecuteAll | syncapp/src/ha_syncapp/candidate_fetch_stage_execution.py:246-405 | the same over any number of passes one after the other: a pass that reported success still has its completed row with its manifest at the end, and only a pass cut short reports a crash |
| FetchStage.CompletedRowDescribesDisk | syncapp/src/ha_syncapp/candidate_fetch_stage_execution.py:119-141 | the recorded entry count and byte total of a completed row are the number of files in the directory and the number of bytes in them |
| FetchStage.DigestFixesDirectory | syncapp/src/ha_syncapp/candidate_stage.py:116-132 | two directories that verify against one manifest digest are the same, file by file |
| FetchStage.Staging.CleanTemps | syncapp/src/ha_syncapp/candidate_fetch_stage_execution.py:655-680 | removes every abandoned temporary directory, or was interrupted in one; no other directory changes |
| FetchStage.RemainingHangsTogether | syncapp/src/ha_syncapp/candidate_fetch_stage_execution.py:639-652 | what an interrupted removal leaves is part of the tree it found, every place with its directory |
| FetchStage.Staging.WriteStage | syncapp/src/ha_syncapp/candidate_stage.py:59-113 | staging succeeds exactly for output that parses, blobs that can be read and a fetch that proves itself again, and then leaves a temporary directory that verifies against the returned manifest |
| FetchStage.Staging.RenameAndCommit | syncapp/src/ha_syncapp/candidate_fetch_stage_execution.py:334-355 | verify, rename, verify again, commit: done exactly for the planned commit when no crash intervenes, and only then is the row changed |
| FetchStage.Staging.Commit | syncapp/src/ha_syncapp/candidate_fetch_stage_execution.py:561-604 | commits exactly over the planned row it was given |
| FetchStage.VerifyStage | syncapp/src/ha_syncapp/candidate_stage.py:116-132 | accepts exactly an admissible list whose manifest is the one on disk and whose tree is exactly on disk |
| FetchStage.LoadCompletedStage | syncapp/src/ha_syncapp/candidate_fetch_stage_execution.py:456-490 | reads the manifest file back within its caps, verifies the tree again and compares identity, digest and counts |
| FetchStage.ReloadsWithinCaps | syncapp/src/ha_syncapp/candidate_fetch_stage_execution.py:456-490 | a completed stage loads again if and only if it has at most 4096 entries and a manifest of at most 16 MiB |
| CanonicalText.ManifestTextLength | syncapp/src/ha_syncapp/candidate_stage.py:423-448 | the length the manifest cap is checked on is that of the JSON text written out character by character, whatever 64 digits spell the digests |
| FetchStage.AtMostOneTemp | syncapp/src/ha_syncapp/candidate_fetch_stage_execution.py:664-666 | one process leaves at most one temporary directory, so the limit of 64 is never met |
| FetchStage.OverlappingPassesLoseStage | syncapp/src/ha_syncapp/candidate_fetch_stage_execution.py:639-652 | of two overlapping passes of one candidate, the one that read the planned row earlier deletes the directory the completed row names |
| FetchStage.OversizeStageIsCommitted | syncapp/src/ha_syncapp/candidate_stage.py:25-26 | a stage beyond the loader's caps is committed and never loads again |

## Left out

- Git, SSH, HTTP and WebSocket transports, credentials and clocks: every external call is a step whose answer is arbitrary.
- Live Apply, promotion and rollback execution: `candidate_apply` is a row other lanes change freely, and promotion and rollback enter as terminal kinds that may succeed.
- The risk table, reference regexes, JSON, YAML and SQLite parsing: a manifest or change list is what its text says; `CanonicalText` writes that text for its length alone.
- Fairness: that a due row is claimed in the end is not stated, only that ending stays possible from every reachable state (`CandidateLive.EndingIsReachable`, `DeploymentLive.EndingIsReachable`).
- File ownership, link counts and permission bits beyond private files, executables and directories; loss of unsynced writes.
- The content of the stages between Fetch/Stage and Backup: an executor's verdict and evidence are arbitrary, only when and how they are committed is modelled.
- Which edges the runtime topology yields and their validation; `Impact` starts from the validated list.
- Names on disk that are not valid UTF-8; the verifier rejects them as unexpected, and the model has no such names.
- CandidateStore.Store.ClaimCandidate: states the claim for one candidate row; the choice among rows is `Timestamps.SelectClaim`.
- GitTree.ParseStageTree: sorts with a specification function, since the source calls the built-in sort.
- DeploymentSafety.SupervisorNeedsTwoProbes: dates a probe by the reference time of its pass, which is what the code records, and not by the moment of the call.
- FetchStage.Staging.Commit: leaves out the orchestration row that the same transaction compares and advances; that both rows change together or not at all is `CandidateInvariant.TxAdvanceKeeps` and `CandidateStore.Store.CompleteAtomically`.
- FetchStage.Staging.WriteStage: a crash while staging may leave anything at all in the temporary directory, which is more than the code can.
- Impact.ExpandEntity: yields sets where the source sorts them into tuples.
