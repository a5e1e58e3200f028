# Finance reconciliation: a verified model

Dafny models of the parts of this system whose correctness depends on whole runs rather than on single
functions, with proofs about all inputs, all interleavings and all crashes.

- **Web updater** (`UpdaterTypes`, `UpdaterPlatform`, `UpdaterInvariant`, `UpdaterManager`, `UpdaterService`,
  `UpdaterHistory`). The manager is a class over a host with a durable state file and an outside world. Every
  platform call consults a script of fates: it may do nothing, half or all of its work, and then return, raise
  or take the process down. Each atomic effect is appended to a trace, so a statement about the trace of an
  arbitrary script is a statement about a crash between any two actions. A second log of all saves and calls says
  literally what a pipeline, a rollback or a cleanup step did, and in which order.
- **Reconciliation ledger** (`LedgerModel`, `LedgerConservation`, `LedgerService`, `Settlements`, `LedgerEvents`,
  `LedgerWriters`, `LedgerConcurrency`, `LedgerProgress`). Amounts are integer cents. The services are methods that
  commit everything or nothing; the concurrent creations, reversals and batch confirmations are a transition system
  that takes row locks and reads query by query in the coded order, is shown to refine atomic ledger steps, to commit
  whatever the ledger allows, and to get stuck only behind each other's locks.
- **Planners and searches** (`Planner`, `SettlementDraft`, `Candidates`, `Workbench`, `WorkbenchSubmission`). What the
  pages propose, and that the ledger takes it; a settlement from draft to confirmation.
- **History** (`LedgerHistory`, `SupplierReport`, `SupplierOrder`, `SupplierHistory`). Any sequence of changes with
  moments that never go back, and the reports recomputed from its last state.
- **Imports** (`ImportModel`, `ImportOutcome`, `ImportService`, `ImportAgain`, `ImportLedger`). Staging with the overlay of
  rows already seen, confirmation as a replay against the formal ledger, with other writers interfering between and
  during rows; the replay is a stretch of the ledger's history.
- **Environment file** (`EnvText`, `EnvFile`, `EnvReplace`). The text rewrite of a tag and the crash-safe
  replacement of the file.

Five places where the code does less than one might expect are stated as they are, each with the exact
condition and a concrete input: the rewrite of the web tag after an unusual line separator; the receivables and
payables as of a date (they filter by today's invoice status); the window search on lists with a negative amount
(its callers never pass one); a settlement draft, which takes transactions by local day and is confirmed only if the
stored days lie in the period as well; and the preview of a bank import, which is exact unless a balance snapshot on
record contradicts a balance the file reports, in which case the whole confirmation is refused.

`dafny verify dfyconfig.toml` checks the whole project.

## Model

| member | source | states |
|---|---|---|
| UpdaterHistory.TerminalAgreement | updater/manager.py:157-318 | at every atomic point of every run, crashed or not, SUCCEEDED means the target image runs and its version is in the env file, FAILED means the same of the original |
| UpdaterHistory.EndingsAreTrueThroughout | updater/manager.py:157-318 | the same for every point within a good run, as one statement about the run |
| UpdaterHistory.RollbackSourceStays | updater/manager.py:211-252 | from the save of STOPPING_WEB until CLEANING is saved both backups exist and are recorded, the alias is recorded and names the original image, `start_rollback` would accept it, and cleanup has not begun |
| UpdaterHistory.TagRemovalIsFinal | updater/manager.py:337-378 | once the cleanup has taken the version tag off the original image, every continuation of the task is in CLEANING, SUCCEEDED or manual intervention, never FAILED, and the container keeps the target image in all of them |
| UpdaterHistory.JournalMovesForward | updater/types.py:56-84 | the cleanup journal is always one of its seven legal values and every step only moves forward, under any crash and retry |
| UpdaterHistory.RemovalsWaitForTheTarget | updater/platform.py:341-447 | over any stretch of a run, a reference to the original or its image that is there before and gone after went at a moment when the very step that removes it (version tag, alias, or image with its alias) was recorded as STARTED, with the target running and named by the env file |
| UpdaterHistory.CleanupCompleteIsTrue | updater/manager.py:394-415 | cleanup COMPLETE implies three COMPLETED steps, and when it was recorded tag, alias and image of the original were gone |
| UpdaterHistory.PipelineRunsAtMostOnce | updater/manager.py:211-252 | while a task stays persisted, backup, stop, migrate and start-target are issued at most once each and in that order, over any retries and restarts; a task that failed without rollback never stopped the container |
| UpdaterHistory.ManualInterventionIsFinal | updater/manager.py:536-545 | a task in manual intervention stays persisted, in that stage, whatever is requested, retried or restarted |
| UpdaterHistory.NoTaskIsOverwritten | updater/manager.py:536-545 | over any stretch of a run, a persisted task that is gone was replaced, at a moment it had failed or succeeded with its cleanup complete, by a new task in CHECKING |
| UpdaterHistory.Lasting | updater/manager.py:435-442 | what lasts while one task is persisted: its images, terminal stages, the journal position, the commands issued, the point of no return |
| UpdaterService.Lifetime | updater/main.py:95-105 | any sequence of requests, worker runs, restarts and manual cleanups, under any script of failures and crashes, from a fresh machine yields a good run, and at each of its atomic points SUCCEEDED and FAILED mean what they say |
| UpdaterService.UpgradeOnce | updater/manager.py:67-252 | one whole upgrade: from a fresh machine with no foreign reference to its image and a registry serving one newer image, a faultless check, start and worker run end SUCCEEDED with cleanup COMPLETE, the target running and named by the env file |
| UpdaterService.CheckedTaskIsUpgradable | updater/manager.py:67-120 | the task such a check and start record meets what tagging, installing and cleaning up demand |
| UpdaterService.OperationRunner.Start | updater/http_server.py:55-76 | with the status known, the persisted id is refused exactly for another version and otherwise gets the persisted task, with nothing changed; beside a living worker only its own request is answered; without one a startable request gets a worker and a fresh task when nothing fails |
| UpdaterService.OperationRunner.Run | updater/http_server.py:78-86 | a worker that returns leaves its task in a terminal stage; after at most one fault that is SUCCEEDED or FAILED, with the container and the env tag as the stage says |
| UpdaterService.OperationRunner.Serve | updater/http_server.py:130-202 | requests and restarts in any order are all served and keep the run sound |
| UpdaterService.OperationRunner.ServeOne | updater/http_server.py:130-202 | one request: a check is refused exactly while the state is not idle, a start that returns shows its task, a worker and a recovery that return leave a terminal stage, a finished cleanup is complete |
| UpdaterManager.UpdateManager.Execute | updater/manager.py:211-252 | refused without any effect unless the task waits in CHECKING, otherwise ends in a terminal stage; one fault at any single action leaves either SUCCEEDED with the target settled or FAILED with the original settled, rolled back exactly when the stop had been issued; a failure's code tells how far the run got; without faults and with nothing foreign referring to the original it ends SUCCEEDED with cleanup COMPLETE |
| UpdaterManager.UpdateManager.Upgrade | updater/manager.py:211-252 | the body of the try: it returns only after every save and every platform call of the pipeline, each action under its own stage on record, in the coded order, with the target settled; or it raises with the stage, the issued commands and the code agreeing on whether the container had been stopped; when the run's one fault lies behind a failure after the stop, what follows is faultless |
| UpdaterManager.UpdateManager.HandleFailure | updater/manager.py:254-266 | a failure before the stop leaves FAILED with the original settled; one after it goes through the rollback, and ends FAILED and rolled back, never in manual intervention, when nothing fails from here on |
| UpdaterManager.UpdateManager.Recover | updater/manager.py:157-209 | an uninterrupted recovery ends in a terminal stage, is a no-op on one, decides by the stage and by who is in the container, and without faults ends SUCCEEDED or FAILED and rolled back as that decision says; incomplete identities always end in manual intervention |
| UpdaterManager.UpdateManager.CompleteRecoveredTarget | updater/manager.py:268-292 | a crash after the target proved itself is finished, or rolled back, never left open |
| UpdaterManager.UpdateManager.RollbackToOriginal | updater/manager.py:294-318 | ends FAILED with the original settled, after start, checkpoint, health calls and, where it is due, checkpoint and version under the stage on record; or in manual intervention |
| UpdaterManager.UpdateManager.ConfirmTarget | updater/manager.py:268-292 | writes the version where it is due and returns only with the target settled; a single fault leaves the rest faultless |
| UpdaterManager.UpdateManager.WaitForStartupHealth | updater/manager.py:320-328 | returns only after a health call found the expected image up, and raises only after thirty calls |
| UpdaterManager.UpdateManager.Stabilize | updater/manager.py:330-335 | three more health calls, each after a checkpoint and none left out; returns only with the target running |
| UpdaterManager.UpdateManager.CleanupOriginal | updater/manager.py:337-378 | answers true exactly when all three steps are recorded as completed, which only an original with no foreign reference allows, and does so when nothing fails; leaves container and env tag alone |
| UpdaterManager.UpdateManager.CleanupOneStep | updater/manager.py:347-377 | journals STARTED unless it is, acts, journals COMPLETED, and nothing else; stops at the first step not done |
| UpdaterManager.UpdateManager.BackUpData | updater/manager.py:380-385 | both backup paths are recorded and the files exist |
| UpdaterManager.UpdateManager.Checkpoint | updater/manager.py:387-392 | only the stage changes, in one save |
| UpdaterManager.UpdateManager.CommitSuccess | updater/manager.py:394-415 | outcome, cleanup status and installed version in one save |
| UpdaterManager.UpdateManager.FinishFailed | updater/manager.py:417-423 | FAILED is saved only with the original settled |
| UpdaterManager.UpdateManager.FinishManual | updater/manager.py:425-430 | manual intervention changes nothing but the record |
| UpdaterManager.UpdateManager.Check | updater/manager.py:67-82 | refused exactly while a task is active, manual or cleanup-pending; a faultless check records what the registry serves; never touches task or container |
| UpdaterManager.UpdateManager.StartUpdate | updater/manager.py:84-120 | a repeated id changes nothing; a new task needs an idle state and a fresh matching check |
| UpdaterManager.UpdateManager.CompletePendingCleanup | updater/manager.py:137-155 | refused without effect unless a cleanup is pending, otherwise ends with cleanup COMPLETE or is refused; completes when nothing fails and nothing foreign refers to the original; never touches container or env tag |
| UpdaterPlatform.Host.Save | updater/store.py:79-104 | the old record or the new one, never anything between |
| UpdaterPlatform.Host.Health | updater/platform.py:270-312 | answers only while the container is up with the expected identity |
| UpdaterPlatform.Host.ResolveStable | updater/platform.py:130-147 | both pulls may move local tags even when the call then fails |
| UpdaterPlatform.Host.CreateBackup | updater/platform.py:168-182 | names two files that exist when it returns |
| UpdaterPlatform.Host.VerifyTarget | updater/platform.py:149-166 | returns only for a recorded target present with its identity; the pull by digest may add that image even when the call fails, and changes nothing else |
| UpdaterPlatform.Host.TagRollback | updater/platform.py:184-206 | returns only when the task's alias names the inspected original |
| UpdaterPlatform.Host.StopWebContainer | updater/platform.py:208-212 | issues the stop; only the container changes |
| UpdaterPlatform.Host.MigrateTarget | updater/platform.py:214-236 | issues the migration; the world of images and references is unchanged |
| UpdaterPlatform.Host.StartTargetContainer | updater/platform.py:238-248 | issues the start; the container is the old one, a new one or gone |
| UpdaterPlatform.Host.StartRollback | updater/platform.py:250-268 | starts nothing unless the recorded alias still names the original |
| UpdaterPlatform.Host.PersistVersion | updater/platform.py:314-339 | the env tag is the old or the new version |
| UpdaterPlatform.Host.CleanupOriginalStep | updater/platform.py:341-447 | removes only what the step names, only under its guard, and returns only when it is gone |
| UpdaterPlatform.GuardedStepIsSafe | updater/platform.py:341-447 | a step allowed by its guard removes only the reference or image it names |
| UpdaterPlatform.RollbackGuardsMean | updater/platform.py:184-268 | what tagging the way back and starting it demand of container, images, references and record |
| UpdaterInvariant.CleanupActionKeepsInv | updater/platform.py:405-447 | a cleanup action under its guard keeps the invariant |
| UpdaterInvariant.StepOpensNext | updater/manager.py:347-377 | a cleanup step, done and recorded, leaves the next one possible |
| UpdaterInvariant.PreparedCleanupIsOpen | updater/platform.py:184-206 | a task tagged with nothing foreign referring to its original can be cleaned up |
| UpdaterInvariant.JournalAdvanceKeepsInv | updater/manager.py:349-377 | advancing the journal keeps the invariant provided a completed step is really done |
| UpdaterInvariant.RestoringVersionKeepsInv | updater/manager.py:307-312 | putting the original version back keeps the invariant |
| UpdaterInvariant.AdvancingFollows | updater/manager.py:387-392 | saving the next stage is a legal step whenever the pipeline may take it |
| UpdaterTypes.NewerIsGreater | updater/types.py:114-119 | a version is newer exactly when its three parts, read as digits of any base they fit, give the greater number |
| LedgerModel.WithinCapacity | apps/reconciliation/queries.py:12-41 | in a consistent ledger every invoice and transaction is allocated between nothing and its amount |
| LedgerModel.CreateKeepsConsistent | apps/reconciliation/services.py:33-106 | an accepted creation keeps the ledger consistent |
| LedgerModel.ReverseKeepsConsistent | apps/reconciliation/services.py:109-144 | a reversal keeps it consistent and gives back exactly the lines' amounts |
| LedgerModel.ReversalUndoesCreation | apps/reconciliation/services.py:33-144 | creating and then reversing leaves every open amount as it was |
| LedgerConservation.SidesAgree | apps/reporting/queries.py:147-173 | the allocated totals of all invoices and of all transactions are equal, now and as of every cutoff |
| LedgerService.ValidateAllocations | apps/reconciliation/services.py:155-229 | nothing is reported exactly when the request is acceptable, and every reported reason is true |
| LedgerService.CheckLines | apps/reconciliation/services.py:165-195 | the per-line checks with the running totals per invoice and transaction |
| LedgerService.CheckTotals | apps/reconciliation/services.py:197-229 | page freshness, partial confirmation and both capacities, decided on the accumulated totals |
| LedgerService.LedgerService.CreateReconciliation | apps/reconciliation/services.py:33-106 | succeeds exactly when the request is acceptable to the current ledger; otherwise nothing changes and the reason given is true |
| LedgerService.LedgerService.ReverseReconciliation | apps/reconciliation/services.py:109-144 | succeeds exactly once and with a reason that is not blank; otherwise nothing changes |
| LedgerService.LedgerService.CreateSettlementBatch | apps/reconciliation/settlements.py:28-122 | the draft takes exactly the wholly open invoices in force and the wholly open transactions of its counterparty, direction and period; refused when either side has none |
| LedgerService.EligibleIsWhole | apps/reconciliation/settlements.py:40-88 | what the two queries select is exactly what is wholly open, with the business fields spelled out |
| LedgerService.UntouchedIsWholeOpen | apps/reconciliation/settlements.py:42-58 | no standing reconciliation touches a record if and only if it is wholly open |
| LedgerService.LedgerService.ValidateBatchAllocations | apps/reconciliation/settlements.py:174-234 | passes exactly when no pair repeats, the items are complete and unoccupied, and every item is open and used up; a refusal names the first check that fails |
| LedgerService.LedgerService.ValidateOpenItems | apps/reconciliation/settlements.py:213-234 | decides positive-open and exact-total over every item of the batch |
| LedgerService.LedgerService.ConfirmSettlementBatch | apps/reconciliation/settlements.py:144-162 | succeeds exactly when everything may be confirmed, and then every item is of the batch's counterparty, direction and period; otherwise nothing changes and the reason given is true |
| LedgerService.FindPairTwice | apps/reconciliation/settlements.py:175-177 | finds a repeated invoice and transaction pair exactly when there is one |
| LedgerService.AccumulateTotals | apps/reconciliation/settlements.py:260-264 | the totals per id are the sums of the lines |
| LedgerService.OccupationIsPerItem | apps/reconciliation/settlements.py:203-213 | the one occupancy query finds something exactly when some item is occupied |
| Settlements.ConfirmSettlesExactly | apps/reconciliation/settlements.py:144-162 | every batch item goes from its whole amount to nothing open, nothing else moves, both sides of the batch sum to the same, the version is bumped, and the new reconciliation is the only one the batch has |
| Settlements.ConfirmKeepsConsistent | apps/reconciliation/settlements.py:144-162 | a confirmation keeps the ledger consistent |
| Settlements.ConfirmedItemsAreTaken | apps/reconciliation/settlements.py:203-221 | afterwards no draft sharing an item, and not the batch itself, can be confirmed |
| Settlements.UnoccupiedIsWhole | apps/reconciliation/settlements.py:203-221 | an unoccupied item of a draft is wholly open |
| LedgerConcurrency.InterleavingsRefineTheLedger | apps/reconciliation/services.py:33-152 | every interleaving of lock-by-lock creations, reversals and batch confirmations, with imports, drafts and status changes in between, is a run of the atomic ledger; in every reachable state 0 <= allocated <= amount for every record, both sides agree, and no two reconciliations in force share a record when one of them is a batch's |
| LedgerConcurrency.StepRefinesLedger | apps/reconciliation/services.py:55-85 | each step of each interleaving is one atomic ledger step or leaves the ledger alone |
| LedgerConcurrency.DecisionIsCurrent | apps/reconciliation/services.py:197-229 | what a transaction decides on reads taken while collecting locks is right for the database at its commit, so the commit is an allowed atomic event |
| LedgerConcurrency.DecisionIsExact | apps/reconciliation/services.py:155-229 | a transaction that has seen its records commits if and only if the ledger of that moment allows it: creations, reversals and confirmations are refused only when they should be |
| LedgerConcurrency.InterleavingsDecideExactly | apps/reconciliation/settlements.py:144-234 | the same in every reachable state of every interleaving |
| LedgerConcurrency.ConfirmationIsCurrent | apps/reconciliation/settlements.py:144-234 | a confirmation whose checks passed on what it locked and read, query by query, may be confirmed in the ledger as it is at the commit: unoccupied, wholly open and exactly used up |
| LedgerEvents.NextKeepsConsistent | apps/reconciliation/settlements.py:144-162 | every atomic event of the system keeps the ledger consistent |
| LedgerEvents.NextKeepsSettledWhole | apps/reconciliation/settlements.py:213-234 | every atomic event keeps a batch's standing reconciliation taking all of each item it touches |
| LedgerEvents.WholeIsExclusive | apps/reconciliation/settlements.py:203-213 | hence no other reconciliation in force touches what a batch has settled |
| LedgerConcurrency.HeldElsewhereIsUnmoved | apps/reconciliation/services.py:55-66 | a commit neither moves the sum nor changes the occupation of a row another transaction holds |
| LedgerConcurrency.CommittedLinesAreHeld | apps/reconciliation/services.py:115-134 | a transaction holds the invoice and money rows of every line it commits or reverses |
| LedgerConcurrency.StepKeepsInv | apps/reconciliation/services.py:147-152 | every step keeps the protocol's invariant |
| LedgerConcurrency.StepRespectsOthers | apps/reconciliation/services.py:55-66 | no step of one transaction disturbs what another has locked and read |
| LedgerProgress.DecidesHoldingEveryLine | apps/reconciliation/services.py:115-152 | in every interleaving, a transaction that decides holds every allocation line there is of the records it has locked, or of the reconciliation it reverses, and that line's reconciliation; lines committed meanwhile are no exception |
| LedgerProgress.StepKeepsLines | apps/reconciliation/services.py:147-152 | every step of every transaction keeps that |
| LedgerProgress.NobodyIsStuck | apps/reconciliation/services.py:55-85 | in every reachable state a transaction that has not decided waits for a row another holds, or has a step that brings it nearer its decision |
| LedgerProgress.AlwaysOpen | apps/reconciliation/services.py:33-152 | anybody may begin or give up at any time, records and drafts always arrive, and a status moves unless a transaction holds the invoice |
| LedgerProgress.AllowedJobGoesThrough | apps/reconciliation/services.py:33-152 | from a ledger at rest, every creation, reversal or confirmation the ledger allows goes through lock by lock and query by query, and leaves it at rest with exactly its effect |
| Planner.AllocationPlan | apps/reconciliation/presenters.py:113-145 | the rows are exactly the overlaps of the two sides' free amounts laid end to end, in staircase order; the loop ends |
| Planner.PlanIsShort | apps/reconciliation/presenters.py:126-145 | at most one row fewer than there are items |
| Planner.PlanPairsAreDistinct | apps/reconciliation/presenters.py:126-145 | no invoice and transaction pair occurs twice |
| Planner.PlanStaysWithinOpen | apps/reconciliation/presenters.py:117-124 | no item is asked for more than is free of it, and a side no larger than the other is used up item by item |
| Planner.PlannedItemsAreFree | apps/reconciliation/presenters.py:117-124 | no row for an occupied item or one with nothing open, and no row above what either of its items has open |
| Planner.PlanTakesAllOfTheSmallerSide | apps/reconciliation/presenters.py:113-145 | the plan's total is the smaller of the two free totals |
| Planner.OfferIsHonest | apps/reconciliation/presenters.py:91-110 | an offered plan of a draft passes the duplicate, completeness, occupancy, positive-open and exact-total checks |
| Planner.PassingLinesAreOffered | apps/reconciliation/presenters.py:91-110 | whenever any lines at all would pass, the page makes the offer |
| Planner.CapacityFollows | apps/reconciliation/services.py:224-229 | and then the creation's capacity checks pass as well |
| Planner.ConfirmsExactlyWhenRecordsFit | apps/reconciliation/settlements.py:237-252 | with positive lines confirmation succeeds exactly when version, lines, record checks and invoice statuses fit |
| Planner.SettlementContext | apps/reconciliation/presenters.py:53-110 | the plan is the staircase of overlaps; `can_confirm` holds exactly when the plan passes; with it confirmation fails only over version, record checks or a changed invoice status |
| SettlementDraft.SettlePeriod | apps/reconciliation/settlements.py:28-162 | drafting a period and confirming what its page shows, in any listing order, succeeds if and only if both sides have something, come to the same sum and the stored days lie in the period too; then every item is settled and nothing else has moved |
| SettlementDraft.FreshDraftConfirms | apps/reconciliation/presenters.py:53-110 | the page of a fresh draft offers its plan exactly when both sides come to the same sum, and the plan may be confirmed exactly when the stored days agree as well |
| SettlementDraft.FreshDraftFits | apps/reconciliation/settlements.py:237-252 | the records of a fresh draft are all in force and pass the record checks exactly when the stored moment of every transaction falls into the period by its own day |
| SettlementDraft.DraftBeforeMidnightIsRefused | apps/reconciliation/settlements.py:74-80 | a concrete draft, taken by local day, that no confirmation accepts, because confirmation reads the stored day |
| SettlementDraft.FreshItemIsWhole | apps/reconciliation/settlements.py:203-221 | every item of a fresh draft is unoccupied and wholly open |
| Candidates.ContiguousWindows | apps/reconciliation/candidates.py:123-131 | for any amounts: exactly the windows with the target sum whose running sum never passed the target, in order, each once |
| Candidates.SearchIsComplete | apps/reconciliation/candidates.py:123-131 | the early break loses nothing, for every target, if and only if every amount but the first is not negative |
| Candidates.NegativeAmountHidesAWindow | apps/reconciliation/candidates.py:130-131 | a concrete list on which it would lose a window |
| Candidates.WindowsDoNotShareEnds | apps/reconciliation/candidates.py:80-83 | on positive amounts no two windows share a start or an end |
| Candidates.ExactCandidates | apps/reconciliation/candidates.py:86-120 | one candidate per window with the target sum, all of them, naming exactly the items of the window in order; starts and ends strictly growing |
| Candidates.IdsNameTheWindow | apps/reconciliation/candidates.py:37-48 | the ids of a candidate are those of the items from the window's start to its end |
| Candidates.TransactionCandidates | apps/reconciliation/candidates.py:30-66 | all exact windows, or else one partial proposal with total plus difference equal to the target, or nothing |
| Workbench.CalculateAllocation | static/js/reconciliation-workbench.js:1-30 | accepts exactly safe, non-negative, distinct inputs with a safe sum; allocated is the smaller of invoice and sum |
| Workbench.Update | static/js/reconciliation-workbench.js:82-140 | the amounts on screen, the partial block and the button, or a disabled button when the numbers are unsound |
| Workbench.DirectAllocationRows | apps/reconciliation/presenters.py:148-165 | greedy allocation in row order |
| Workbench.GreedyGivesItsAll | apps/reconciliation/presenters.py:151-164 | it gives out the smaller of asked and available, no row more than it has |
| Workbench.GreedyGoesInOrder | apps/reconciliation/presenters.py:151-164 | a row gets something only when all rows above are used up |
| Workbench.ClientAgreesWithServer | static/js/reconciliation-workbench.js:104-119 | on the checked rows the browser's amounts equal the server's, and add up to the allocated total |
| WorkbenchSubmission.SubmissionIsTakenExactlyWhileFresh | apps/reconciliation/views.py:190-235 | with the button enabled, the ledger takes the submitted form if and only if the invoice is still in force and no used open amount has moved |
| WorkbenchSubmission.EnabledAmounts | static/js/reconciliation-workbench.js:33-49 | an enabled button means a positive total within the invoice, partial only when confirmed, and amounts within their rows |
| WorkbenchSubmission.LinesTakeTotals | apps/reconciliation/forms.py:85-92 | the submitted lines take the screen's total from the invoice |
| WorkbenchSubmission.LinesTakeAmounts | apps/reconciliation/forms.py:85-92 | and each row's amount from its transaction |
| WorkbenchSubmission.ExpectedIsShown | apps/reconciliation/forms.py:99-105 | the form carries the shown open amount of every used row |
| LedgerHistory.HistoricalOpenIsTimeTravel | apps/reporting/queries.py:147-173 | over every history, the historical open amount on a later database is the open amount at the cutoff, hence within nothing and the total; what did not exist yet is wholly open |
| LedgerHistory.ThePastIsFixed | apps/reporting/queries.py:147-152 | what happens from the cutoff on does not change the sums as of the cutoff |
| LedgerHistory.HistoryIsConsistent | apps/reconciliation/services.py:33-144 | every state of every history is consistent |
| LedgerHistory.HistoricalStatusIsTimeTravel | apps/reporting/queries.py:277-311 | "normal now or changed since the cutoff" holds exactly when the invoice was normal at the later of the cutoff and its arrival |
| LedgerHistory.AuditsAreTrue | apps/imports/services.py:470-484 | every status audit belongs to a change away from normal at its moment |
| LedgerHistory.CurrentStatusIsHistoricalExactlyWhenUnchanged | apps/reporting/queries.py:207-239 | today's status of an invoice is the one it had at the later of the cutoff and its arrival if and only if it has not changed since the cutoff |
| LedgerHistory.OpenInvoiceListIsRightExactlyWhenUnchanged | apps/reporting/queries.py:207-239 | the receivables or payables as of a date, computed later, have an invoice right (direction, issue date, status and open amount of the date) if and only if its status has not changed since the cutoff or it would not be listed anyway; with the supplier report's status filter they would always have it right |
| LedgerHistory.VoidedLaterIsMissingFromReceivables | apps/reporting/queries.py:207-239 | a concrete history in which an invoice open and in force at the cutoff is missing later |
| SupplierReport.SupplierSummaryRows | apps/reporting/queries.py:363-395 | one line for each supplier that appears, with its sums, balance, open amounts and latest day, in the order of names and then identifiers |
| SupplierOrder.Arranged | apps/reporting/queries.py:389-395 | every identifier once, in the order of the names |
| SupplierOrder.LinesAreTransitive | apps/reporting/queries.py:391-394 | the order by name and identifier is transitive |
| SupplierOrder.LineNotAfterDecides | apps/reporting/queries.py:389-395 | the order of the summary is the lexicographic one on names and, for equal names, that of identifiers |
| SupplierReport.RunningBalances | apps/reporting/queries.py:487-492 | every row carries the balance of all rows up to it |
| SupplierReport.SupplierLedger | apps/reporting/queries.py:426-492 | every record once, each row with its record's id, day, amount on its own side, used and open amounts; in order of day, kind and id; every balance is the one above plus increase less decrease; the last balance and the sums of the open columns are the summary's |
| SupplierReport.LedgerShowsRecords | apps/reporting/queries.py:439-485 | every ledger row shows a record and every record has its row, in ledger order |
| SupplierReport.InvoiceRowsShow | apps/reporting/queries.py:439-458 | an invoice's row increases by its total, decreases by nothing, uses what is allocated and leaves the rest open |
| SupplierReport.InvoiceRowsSum | apps/reporting/queries.py:363-395 | the invoice rows' open amounts add up to what the supplier was invoiced less what is used |
| SupplierReport.SortedRecords | apps/reporting/queries.py:478-485 | sorting keeps the records and their net |
| SupplierHistory.InvoicesAreTimeTravel | apps/reporting/queries.py:277-320 | over every history, the supplier invoices selected later that were there at the cutoff are, with their used amounts, those in force at the cutoff; the rest came late and are wholly open |
| SupplierHistory.PaymentsAreTimeTravel | apps/reporting/queries.py:323-341 | the same for the supplier's payments |
| SupplierHistory.ReportIsTimeTravelExactlyWhenNothingIsLate | apps/reporting/queries.py:277-341 | a report computed later rests on exactly the records of the date if and only if nothing it shows arrived since the cutoff |
| SupplierHistory.LedgerIsDetermined | apps/reporting/queries.py:478-492 | a supplier's ledger is determined by its records, in whatever order they are read |
| SupplierHistory.SupplierLedgerIsTimeTravel | apps/reporting/queries.py:426-492 | the ledger as of a date, computed on a later database, is row by row the one of the date if and only if nothing it shows came late |
| SupplierHistory.LateInvoiceChangesTheLedger | apps/reporting/queries.py:277-320 | a concrete history in which an invoice recorded late is in the later ledger and was not in that of the date |
| ImportModel.RowsArePredicted | apps/imports/services.py:188-260 | with ledger and master data unchanged, confirmation posts every row staged as valid, changes no other row and finds no new duplicate or conflict |
| ImportModel.RowIsPredicted | apps/imports/services.py:212-260 | one row: confirmed as staged, and the overlay still foretells the ledger |
| ImportModel.OverlayPredicts | apps/imports/services.py:358-450 | where the overlay sees no conflict, the formal ledger gives the same disposition |
| ImportModel.ReplayConservesRows | apps/imports/services.py:114-185 | under any interference every pending row is posted, found duplicate or found in conflict, and nothing else changes |
| ImportModel.ReplayMovesOneWay | apps/imports/services.py:376-386 | under any interference an invoice keeps its fields and names, moves from normal to red or void at most once, and the move is audited |
| ImportModel.RowMovesOneWay | apps/imports/services.py:124-160 | the same for one row, including a lost insertion race |
| ImportOutcome.LedgerDecides | apps/imports/services.py:376-404 | an invoice row is new exactly when its number is unknown, a duplicate exactly when ledger and row agree in fields, names and status, a status update exactly when they agree and the ledger says normal and the row does not, and a conflict otherwise |
| ImportOutcome.PendingRowIsTold | apps/imports/services.py:114-160 | under any interference every pending row of a confirmation that goes through ends as the ledger of its moment decides, for good: a red or void row after normal is posted, its invoice keeps the row's status, with exactly one further audit |
| ImportOutcome.ConfirmationIsTold | apps/imports/services.py:114-185 | the same of all rows of a confirmation, with the balances taken on top |
| ImportOutcome.ReplayFailsExactly | apps/imports/services.py:138-151 | a confirmation's loop fails exactly at a pending row that the ledger does not know and whose names no longer resolve |
| ImportOutcome.TheRestLeavesIt | apps/imports/services.py:376-386 | an invoice off normal is left as it is, and not audited again, by all later rows and by everybody else |
| ImportOutcome.FingerprintsAgree | apps/imports/fingerprints.py:9-31 | two bank lines are one transaction exactly when they carry the same identifier, or none and agree in everything else |
| ImportOutcome.OverlayIsExact | apps/imports/services.py:358-404 | overlay and ledger give the same disposition except where only the overlay knows the names a row contradicts |
| ImportOutcome.StagingDecides | apps/imports/services.py:212-260 | a clean row of the batch's kind whose names resolve is staged as ledger and earlier rows decide; any other is invalid |
| ImportLedger.PostedIsAnArrival | apps/imports/services.py:313-356 | posting a new row is the arrival of exactly its invoice or transaction in the ledger |
| ImportLedger.MovedIsAStatusMove | apps/imports/services.py:470-484 | a status update is the ledger's one-way status move with its audit |
| ImportLedger.ConfirmedRowIsEvents | apps/imports/services.py:124-160 | confirming a row under any interference is a stretch of ledger events in which a posted row has exactly one event of its own, an arrival or a status move, and any other row none |
| ImportLedger.ReplayIsEvents | apps/imports/services.py:114-185 | a whole confirmation under any interference leads the ledger by allowed events to one that agrees with it, and keeps it consistent |
| ImportLedger.SettlingKeepsAgreement | apps/reconciliation/services.py:33-144 | creations, reversals, drafts and confirmations meanwhile leave that agreement alone |
| ImportModel.FreshCountsAddUp | apps/imports/services.py:253-260 | every staged row is pending, duplicate or in error, and only one of them |
| ImportAgain.ImportingAgainPostsNothing | apps/imports/services.py:188-260 | staging the same rows again after their import leaves none to post |
| ImportAgain.AbsorbedIsNotPending | apps/imports/services.py:376-404 | a row the ledger has absorbed is neither new nor a status change |
| ImportService.PrepareRows | apps/imports/services.py:188-260 | the overlay loop stages every row, counters add up; refused exactly above the row limit |
| ImportService.ReplayRows | apps/imports/services.py:124-160 | the confirmation loop; a failure ends it |
| ImportService.LatestBalances | apps/imports/services.py:498-524 | the chosen balances are those of a scan in which per account a later moment prevails and at equal times the higher row |
| ImportService.TakeSnapshots | apps/imports/services.py:526-551 | adds every chosen balance, or fails exactly when one on record differs |
| ImportService.PostRows | apps/imports/services.py:114-165 | the row loop and the balances, failing exactly at an unresolved row or a contradicted balance; batches of other kinds than bank bring no balances |
| ImportService.ImportJob.Stage | apps/imports/services.py:47-111 | a previewed batch with balanced counters; the formal ledger is untouched |
| ImportService.ImportJob.Confirm | apps/imports/services.py:114-185 | all or nothing, once; succeeds exactly when the loop does and the chosen balances agree with the snapshots on record; every pending row ends as the ledger decides; counters stay balanced and non-negative, valid rows are the posted ones; a second call changes nothing |
| ImportService.ImportUndisturbed | apps/imports/services.py:47-185 | stage, confirm, confirm: the first confirmation succeeds if and only if the balances of the rows staged as valid agree with the snapshots on record, and then posts exactly what the preview said; the second returns the first result; the ledger holds what the overlay foretold, or is untouched |
| ImportService.ContradictedBalanceRefusesTheImport | apps/imports/services.py:526-551 | a concrete bank file whose one sound line is previewed as valid and whose confirmation is refused |
| ImportModel.ReplayKeepsSnapshots | apps/imports/services.py:124-160 | an undisturbed replay leaves the snapshots alone |
| EnvFile.PersistVersion | updater/platform.py:314-339 | succeeds exactly on an accepted file with a valid old tag; the one tag line is rewritten, everything else kept; the replacement-count failure cannot occur |
| EnvFile.RewriteLines | updater/platform.py:321-335 | the loop replaces exactly one line |
| EnvFile.RewriteIsPointUpdate | updater/platform.py:314-339 | re-reading gives the old settings with the tag changed if and only if the tag line ends in LF, CR or CR LF, or nothing follows on the next line |
| EnvFile.VerticalTabSwallowsASetting | updater/platform.py:321-332 | a concrete accepted file on which the rewrite loses a setting: the result has the tag alone, with the other setting's text in its value |
| EnvFile.TabFileReads | updater/platform.py:719-736 | that file is accepted, with both settings |
| EnvFile.StrippedLine | updater/platform.py:322-327 | taking the ending off character by character gives the line and its ending |
| EnvFile.FindTag | scripts/system-update-updater-atomic.py:206-226 | the scan refuses exactly unreadable files and finds the one line of the tag |
| EnvFile.CaptureEnvironment | scripts/system-update-updater-atomic.py:205-239 | for any target, succeeds exactly with a valid, different old tag; the target text differs, keeps every other line and the ending; a target of one line reads as the old settings with the tag changed |
| EnvFile.VersionLineIsOrdinary | scripts/system-update-updater-atomic.py:224-225 | a captured tag line has an ordinary ending, because the ending would spoil the version |
| EnvFile.VersionsAreTriples | updater/types.py:108-119 | a text is a version exactly when it is v, and three numbers written without leading zeros between dots |
| EnvText.LinesOfJoined | updater/platform.py:719-736 | splitting undoes joining |
| EnvText.ReplacedLine | updater/platform.py:727-735 | another value on a setting's line changes that setting alone |
| EnvText.LineDecides | updater/platform.py:727-735 | in an accepted file a key has one line, and it gives the value |
| EnvText.LinesRead | updater/platform.py:727-735 | a blank line or comment says nothing, NAME=value adds a name not there yet, anything else makes the file unreadable |
| EnvReplace.Machine.Replace | scripts/system-update-updater-atomic.py:336-384 | succeeds exactly when every operation works on the expected file, no marker or record is left over, the new inode differs and nobody has put another file there meanwhile; at every moment the file is one found there or the complete synced target on another inode, the latter only with the marker on disk; a crash at any moment is classified rightly; an unexpected file, early or late, is left alone |
| EnvReplace.Machine.PutInPlace | scripts/system-update-updater-atomic.py:354-381 | temporary file, second check, rename, record: succeeds exactly when each works on the expected file and the new inode differs |
| EnvReplace.Machine.ReplaceChecked | scripts/system-update-updater-atomic.py:354-384 | the same with the finally clause: no temporary file is left when the operations work |
| EnvReplace.Machine.WriteMarker | scripts/system-update-updater-atomic.py:351-353 | returns only with the marker on disk, the file untouched |
| EnvReplace.RenamedIsSafe | scripts/system-update-updater-atomic.py:376-381 | the only moment that changes the path gives it a complete file, after the marker |
| EnvReplace.CrashIsClassified | scripts/system-update-updater-atomic.py:387-409 | after a crash anywhere classification does not fail and is right |

## Left out

Updater
- The formats of identifiers, digests, paths and timestamps, repository mismatches, and the textual state file: an image is its content, a backup a numbered file, the saved record a value.
- What a schema migration does to the database, containers that stop on their own, and the window in which the manual cleanup command runs beside the server process.
- That cleanup eventually completes, and that a succeeded task has no error code: neither is true of the code.

Ledger
- Roles and permissions, notes, audit texts of creations and reversals, and the existence of the counterparty of a batch.
- Batch drafting as a lock-by-lock transaction: in LedgerWriters a draft, an import's record and a status change each happen in one step, the last only while nobody holds the invoice.
- Freedom from deadlock: rows of one table are locked without an order.
- Planner.SettlementContext: does not claim that an offered plan passes the record checks, because statuses may change after drafting and the two period checks read the moment's day in different time zones.
- Decimal to cents, the 18-digit bound, and the text of amounts in pages and forms.
- Invoice candidates differ from transaction candidates only in their query; both share Candidates.ExactCandidates.

History
- Whether a party is marked as a supplier, and the columns of the supplier ledger that only point to other pages.
- Search terms, coverage details, aging labels, dashboards and exception lists.

Imports
- Parsers, file signatures, hashing of files, raw data, period dates, serialisation of normalised rows; a row arrives with the parser's verdict, and rows are numbered in file order.
- The fingerprint is its canonical fields before hashing; canonical text and sub-cent amounts are settled by the parsers.
- ImportLedger.ReplayIsEvents: gives the records others post meanwhile a counterparty, and transactions an amount, of its own choosing, because the import never looks at them.
- Name resolution of parties and accounts is a map of what resolves uniquely.

Environment file
- Modes, owners, links and the size limit of the file, decoding as UTF-8, and the lock around the script.
- EnvFile.CaptureEnvironment: does not say how the text reads for a target that contains a line separator; the calling script passes versions only.
- EnvReplace.Machine.Replace: lets others edit the file while the temporary one is written, but not between the last check and the rename; the reading back after the rename is part of the rename.
