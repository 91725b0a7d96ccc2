# Verified model of the Mana cloud runtime

A Dafny model of the stateful core of `packages/cloud-runtime`, with proofs of what its protocols, scanners,
ledgers and encodings guarantee. `dafny verify dfyconfig.toml` checks all of it.

## What is modelled

**Autonomy run ledger** (`RunEvidence`, `RunLedger`, `RunHistory`, `RunLedgerRuns`, `ScheduledRun`). The
single-slot ledger of scheduled runs. `RunHistory` is a class over the stored keys; a ghost list of every terminal
record ever written determines everything it stores. `RunLedger` is the ledger as clients see it, each storage
transaction one step. `RunLedgerRuns` proves facts about every sequence of requests. `ScheduledRun` is the client,
with requests and responses that may be lost and other clients acting in between.

**Meeting-minutes protocol** (`MinutesRun`, `MinutesLog`, `MinutesStore`, `MinutesPipeline`, `MinutesContext`, `MinutesTasks`,
`MinutesTaskActions`, `MinutesRedo`, `MinutesRecovery`, `MinutesReceipts`, `MinutesLifecycle`, `MinutesWitnesses`). One run's durable record, the working copy of the
delivery at hand, and a ghost log of saves and external effects. Every external call may answer, fail or end in a
crash; every save may also fail although it was written. `MinutesLog` says which event is permitted after which
history and proves the guarantees about every permitted log; the methods of the other modules follow the source
statement by statement and are proved to log permitted events only. `MinutesLifecycle.Live` runs any sequence of
everything that saves a run. `MinutesWitnesses` holds histories that mark where guarantees end.

**Text and streams** (`Utf16`, `SlackSplit`, `BraceScanner`, `JsonText`, `AgentOutput`, `TraceEviction`,
`BodyReader`). JavaScript strings are sequences of UTF-16 code units. The loops are kept as loops and proved against
recursive definitions; balanced text is defined by a grammar of its own, not by the scanner.

**Contract ledger** (`LedgerPlan`, `LedgerUpdates`, `LedgerSheet`, `LedgerApproval`). The planner, the sheet its updates are written
to, and the approval store, over any sequence of syncs and decisions.

**Encodings** (`BackfillIdentity`, `Base64Url`, `ControlMessage`), and shared helpers in `Common.dfy`.

## What the proofs found

- A run can return `ran` and be recorded as failed: a claim more than ten minutes later displaces it, and the late
  completion is answered like a replay. `ScheduledRun` gives the history and the exact condition.
- A case declared through a resumed selection while the receipt is pending does not advance the receipt revision, so
  the receipt goes out with another payload under the identity it already had. `MinutesReceipts` gives the step and
  the exact condition; an administrator's correction does advance it.
- The ledger reads 10,000 rows. On a sheet of exactly that length an approval enters its row but never confirms it,
  so a retry enters again; on a longer one the entry overwrites row 10,001. `LedgerApproval` states both limits.
- Published minutes are fixed but for their task drafts: a card edit rewrites the draft on the run under the same
  revision. `MinutesLog` states what is fixed and exactly when drafts stay; `MinutesWitnesses` has them change.
- Two envelopes with one id that disagree make the plan's updates oscillate; `LedgerUpdates` proves that this is the
  only way for a second plan to find updates.
- Base64url decoding refuses the empty text, which is what no bytes are encoded as.

## Model

| member | source | states |
|---|---|---|
| RunEvidence.KeyIdentifiesEvidence | packages/cloud-runtime/src/autonomy-run-history.ts:240 | the `kind:id` key identifies an evidence item: no two items share one |
| RunEvidence.DistinctInLastOccurrenceOrder | packages/cloud-runtime/src/autonomy-run-history.ts:237-243 | de-duplication keeps items in the order of their last occurrences |
| RunEvidence.NewestAbsorbs | packages/cloud-runtime/src/autonomy-run-history.ts:234-264 | de-duplicating with the 200-item cut after every step keeps what one cut over everything would keep: D(D(a) ++ b) = D(a ++ b) |
| RunEvidence.DedupeEvidence | packages/cloud-runtime/src/autonomy-run-history.ts:234-247 | the backward scan with early exit yields the newest 200 distinct items in last-occurrence order |
| RunHistory.FoldCheckpoint | packages/cloud-runtime/src/autonomy-run-history.ts:249-264 | folding one more record into the summary of n evicted records gives the one-shot summary of n+1 (counts, bounds, last 200 ids, newest evidence) |
| RunHistory.Compact | packages/cloud-runtime/src/autonomy-run-history.ts:277-285 | shifting ids out of the window leaves the last 20 records and a checkpoint for all others |
| RunHistory.SummaryIsCheckpoint | packages/cloud-runtime/src/autonomy-run-history.ts:210-227 | every summary passes the source's own checkpoint validation, so no stored checkpoint is ever ignored |
| RunHistory.RunHistory.AppendTerminalRecord | packages/cloud-runtime/src/autonomy-run-history.ts:266-290 | a known run is a replay that changes nothing; otherwise the log grows by the record, and window and checkpoint are again functions of the log |
| RunHistory.RunHistory.End | packages/cloud-runtime/src/autonomy-run-history.ts:433-445 | the active run's record is written and the slot cleared, all invariants kept |
| RunHistory.RunHistory.ClaimRun | packages/cloud-runtime/src/autonomy-run-history.ts:415-467 | refines the ledger's claim step: experiment binding, replay, busy within ten minutes, displacement of a stale run, grant of the next sequence with the clean-up alarm one minute past the experiment's end |
| RunHistory.RunHistory.Expire | packages/cloud-runtime/src/task-write-budget.ts:244-246 | the alarm deletes everything: a new history starts from the empty ledger |
| RunHistory.RunHistory.FinishRun | packages/cloud-runtime/src/autonomy-run-history.ts:469-521 | refines the ledger's complete/fail step: replay, not active, invalid time, or one new record and a free slot |
| RunHistory.RunHistory.Projection | packages/cloud-runtime/src/autonomy-run-history.ts:391-404 | returns the summary of all evicted records and the last 20 records in full, whatever happened before |
| RunHistory.RunHistory.ReadRun | packages/cloud-runtime/src/autonomy-run-history.ts:406-413 | finds a record exactly if the run has ended |
| RunLedger.ClaimKeepsSound | packages/cloud-runtime/src/autonomy-run-history.ts:419-456 | claims keep sequences 1..n, distinct runs, valid records, and n+1 for the active run |
| RunLedger.FinishKeepsSound | packages/cloud-runtime/src/autonomy-run-history.ts:476-512 | finishing keeps the same, and every record ends no earlier than it starts |
| RunLedgerRuns.ProjectionTilesAllRuns | packages/cloud-runtime/src/autonomy-run-history.ts:249-290 | over every history: the window is the last min(20, n) in sequence order; the checkpoint counts the other n-20, from sequence 1 to n-20, with their last 200 ids and newest 200 evidence items; the active run holds n+1 |
| RunLedgerRuns.TerminalRecordsAreFinal | packages/cloud-runtime/src/autonomy-run-history.ts:273-275 | a terminal record never changes or moves once written |
| RunLedgerRuns.LateFinishIsIgnored | packages/cloud-runtime/src/autonomy-run-history.ts:476-482 | a late complete or fail of an ended run changes nothing, at any later time |
| RunLedgerRuns.GrantedAtMostOnce | packages/cloud-runtime/src/autonomy-run-history.ts:424-455 | no run id is granted twice over any history |
| RunLedgerRuns.EveryGrantIsAccountedFor | packages/cloud-runtime/src/autonomy-run-history.ts:449-455 | the number of grants is the number of terminal records plus the active run |
| RunLedgerRuns.SlotIsFreedOnlyByEndOrStaleness | packages/cloud-runtime/src/autonomy-run-history.ts:429-447 | over any history: a run that held the slot holds it no longer if and only if some request in between was its own end or a claim more than ten minutes after its start, and each of these writes that run's record |
| ScheduledRun.RunScheduledAutonomy | packages/cloud-runtime/src/autonomy-scheduled.ts:74-133 | refines the client's specification over lost requests, lost responses and other clients acting in between |
| ScheduledRun.ClaimedRunIsRecorded | packages/cloud-runtime/src/autonomy-scheduled.ts:86-133 | whenever the run returns `ran`, or throws and its failure report arrives, the ledger holds its terminal record |
| ScheduledRun.RanMeansCompletedUnlessFailedMeanwhile | packages/cloud-runtime/src/autonomy-scheduled.ts:119-125 | a run that returns `ran` is recorded as failed if and only if some request of other clients failed it while it worked: a valid claim of its experiment more than ten minutes after its start, or a valid failure report in its name; else it is recorded as completed |
| ScheduledRun.RanCanBeRecordedAsFailed | packages/cloud-runtime/src/autonomy-scheduled.ts:119-125 | the exception happens: a concrete history in which a run returns `ran` and is recorded as failed |
| MinutesLog.LogIsCoherent | packages/cloud-runtime/src/meeting-minutes-pipeline.ts:321-371 | over every permitted history the durable record is well formed, keeps its stage ladder and claims only acknowledged clean-ups |
| MinutesLog.KeysAreInjective | packages/cloud-runtime/src/meeting-minutes-pipeline.ts:362-369 | an idempotency key determines kind of message, revision and chunk |
| MinutesLog.PostsWithOneKeyAreOneMessage | packages/cloud-runtime/src/meeting-minutes-pipeline.ts:361-371 | over any interleaving of deliveries, crashes, lost saves and redos, two posts under one key are the same message to the same channel and thread |
| MinutesLog.TranscriptHashIsFixed | packages/cloud-runtime/src/meeting-minutes-pipeline.ts:325-327 | a saved transcript hash is in every later record, also across redos |
| MinutesLog.PublicationIsFixed | packages/cloud-runtime/src/meeting-minutes-pipeline.ts:223-226 | while GitHub records exist, title, overview, body, references and attestation of the minutes, the number of their task drafts, channel, context receipt id/checksum and thread never change within a revision, and posted chunks and redo checkpoints only grow |
| MinutesLog.SavedEvolves | packages/cloud-runtime/src/meeting-minutes-pipeline.ts:321-371 | what a saved record fixed of its publication holds in the latest record of its revision |
| MinutesLog.DraftsStayIffNoEditSaved | packages/cloud-runtime/src/meeting-minutes-task-actions.ts:267-275 | all later records of a published revision carry the same task drafts if and only if no card edit that changes them was saved in between |
| MinutesLog.SavedEditWasMade | packages/cloud-runtime/src/meeting-minutes-task-actions.ts:258-275 | an edit is written only after the task's own record was changed in the same delivery |
| MinutesWitnesses.DraftsCanChange | packages/cloud-runtime/src/meeting-minutes-task-actions.ts:267-275 | that happens: a permitted history in which two records of one published revision carry different drafts |
| MinutesLog.OneRequestPerTask | packages/cloud-runtime/src/meeting-minutes-task-integration.ts:95-104 | over any interleaving of deliveries, crashes and configuration changes, a task creation requested again for the same revision and draft carries the same key and input, unless it was refused in between |
| MinutesTasks.KeyTextInjective | packages/cloud-runtime/src/meeting-minutes-task-integration.ts:17-19 | what is hashed into a creation's key determines revision and draft |
| MinutesLog.RevisionRisesOnlyAfterCleanup | packages/cloud-runtime/src/meeting-minutes-pipeline.ts:476-505 | revision r+1 is saved only after GitHub deletion, deletion of every task in scope and retraction of the thread were acknowledged for r, with nothing pending |
| MinutesLog.CheckpointedCleanupIsNotRepeated | packages/cloud-runtime/src/meeting-minutes-pipeline.ts:476-491 | a clean-up that a saved record carries is never attempted again for that revision |
| MinutesLog.RecoveryEffectsAtMostOnce | packages/cloud-runtime/src/meeting-minutes-recovery.ts:112-210 | between two arms with different actionTs, each of the two Slack effects of the recovery happens at most once |
| MinutesLog.FallbackFollowsFailedUpdate | packages/cloud-runtime/src/meeting-minutes-recovery.ts:150-184 | the fallback runs only after a failed status update of the same delivery |
| MinutesStore.RunStore.SaveRun | packages/cloud-runtime/src/meeting-minutes-state.ts:23-30 | a save ends done, failed with or without effect, or crashed on either side; it may only write permitted records |
| MinutesStore.RunStore.Load | packages/cloud-runtime/src/meeting-minutes-state.ts:12-21 | a delivery starts from the durable record, which it may write back at any time |
| MinutesContext.ResolveContext | packages/cloud-runtime/src/meeting-minutes-pipeline.ts:175-201 | on success the run's context is the returned receipt, valid for the run's identity and usable in the mode; id and checksum of an existing context are kept |
| MinutesPipeline.FixTranscript | packages/cloud-runtime/src/meeting-minutes-pipeline.ts:323-327 | a seen transcript hash accepts no other transcript; on success it is the hash of a non-blank download |
| MinutesPipeline.GenerateAndBind | packages/cloud-runtime/src/meeting-minutes-pipeline.ts:331-332 | on success the minutes are what binding the draft that was just generated gives |
| MinutesPipeline.DraftMinutes | packages/cloud-runtime/src/meeting-minutes-pipeline.ts:330-346 | on success the minutes are, durably, the outcome of binding: of the saved draft whenever it fits, else of the one just generated; a draft that cannot be bound otherwise fails the delivery |
| MinutesPipeline.SaveToGitHub | packages/cloud-runtime/src/meeting-minutes-pipeline.ts:321-352 | records are saved only for minutes bound to the run's own usable context, and are durable on success |
| MinutesPipeline.PostParent | packages/cloud-runtime/src/meeting-minutes-pipeline.ts:361-365 | the parent message is posted only under durable GitHub records, and its thread is durable on success |
| MinutesPipeline.PostChunk | packages/cloud-runtime/src/meeting-minutes-pipeline.ts:366-371 | one chunk, under its key, at the next index; recorded durably on success |
| MinutesPipeline.PostedArePrefix | packages/cloud-runtime/src/meeting-minutes-pipeline.ts:366-371 | the posted indexes are exactly 0..k-1 |
| MinutesPipeline.PostChunks | packages/cloud-runtime/src/meeting-minutes-pipeline.ts:366-371 | all chunks of the narrative are durably posted, skipping those already recorded |
| MinutesPipeline.RefreshDestination | packages/cloud-runtime/src/meeting-minutes-pipeline.ts:218-237 | routing metadata follows the configuration, channel and repository do not; an unsaved draft of another project's context is dropped |
| MinutesPipeline.DeclareCase | packages/cloud-runtime/src/meeting-minutes-pipeline.ts:239-259 | a case is declared once, only when authorized, and never beside a delivered receipt |
| MinutesPipeline.RejectPlaceholder | packages/cloud-runtime/src/meeting-minutes-pipeline.ts:260-279 | a published placeholder settles the run as completed with its failure noted; an unpublished one is dropped |
| MinutesPipeline.DropUnusableDraft | packages/cloud-runtime/src/meeting-minutes-pipeline.ts:297-305 | exactly the unusable context and the drafts that depend on it are dropped, in memory only |
| MinutesPipeline.Reopen | packages/cloud-runtime/src/meeting-minutes-pipeline.ts:302-311 | the reopened record has a destination and an approver that are never replaced, no failure, and its published state untouched |
| MinutesPipeline.RecordFailure | packages/cloud-runtime/src/meeting-minutes-pipeline.ts:377-407 | a failed delivery is recorded with the stage it failed in and is reported as failed |
| MinutesPipeline.Resume | packages/cloud-runtime/src/meeting-minutes-pipeline.ts:203-408 | any delivery keeps the log permitted; one that ends well on an unfinished run leaves the whole narrative durably posted, the run completed, and every drafted task registered or what is missing noted |
| MinutesTasks.BeginCreation | packages/cloud-runtime/src/meeting-minutes-task-integration.ts:88-103 | a creation stands durably on the record before it is requested: the pending one, or a new one under the run's scope or, after a conflict, the one scope used before; a conflict without such a scope fails |
| MinutesTasks.CreateOne | packages/cloud-runtime/src/meeting-minutes-task-integration.ts:73-124 | on success the draft's task is registered durably in place of the pending creation |
| MinutesTasks.RegisterTasks | packages/cloud-runtime/src/meeting-minutes-task-integration.ts:54-142 | on success every draft has a task, created in order or known to the context; an error is noted with how far it came |
| MinutesTasks.Defer | packages/cloud-runtime/src/meeting-minutes-task-integration.ts:144-174 | the run is completed durably with what failed noted for a later delivery, registered tasks untouched |
| MinutesTasks.Integrate | packages/cloud-runtime/src/meeting-minutes-task-integration.ts:197-246 | only task fields change; a pass from the start that ends well leaves the run durably completed with every draft registered or what is missing noted |
| MinutesTaskActions.ReconcileDestination | packages/cloud-runtime/src/meeting-minutes-task-actions.ts:67-78 | task routing follows the configuration, nothing else of the destination does |
| MinutesTaskActions.CancelTask | packages/cloud-runtime/src/meeting-minutes-task-actions.ts:236-248 | a cancelled task is marked as removed, one card's task only; an action that is not allowed changes nothing |
| MinutesTaskActions.EditTask | packages/cloud-runtime/src/meeting-minutes-task-actions.ts:249-278 | an edit is written to that task and that draft only, after the task's own record was changed under the run's scope |
| MinutesTaskActions.AdoptTasks | packages/cloud-runtime/src/index.ts:4141-4172 | adopting replaces the registration by one existing task for each draft in order, nothing pending, and only where that is called for |
| MinutesRedo.RecoverPendingTask | packages/cloud-runtime/src/meeting-minutes-pipeline.ts:447-475 | a pending task creation ends registered, or on record as refused before anything was created, or the redo fails |
| MinutesRedo.DeleteTasks | packages/cloud-runtime/src/meeting-minutes-pipeline.ts:481-486 | every registered task in scope is checkpointed as deleted, others are left |
| MinutesRedo.CleanUp | packages/cloud-runtime/src/meeting-minutes-pipeline.ts:446-491 | on success everything external of the revision is taken back and checkpointed durably |
| MinutesRedo.OpenNextRevision | packages/cloud-runtime/src/meeting-minutes-pipeline.ts:492-506 | the next revision starts with nothing published; on failure the completed record and its checkpoints are kept |
| MinutesRedo.HandleRedo | packages/cloud-runtime/src/meeting-minutes-pipeline.ts:411-522 | a command for another revision or an unavailable redo changes nothing durable; success leads to revision r+1, waiting for a destination, with nothing left of revision r but transcript, case and arm |
| MinutesRecovery.DelayReachesDeadline | packages/cloud-runtime/src/meeting-minutes-recovery.ts:96 | the delay is at least one second, ends no earlier than the deadline and less than a second after it |
| MinutesRecovery.ArmedMessageIsDue | packages/cloud-runtime/src/meeting-minutes-recovery.ts:96-101 | a message delayed by the armed delay never finds the run not due |
| MinutesRecovery.Arm | packages/cloud-runtime/src/meeting-minutes-recovery.ts:69-102 | arming resets the lifecycle only for a new actionTs, never touches a completed run, and asks for a message exactly if no recovery has begun |
| MinutesRecovery.SaveOutcome | packages/cloud-runtime/src/meeting-minutes-recovery.ts:18-38 | the outcome is durable after one of two attempts, or the error is surfaced |
| MinutesRecovery.RetryClaimedOutcome | packages/cloud-runtime/src/meeting-minutes-recovery.ts:40-57 | a repeat after a failed update has no Slack effect and writes at most the bookkeeping mark |
| MinutesRecovery.ClaimProjection | packages/cloud-runtime/src/meeting-minutes-recovery.ts:131-149 | the failure and the claim are durable before anything is shown |
| MinutesRecovery.HandleFailedUpdate | packages/cloud-runtime/src/meeting-minutes-recovery.ts:152-204 | at most one fallback; the update's error is passed on only with the outcome durable |
| MinutesRecovery.Recover | packages/cloud-runtime/src/meeting-minutes-recovery.ts:112-210 | other arms, completed, claimed and not-yet-due runs are left exactly as they are; a completed run is never turned failed; `recovered` leaves exactly the interrupted record, claimed and projected |
| MinutesReceipts.ExternalIdInjective | packages/cloud-runtime/src/meeting-minutes-run-receipt.ts:154-156 | receipts of one run share an identity if and only if revision and receipt revision agree |
| MinutesReceipts.OneIdentityOneDeclaredCase | packages/cloud-runtime/src/meeting-minutes-lifecycle.ts:144-216 | two deliveries under one identity are of the same revisions and name the same case unless the first named none |
| MinutesReceipts.CasesDifferIffDeclaredBetween | packages/cloud-runtime/src/meeting-minutes-pipeline.ts:250-259 | they disagree about the case if and only if the first named none and a case was declared in between |
| MinutesReceipts.DeclaringKeepsIdentity | packages/cloud-runtime/src/meeting-minutes-pipeline.ts:250-259 | that is possible: declaring a case on a completed run with a pending receipt keeps identity and key, and changes the payload |
| MinutesWitnesses.OneIdentityCanNameTwoCases | packages/cloud-runtime/src/meeting-minutes-pipeline.ts:250-259 | a permitted history in which two receipts go out under one identity for different cases |
| MinutesReceipts.DeliveredReceiptIsFixed | packages/cloud-runtime/src/meeting-minutes-lifecycle.ts:174-216 | a delivered receipt stays, with the run's case, on every later record of its revision: only a redo removes it |
| MinutesLifecycle.SendReceipt | packages/cloud-runtime/src/meeting-minutes-lifecycle.ts:202-215 | a sent receipt ends delivered for the run's case, or pending under the same key |
| MinutesLifecycle.DeliverReceipt | packages/cloud-runtime/src/meeting-minutes-lifecycle.ts:195-216 | a healthy run's receipt is delivered under the key built from the record; a delivered one is left alone |
| MinutesLifecycle.RetryReceipt | packages/cloud-runtime/src/meeting-minutes-lifecycle.ts:144-172 | a retry happens exactly for a pending receipt whose key is still the one the record would build, and changes nothing but the receipt |
| MinutesLifecycle.CorrectCase | packages/cloud-runtime/src/index.ts:3936-3960 | a correction is made only for whom the run is authorized, raises the receipt revision with the case, keeps the published state, and never touches a delivered receipt |
| MinutesLifecycle.ShowOutcome | packages/cloud-runtime/src/meeting-minutes-lifecycle.ts:174-190 | either the outcome is shown and recorded, or the failure is recorded; nothing else of the record changes |
| MinutesLifecycle.ProjectCompleted | packages/cloud-runtime/src/meeting-minutes-lifecycle.ts:174-216 | the receipt follows only a recorded projection; a healthy run ends with a delivered receipt |
| MinutesLifecycle.ProjectFailed | packages/cloud-runtime/src/meeting-minutes-lifecycle.ts:218-229 | showing a failure changes neither status, nor published state, nor receipt |
| MinutesLifecycle.ProcessSelection | packages/cloud-runtime/src/meeting-minutes-lifecycle.ts:231-253 | a delivery of a selection with its outcome shown keeps the log permitted; if it ends well and healthy, the receipt is delivered |
| MinutesLifecycle.RepairCompletedProjection | packages/cloud-runtime/src/meeting-minutes-lifecycle.ts:34-77 | only a run whose durable output proves completion is repaired, and only after the display succeeded |
| MinutesLifecycle.RepairPrompt | packages/cloud-runtime/src/meeting-minutes-lifecycle.ts:80-100 | only the prompt of a run that nothing else was shown of is repaired, and only that changes |
| MinutesLifecycle.Announce | packages/cloud-runtime/src/meeting-minutes-pipeline.ts:137-143 | a destination is asked for once; nothing else of the record changes |
| MinutesLifecycle.Authorize | packages/cloud-runtime/src/index.ts:3255-3261 | only for whom the run may be recovered changes |
| MinutesLifecycle.Live | packages/cloud-runtime/src/meeting-minutes-lifecycle.ts:231-253 | any sequence of everything in the source that saves a run, task cards and administration included, with crashes and lost saves anywhere, yields a permitted log, so every MinutesLog and MinutesReceipts theorem applies |
| SlackSplit.CutIsLastBreak | packages/cloud-runtime/src/meeting-minutes-generator.ts:817-819 | a message ends at the last line break or space that fits, unless none lies in its second half; then at full length |
| SlackSplit.Split | packages/cloud-runtime/src/meeting-minutes-generator.ts:812-824 | the loop refines the recursive definition; it refuses exactly chunk sizes below 100 or beyond safe integers |
| SlackSplit.ChunksLoseOnlySpace | packages/cloud-runtime/src/meeting-minutes-generator.ts:815-823 | the trimmed body is the chunks woven with white space only, none at the end |
| SlackSplit.ChunksFit | packages/cloud-runtime/src/meeting-minutes-generator.ts:815-823 | every chunk is non-empty, trimmed and at most maxChars long |
| SlackSplit.ChunkCount | packages/cloud-runtime/src/meeting-minutes-generator.ts:816-823 | (chunks - 1) * floor(maxChars / 2) is less than the body's length |
| BraceScanner.ScanFrom | packages/cloud-runtime/src/meeting-minutes-generator.ts:456-470 | the inner loop finds the brace that closes the one at `start`, or none |
| BraceScanner.BalancedObjects | packages/cloud-runtime/src/meeting-minutes-generator.ts:453-473 | the loops collect the slices of all opening braces in order |
| BraceScanner.SliceIsTheBalancedOne | packages/cloud-runtime/src/meeting-minutes-generator.ts:456-470 | the scanner returns a slice at a brace if and only if it is the grammar's balanced text there |
| BraceScanner.SlicesAreTheBalancedOnes | packages/cloud-runtime/src/meeting-minutes-generator.ts:453-473 | the result lists exactly the balanced texts that begin at some brace, each at its place, in order |
| JsonText.JsonIsWhole | packages/cloud-runtime/src/autonomy-agent.ts:93-116 | every JSON text (RFC 8259, any white space and escapes) is balanced outside of its strings, and an object is a balanced slice |
| JsonText.EmbeddedObjectIsFound | packages/cloud-runtime/src/autonomy-agent.ts:93-116 | a JSON object embedded in any prefix and suffix is returned as a candidate |
| AgentOutput.FirstAnswerIsFirst | packages/cloud-runtime/src/autonomy-agent.ts:120-141 | no answer if and only if no candidate holds one; else the first candidate's |
| AgentOutput.ParseAgentOutput | packages/cloud-runtime/src/autonomy-agent.ts:118-142 | tries the normalised text, then every balanced slice, in order |
| AgentOutput.NormalizeKeeps | packages/cloud-runtime/src/autonomy-agent.ts:119 | removing NULs, trimming and cutting at 12,000 characters keep an embedded object that fits |
| AgentOutput.WrappedAnswerIsRecovered | packages/cloud-runtime/src/autonomy-agent.ts:118-142 | an answer object with no brace before it is what is returned, whatever follows it |
| TraceEviction.TraceBuffer.Trim | packages/cloud-runtime/src/meeting-minutes-execution-trace.ts:178-188 | eviction drops the first event of the lowest priority until 128 remain |
| TraceEviction.TraceBuffer.Push | packages/cloud-runtime/src/meeting-minutes-execution-trace.ts:364-368 | adding one parsed event and trimming |
| TraceEviction.TraceBuffer.Emit | packages/cloud-runtime/src/meeting-minutes-execution-trace.ts:530-548 | the runner's separate eviction code leaves the same list as the parser's, and drops events of other names |
| TraceEviction.StreamingIsTrimmingOnce | packages/cloud-runtime/src/meeting-minutes-execution-trace.ts:358-373 | trimming after every event leaves what trimming once leaves |
| TraceEviction.TrimmedAreTheGreatest | packages/cloud-runtime/src/meeting-minutes-execution-trace.ts:167-188 | what is left, in order, are the greatest events under (priority, position) |
| TraceEviction.CountIsBounded | packages/cloud-runtime/src/meeting-minutes-execution-trace.ts:326-335 | the request count is at least the number of request starts and whatever an event says, and exceeds the latter by at most the former |
| TraceEviction.Sanitize | packages/cloud-runtime/src/meeting-minutes-execution-trace.ts:338-355 | a trace holds the greatest of the cleaned events with their request count; there is none without events |
| TraceEviction.ParseTrace | packages/cloud-runtime/src/meeting-minutes-execution-trace.ts:358-373 | parsing line by line yields the trace of the cleaned form of the 128 greatest events of all lines |
| BodyReader.LengthIsDeclaredByItsNumeral | packages/cloud-runtime/src/admin-json-input.ts:21-32 | a length is declared by exactly one header text, its numeral, and only up to 64 KiB |
| BodyReader.Grow | packages/cloud-runtime/src/admin-json-input.ts:67-73 | a larger buffer keeps the bytes read, stays within 64 KiB and keeps recopying within its budget |
| BodyReader.Collect | packages/cloud-runtime/src/admin-json-input.ts:50-77 | the growing buffer refines concatenation: rejected exactly when more than 64 KiB arrive or a read fails; capacity at most 64 KiB, fewer than 128 KiB recopied in all |
| BodyReader.ReadBody | packages/cloud-runtime/src/admin-json-input.ts:34-88 | header, stream, length comparison and decoding in the source's order of errors |
| BodyReader.UnbrokenStreamIsItsBytes | packages/cloud-runtime/src/admin-json-input.ts:53-76 | how the bytes are cut into chunks does not matter |
| LedgerPlan.NumberRoundTrip | packages/cloud-runtime/src/contract-ledger.ts:327-329 | a padded ledger number is read back as itself |
| LedgerPlan.NewNumberIsAbsent | packages/cloud-runtime/src/contract-ledger.ts:327-329 | a number above the maximum stands in no row, in no spelling |
| LedgerPlan.BuildPlan | packages/cloud-runtime/src/contract-ledger.ts:324-352 | the loop lists, in order, what the envelopes of each kind call for, new ones under consecutive numbers |
| LedgerPlan.PlanPartitionsEnvelopes | packages/cloud-runtime/src/contract-ledger.ts:333-350 | every envelope is updated, unchanged, candidate or excluded, in exactly one way |
| LedgerPlan.CandidateNumbersAreNew | packages/cloud-runtime/src/contract-ledger.ts:327-349 | candidate numbers are consecutive, pairwise distinct and absent from the sheet |
| LedgerUpdates.WritingThePlanRefreshes | packages/cloud-runtime/src/contract-ledger.ts:421-424 | writing a plan's updates one by one gives the refreshed sheet |
| LedgerUpdates.ReplanHasNoUpdatesIffAgreed | packages/cloud-runtime/src/contract-ledger.ts:333-341 | planning again after the updates finds none if and only if envelopes that share an id agree |
| LedgerUpdates.ReplanIsIdempotent | packages/cloud-runtime/src/contract-ledger.ts:333-341 | with distinct envelope ids, planning again yields no updates |
| LedgerApproval.Ledger.SaveCandidate | packages/cloud-runtime/src/contract-ledger.ts:136-145 | the first candidate saved for an envelope stays |
| LedgerApproval.Ledger.ClaimDecision | packages/cloud-runtime/src/contract-ledger.ts:158-169 | a decided candidate stays; an interrupted approval may be claimed again |
| LedgerSheet.EnteringKeepsRead | packages/cloud-runtime/src/contract-ledger.ts:464 | an entry touches nothing that was read, and is an append if and only if the sheet has at most 10,000 rows |
| LedgerSheet.EnteredIsSeenIffItFits | packages/cloud-runtime/src/contract-ledger.ts:464-466 | an entered row is confirmed by reading back if and only if the sheet had fewer than 10,000 rows |
| LedgerSheet.NumberOfOtherYear | packages/cloud-runtime/src/contract-ledger.ts:458-463 | a ledger number is read under its own year only |
| LedgerSheet.EnteringKeepsTidy | packages/cloud-runtime/src/contract-ledger.ts:456-464 | entering a row for an envelope that is not seen keeps every envelope and every number of every year in one row only |
| LedgerApproval.Ledger.EnsureRow | packages/cloud-runtime/src/contract-ledger.ts:455-467 | a row is entered only if readers see none, above all numbers of its year, and success means it is seen |
| LedgerApproval.Ledger.Decide | packages/cloud-runtime/src/contract-ledger.ts:448-469 | applied means the row is there and the record approved; rejections, replays and repeats of a present envelope leave the sheet alone |
| LedgerApproval.Ledger.CarryOut | packages/cloud-runtime/src/contract-ledger.ts:417-437 | updates and candidates of the plan are carried out as the mode allows, and keep all that readers saw of ids and numbers |
| LedgerApproval.Ledger.ClaimSync | packages/cloud-runtime/src/contract-ledger.ts:109-120 | a sync is granted unless it was completed or claimed less than five minutes ago |
| LedgerApproval.Ledger.Sync | packages/cloud-runtime/src/contract-ledger.ts:403-446 | a completed or running sync is left alone; one that is carried out is recorded as finished with its counts, its plan made from what was read and written out |
| LedgerApproval.Live | packages/cloud-runtime/src/contract-ledger.ts:403-469 | over any sequence of syncs and decisions, lost or interrupted anywhere: no envelope is entered twice while the sheet is shorter than what is read; a sheet in which each envelope and each number stands once stays so; approved envelopes are present; what readers saw stays |
| BackfillIdentity.StableHash | packages/cloud-runtime/src/meeting-minutes-backfill.ts:112-121 | the hash loop refines the recursive FNV-1a definition |
| BackfillIdentity.MixInjective | packages/cloud-runtime/src/meeting-minutes-backfill.ts:116-119 | one FNV-1a step is injective in the state and in the unit |
| BackfillIdentity.OneChangeIsSeen | packages/cloud-runtime/src/meeting-minutes-backfill.ts:112-121 | texts of equal length that differ in exactly one code unit hash differently from any seed |
| BackfillIdentity.WordShape | packages/cloud-runtime/src/meeting-minutes-backfill.ts:120 | a word is sixteen hexadecimal digits and can be read back |
| BackfillIdentity.SourceTextInjective | packages/cloud-runtime/src/meeting-minutes-backfill.ts:135 | the hashed text determines workspace, channel, timestamp and revision |
| BackfillIdentity.DeriveEventId | packages/cloud-runtime/src/meeting-minutes-backfill.ts:124-137 | the id of a valid source, or the first validation error |
| BackfillIdentity.EventIdIsBackfillId | packages/cloud-runtime/src/meeting-minutes-backfill.ts:136-142 | every derived id has the 32-hex shape |
| BackfillIdentity.OneCharacterChangesTheId | packages/cloud-runtime/src/meeting-minutes-backfill.ts:124-137 | messages whose hashed texts differ in one character get ids that differ in both words |
| BackfillIdentity.DispatchIdsAreApart | packages/cloud-runtime/src/meeting-minutes-backfill.ts:149-159 | a dispatch id is never a backfill id and belongs to one backfill id |
| Base64Url.DecodeOfEncode | packages/cloud-runtime/src/mana-development-control.ts:18-33 | decoding undoes encoding for every sequence of bytes except the empty one |
| ControlMessage.ValidateAnswers | packages/cloud-runtime/src/mana-development-control.ts:42-59 | accepts exactly one to ten well-formed answers with distinct ids |
| ControlMessage.SerializeResume | packages/cloud-runtime/src/mana-development-control.ts:61-72 | serialises exactly valid requests of at most 7,500 characters, else reports the first error; what it returns is read back as the request, also out of white space |
| ControlMessage.SerializeContinueGates | packages/cloud-runtime/src/mana-development-control.ts:74-76 | what it returns is read back as the same request, also out of white space; it refuses exactly invalid story ids and messages beyond 7,500 characters |
| ControlMessage.ParseControlRequest | packages/cloud-runtime/src/mana-development-control.ts:78-104 | refines the specification of what a request's text means |
| ControlMessage.SerializedIsParsedBack | packages/cloud-runtime/src/mana-development-control.ts:61-104 | whatever is serialised is parsed back to the same request, also out of surrounding white space |
| ControlMessage.SerializingIsInjective | packages/cloud-runtime/src/mana-development-control.ts:61-76 | different requests are never serialised as the same text |

## Left out

- Overlapping deliveries of one run: two live copies of the minutes record can overwrite each other, which the source
  does not prevent; the model runs deliveries one after the other.
- Integrate: task reconciliation, assignee lookup and the Task API are parameters or external calls; boundary details
  and timestamps of a failure are not kept.
- CancelTask: payload parsing, operator and team checks are one flag, and a deferred action is one delivery, not
  overlapping others.
- EditTask: likewise; opening the edit view and suggesting assignees change nothing and are not modelled.
- AdoptTasks: the endpoint's other checks are one flag, and the tasks are fetched in one call.
- ResolveContext: the receipt's own checks, hashing, placeholder patterns and the binding of minutes are parameters.
- Resume: the run is assumed to exist, timestamps, diagnostics other than the stage, and log lines are not kept, and
  the rendering of minutes into chunks is a parameter of the run (the splitter itself is `SlackSplit`).
- HandleRedo: ids that the Task API returns are taken as already trimmed.
- CorrectCase: routing, retries and responses of the admin endpoint are not modelled.
- Announce: file selection, creation of several runs for one message and the suggested destination are not modelled.
- Record: ghost bookkeeping of the log, not an operation of the source.
- Aliasing of the in-memory run record: the source mutates one object, the model reassigns one field holding a value.
- ClaimRun: setting the alarm cannot fail separately from the claim.
- JSON shapes of requests and stored values: typed; a stored value that fails its validator cannot arise from the
  modelled requests, and the invariants show it.
- RunScheduledAutonomy: reading the canonical state, issuing capabilities and the run itself are one result that may
  be absent; the experiment is given as parsed.
- ParseAgentOutput: JSON parsing with the checks of the answer's fields is a parameter.
- WrappedAnswerIsRecovered: assumes of that parameter that it accepts only texts of one JSON object between white
  space, and that the white space is immaterial.
- EmbeddedObjectIsFound: its JSON grammar admits more unquoted tokens than numbers and the three names.
- ParseTrace: parsing of one line and cleaning of one event are parameters.
- ReadBody: UTF-8 decoding is a parameter, and releasing or cancelling the stream is not modelled.
- BuildPlan: test-subject matching, subject cleaning, contract types and date formatting are parameters; ledger
  numbers are unbounded, the year is a natural number.
- Decide: the sheet is edited by nobody else, cells read back as written, and blank trailing rows do not occur.
- Sync: per-envelope results, failure texts and Slack messages of a sync are not modelled, only its counts.
- DeriveEventId: parsing of the operator's payload and validation of the Slack message are not modelled.
- SerializedIsParsedBack: JSON text in UTF-8 is a parameter assumed to read back what it wrote.
- Atob: defined on text without white space only, which is all that reaches it.
- Prompts, message rendering, modals, HTTP clients, queues, tenant boundaries, `index.ts` routing and the web package.
