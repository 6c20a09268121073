# gofunnel: a verified model

gofunnel takes call transcripts, queues one job per uploaded file, and lets workers turn
transcripts into reports with a language model. This project models the parts where
correctness depends on the order of steps, on many processes at once, or on a transformation
keeping its meaning, and proves what they promise.

## What is modelled

**The job queue** (`JobTables`, `Repositories`, `JobProtocol`, `Runtime`, and the modules
`JobInvariant`, `JobSteps`, `JobSettlement`, `UploadSteps`, `JobTheorems`, `JobStorage`,
`JobOriginals`, `JobTexts`, `JobErrors`, `JobColumns`, `JobRuns`, `JobReclaim`,
`JobTermination`, `JobRest`, `JobWitnesses`). `JobTables` has each transaction on
`processing_jobs` and `files` as a function; `Repositories` proves the statements of the
repositories, with their guards and rollbacks, against these functions. `JobProtocol`
interleaves any number of uploads, claims, handlers and heartbeats, one call to the database
or the object store at a time. Every call either commits and returns, throws without an
effect, or commits and throws; handlers and uploads may crash between two calls, and workers
may share an id. `Runtime` is the code of the upload, of the pipeline and of
`processClaimedJob` over a mutable database and store: at every await others may take any
steps of theirs (the contract of `Await` lets everything change but the handler's own record),
and each await is matched by the protocol step that it is. So the theorems about protocol runs
hold of the code. `JobWitnesses` has the concrete runs that show what can go wrong.
`JobErrors` and `JobColumns` list, await by await and column by column, what the steps and the
transactions do, for comparison with the source.

**The worker loop** (`Worker`, `RetryBackoff`, `ErrorText`, `StorageKeys`): what `run` does
with the jobs it claims, the retry schedule, the error sanitizers and the storage keys.

**The strict schema normalizer** (`SchemaNormalizer`, `SchemaRecords`, `SchemaSemantics`,
`SchemaExact`, `SchemaLimits`): the transformation, the code that performs it in place on
records, the meaning of schemas in JSON Schema draft 2020-12 (Core sections 8.2.3.1, 10.2.1.2,
10.3.1.1, 10.3.1.2, 10.3.2.1, 10.3.2.3 and Validation section 6.5.3), the theorem that output
conforming to the normalized schema still validates against the original one, and exactly
which of the original's instances it refuses.

**The access-request limiter** (`AccessRequests`, `AccessRequestTheorems`,
`AccessRequestAnswers`, `AccessRequestLocks`): hourly counters with lazy cleanup refine a
limiter that keeps and counts the whole history; run as interleaved transactions with row
locks they cannot deadlock.

**Smaller cores**: keyset pagination (`FileList`), one-time invites (`Invites`,
`InviteRaces`), and the migration stack (`Migrations`).

## What the proofs found

- RELIABILITY.md (lines 100-101, 124 and 135) promises that jobs of a dead worker are
  reclaimed. The claim query takes queued jobs only, and every write of `queued` empties the
  lock, so a processing job stays so for ever exactly when its handler is gone:
  `JobReclaim.ProcessingForEverIffStuck`, with a run in `JobReclaim.CrashLeavesStuckJob`. The
  model follows the code.
- infra/processing/schema_normalizer.test.ts:81 says that `allOf` is removed. The early
  return at infra/processing/schema_normalizer.ts:68-71 leaves it in place, and the model too.
- The upload writes `queued` after it has enqueued, so a claim or even a finalization can come
  first, and an enqueue that commits and throws leaves a job for a file that reads `failed`.
  `JobRuns.UploadWriteAgreesIff` and `JobRuns.FailedUploadAgreesIff` say for both ends of an
  upload when job and file agree; `JobRuns.ClaimCanComeFirst` and
  `JobRuns.FailedUploadCanLeaveJob` are runs in which they do not.
- A put that takes effect and throws is never compensated, and a report whose metadata was
  saved by a call that throws is deleted all the same. `JobStorage` proves that these are the
  only losses that matter, per object and per file. A lost original stays stored and unknown
  for ever; a lost report or raw output is as untraced as before, until a retry overwrites it;
  a row whose saving was lost names a deleted report unless the clean-up was refused.
- The list cursor keeps milliseconds of microsecond timestamps and can lose rows:
  `FileList.WalkIsCompleteIff` and `FileList.MicrosecondsAreLost`.
- Two attempts for one email can both create a request exactly when their clock hours differ
  or the clocks are a day apart: `AccessRequestLocks.BothCanCreateIff`.
- The normalizer keeps the meaning of a schema only under conditions on `required`, `anyOf`
  and `__proto__`; `SchemaLimits` has the exact condition on each.

## Assumptions

- One call to the database or the store is one atomic step, except where a module says
  otherwise (`AccessRequestLocks` and `InviteRaces` split transactions and hold row locks).
- One job per file, the checks on the lock pair and on attempts, and the unique indexes hold
  as the migrations declare them.
- Ids of users and files are UUIDs, hence without slashes; generated ids are new.
- The report validator (of a payload and a schema version; it may also throw) and the verdicts
  of reference-free schema keywords are arbitrary functions; the theorems hold for all of them.
- In `Migrations` every down script undoes its up script, and rows with equal `applied_at`
  come from one up run.

## Model

| member | source | states |
|---|---|---|
| `SchemaSemantics.NormalizingRefinesMeaning` | infra/processing/schema_normalizer.ts:5-126 | Every instance the normalized document accepts (its own `$defs` and recursive references included) is accepted by the original document, for every covered document and every verdict of the reference-free keywords |
| `SchemaSemantics.NormalizedRefines` | infra/processing/schema_normalizer.ts:5-57 | The same node by node, against the normalized and the original document, for every instance that has the keys enclosing nodes declare, by induction over reference uses and schema depth |
| `SchemaSemantics.ResolveInNormalized` | infra/processing/schema_normalizer.ts:33-34 | A `#/$defs/N`, `#/definitions/N` or `#` reference resolves in the normalized document to the normalization of what it named before |
| `SchemaSemantics.UntouchedRefines` | infra/processing/schema_normalizer.ts:68-71 | Parts carried over as they are (`allOf`, a schema under `additionalProperties`) change meaning only through the definitions they refer to, and only towards accepting less |
| `SchemaSemantics.MoreFuelAccepts` | infra/processing/schema_normalizer.ts:33-34 | In a document without `oneOf`, allowing more uses of references only accepts more, so validity, which asks for some number of uses, is acceptance for every larger number |
| `SchemaSemantics.AllKeptArePresent` | infra/processing/schema_normalizer.ts:50-55 | An instance of the normalized node has every property the original declares, but for `__proto__` |
| `SchemaSemantics.EmptiedAnyOf` | infra/processing/schema_normalizer.ts:72-79 | An `anyOf` all of whose branches become required-only, by losing an `anyOf` of their own included, is implied by the properties that are then required |
| `SchemaExact.NormalizedAcceptsExactly` | infra/processing/schema_normalizer.ts:5-126 | The normalized document accepts an instance if and only if the original accepts it and the instance fits: every object has all kept keys and no others unless `additionalProperties` speaks of them, a branch of every `anyOf` that survives accepts it, and no reference goes to a dropped definition |
| `SchemaExact.ValidAfterNormalizingIff` | infra/processing/schema_normalizer.ts:5-126 | The same for validity, whatever number of reference uses it takes |
| `SchemaExact.FittingStaysAccepted` | infra/processing/schema_normalizer.ts:5-57 | The direction that loses nothing, node by node: what the original node accepts and what fits is accepted after normalizing |
| `SchemaExact.AcceptedFits` | infra/processing/schema_normalizer.ts:36-56 | What a normalized node accepts fits the original node |
| `SchemaLimits.OverwritingRequiredIsSafeIff` | infra/processing/schema_normalizer.ts:50-55 | Replacing `required` by the property keys keeps every old requirement if and only if the old list named declared properties only |
| `SchemaLimits.DeletingAnyOfIsSafeIff` | infra/processing/schema_normalizer.ts:72-79 | Deleting an `anyOf` whose branches become required-only, cascades included, loses nothing if and only if one branch comes to name declared properties only |
| `SchemaLimits.CascadeIsCovered` | infra/processing/schema_normalizer.ts:72-79 | A branch that becomes required-only by losing its own `anyOf` is inside the refinement theorem |
| `SchemaLimits.UndeclaredRequirementIsLost` | infra/processing/schema_normalizer.ts:50-55 | A concrete schema with a requirement on an undeclared key, and an instance only the normalized form accepts |
| `SchemaLimits.AnyOfWithoutPropertiesIsLost` | infra/processing/schema_normalizer.ts:76-79 | A concrete `anyOf` on a node without properties whose removal accepts more |
| `SchemaLimits.DroppingProtoIsSafeIff` | infra/processing/schema_normalizer.ts:13-17 | A property named `__proto__` is dropped by the assignment to a plain object; the node still refines if and only if what it says about undeclared keys (`false` when it says nothing) implies the dropped schema and the required keys are still required |
| `SchemaNormalizer.FixpointsAreTheStrictSchemas` | infra/processing/schema_normalizer.ts:1-126 | Normalization is idempotent, and a schema is left unchanged if and only if it is in strict form at every visited node |
| `SchemaNormalizer.NormalizedIsStrict` | infra/processing/schema_normalizer.ts:5-126 | Every visited node of the result: object schemas have `additionalProperties`, non-empty properties make `required` exactly the property keys, no kept `oneOf` or `anyOf` is empty or holds a required-only fragment |
| `SchemaNormalizer.ObjectsAreClosed` | infra/processing/schema_normalizer.ts:36-56 | At every position the normalizer looks at, a schema of type object or with properties says what becomes of undeclared keys, and if it declares any it requires exactly these, in order |
| `SchemaNormalizer.AlternativesSayMore` | infra/processing/schema_normalizer.ts:72-81 | At every such position no `oneOf` or `anyOf` is empty or has a branch with nothing but a list of required keys and annotations |
| `SchemaNormalizer.ClosedWithFalse` | infra/processing/schema_normalizer.ts:36-43 | `additionalProperties` is what it was, or `false` on a schema of type object or with properties that says nothing of it, or absent |
| `SchemaNormalizer.LookupInNormalized` | infra/processing/schema_normalizer.ts:10-56 | What a lookup of `type`, `properties`, `additionalProperties` and `required` in the normalized node returns |
| `SchemaRecords.NormalizeSchemaNode` | infra/processing/schema_normalizer.ts:5-57 | The code that fills a mutable record in place, keyword by keyword, computes `Normalize` |
| `SchemaRecords.NormalizeSchemaArrayKeyword` | infra/processing/schema_normalizer.ts:59-82 | Writes or deletes one array keyword of the target record, leaving all others |
| `SchemaRecords.NormalizeSchemaMapKeyword` | infra/processing/schema_normalizer.ts:84-100 | Writes one map keyword of the target record, leaving all others |
| `SchemaRecords.KeepExpressible` | infra/processing/schema_normalizer.ts:72-74 | The filter loop keeps exactly the branches that are not required-only, in order |
| `SchemaRecords.CompleteObject` | infra/processing/schema_normalizer.ts:36-56 | The closing assignments of `additionalProperties` and `required` on the target record |
| `ErrorText.MessagePasses` | app/processing/worker.ts:281-288 | Two passes of `sanitizeErrorMessage` reach a text that no pass changes, and the texts left unchanged are exactly the non-empty, single-spaced, trimmed ones of at most 280 units |
| `ErrorText.OnePassIsEnoughIff` | app/processing/worker.ts:281-288 | One pass is already stable unless the cut at 280 falls right after a space, and not otherwise |
| `ErrorText.PassOverOncePassed` | app/processing/worker.ts:281-288 | A second pass strips at most that one trailing space |
| `ErrorText.MessageIsItsWords` | app/processing/worker.ts:281-288 | A message is the words of the error with one space between them, cut after 280 units, or `unknown_error` when there is no word |
| `ErrorText.CodeUnits` | app/processing/worker.ts:273-279 | A code in ASCII is the error code without the spaces around it, cut after 64 units, with letters in lower case and everything else as an underscore |
| `ErrorText.CodePasses` | app/processing/worker.ts:273-279 | One pass of `sanitizeErrorCode` gives 1 to 64 units of [a-z0-9_], and these are exactly its fixpoints |
| `StorageKeys.KeyTextIsInjective` | app/processing/report_pipeline_processor.ts:269-275 | Report, raw-output and original keys are pairwise distinct and injective in user and file for ids without slashes |
| `StorageKeys.SlashesShareKeys` | app/files/service.ts:322-328 | With slashes in the ids two users can share a key |
| `StorageKeys.OperationsAgree` | app/processing/report_pipeline_processor.ts:255-266 | Putting, deleting and reading by key text is the same as by structured key |
| `Repositories.Database.SelectCandidate` | infra/processing/postgres_processing_job_repository.ts:41-55 | The scan returns a queued, due row that no other transaction has locked and before which, by `next_run_at` and then by id, no such row comes; or none when there is none |
| `Repositories.Database.ClaimReadyJob` | infra/processing/postgres_processing_job_repository.ts:31-103 | Claims the ready row with the least `next_run_at`, and of those the least id, counts the attempt, marks its file, or rolls everything back when the attempts check fails |
| `Repositories.Database.MarkSucceeded` | infra/processing/postgres_processing_job_repository.ts:223-272 | Both rows are finalized, or none: the guards on the lock holder and on the file row decide |
| `Repositories.Database.MarkFailed` | infra/processing/postgres_processing_job_repository.ts:274-328 | The same for a failure, with the sanitized error in both rows |
| `Repositories.Database.RequeueWithBackoff` | infra/processing/postgres_processing_job_repository.ts:330-386 | The same for a requeue, which empties the lock |
| `Repositories.Database.TouchHeartbeat` | infra/processing/postgres_processing_job_repository.ts:203-221 | Renews the heartbeat of a lock still held by the worker, or throws without an effect |
| `Repositories.Database.SaveReportMetadata` | infra/processing/postgres_processing_job_repository.ts:155-177 | Sets the report columns of an existing file, or throws without an effect |
| `Repositories.Database.SaveRawMetadata` | infra/processing/postgres_processing_job_repository.ts:179-201 | Sets the raw-output columns of an existing file, or throws without an effect |
| `Repositories.Database.EnqueueForFile` | infra/processing/postgres_processing_job_repository.ts:105-122 | One job per file: a second insert is a unique violation without an effect |
| `Repositories.Database.CreateProcessingFile` | infra/files/postgres_file_repository.ts:15-44 | Inserts the file row in state processing |
| `Repositories.Database.MarkFileQueued` | infra/files/postgres_file_repository.ts:46-52 | Writes queued whatever the file reads, if the user owns it |
| `Repositories.Database.MarkFileFailed` | infra/files/postgres_file_repository.ts:54-76 | Writes failed with the error, if the user owns the file |
| `JobColumns.RunKeepsRows` | infra/processing/postgres_processing_job_repository.ts:58-386 | In every run a file keeps its owner, its key and the times of its first queueing and first start; a job keeps its file, its limit and its lock time and never loses an attempt |
| `JobColumns.EveryJobHasFourAttempts` | infra/processing/postgres_processing_job_repository.ts:105-122 | Every job of a reachable state has four attempts and a lock of five minutes |
| `Runtime.System.Process` | app/processing/report_pipeline_processor.ts:97-131 | The pipeline code, with anything others may do during each await, goes through the phases of one protocol handler, and returns without an error exactly when it ends ready to be marked succeeded |
| `Runtime.System.GetFileContext` | infra/processing/postgres_processing_job_repository.ts:124-153 | A missing file row or a failed call ends in the error the catch block will see |
| `Runtime.System.ReadOriginalTranscript` | app/processing/report_pipeline_processor.ts:133-155 | Read, trim and emptiness check, with the code and retriability of each error |
| `Runtime.System.CallLlmAdapter` | app/processing/report_pipeline_processor.ts:157-180 | A retriable adapter error keeps its code and stays retriable, any other becomes fatal |
| `Runtime.System.AnalyzeAndValidate` | app/processing/report_pipeline_processor.ts:110-125 | The adapter call and the validation of its answer under the schema version it came with decide the branch that follows; a validator that throws reaches the catch block of the worker as a fatal error |
| `Runtime.System.PersistRawOutputOnSchemaFailure` | app/processing/report_pipeline_processor.ts:182-213 | Raw output is stored, then recorded; a failed record is logged and not fatal |
| `Runtime.System.PersistReportArtifacts` | app/processing/report_pipeline_processor.ts:215-253 | Put, then record; if the record fails the object is cleaned up before the error is thrown |
| `Runtime.System.CleanupWrittenArtifacts` | app/processing/report_pipeline_processor.ts:255-266 | The stored report is deleted, or logged as an orphan |
| `Runtime.System.ClaimReadyJob` | infra/processing/postgres_processing_job_repository.ts:31-103 | The claim as a protocol step: a handler is at work exactly if a job is handed back |
| `Runtime.System.ProcessClaimedJob` | app/processing/worker.ts:139-193 | Every call ends, as one protocol handler: an error of the pipeline or of `markSucceeded` ends in the same catch, which requeues or fails the job |
| `Runtime.System.RequeueOrFail` | app/processing/worker.ts:163-190 | The catch block finalizes once, with the delay or the failure its conditions choose; when it returns, the job row has the code and the message of the error, each sanitized and in its own column, and so has the file of a failed job |
| `Runtime.System.UploadFile` | app/files/service.ts:86-182 | The upload, with anything others may do during each await, goes through the phases of one protocol upload, for the given user, key and whole text |
| `Runtime.System.EnqueueOrCompensate` | app/files/service.ts:124-175 | Enqueue (a unique violation is as good), mark queued, and otherwise delete, mark failed and log |
| `Runtime.System.StateIsReachable` | app/processing/worker.ts:139-193 | Whatever state the code has led the tables and the store to is a reachable state of the protocol |
| `UploadSteps.StepKeepsInv` | infra/processing/postgres_processing_job_repository.ts:31-386 | Every step of any upload, handler, claim, heartbeat or crash keeps the invariant of all jobs, files, handlers and stored objects |
| `UploadSteps.ReachableInv` | infra/processing/postgres_processing_job_repository.ts:31-386 | The invariant holds in every reachable state |
| `UploadSteps.StepIsAboutFile` | app/processing/report_pipeline_processor.ts:269-275 | Every step leaves everything that belongs to other files as it is |
| `JobTheorems.LockIsHeldExactlyWhileProcessing` | infra/processing/postgres_processing_job_repository.ts:40-51 | In every reachable state attempts are within the limit, queued jobs have attempts left, the lock columns are set exactly while processing, and the stale-lock test never decides anything |
| `JobTheorems.ClaimNeverViolatesTheCheck` | infra/processing/postgres_processing_job_repository.ts:56-88 | The unguarded increment never breaks the attempts check, and no processing job is ever handed out |
| `JobTheorems.ClaimsTakeTheOldest` | infra/processing/postgres_processing_job_repository.ts:41-55 | A claim takes a queued, due, unlocked job; no such job is older by `next_run_at` and then id, before the claim or after it |
| `JobTheorems.WaitingJobsCanBeClaimed` | infra/processing/postgres_processing_job_repository.ts:41-55 | Whenever a queued, due, unlocked job exists, a claim is possible |
| `JobTheorems.ClaimsAndFinalizationsAlternate` | app/processing/worker.ts:139-193 | A job hands out attempts 1, 2, 3, ... once each; each claim is followed by at most one committed finalization, of the same handler and number; nothing follows success or failure; at most 2 * maxAttempts events in all |
| `JobTheorems.OneLiveHandlerPerJob` | app/processing/worker.ts:195-218 | At no time are two calls at work on one job, even with shared worker ids, crashes and lost acknowledgements |
| `JobTheorems.FinalizationWritesRowAttempts` | infra/processing/postgres_processing_job_repository.ts:223-386 | The attempts a committed finalization writes are the job row's at that moment |
| `JobTheorems.RecoveryWaitsOrFails` | app/processing/worker.ts:163-190 | What a committed catch block leaves: with a retriable error and attempts left the job is claimable exactly from the end of the next attempt's backoff, within a fifth of it; otherwise it has failed and is never claimable |
| `JobErrors.RecordedErrorIsTheThrownOne` | app/processing/worker.ts:163-191 | After a committed catch block the job row has the sanitized code and the sanitized message of the error that was thrown, unchanged if they are stable; the file shows the same error if the job failed and none if it is requeued |
| `JobErrors.SuccessClearsTheError` | infra/processing/postgres_processing_job_repository.ts:223-272 | A committed success clears the error of job and file and dates the file |
| `JobErrors.UploadBeginsIff` | app/files/service.ts:101-110 | An upload goes on if and only if the row of its file was inserted and that was acknowledged |
| `JobErrors.FailedUploadShowsItsError` | app/files/service.ts:184-199 | The failing end of an upload writes its error to the file unless the write is refused |
| `JobTexts.UploadedTextIsStored` | app/files/service.ts:112-122 | In every run, what is stored for an upload is the whole text of its request, under the key of its user and extension, and it is stored as long as the upload has not failed |
| `JobTexts.ModelReadsUploadedText` | app/processing/report_pipeline_processor.ts:133-155 | A handler goes on to the model if and only if the read is answered, the original of its own file is stored, and its text is not blank |
| `JobTexts.StoredReportsAreAccepted` | app/processing/report_pipeline_processor.ts:112-131 | Every object stored under a report key was accepted by the validator, orphans and losses included; originals and raw outputs are what their keys say |
| `JobTexts.RawOutputWasRefused` | app/processing/report_pipeline_processor.ts:182-197 | While raw output is being recorded, what is stored is the text the validator refused |
| `JobTheorems.SucceededFileHasAcceptedReport` | app/processing/report_pipeline_processor.ts:97-131 | A file that reads succeeded has a succeeded job, its report key set, and an accepted report under that key, in every interleaving of uploads and workers |
| `JobTheorems.FetchedReportsAreAccepted` | app/files/service.ts:290-319 | An owner gets a report exactly when the file succeeded and the store answers, and then the stored one, which the validator accepted; when the other answers are given |
| `JobStorage.ObjectsAreAccountedFor` | app/files/service.ts:112-175 | In every reachable state, busy or not, crashes and lost acknowledgements elsewhere included, each stored report, raw output and original is referenced by its row, has a job or is logged, or its writer is about to do so or crashed just before, unless the put of that very object took effect and threw |
| `JobStorage.EndedFilesAreTraced` | app/files/service.ts:112-175 | Once the upload and the handlers of one file have ended, its objects are referenced, have a job or are logged, whatever the rest of the system is doing |
| `JobStorage.RowsReferToStoredReports` | app/processing/report_pipeline_processor.ts:234-252 | A row that names a report names a stored one, unless the metadata of that file was saved by a call that threw |
| `JobStorage.OriginalIsTracedIff` | app/files/service.ts:112-175 | Once the upload and the handlers of a file have ended, its stored original has a job or is logged if and only if its put did not take effect and throw |
| `JobStorage.LostOriginalStaysUntraced` | app/files/service.ts:112-122 | In any reachable state, a put of the original that takes effect and throws, followed by the rest of the upload, leaves the object stored without a job and without a log event |
| `JobOriginals.LostOriginalIsNeverTraced` | app/files/service.ts:112-122 | From such a put on the original stays stored, without a job and without a log event, in every continuation |
| `JobStorage.LostPutStaysUntraced` | app/processing/report_pipeline_processor.ts:182-197 | A put of a report or raw output that takes effect and throws, and whatever the catch block of its handler does then, add nothing that refers to the object or logs it |
| `JobStorage.LostSaveRefersToNothing` | app/processing/report_pipeline_processor.ts:234-252 | The converse for rows: metadata saved by a call that throws, and the clean-up, leave a row that names a deleted report exactly unless the deletion is refused |
| `JobStorage.EveryKindOfLossBreaks` | app/processing/report_pipeline_processor.ts:255-266 | For the original, the report, the raw output and the metadata of a report there is a run from the empty system that one such call breaks |
| `JobRuns.ChangeOf` | infra/processing/postgres_processing_job_repository.ts:31-386 | One step changes a job by a claim, by its holder's finalization, or not at all |
| `JobRuns.CommittedChangesAgree` | infra/processing/postgres_processing_job_repository.ts:223-386 | Every committed claim or finalization makes job and file agree on status, attempts and failure error |
| `JobRuns.RowsAgreeForEver` | infra/processing/postgres_processing_job_repository.ts:223-386 | Once the upload has ended and the rows agree, they agree in every later state |
| `JobRuns.UploadWriteAgreesIff` | app/files/service.ts:126-138 | Right after the upload has written `queued` the rows agree if and only if the job is queued |
| `JobRuns.FailedUploadAgreesIff` | app/files/service.ts:139-175 | Right after the other end of an upload, with a job that exists all the same, the rows agree if and only if the job failed with the same error, or agreed before when the write had no effect; the log says that there is no job |
| `JobRuns.ClaimCanComeFirst` | app/files/service.ts:124-138 | The race happens: a run ends with a processing job whose file reads `queued` |
| `JobRuns.FailedUploadCanLeaveJob` | app/files/service.ts:139-175 | So does the failing end: a queued job whose file reads `failed` and whose original is deleted |
| `JobRuns.UploadBeforeClaimAgrees` | app/files/service.ts:124-138 | If that write precedes the first claim, the rows agree in every later state |
| `JobRuns.AttemptsAlwaysAgree` | infra/processing/postgres_processing_job_repository.ts:67-80 | Job and file always show the same attempts, and the error of a job is unchanged by further sanitizing |
| `JobReclaim.ProcessingForEverIffStuck` | infra/processing/postgres_processing_job_repository.ts:43-51 | A processing job stays processing in every continuation of the run if and only if the handler of its latest claim is gone |
| `JobReclaim.StuckJobsAreNeverReclaimed` | infra/processing/postgres_processing_job_repository.ts:43-51 | Such a job keeps its status and its attempts in every continuation |
| `JobReclaim.LosingTheHolderSticks` | app/processing/worker.ts:139-193 | Every crash of a holder, and every finalization of its catch block that throws without an effect, makes the job such a job |
| `JobReclaim.CrashLeavesStuckJob` | app/processing/worker.ts:139-193 | A run from the empty system that ends so: an upload, a claim and a crash |
| `JobReclaim.IdleJobsAreSettledOrStuck` | app/processing/worker.ts:139-193 | With nobody at work a processing job is stuck, behind a crash or a finalization that threw |
| `JobReclaim.EndedJobsAreDoneOrClaimable` | app/processing/worker.ts:139-193 | When every handler has ended without a crash or a throwing finalization, every job has succeeded, has failed, or can be claimed as soon as it is due |
| `JobTermination.StepLowersRank` | app/processing/worker.ts:139-240 | Claims, handler steps, upload steps and crashes all lower a rank over remaining attempts and phases |
| `JobTermination.RunsAreFinite` | app/processing/worker.ts:139-240 | From the empty system, n uploads allow at most 57 n steps other than heartbeats, whatever the schedule and the faults |
| `JobRest.EveryRunSettles` | app/processing/worker.ts:139-240 | From every reachable state only so many steps follow as its rank says, unless uploads begin or heartbeats come; a run that uses them up has come to rest, and wherever a run rests every job has succeeded, has failed or is stuck |
| `JobRest.RestingIffNobodyAtWork` | app/processing/worker.ts:139-240 | Nothing but heartbeats and new uploads is possible if and only if no upload and no handler is at work and no job is queued |
| `JobRest.RestingJobsAreSettledOrStuck` | app/processing/worker.ts:139-240 | In a state of rest every job has succeeded, has failed or is stuck; when all handlers ended in order none is stuck |
| `JobRest.EveryJobCanSettle` | app/processing/worker.ts:139-240 | Every reachable state has a continuation without faults and crashes that comes to rest with every job that is not stuck already succeeded or failed |
| `RetryBackoff.DelayWithinJitter` | app/processing/worker.ts:221-240 | For every random value, NaN and infinities included, the delay is within a fifth of the base delay |
| `RetryBackoff.BackoffSchedule` | app/processing/worker.ts:63-69 | The three delays of four attempts lie in disjoint increasing ranges and sum to 504000 to 756000 ms |
| `RetryBackoff.BackoffBoundsAreReached` | app/processing/worker.ts:221-240 | Both ends of that range are reached |
| `Worker.ProcessingWorker.FillConcurrencySlots` | app/processing/worker.ts:195-218 | Never more than `concurrency` calls in flight; each job that an answer handed out gets exactly one call, in order, even when `stop` comes during its claim; without `stop` or a throwing claim it goes on asking until the slots are full or the last answer was null |
| `Worker.ProcessingWorker.Run` | app/processing/worker.ts:113-133 | Starts by claiming when a slot is free, sleeps only when all slots are taken or the last claim found nothing, returns only after `stop`, or throws what a claim threw, and then with every claimed job settled and none in flight; a second run is refused without an effect |
| `Worker.HeartbeatBeatsTheLockIff` | app/processing/worker.ts:242-245 | A punctual heartbeat comes before the lock counts as stale if and only if its time to live is at least two seconds |
| `Worker.ThreeHeartbeatsPerLock` | app/processing/worker.ts:242-245 | Three heartbeats fit into a lock of three seconds or more, and there is never more than one a second |
| `AccessRequests.AccessRequestRepository.PersistAccessRequestAttempt` | infra/access_requests/postgres_access_request_repository.ts:26-79 | The attempt as committed, or rolled back with only the tick advanced; every hundredth attempt of the process cleans up |
| `AccessRequests.AccessRequestRepository.FindRecentDuplicate` | infra/access_requests/postgres_access_request_repository.ts:208-227 | Finds an unrejected request of the last 24 hours if and only if there is one |
| `AccessRequests.AccessRequestRepository.IncrementRateLimitBucket` | infra/access_requests/postgres_access_request_repository.ts:170-206 | The upsert counts one hit and returns the new count |
| `AccessRequests.AccessRequestRepository.CleanupOldRateLimitBuckets` | infra/access_requests/postgres_access_request_repository.ts:156-168 | Removes exactly the counters older than fourteen days |
| `AccessRequests.AccessRequestRepository.UpdateStatusForAdmin` | infra/access_requests/postgres_access_request_repository.ts:103-132 | Sets the status of one request, whatever it was, and nothing else |
| `AccessRequests.AttemptMirrors` | infra/access_requests/postgres_access_request_repository.ts:40-72 | One attempt on the table of counters is answered, and leaves the table, as counting the whole history demands |
| `AccessRequests.TableMirrorsHistory` | infra/access_requests/postgres_access_request_repository.ts:26-79 | The same for every sequence of attempts and admin decisions, with cleanups at any of them |
| `AccessRequestAnswers.AnswerFromHistory` | infra/access_requests/postgres_access_request_repository.ts:26-79 | Whatever came before, an attempt is refused by address if ten attempts from it fell into the same clock hour, by email if three that passed the first limit did, as a duplicate if an unrejected request of that email is at most a day old, and otherwise accepted |
| `AccessRequestAnswers.AnswerOfOneAttempt` | infra/access_requests/postgres_access_request_repository.ts:40-72 | The same for one attempt on the tables, with the row that an accepted one inserts |
| `AccessRequestAnswers.OthersDoNotMatter` | infra/access_requests/postgres_access_request_repository.ts:40-72 | Only the counters of its own address and email and the requests of its own email decide an attempt |
| `AccessRequestAnswers.RequestsAreAcceptedAttempts` | infra/access_requests/postgres_access_request_repository.ts:66-72 | The requests are the accepted attempts, in order, with their emails and the times of the database |
| `AccessRequestAnswers.FirstAttemptIsAccepted` | infra/access_requests/postgres_access_request_repository.ts:208-227 | Whoever has not attempted before is accepted, whatever everybody else did, unless the address is used up |
| `AccessRequestTheorems.OutcomesMatchHistoryIff` | infra/access_requests/postgres_access_request_repository.ts:26-79 | All runs are answered as if the full history were counted if and only if the clock falls back by at most fourteen days less an hour (plus one millisecond) |
| `AccessRequestTheorems.ForgottenCounter` | infra/access_requests/postgres_access_request_repository.ts:156-168 | For every larger fallback a run in which a full counter is forgotten |
| `AccessRequestTheorems.HitCountsAreAttempts` | infra/access_requests/postgres_access_request_repository.ts:170-206 | Hit counts are the attempts that reached the counter, refused ones included |
| `AccessRequestTheorems.CreationsPerBucket` | infra/access_requests/postgres_access_request_repository.ts:40-72 | No clock hour yields more than 10 creations per IP nor 3 per email |
| `AccessRequestTheorems.CreationsPerHour` | infra/access_requests/postgres_access_request_repository.ts:151-154 | No stretch of sixty minutes yields more than 20 and 6 |
| `AccessRequestTheorems.UnrejectedRequestsAreADayApart` | infra/access_requests/postgres_access_request_repository.ts:208-227 | Requests for one email that are never rejected are created more than 24 hours apart, in any order of clock values |
| `AccessRequestTheorems.ReapprovedRequestsCanCoincide` | infra/access_requests/postgres_access_request_repository.ts:103-131 | A concrete run in which a rejected request is approved again next to its replacement |
| `AccessRequestLocks.NoWaitingCycle` | infra/access_requests/postgres_access_request_repository.ts:40-64 | In every interleaving no chain of waiting transactions has more than three members, so none is a cycle |
| `AccessRequestLocks.SomebodyCanMove` | infra/access_requests/postgres_access_request_repository.ts:40-72 | Whenever a transaction is under way, one can go on |
| `AccessRequestLocks.CommitCountsAsIfAlone` | infra/access_requests/postgres_access_request_repository.ts:40-66 | A commit changes the counters, and is limited, exactly as the attempt would have been running alone at that moment |
| `AccessRequestLocks.BothCanCreateIff` | infra/access_requests/postgres_access_request_repository.ts:54-72 | For any two attempts for one email, some interleaving lets both create a request, with neither ever rejected, if and only if their clock hours differ or the clock of one is more than 24 hours past the database time of the other |
| `AccessRequestLocks.NeverBothCreateIff` | infra/access_requests/postgres_access_request_repository.ts:54-72 | In one clock hour two attempts for one email never both create a request while neither is rejected, if and only if the clock of the program is at most 23 hours and one millisecond ahead of the database |
| `AccessRequestLocks.AcrossTheHourBothCreate` | infra/access_requests/postgres_access_request_repository.ts:38-71 | For all attempts for one email in different clock hours, with or without an IP, a run in which both create |
| `AccessRequestLocks.FarClocksBothCreate` | infra/access_requests/postgres_access_request_repository.ts:208-227 | For all attempts for one email of which one clock is a day past the database time of the other, a run in which both create |
| `FileList.WalkIsCompleteIff` | app/files/service.ts:224-241 | Following the cursors yields exactly the user's rows, newest first, if and only if each page's cursor finds the row after it; then in as few pages as possible |
| `FileList.PageCountIsCeiling` | app/files/service.ts:224-241 | That is one page for no rows and otherwise n / limit rounded up |
| `FileList.PageSizes` | app/files/service.ts:380-390 | Limits that are no positive integers are refused, and only they; a page holds at most 100 rows and at most what was asked for, and is full whenever there is a next one |
| `FileList.ListForUserIsAPage` | app/files/service.ts:224-241 | A page has rows of the user after the given cursor only, newest first, and the newest of them; there is a next cursor if and only if such a row is left, and it is the place of the last row shown, in whole milliseconds |
| `FileList.MillisecondWalkIsComplete` | infra/files/postgres_file_repository.ts:78-142 | For timestamps of whole milliseconds the walk is complete for every page size |
| `FileList.MicrosecondsAreLost` | app/files/service.ts:237-240 | Two rows of one millisecond of which the older is never shown, because the cursor is a Date |
| `FileList.WalkWhileGrowing` | infra/files/postgres_file_repository.ts:93-110 | Whatever is inserted between the pages, rows come in order without repeats and every row present at the start is shown |
| `FileList.SkippedByCursorOf` | infra/files/postgres_file_repository.ts:103-106 | Which rows a cursor leaves out |
| `Invites.InviteRepository.AcceptInvite` | infra/invites/postgres_invite_repository.ts:110-192 | The transaction with its guards and rollbacks: unusable tokens and existing users leave every table unchanged |
| `Invites.InviteRepository.PersistInviteForAdmin` | infra/invites/postgres_invite_repository.ts:36-108 | Approves the request and inserts the invite, or rolls both back |
| `Invites.AcceptAnswers` | infra/invites/postgres_invite_repository.ts:116-178 | The answer to an acceptance from the rows: which invites are usable, who is refused, and the user and the use that are written |
| `Invites.InviteAnswers` | infra/invites/postgres_invite_repository.ts:42-102 | The answer to an invitation from the rows, and every column of the invite and of the approval |
| `Invites.AcceptKeepsInvites` | infra/invites/postgres_invite_repository.ts:110-192 | Acceptance keeps used_at paired with used_by, the indexes, and used invites injective into users with their own emails |
| `Invites.InviteKeepsInvites` | infra/invites/postgres_invite_repository.ts:36-108 | So does inviting, which also keeps handled_by paired with handled_at |
| `InviteRaces.AnswersAreSequential` | infra/invites/postgres_invite_repository.ts:110-192 | In every interleaving each step that decides an answer decides it, and changes the tables, as the transaction running alone at that moment |
| `InviteRaces.NoWaitingCycle` | infra/invites/postgres_invite_repository.ts:116-178 | No chain of transactions that wait for a row or for a unique index has more than three members, so none is a cycle |
| `InviteRaces.InviteIsAcceptedOnce` | infra/invites/postgres_invite_repository.ts:116-134 | Two accepted transactions for one token are the same transaction |
| `InviteRaces.AcceptedUserIsTheApplicant` | infra/invites/postgres_invite_repository.ts:138-178 | Whoever was told `accepted` has, in every later state, an account with the email of the invite and the password of that acceptance |
| `InviteRaces.UsedInvitesInjectIntoUsers` | infra/invites/postgres_invite_repository.ts:116-178 | In every reachable state used_at is set exactly when used_by is, before the expiry, and used invites inject into users with equal and pairwise distinct emails |
| `Migrations.Migrator.ApplySqlWithBookkeeping` | infra/db/migrator.ts:55-79 | One script and its row commit together or not at all, also when COMMIT takes effect and throws, and keep the schema the fold of the stack; it returns if and only if it committed and the connection held |
| `Migrations.Migrator.MigrateUp` | infra/db/migrator.ts:81-102 | Pushes a prefix of the pending migrations in order, failures midway and a lost COMMIT included; returns if and only if every pending script succeeds on the schema left by the ones before it and no connection breaks |
| `Migrations.Migrator.RollbackLast` | infra/db/migrator.ts:104-137 | Pops the newest migrations, failures midway and a lost COMMIT included; for a positive number of steps returns if and only if all of them have local files and no connection breaks, and then it has popped exactly those, newest first |
| `Migrations.Migrator.SelectLast` | infra/db/migrator.ts:115-123 | The last k rows by (applied_at, version) are the top of the stack in reverse |
| `Migrations.UpIsPush` | infra/db/migrator.ts:62-73 | An applied up script with its row extends the fold by one |
| `Migrations.DownIsPop` | infra/db/migrator.ts:62-73 | A down script with its row takes the fold one step back |
| `Migrations.EverythingIsApplied` | infra/db/migrator.ts:81-102 | After an up run that returned nothing is pending, so a second one applies nothing |
| `Migrations.PendingMembers` | infra/db/migrator.ts:139-155 | Pending and applied split the local files by the bookkeeping rows |

## Left out

- Updated-at columns, file names, MIME types and sizes: no modelled decision reads them.
- The fallback of the queued update for databases without the `queued_at` column (infra/files/postgres_file_repository.ts:244-260): one static branch.
- Delayed writes and deletes of the object store: an operation takes effect before the call ends, or not at all.
- Deletion of users and files, and the `ON DELETE` actions that follow.
- What the language model, the HTTP layer, the S3 and PostgreSQL drivers and JSON parsing do: a call to the model returns anything or throws, stored JSON is the value itself, doubles are reals in the backoff.
- Surrogate pairs and Unicode case mapping: text is UTF-16 code units, and lower-casing outside ASCII only has to land outside [a-z0-9_] except for the units `MaskUnit` names.
- Which storage and database errors count as retriable (app/processing/report_pipeline_processor.ts:304-365): every call may fail either way.
- SchemaSemantics.NormalizingRefinesMeaning: does not cover `oneOf`, `not`, `if`, `contains`, `unevaluatedProperties`, `patternProperties` and references in escaped or remote forms, because the first five are not monotone in their subschemas and a reference must stay resolvable inside the document. `oneOf` is part of the strict-form and idempotence theorems.
- SchemaExact.NormalizedAcceptsExactly: is about the documents that `SchemaSemantics.NormalizingRefinesMeaning` covers, because a `oneOf` can accept more when its branches accept less.
- SchemaSemantics.NormalizedRefines: keywords without references are judged from their own value and the instance, so keywords that look at their siblings other than `additionalProperties` and `items` are not modelled.
- SchemaLimits.DroppingProtoIsSafeIff: is about nodes with `properties`, `required` and perhaps `additionalProperties`, whose other properties take any value, because next to keywords that reject more the condition is sufficient (`SchemaSemantics.NormalizedRefines`) and not necessary.
- AccessRequestLocks.CommitCountsAsIfAlone: takes the cleanup at the start of an attempt as one atomic, committed step that meets no locked old counters.
- AccessRequests.AccessRequestRepository.PersistAccessRequestAttempt: names, companies and messages of requests are not stored, and the email stands for its hash.
- Handlers and times of admin decisions on access requests outside the invite transaction.
- Invites.InviteRepository.AcceptInvite: checks on the shape of emails and token hashes are not modelled, because invites and users share them.
- Migrations.Migrator.MigrateUp: versions are numbers, so that JavaScript's and PostgreSQL's orders of file names agree; one migrator at a time.
- FileList.WalkWhileGrowing: rows are only added between pages; a deleted row may of course be missing.
- Worker.ProcessingWorker.Run: a run that nobody ever stops does not return, so the environment calls `stop` after some number of awaits, however large.
- The heartbeat timer as a process of its own: in the protocol a heartbeat may happen at any time while the lock is held.
- Sessions, report shares, user administration, environment parsing, rendering and routing: single checks or user interface.
