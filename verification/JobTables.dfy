/**
 The `processing_jobs` and `files` tables, and each transaction on them as a function from
 tables to tables. The class Repositories.Database is the statement-by-statement code, proved
 against these functions; JobProtocol runs them in every interleaving.
 */
module JobTables {
  import opened Options
  import opened ErrorText
  import opened StorageKeys

  type JobId = nat
  type FileId = string
  type Millis = int

  datatype JobStatus = Queued | Processing | Succeeded | Failed
  datatype FileStatus = FileUploaded | FileQueued | FileProcessing | FileSucceeded | FileFailed

  datatype JobError = JobError(code: Text, message: Text)
  datatype Versions = Versions(prompt: string, schema: string)

  datatype JobRow = JobRow(
    fileId: FileId,
    status: JobStatus,
    attempts: int,
    maxAttempts: int,
    nextRunAt: Millis,
    lockedAt: Option<Millis>,
    lockedBy: Option<string>,
    heartbeatAt: Option<Millis>,
    lockTtlSeconds: int,
    lastError: Option<JobError>)

  datatype FileRow = FileRow(
    userId: string,
    originalKey: StorageKey,
    status: FileStatus,
    error: Option<JobError>,
    processingAttempts: int,
    processedAt: Option<Millis>,
    queuedAt: Option<Millis>,
    startedAt: Option<Millis>,
    reportKey: Option<StorageKey>,
    rawKey: Option<StorageKey>,
    versions: Option<Versions>)

  /** `jobOfFile` is the unique index on `processing_jobs (file_id)`. */
  datatype Tables = Tables(
    jobs: map<JobId, JobRow>,
    files: map<FileId, FileRow>,
    jobOfFile: map<FileId, JobId>)

  datatype Outcome = Committed(tables: Tables) | RolledBack(reason: string)

  datatype ClaimedJob = ClaimedJob(id: JobId, fileId: FileId, attempts: int, maxAttempts: int, lockTtlSeconds: int)

  const DEFAULT_LOCK_TTL_SECONDS := 300
  const ENQUEUED_MAX_ATTEMPTS := 4

  function Coalesce<T>(a: Option<T>, b: T): T {
    if a.Some? then a.value else b
  }

  // ----- claiming

  predicate LockIsFree(job: JobRow, now: Millis) {
    || job.lockedAt.None?
    || job.lockedBy.None?
    || Coalesce(job.heartbeatAt, job.lockedAt.value) <= now - job.lockTtlSeconds * 1000
  }

  predicate Ready(job: JobRow, now: Millis) {
    job.status == Queued && job.nextRunAt <= now && LockIsFree(job, now)
  }

  predicate Claimable(t: Tables, skip: set<JobId>, now: Millis, id: JobId) {
    id in t.jobs && id !in skip && Ready(t.jobs[id], now)
  }

  /** `ORDER BY next_run_at ASC, id ASC`. */
  predicate RunsBefore(t: Tables, a: JobId, b: JobId)
    requires a in t.jobs && b in t.jobs
  {
    t.jobs[a].nextRunAt < t.jobs[b].nextRunAt || (t.jobs[a].nextRunAt == t.jobs[b].nextRunAt && a <= b)
  }

  /** The row the claim query picks when the rows in `skip` are locked by other transactions. */
  ghost predicate IsCandidate(t: Tables, skip: set<JobId>, now: Millis, id: JobId) {
    Claimable(t, skip, now, id) && forall other | Claimable(t, skip, now, other) :: RunsBefore(t, id, other)
  }

  function ClaimTx(t: Tables, id: JobId, workerId: string, now: Millis): Outcome
    requires id in t.jobs
  {
    var job := t.jobs[id];
    if job.attempts + 1 > job.maxAttempts then RolledBack("processing_jobs_attempts_within_max_chk")
    else
      var claimed := job.(status := Processing, lockedAt := Some(now), lockedBy := Some(workerId),
                          heartbeatAt := Some(now), attempts := job.attempts + 1);
      Committed(t.(
        jobs := t.jobs[id := claimed],
        files := if claimed.fileId in t.files
                 then t.files[claimed.fileId := StartedFile(t.files[claimed.fileId], claimed.attempts, now)]
                 else t.files))
  }

  function StartedFile(file: FileRow, attempts: int, now: Millis): FileRow {
    file.(status := FileProcessing, error := None, startedAt := Some(Coalesce(file.startedAt, now)),
          processingAttempts := attempts)
  }

  /** The row returned by the claim statement joins the updated file. */
  function ClaimReturns(t: Tables, id: JobId): Option<ClaimedJob>
    requires id in t.jobs
  {
    var job := t.jobs[id];
    if job.fileId in t.files
    then Some(ClaimedJob(id, job.fileId, job.attempts + 1, job.maxAttempts, job.lockTtlSeconds))
    else None
  }

  // ----- finalizing

  datatype Verdict =
    | MarkSucceeded
    | MarkFailed(error: JobError)
    | Requeue(nextRunAt: Millis, error: JobError)

  function Sanitized(e: JobError): JobError {
    JobError(SanitizeErrorCode(e.code), SanitizeErrorMessage(e.message))
  }

  /** What a row stores of an error: its code and its message, each sanitized in its own way, and twice. */
  predicate Records(stored: JobError, code: Text, message: Text) {
    && stored.code == SanitizeErrorCode(code)
    && stored.message == SanitizeErrorMessage(SanitizeErrorMessage(message))
    && (StableCode(code) ==> stored.code == code) && (StableMessage(message) ==> stored.message == message)
  }

  function FinalizedJob(job: JobRow, verdict: Verdict): JobRow {
    var unlocked := job.(lockedAt := None, lockedBy := None, heartbeatAt := None);
    match verdict
    case MarkSucceeded => unlocked.(status := Succeeded, lastError := None)
    case MarkFailed(e) => unlocked.(status := Failed, lastError := Some(Sanitized(e)))
    case Requeue(at, e) => unlocked.(status := Queued, nextRunAt := at, lastError := Some(Sanitized(e)))
  }

  function FinalizedFile(file: FileRow, verdict: Verdict, attempts: int, now: Millis): FileRow {
    match verdict
    case MarkSucceeded =>
      file.(status := FileSucceeded, processedAt := Some(now), processingAttempts := attempts, error := None)
    case MarkFailed(e) =>
      file.(status := FileFailed, processedAt := Some(now), processingAttempts := attempts, error := Some(Sanitized(e)))
    case Requeue(_, _) =>
      file.(status := FileQueued, queuedAt := Some(Coalesce(file.queuedAt, now)),
          processingAttempts := attempts, error := None)
  }

  /** The guard `status = 'processing' AND locked_by = $2` of every finalization. */
  predicate HoldsLock(t: Tables, id: JobId, workerId: string) {
    id in t.jobs && t.jobs[id].status == Processing && t.jobs[id].lockedBy == Some(workerId)
  }

  function JobGuardError(verdict: Verdict): string {
    match verdict
    case MarkSucceeded => "job_mark_succeeded_failed"
    case MarkFailed(_) => "job_mark_failed_failed"
    case Requeue(_, _) => "job_requeue_failed"
  }

  function FileGuardError(verdict: Verdict): string {
    match verdict
    case MarkSucceeded => "file_mark_succeeded_failed"
    case MarkFailed(_) => "file_mark_failed_failed"
    case Requeue(_, _) => "file_requeue_failed"
  }

  function FinalizeTx(
    t: Tables, id: JobId, fileId: FileId, workerId: string, attempts: int, verdict: Verdict, now: Millis): Outcome
  {
    if !HoldsLock(t, id, workerId) then RolledBack(JobGuardError(verdict))
    else if fileId !in t.files then RolledBack(FileGuardError(verdict))
    else Committed(t.(
      jobs := t.jobs[id := FinalizedJob(t.jobs[id], verdict)],
      files := t.files[fileId := FinalizedFile(t.files[fileId], verdict, attempts, now)]))
  }

  function HeartbeatTx(t: Tables, id: JobId, workerId: string, now: Millis): Outcome {
    if !HoldsLock(t, id, workerId) then RolledBack("job_heartbeat_update_failed")
    else Committed(t.(jobs := t.jobs[id := t.jobs[id].(heartbeatAt := Some(now))]))
  }

  // ----- report metadata

  function SaveReportTx(t: Tables, fileId: FileId, key: StorageKey, versions: Versions): Outcome {
    if fileId !in t.files then RolledBack("file_report_metadata_update_failed")
    else Committed(t.(files := t.files[fileId := t.files[fileId].(reportKey := Some(key), versions := Some(versions))]))
  }

  function SaveRawTx(t: Tables, fileId: FileId, key: StorageKey, versions: Versions): Outcome {
    if fileId !in t.files then RolledBack("file_raw_output_metadata_update_failed")
    else Committed(t.(files := t.files[fileId := t.files[fileId].(rawKey := Some(key), versions := Some(versions))]))
  }

  // ----- uploading

  function NewFile(userId: string, originalKey: StorageKey): FileRow {
    FileRow(userId, originalKey, FileProcessing, None, 0, None, None, None, None, None, None)
  }

  function CreateFileTx(t: Tables, fileId: FileId, userId: string, originalKey: StorageKey): Outcome {
    if fileId in t.files then RolledBack("23505")
    else Committed(t.(files := t.files[fileId := NewFile(userId, originalKey)]))
  }

  function NewJob(fileId: FileId, now: Millis): JobRow {
    JobRow(fileId, Queued, 0, ENQUEUED_MAX_ATTEMPTS, now, None, None, None, DEFAULT_LOCK_TTL_SECONDS, None)
  }

  function EnqueueTx(t: Tables, fileId: FileId, id: JobId, now: Millis): Outcome {
    if fileId in t.jobOfFile || id in t.jobs then RolledBack("23505")
    else if fileId !in t.files then RolledBack("23503")
    else Committed(t.(jobs := t.jobs[id := NewJob(fileId, now)], jobOfFile := t.jobOfFile[fileId := id]))
  }

  predicate OwnsFile(t: Tables, fileId: FileId, userId: string) {
    fileId in t.files && t.files[fileId].userId == userId
  }

  function MarkFileQueuedTx(t: Tables, fileId: FileId, userId: string, now: Millis): Outcome {
    if !OwnsFile(t, fileId, userId) then RolledBack("file_not_found_for_queue_finalize")
    else
      var file := t.files[fileId];
      Committed(t.(files := t.files[fileId :=
        file.(status := FileQueued, queuedAt := Some(Coalesce(file.queuedAt, now)), error := None)]))
  }

  function MarkFileFailedTx(t: Tables, fileId: FileId, userId: string, error: JobError): Outcome {
    if !OwnsFile(t, fileId, userId) then RolledBack("file_not_found_for_failed_update")
    else Committed(t.(files := t.files[fileId := t.files[fileId].(status := FileFailed, error := Some(error))]))
  }
}
