/**
 The repositories of infra/processing and infra/files, statement by statement, over one
 mutable database. Every method runs in a transaction that is undone when a guard fails,
 and is proved against the corresponding function of JobTables.
 */
module Repositories {
  import opened Options
  import opened ErrorText
  import opened StorageKeys
  import opened JobTables

  datatype Reply<+T> = Returned(value: T) | Threw(error: string)

  /** What a transaction leaves behind and answers. */
  ghost predicate Performs<T>(before: Tables, tx: Outcome, after: Tables, reply: Reply<T>, value: T) {
    match tx
    case Committed(t) => after == t && reply == Returned(value)
    case RolledBack(reason) => after == before && reply == Threw(reason)
  }

  class Database {
    var jobs: map<JobId, JobRow>
    var files: map<FileId, FileRow>
    var jobOfFile: map<FileId, JobId>

    function Snapshot(): Tables
      reads this
    {
      Tables(jobs, files, jobOfFile)
    }

    method Rollback(saved: Tables)
      modifies this
      ensures Snapshot() == saved
    {
      jobs, files, jobOfFile := saved.jobs, saved.files, saved.jobOfFile;
    }

    /** The candidate query: the least ready row by (next_run_at, id) that is not locked by others. */
    method SelectCandidate(skip: set<JobId>, now: Millis) returns (candidate: Option<JobId>)
      ensures candidate.Some? ==> IsCandidate(Snapshot(), skip, now, candidate.value)
      ensures candidate.None? ==> forall id :: !Claimable(Snapshot(), skip, now, id)
      ensures candidate.Some? ==>
                && candidate.value in jobs && candidate.value !in skip
                && jobs[candidate.value].status == Queued && jobs[candidate.value].nextRunAt <= now
                && forall other | other in jobs && other !in skip && Ready(jobs[other], now) ::
                     || jobs[candidate.value].nextRunAt < jobs[other].nextRunAt
                     || (jobs[candidate.value].nextRunAt == jobs[other].nextRunAt && candidate.value <= other)
    {
      candidate := None;
      var rest := jobs.Keys;
      while rest != {}
        invariant rest <= jobs.Keys
        invariant candidate.None? ==> forall id | Claimable(Snapshot(), skip, now, id) :: id in rest
        invariant candidate.Some? ==>
                    && Claimable(Snapshot(), skip, now, candidate.value)
                    && forall id | Claimable(Snapshot(), skip, now, id) ::
                         id in rest || RunsBefore(Snapshot(), candidate.value, id)
        decreases |rest|
      {
        var id :| id in rest;
        rest := rest - {id};
        if Claimable(Snapshot(), skip, now, id) {
          if candidate.None? || RunsBefore(Snapshot(), id, candidate.value) {
            candidate := Some(id);
          }
        }
      }
      assert forall other | other in jobs && other !in skip && Ready(jobs[other], now) ::
          Claimable(Snapshot(), skip, now, other);
    }

    method ClaimReadyJob(workerId: string, skip: set<JobId>, now: Millis) returns (reply: Reply<Option<ClaimedJob>>)
      modifies this
      ensures (forall id :: !Claimable(old(Snapshot()), skip, now, id)) ==>
                Snapshot() == old(Snapshot()) && reply == Returned(None)
      ensures (exists id :: Claimable(old(Snapshot()), skip, now, id)) ==>
                exists id :: IsCandidate(old(Snapshot()), skip, now, id)
                  && Performs(old(Snapshot()), ClaimTx(old(Snapshot()), id, workerId, now),
                       Snapshot(), reply, ClaimReturns(old(Snapshot()), id))
      ensures reply.Returned? && reply.value.Some? ==>
                var id := reply.value.value.id;
                && id in old(jobs) && id !in skip && old(jobs)[id].status == Queued && old(jobs)[id].nextRunAt <= now
                && forall other | other in old(jobs) && other !in skip && Ready(old(jobs)[other], now) ::
                     || old(jobs)[id].nextRunAt < old(jobs)[other].nextRunAt
                     || (old(jobs)[id].nextRunAt == old(jobs)[other].nextRunAt && id <= other)
    {
      var saved := Snapshot();
      var candidate := SelectCandidate(skip, now);
      assert saved == Snapshot();
      if candidate.None? {
        assert forall id :: !Claimable(saved, skip, now, id);
        return Returned(None);
      }
      var id := candidate.value;
      var job := jobs[id];
      var claimed := job.(status := Processing, lockedAt := Some(now), lockedBy := Some(workerId),
                          heartbeatAt := Some(now), attempts := job.attempts + 1);
      jobs := jobs[id := claimed];
      if claimed.attempts > claimed.maxAttempts {
        Rollback(saved);
        reply := Threw("processing_jobs_attempts_within_max_chk");
      } else if claimed.fileId in files {
        files := files[claimed.fileId := StartedFile(files[claimed.fileId], claimed.attempts, now)];
        reply := Returned(Some(ClaimedJob(id, claimed.fileId, claimed.attempts,
            claimed.maxAttempts, claimed.lockTtlSeconds)));
      } else {
        reply := Returned(None);
      }
      assert IsCandidate(saved, skip, now, id);
      assert Performs(saved, ClaimTx(saved, id, workerId, now), Snapshot(), reply, ClaimReturns(saved, id));
    }

    method MarkSucceeded(id: JobId, fileId: FileId, workerId: string, attempts: int, now: Millis)
        returns (reply: Reply<()>)
      modifies this
      ensures Performs(old(Snapshot()),
              FinalizeTx(old(Snapshot()), id, fileId, workerId, attempts, Verdict.MarkSucceeded, now),
                       Snapshot(), reply, ())
    {
      var saved := Snapshot();
      if !HoldsLock(saved, id, workerId) {
        return Threw("job_mark_succeeded_failed");
      }
      jobs := jobs[id := jobs[id].(status := Succeeded, lockedAt := None, lockedBy := None,
          heartbeatAt := None, lastError := None)];
      if fileId !in files {
        Rollback(saved);
        return Threw("file_mark_succeeded_failed");
      }
      files := files[fileId := files[fileId].(status := FileSucceeded, processedAt := Some(now),
          processingAttempts := attempts, error := None)];
      reply := Returned(());
    }

    method MarkFailed(id: JobId, fileId: FileId, workerId: string, attempts: int, error: JobError, now: Millis)
      returns (reply: Reply<()>)
      modifies this
      ensures Performs(old(Snapshot()),
              FinalizeTx(old(Snapshot()), id, fileId, workerId, attempts, Verdict.MarkFailed(error), now),
                       Snapshot(), reply, ())
    {
      var sanitizedCode := SanitizeErrorCode(error.code);
      var sanitizedMessage := SanitizeErrorMessage(error.message);
      var saved := Snapshot();
      if !HoldsLock(saved, id, workerId) {
        return Threw("job_mark_failed_failed");
      }
      jobs := jobs[id := jobs[id].(status := Failed, lockedAt := None, lockedBy := None, heartbeatAt := None,
                                   lastError := Some(JobError(sanitizedCode, sanitizedMessage)))];
      if fileId !in files {
        Rollback(saved);
        return Threw("file_mark_failed_failed");
      }
      files := files[fileId := files[fileId].(status := FileFailed,
          processedAt := Some(now), processingAttempts := attempts,
                                              error := Some(JobError(sanitizedCode, sanitizedMessage)))];
      reply := Returned(());
    }

    method RequeueWithBackoff(
      id: JobId, fileId: FileId, workerId: string, attempts: int, nextRunAt: Millis, error: JobError, now: Millis)
      returns (reply: Reply<()>)
      modifies this
      ensures Performs(old(Snapshot()),
              FinalizeTx(old(Snapshot()), id, fileId, workerId, attempts, Requeue(nextRunAt, error), now),
                       Snapshot(), reply, ())
    {
      var sanitizedCode := SanitizeErrorCode(error.code);
      var sanitizedMessage := SanitizeErrorMessage(error.message);
      var saved := Snapshot();
      if !HoldsLock(saved, id, workerId) {
        return Threw("job_requeue_failed");
      }
      jobs := jobs[id := jobs[id].(status := Queued, nextRunAt := nextRunAt,
          lockedAt := None, lockedBy := None, heartbeatAt := None,
                                   lastError := Some(JobError(sanitizedCode, sanitizedMessage)))];
      if fileId !in files {
        Rollback(saved);
        return Threw("file_requeue_failed");
      }
      files := files[fileId := files[fileId].(status := FileQueued,
          queuedAt := Some(Coalesce(files[fileId].queuedAt, now)),
                                              processingAttempts := attempts, error := None)];
      reply := Returned(());
    }

    method TouchHeartbeat(id: JobId, workerId: string, now: Millis) returns (reply: Reply<()>)
      modifies this`jobs
      ensures Performs(old(Snapshot()), HeartbeatTx(old(Snapshot()), id, workerId, now), Snapshot(), reply, ())
    {
      var rowCount := 0;
      if id in jobs && jobs[id].status == Processing && jobs[id].lockedBy == Some(workerId) {
        jobs := jobs[id := jobs[id].(heartbeatAt := Some(now))];
        rowCount := 1;
      }
      reply := if rowCount != 1 then Threw("job_heartbeat_update_failed") else Returned(());
    }

    method SaveReportMetadata(fileId: FileId, key: StorageKey, versions: Versions) returns (reply: Reply<()>)
      modifies this`files
      ensures Performs(old(Snapshot()), SaveReportTx(old(Snapshot()), fileId, key, versions), Snapshot(), reply, ())
    {
      var rowCount := 0;
      if fileId in files {
        files := files[fileId := files[fileId].(reportKey := Some(key), versions := Some(versions))];
        rowCount := 1;
      }
      reply := if rowCount != 1 then Threw("file_report_metadata_update_failed") else Returned(());
    }

    method SaveRawMetadata(fileId: FileId, key: StorageKey, versions: Versions) returns (reply: Reply<()>)
      modifies this`files
      ensures Performs(old(Snapshot()), SaveRawTx(old(Snapshot()), fileId, key, versions), Snapshot(), reply, ())
    {
      var rowCount := 0;
      if fileId in files {
        files := files[fileId := files[fileId].(rawKey := Some(key), versions := Some(versions))];
        rowCount := 1;
      }
      reply := if rowCount != 1 then Threw("file_raw_output_metadata_update_failed") else Returned(());
    }

    /** The unique index and the foreign key speak before the row is inserted. */
    method EnqueueForFile(fileId: FileId, id: JobId, now: Millis) returns (reply: Reply<()>)
      modifies this
      ensures Performs(old(Snapshot()), EnqueueTx(old(Snapshot()), fileId, id, now), Snapshot(), reply, ())
    {
      if fileId in jobOfFile || id in jobs {
        return Threw("23505");
      }
      if fileId !in files {
        return Threw("23503");
      }
      jobs := jobs[id := JobRow(fileId, Queued, 0, 4, now, None, None, None, DEFAULT_LOCK_TTL_SECONDS, None)];
      jobOfFile := jobOfFile[fileId := id];
      reply := Returned(());
    }

    method CreateProcessingFile(fileId: FileId, userId: string, key: StorageKey) returns (reply: Reply<()>)
      modifies this`files
      ensures Performs(old(Snapshot()), CreateFileTx(old(Snapshot()), fileId, userId, key), Snapshot(), reply, ())
    {
      if fileId in files {
        return Threw("23505");
      }
      files := files[fileId := FileRow(userId, key, FileProcessing, None, 0, None, None, None, None, None, None)];
      reply := Returned(());
    }

    method MarkFileQueued(fileId: FileId, userId: string, now: Millis) returns (reply: Reply<()>)
      modifies this`files
      ensures Performs(old(Snapshot()), MarkFileQueuedTx(old(Snapshot()), fileId, userId, now), Snapshot(), reply, ())
    {
      var rowCount := 0;
      if fileId in files && files[fileId].userId == userId {
        files := files[fileId := files[fileId].(status := FileQueued,
            queuedAt := Some(Coalesce(files[fileId].queuedAt, now)), error := None)];
        rowCount := 1;
      }
      reply := if rowCount != 1 then Threw("file_not_found_for_queue_finalize") else Returned(());
    }

    method MarkFileFailed(fileId: FileId, userId: string, error: JobError) returns (reply: Reply<()>)
      modifies this`files
      ensures Performs(old(Snapshot()), MarkFileFailedTx(old(Snapshot()), fileId, userId, error), Snapshot(), reply, ())
    {
      var rowCount := 0;
      if fileId in files && files[fileId].userId == userId {
        files := files[fileId := files[fileId].(status := FileFailed, error := Some(error))];
        rowCount := 1;
      }
      reply := if rowCount != 1 then Threw("file_not_found_for_failed_update") else Returned(());
    }
  }
}
