/**
 The transactions of the repositories, column by column, as their statements set them; and what
 no run ever changes: owners, keys, the terms of a job, and the times of what happened first.
 */
module JobColumns {
  import opened Options
  import opened ErrorText
  import opened StorageKeys
  import opened JobTables
  import opened JobProtocol

  // ----- one transaction

  /** A claim counts an attempt, takes the lock, and shows the file as processing since its first claim. */
  lemma ClaimWrites(t: Tables, id: JobId, workerId: string, now: Millis)
    requires id in t.jobs
    ensures var tx, job := ClaimTx(t, id, workerId, now), t.jobs[id];
            && (tx.Committed? <==> job.attempts < job.maxAttempts)
            && (tx.Committed? ==>
                 && tx.tables.jobOfFile == t.jobOfFile
                 && tx.tables.jobs == t.jobs[id :=
                      JobRow(job.fileId, Processing, job.attempts + 1, job.maxAttempts, job.nextRunAt, Some(now),
                             Some(workerId), Some(now), job.lockTtlSeconds, job.lastError)]
                 && (job.fileId !in t.files ==> tx.tables.files == t.files)
                 && (job.fileId in t.files ==>
                      var file := t.files[job.fileId];
                      && tx.tables.files == t.files[job.fileId := tx.tables.files[job.fileId]]
                      && tx.tables.files[job.fileId] ==
                         FileRow(file.userId, file.originalKey, FileProcessing, None, job.attempts + 1,
                                 file.processedAt, file.queuedAt,
                                 if file.startedAt == None then Some(now) else file.startedAt,
                                 file.reportKey, file.rawKey, file.versions)))
    ensures ClaimReturns(t, id) ==
            if t.jobs[id].fileId in t.files
            then Some(ClaimedJob(id, t.jobs[id].fileId, t.jobs[id].attempts + 1, t.jobs[id].maxAttempts,
                                 t.jobs[id].lockTtlSeconds))
            else None
  {
  }

  /** A finalization needs the lock and the file; it empties the lock and settles both rows. */
  lemma FinalizeWrites(
    t: Tables, id: JobId, f: FileId, workerId: string, attempts: int, verdict: Verdict, now: Millis)
    ensures var tx := FinalizeTx(t, id, f, workerId, attempts, verdict, now);
            && (tx.Committed? <==>
                 && id in t.jobs && t.jobs[id].status == Processing && t.jobs[id].lockedBy == Some(workerId)
                 && f in t.files)
            && (tx.Committed? ==>
                 var job, file := t.jobs[id], t.files[f];
                 && tx.tables.jobOfFile == t.jobOfFile
                 && tx.tables.jobs == t.jobs[id :=
                      JobRow(job.fileId,
                             match verdict
                             case MarkSucceeded => Succeeded
                             case MarkFailed(_) => Failed
                             case Requeue(_, _) => Queued,
                             job.attempts, job.maxAttempts,
                             if verdict.Requeue? then verdict.nextRunAt else job.nextRunAt,
                             None, None, None, job.lockTtlSeconds,
                             if verdict.MarkSucceeded? then None
                             else Some(JobError(SanitizeErrorCode(verdict.error.code),
                                                SanitizeErrorMessage(verdict.error.message))))]
                 && tx.tables.files == t.files[f :=
                      FileRow(file.userId, file.originalKey,
                              match verdict
                              case MarkSucceeded => FileSucceeded
                              case MarkFailed(_) => FileFailed
                              case Requeue(_, _) => FileQueued,
                              if verdict.MarkFailed?
                              then Some(JobError(SanitizeErrorCode(verdict.error.code),
                                                 SanitizeErrorMessage(verdict.error.message)))
                              else None,
                              attempts, if verdict.Requeue? then file.processedAt else Some(now),
                              if verdict.Requeue? && file.queuedAt == None then Some(now) else file.queuedAt,
                              file.startedAt, file.reportKey, file.rawKey, file.versions)])
  {
  }

  /** A heartbeat needs the lock and renews one column. */
  lemma HeartbeatWrites(t: Tables, id: JobId, workerId: string, now: Millis)
    ensures var tx := HeartbeatTx(t, id, workerId, now);
            && (tx.Committed? <==>
                 id in t.jobs && t.jobs[id].status == Processing && t.jobs[id].lockedBy == Some(workerId))
            && (tx.Committed? ==>
                 && tx.tables.files == t.files && tx.tables.jobOfFile == t.jobOfFile
                 && tx.tables.jobs == t.jobs[id := tx.tables.jobs[id]]
                 && tx.tables.jobs[id] == t.jobs[id].(heartbeatAt := Some(now)))
  {
  }

  /** Report and raw output have a column each for the key, and share the versions. */
  lemma MetadataWrites(t: Tables, f: FileId, key: StorageKey, versions: Versions)
    ensures var report, raw := SaveReportTx(t, f, key, versions), SaveRawTx(t, f, key, versions);
            && (report.Committed? <==> f in t.files) && (raw.Committed? <==> f in t.files)
            && (f in t.files ==>
                 && report.tables.jobs == raw.tables.jobs == t.jobs
                 && report.tables.jobOfFile == raw.tables.jobOfFile == t.jobOfFile
                 && report.tables.files == t.files[f := report.tables.files[f]]
                 && raw.tables.files == t.files[f := raw.tables.files[f]]
                 && report.tables.files[f] == t.files[f].(reportKey := Some(key), versions := Some(versions))
                 && raw.tables.files[f] == t.files[f].(rawKey := Some(key), versions := Some(versions)))
  {
  }

  /** A new file is processing before its first attempt; a new job is queued, due at once, with four attempts. */
  lemma UploadWrites(t: Tables, f: FileId, userId: string, key: StorageKey, id: JobId, now: Millis)
    ensures var create := CreateFileTx(t, f, userId, key);
            && (create.Committed? <==> f !in t.files)
            && (create.Committed? ==>
                 && create.tables.jobs == t.jobs && create.tables.jobOfFile == t.jobOfFile
                 && create.tables.files == t.files[f :=
                      FileRow(userId, key, FileProcessing, None, 0, None, None, None, None, None, None)])
    ensures var enqueue := EnqueueTx(t, f, id, now);
            && (enqueue == RolledBack("23505") <==> f in t.jobOfFile || id in t.jobs)
            && (enqueue.Committed? <==> f !in t.jobOfFile && id !in t.jobs && f in t.files)
            && (enqueue.Committed? ==>
                 && enqueue.tables.files == t.files && enqueue.tables.jobOfFile == t.jobOfFile[f := id]
                 && enqueue.tables.jobs == t.jobs[id := JobRow(f, Queued, 0, 4, now, None, None, None, 300, None)])
  {
  }

  /** The upload's last writes: for the owner's file only, and two or three columns each. */
  lemma FileStatusWrites(t: Tables, f: FileId, userId: string, error: JobError, now: Millis)
    ensures var queued, failed := MarkFileQueuedTx(t, f, userId, now), MarkFileFailedTx(t, f, userId, error);
            && (queued.Committed? <==> f in t.files && t.files[f].userId == userId)
            && (failed.Committed? <==> f in t.files && t.files[f].userId == userId)
            && (queued.Committed? ==>
                 && queued.tables.jobs == failed.tables.jobs == t.jobs
                 && queued.tables.jobOfFile == failed.tables.jobOfFile == t.jobOfFile
                 && queued.tables.files == t.files[f := queued.tables.files[f]]
                 && failed.tables.files == t.files[f := failed.tables.files[f]]
                 && queued.tables.files[f] == t.files[f].(
                      status := FileQueued, error := None,
                      queuedAt := if t.files[f].queuedAt == None then Some(now) else t.files[f].queuedAt)
                 && failed.tables.files[f] == t.files[f].(status := FileFailed, error := Some(error)))
  {
  }

  // ----- whole runs

  /** What no transaction changes in the row of a file: owner, key, and the times of first events. */
  predicate FileStays(file: FileRow, file': FileRow) {
    && file'.userId == file.userId && file'.originalKey == file.originalKey
    && (file.startedAt.Some? ==> file'.startedAt == file.startedAt)
    && (file.queuedAt.Some? ==> file'.queuedAt == file.queuedAt)
  }

  /** ... and in the row of a job: its file and its terms; attempts are only added. */
  predicate JobStays(job: JobRow, job': JobRow) {
    && job'.fileId == job.fileId && job'.maxAttempts == job.maxAttempts
    && job'.lockTtlSeconds == job.lockTtlSeconds && job'.attempts >= job.attempts
  }

  ghost predicate RowsStay(t: Tables, t': Tables) {
    && (forall f | f in t.files :: f in t'.files && FileStays(t.files[f], t'.files[f]))
    && (forall j | j in t.jobs :: j in t'.jobs && JobStays(t.jobs[j], t'.jobs[j]))
    && (forall j | j in t'.jobs && j !in t.jobs :: t'.jobs[j].maxAttempts == 4 && t'.jobs[j].lockTtlSeconds == 300)
  }

  lemma RunStays(t: Tables, tx: Outcome, fault: Fault)
    requires tx.Committed? ==> RowsStay(t, tx.tables)
    ensures RowsStay(t, Run(t, tx, fault).t)
  {
  }

  lemma CreateStays(t: Tables, f: FileId, userId: string, key: StorageKey)
    ensures var tx := CreateFileTx(t, f, userId, key); tx.Committed? ==> RowsStay(t, tx.tables)
  {
  }

  lemma EnqueueStays(t: Tables, f: FileId, id: JobId, now: Millis)
    ensures var tx := EnqueueTx(t, f, id, now); tx.Committed? ==> RowsStay(t, tx.tables)
  {
  }

  lemma QueuedStays(t: Tables, f: FileId, userId: string, now: Millis)
    ensures var tx := MarkFileQueuedTx(t, f, userId, now); tx.Committed? ==> RowsStay(t, tx.tables)
  {
  }

  lemma FailedStays(t: Tables, f: FileId, userId: string, error: JobError)
    ensures var tx := MarkFileFailedTx(t, f, userId, error); tx.Committed? ==> RowsStay(t, tx.tables)
  {
  }

  lemma ClaimStays(t: Tables, id: JobId, workerId: string, now: Millis)
    requires id in t.jobs
    ensures var tx := ClaimTx(t, id, workerId, now); tx.Committed? ==> RowsStay(t, tx.tables)
  {
  }

  lemma HeartbeatStays(t: Tables, id: JobId, workerId: string, now: Millis)
    ensures var tx := HeartbeatTx(t, id, workerId, now); tx.Committed? ==> RowsStay(t, tx.tables)
  {
  }

  lemma FinalizeStays(
    t: Tables, id: JobId, f: FileId, workerId: string, attempts: int, verdict: Verdict, now: Millis)
    ensures var tx := FinalizeTx(t, id, f, workerId, attempts, verdict, now); tx.Committed? ==> RowsStay(t, tx.tables)
  {
  }

  lemma MetadataTxsStay(t: Tables, f: FileId, key: StorageKey, versions: Versions)
    ensures var tx := SaveReportTx(t, f, key, versions); tx.Committed? ==> RowsStay(t, tx.tables)
    ensures var tx := SaveRawTx(t, f, key, versions); tx.Committed? ==> RowsStay(t, tx.tables)
  {
  }

  lemma BeginKeepsRows(s: State, a: Action)
    requires Enabled(s, a) && a.BeginUpload?
    ensures RowsStay(s.t, Apply(s, a).t)
  {
    var key := OriginalKey(a.userId, a.fileId, a.extension);
    CreateStays(s.t, a.fileId, a.userId, key);
    RunStays(s.t, CreateFileTx(s.t, a.fileId, a.userId, key), a.fault);
  }

  lemma EnqueueKeepsRows(s: State, f: FileId, i: Input)
    requires f in s.uploads
    ensures RowsStay(s.t, EnqueueStep(s, f, i).t)
  {
    EnqueueStays(s.t, f, i.newJob, i.now);
    RunStays(s.t, EnqueueTx(s.t, f, i.newJob, i.now), i.fault);
  }

  lemma MarkQueuedKeepsRows(s: State, f: FileId, i: Input)
    requires f in s.uploads
    ensures RowsStay(s.t, MarkQueuedStep(s, f, i).t)
  {
    var u := s.uploads[f];
    QueuedStays(s.t, f, u.userId, i.now);
    RunStays(s.t, MarkFileQueuedTx(s.t, f, u.userId, i.now), i.fault);
  }

  lemma MarkFailedKeepsRows(s: State, f: FileId, i: Input)
    requires f in s.uploads && s.uploads[f].phase.MarkUploadFailed?
    ensures RowsStay(s.t, MarkUploadFailedStep(s, f, i).t)
  {
    var u := s.uploads[f];
    FailedStays(s.t, f, u.userId, u.phase.error);
    RunStays(s.t, MarkFileFailedTx(s.t, f, u.userId, u.phase.error), i.fault);
  }

  lemma StoringKeepsRows(s: State, f: FileId, i: Input)
    requires f in s.uploads
    ensures PutOriginalStep(s, f, i).t == s.t
    ensures s.uploads[f].phase.DeleteOriginal? ==> DeleteOriginalStep(s, f, i).t == s.t
  {
  }

  lemma UploadKeepsRows(s: State, s': State, f: FileId, i: Input)
    requires f in s.uploads && LiveUpload(s.uploads[f].phase) && s' == UploadStep(s, f, i)
    ensures RowsStay(s.t, s'.t)
  {
    match s.uploads[f].phase
    case PutOriginal => StoringKeepsRows(s, f, i);
    case Enqueue => EnqueueKeepsRows(s, f, i);
    case MarkQueued => MarkQueuedKeepsRows(s, f, i);
    case DeleteOriginal(_) => StoringKeepsRows(s, f, i);
    case MarkUploadFailed(_, _, _) => MarkFailedKeepsRows(s, f, i);
  }

  lemma ClaimTables(s: State, h: HandlerId, j: JobId, workerId: string, now: Millis, fault: Fault)
    requires j in s.t.jobs
    ensures ClaimStep(s, h, j, workerId, now, fault).t == Run(s.t, ClaimTx(s.t, j, workerId, now), fault).t
  {
  }

  lemma ClaimKeepsRows(s: State, a: Action)
    requires Enabled(s, a) && a.Claim?
    ensures RowsStay(s.t, Apply(s, a).t)
  {
    ClaimStays(s.t, a.jobId, a.workerId, a.now);
    RunStays(s.t, ClaimTx(s.t, a.jobId, a.workerId, a.now), a.fault);
    ClaimTables(s, a.handlerId, a.jobId, a.workerId, a.now, a.fault);
  }

  lemma HeartbeatKeepsRows(s: State, a: Action)
    requires Enabled(s, a) && a.Heartbeat?
    ensures RowsStay(s.t, Apply(s, a).t)
  {
    HeartbeatStays(s.t, a.jobId, a.workerId, a.now);
    RunStays(s.t, HeartbeatTx(s.t, a.jobId, a.workerId, a.now), Fine);
  }

  lemma FinalKeepsRows(s: State, h: HandlerId, i: Input)
    requires h in s.handlers && Finishing(s.handlers[h].phase)
    ensures RowsStay(s.t, FinalStep(s, h, i).t)
  {
    var hd := s.handlers[h];
    var verdict :=
      if hd.phase.Finish? then Verdict.MarkSucceeded else RecoveryVerdict(hd.job, hd.phase.error, i.now, i.random);
    FinalizeStays(s.t, hd.job.id, hd.job.fileId, hd.workerId, hd.job.attempts, verdict, i.now);
    RunStays(s.t, FinalizeTx(s.t, hd.job.id, hd.job.fileId, hd.workerId, hd.job.attempts, verdict, i.now), i.fault);
  }

  lemma RawKeepsRows(s: State, h: HandlerId, i: Input)
    requires h in s.handlers && s.handlers[h].phase.SaveRaw?
    ensures RowsStay(s.t, SaveRawStep(s, h, i).t)
  {
    var f, phase := s.handlers[h].job.fileId, s.handlers[h].phase;
    var key := RawKey(phase.ctx.userId, f);
    MetadataTxsStay(s.t, f, key, phase.output.versions);
    RunStays(s.t, SaveRawTx(s.t, f, key, phase.output.versions), i.fault);
  }

  lemma ReportKeepsRows(s: State, h: HandlerId, i: Input)
    requires h in s.handlers && s.handlers[h].phase.SaveReport?
    ensures RowsStay(s.t, SaveReportStep(s, h, i).t)
  {
    var f, phase := s.handlers[h].job.fileId, s.handlers[h].phase;
    var key := ReportKey(phase.ctx.userId, f);
    MetadataTxsStay(s.t, f, key, phase.output.versions);
    RunStays(s.t, SaveReportTx(s.t, f, key, phase.output.versions), i.fault);
  }

  lemma ReadingKeepsRows(s: State, h: HandlerId, i: Input)
    requires h in s.handlers
    ensures s.handlers[h].phase.ReadContext? ==> ContextStep(s, h, i).t == s.t
    ensures s.handlers[h].phase.ReadTranscript? ==> TranscriptStep(s, h, i).t == s.t
    ensures s.handlers[h].phase.CallLlm? ==> LlmStep(s, h, i).t == s.t
  {
  }

  lemma PuttingKeepsRows(s: State, h: HandlerId, i: Input)
    requires h in s.handlers
    ensures s.handlers[h].phase.PutRaw? ==> PutRawStep(s, h, i).t == s.t
    ensures s.handlers[h].phase.PutReport? ==> PutReportStep(s, h, i).t == s.t
    ensures s.handlers[h].phase.CleanUp? ==> CleanUpStep(s, h, i).t == s.t
  {
  }

  lemma PipelineKeepsRows(s: State, s': State, h: HandlerId, i: Input)
    requires h in s.handlers && Live(s.handlers[h].phase) && !Finishing(s.handlers[h].phase)
    requires s' == PipelineStep(s, h, i)
    ensures RowsStay(s.t, s'.t)
  {
    match s.handlers[h].phase
    case ReadContext => ReadingKeepsRows(s, h, i);
    case ReadTranscript(_) => ReadingKeepsRows(s, h, i);
    case CallLlm(_) => ReadingKeepsRows(s, h, i);
    case PutRaw(_, _) => PuttingKeepsRows(s, h, i);
    case SaveRaw(_, _) => RawKeepsRows(s, h, i);
    case PutReport(_, _) => PuttingKeepsRows(s, h, i);
    case SaveReport(_, _) => ReportKeepsRows(s, h, i);
    case CleanUp(_, _) => PuttingKeepsRows(s, h, i);
  }

  lemma StepKeepsRows(s: State, a: Action)
    requires Enabled(s, a)
    ensures RowsStay(s.t, Apply(s, a).t)
  {
    match a
    case BeginUpload(_, _, _, _, _) => BeginKeepsRows(s, a);
    case ContinueUpload(f, i) => UploadKeepsRows(s, Apply(s, a), f, i);
    case CrashUpload(_) =>
    case Claim(_, _, _, _, _, _) => ClaimKeepsRows(s, a);
    case Heartbeat(_, _, _) => HeartbeatKeepsRows(s, a);
    case Continue(h, i) =>
      if Finishing(s.handlers[h].phase) {
        FinalKeepsRows(s, h, i);
      } else {
        PipelineKeepsRows(s, Apply(s, a), h, i);
      }
    case Crash(_) =>
  }

  lemma RowsStayOn(t: Tables, middle: Tables, last: Tables)
    requires RowsStay(t, middle) && RowsStay(middle, last)
    ensures RowsStay(t, last)
  {
  }

  /**
   In every run: a file keeps its owner, its key, and the times at which it was first queued and
   first started; a job keeps its file, its limit and its lock time, and never loses an attempt.
   */
  lemma {:induction false} RunKeepsRows(s: State, actions: seq<Action>, last: State)
    requires Runs(s, actions, last)
    ensures RowsStay(s.t, last.t)
    decreases |actions|
  {
    if actions != [] {
      var next := Apply(s, actions[0]);
      StepKeepsRows(s, actions[0]);
      RunKeepsRows(next, actions[1..], last);
      RowsStayOn(s.t, next.t, last.t);
    }
  }

  /** So every job has four attempts and a lock of five minutes. */
  lemma EveryJobHasFourAttempts(s: State, j: JobId)
    requires Reachable(s) && j in s.t.jobs
    ensures s.t.jobs[j].maxAttempts == 4 && s.t.jobs[j].lockTtlSeconds == 300
  {
    var first, actions :| Initial(first) && Runs(first, actions, s);
    RunKeepsRows(first, actions, s);
  }
}
