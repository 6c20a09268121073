/** What one step does to one job, and when the rows of job and file agree. */
module JobRuns {
  import opened Options
  import opened ErrorText
  import opened JobTables
  import opened JobProtocol
  import opened JobInvariant
  import opened JobSteps
  import opened JobSettlement
  import opened UploadSteps
  import opened JobWitnesses

  // ----- what one step does to one job

  /** The job row as far as the worker decides about it, and the history. */
  predicate SameJob(s: State, s': State, j: JobId)
    requires j in s.t.jobs
  {
    && j in s'.t.jobs && s'.t.jobs[j] == s.t.jobs[j].(heartbeatAt := s'.t.jobs[j].heartbeatAt)
    && j in s.history && j in s'.history && s'.history[j] == s.history[j]
  }

  predicate SameFile(t: Tables, t': Tables, f: FileId)
    requires f in t.files
  {
    && f in t'.files && t'.files[f].status == t.files[f].status
    && t'.files[f].processingAttempts == t.files[f].processingAttempts && t'.files[f].error == t.files[f].error
  }

  // ----- frames

  /** The step leaves all handlers but `h` alone, and all uploads. */
  ghost predicate OnlyHandler(s: State, s': State, h: HandlerId) {
    && s'.uploads == s.uploads
    && forall other | other in s.handlers && other != h ::
         other in s'.handlers && s'.handlers[other] == s.handlers[other]
  }

  ghost predicate OnlyUpload(s: State, s': State, f: FileId) {
    && s'.handlers == s.handlers
    && forall g | g in s.uploads && g != f :: g in s'.uploads && s'.uploads[g] == s.uploads[g]
  }

  lemma HandlerFrame(s: State, a: Action)
    requires Enabled(s, a) && (a.Continue? || a.Crash?)
    requires s.handlers[a.handlerId].job.fileId in s.uploads && Cell(s, s.handlers[a.handlerId].job.fileId)
    ensures OnlyHandler(s, Apply(s, a), a.handlerId)
  {
    var h := a.handlerId;
    assert HandlerOk(s, h);
    if a.Continue? {
      ContinueFrame(s, Apply(s, a), s.handlers[h].job.fileId, h, a.input);
    }
  }

  lemma ContinueFrame(s: State, s': State, f: FileId, h: HandlerId, i: Input)
    requires f in s.uploads && FileOk(s, f) && IndexOk(s, f)
    requires h in s.handlers && s.handlers[h].job.fileId == f && HandlerOk(s, h) && Live(s.handlers[h].phase)
    requires s' == if Finishing(s.handlers[h].phase) then FinalStep(s, h, i) else PipelineStep(s, h, i)
    ensures OnlyHandler(s, s', h)
  {
    if Finishing(s.handlers[h].phase) {
      var settled, verdict, phase := FinalStepIs(s, s', f, h, i);
    } else {
      HolderIsLast(s, f, h);
      PipelineIsArtifacts(s, s', f, h, i);
    }
  }

  lemma UploadFrame(s: State, a: Action)
    requires Inv(s) && Enabled(s, a) && (a.BeginUpload? || a.ContinueUpload? || a.CrashUpload?)
    ensures OnlyUpload(s, Apply(s, a), a.fileId)
  {
    if a.ContinueUpload? {
      assert Cell(s, a.fileId);
      UploadStepIs(s, Apply(s, a), a.fileId, a.input);
    }
  }

  lemma QueueFrame(s: State, a: Action)
    requires Enabled(s, a) && (a.Claim? || a.Heartbeat?)
    ensures Apply(s, a).uploads == s.uploads
    ensures forall h | h in s.handlers :: h in Apply(s, a).handlers && Apply(s, a).handlers[h] == s.handlers[h]
  {
  }

  lemma DeadHandlersStayDead(s: State, a: Action, h: HandlerId)
    requires Inv(s) && Enabled(s, a) && h in s.handlers && !Live(s.handlers[h].phase)
    ensures h in Apply(s, a).handlers && Apply(s, a).handlers[h] == s.handlers[h]
  {
    if a.Continue? || a.Crash? {
      HandlerFrame(s, a);
    } else if a.Claim? || a.Heartbeat? {
      QueueFrame(s, a);
    } else {
      UploadFrame(s, a);
    }
  }

  lemma EndedUploadStaysEnded(s: State, a: Action, f: FileId)
    requires Inv(s) && Enabled(s, a) && f in s.uploads && !LiveUpload(s.uploads[f].phase)
    ensures f in Apply(s, a).uploads && Apply(s, a).uploads[f] == s.uploads[f]
  {
    if a.Continue? || a.Crash? {
      HandlerFrame(s, a);
    } else if a.Claim? || a.Heartbeat? {
      QueueFrame(s, a);
    } else {
      UploadFrame(s, a);
    }
  }

  datatype Change =
    | Nothing
    | ClaimCommitted(claimer: HandlerId, worker: string, at: Millis, start: Phase)
    | Settlement(holder: HandlerId, verdict: Verdict, at: Millis, next: Phase)

  ghost predicate Describes(s: State, s': State, f: FileId, j: JobId, change: Change)
    requires f in s.uploads && f in s.t.files && j in s.t.jobs && s.t.jobs[j].fileId == f
  {
    match change
    case Nothing => SameJob(s, s', j) && (!LiveUpload(s.uploads[f].phase) ==> SameFile(s.t, s'.t, f))
    case ClaimCommitted(h, worker, at, start) =>
      && s.t.jobs[j].status == Queued && j in s.history
      && s' == ClaimedState(s, j, h, worker, at, start)
    case Settlement(h, verdict, at, next) =>
      && HoldsAs(s, f, h) && s.handlers[h].job.id == j && Live(s.handlers[h].phase) && VerdictOk(s, h, verdict)
      && s.handlers[h].job.attempts == s.t.jobs[j].attempts
      && s' == Settled(s, f, h, verdict, at, next)
  }

  /**
   A job changes by a claim, by its holder's finalization, or not at all; so does its file once
   the upload has ended.
   */
  lemma ChangeOf(s: State, a: Action, f: FileId, j: JobId) returns (change: Change)
    requires Inv(s) && Enabled(s, a) && j in s.t.jobs && s.t.jobs[j].fileId == f
    requires f in s.uploads
    ensures f in s.t.files && Describes(s, Apply(s, a), f, j, change)
  {
    assert Cell(s, f) && JobOk(s, j);
    if FileOf(s, a) != f {
      StepIsAboutFile(s, Apply(s, a), a);
      NothingElsewhere(s, Apply(s, a), FileOf(s, a), f, j);
      change := Nothing;
    } else {
      change := ChangeOfOwn(s, a, f, j);
    }
  }

  lemma NothingElsewhere(s: State, s': State, g: FileId, f: FileId, j: JobId)
    requires SameElsewhere(s, s', g) && g != f && f in s.uploads && f in s.t.files
    requires j in s.t.jobs && s.t.jobs[j].fileId == f && j in s.history
    ensures Describes(s, s', f, j, Nothing)
  {
  }

  lemma ChangeOfOwn(s: State, a: Action, f: FileId, j: JobId) returns (change: Change)
    requires Closed(s) && f in s.uploads && Cell(s, f) && Enabled(s, a) && FileOf(s, a) == f
    requires j in s.t.jobs && s.t.jobs[j].fileId == f && f in s.t.files && JobOk(s, j)
    ensures Describes(s, Apply(s, a), f, j, change)
  {
    match a
    case Claim(h, _, _, worker, now, fault) =>
      ClaimStepIs(s, f, j, h, worker, now, fault);
      change := ClaimCommitted(h, worker, now, if fault.Fine? then ReadContext else Ended(false));
    case Heartbeat(_, _, _) => change := Nothing;
    case Continue(h, i) => change := ChangeByHandler(s, Apply(s, a), f, j, h, i);
    case ContinueUpload(_, i) =>
      UploadStepIs(s, Apply(s, a), f, i);
      change := Nothing;
    case _ => change := Nothing;
  }

  lemma ChangeByHandler(s: State, s': State, f: FileId, j: JobId, h: HandlerId, i: Input) returns (change: Change)
    requires f in s.uploads && Cell(s, f) && j in s.t.jobs && s.t.jobs[j].fileId == f && f in s.t.files && JobOk(s, j)
    requires h in s.handlers && s.handlers[h].job.fileId == f && Live(s.handlers[h].phase)
    requires s' == if Finishing(s.handlers[h].phase) then FinalStep(s, h, i) else PipelineStep(s, h, i)
    ensures Describes(s, s', f, j, change)
  {
    assert HandlerOk(s, h) && s.handlers[h].job.id == j;
    if Finishing(s.handlers[h].phase) {
      var settled, verdict, phase := FinalStepIs(s, s', f, h, i);
      change := if settled then Settlement(h, verdict, i.now, phase) else Nothing;
    } else {
      HolderIsLast(s, f, h);
      PipelineIsArtifacts(s, s', f, h, i);
      change := Nothing;
    }
  }

  // ----- agreement of job and file

  function FileStatusOf(status: JobStatus): FileStatus {
    match status
    case Queued => FileQueued
    case Processing => FileProcessing
    case Succeeded => FileSucceeded
    case Failed => FileFailed
  }

  /** The file shows the status, the attempts and, after a failure, the error of its job. */
  ghost predicate Agree(s: State, j: JobId)
    requires j in s.t.jobs
  {
    var job := s.t.jobs[j];
    && job.fileId in s.t.files
    && s.t.files[job.fileId].status == FileStatusOf(job.status)
    && s.t.files[job.fileId].processingAttempts == job.attempts
    && (job.status == Failed ==> job.lastError.Some? && s.t.files[job.fileId].error == job.lastError)
  }

  /** Every committed claim and every committed finalization makes the two rows agree. */
  lemma CommittedChangesAgree(s: State, s': State, f: FileId, j: JobId, change: Change)
    requires f in s.uploads && f in s.t.files && j in s.t.jobs && s.t.jobs[j].fileId == f
    requires !change.Nothing? && Describes(s, s', f, j, change)
    ensures j in s'.t.jobs && Agree(s', j)
  {
  }

  lemma AgreementIsKept(s: State, a: Action, f: FileId, j: JobId)
    requires Inv(s) && Enabled(s, a) && j in s.t.jobs && s.t.jobs[j].fileId == f
    requires f in s.uploads && !LiveUpload(s.uploads[f].phase) && Agree(s, j)
    ensures var s' := Apply(s, a); j in s'.t.jobs && s'.t.jobs[j].fileId == f && Agree(s', j)
  {
    var change := ChangeOf(s, a, f, j);
    if !change.Nothing? {
      CommittedChangesAgree(s, Apply(s, a), f, j, change);
    }
  }

  lemma {:induction false} AgreementInRun(s: State, actions: seq<Action>, last: State, f: FileId, j: JobId)
    requires Inv(s) && Runs(s, actions, last) && j in s.t.jobs && s.t.jobs[j].fileId == f
    requires f in s.uploads && !LiveUpload(s.uploads[f].phase) && Agree(s, j)
    ensures j in last.t.jobs && last.t.jobs[j].fileId == f && Agree(last, j)
    decreases |actions|
  {
    if actions != [] {
      var next := Apply(s, actions[0]);
      StepKeepsInv(s, actions[0]);
      AgreementIsKept(s, actions[0], f, j);
      EndedUploadStaysEnded(s, actions[0], f);
      AgreementInRun(next, actions[1..], last, f, j);
    }
  }

  /** Once the upload has written its last and the rows agree, they agree for ever. */
  lemma RowsAgreeForEver(s: State, actions: seq<Action>, last: State, j: JobId)
    requires Reachable(s) && Runs(s, actions, last) && j in s.t.jobs && Agree(s, j)
    requires s.t.jobs[j].fileId in s.uploads && !LiveUpload(s.uploads[s.t.jobs[j].fileId].phase)
    ensures j in last.t.jobs && Agree(last, j)
  {
    ReachableInv(s);
    AgreementInRun(s, actions, last, s.t.jobs[j].fileId, j);
  }

  /**
   The last write of an upload sets `queued` whatever has happened meanwhile: right after it
   the rows agree exactly when the job has not been claimed, or has been requeued.
   */
  lemma UploadWriteAgreesIff(s: State, f: FileId, i: Input)
    requires Reachable(s) && f in s.uploads && s.uploads[f].phase == MarkQueued
    requires i.fault.Fine? && i.newJob !in s.t.jobs
    ensures f in s.t.jobOfFile && s.t.jobOfFile[f] in s.t.jobs
    ensures var s', j := Apply(s, ContinueUpload(f, i)), s.t.jobOfFile[f];
            && f in s'.uploads && s'.uploads[f].phase == Uploaded
            && j in s'.t.jobs && s'.t.jobs[j] == s.t.jobs[j]
            && (Agree(s', j) <==> s.t.jobs[j].status == Queued)
  {
    ReachableInv(s);
    UploadWriteAgrees(s, f, i);
  }

  lemma UploadWriteAgrees(s: State, f: FileId, i: Input)
    requires f in s.uploads && Cell(s, f) && s.uploads[f].phase == MarkQueued && i.fault.Fine? && i.newJob !in s.t.jobs
    ensures f in s.t.jobOfFile && s.t.jobOfFile[f] in s.t.jobs
    ensures var s', j := Apply(s, ContinueUpload(f, i)), s.t.jobOfFile[f];
            && f in s'.uploads && s'.uploads[f].phase == Uploaded
            && j in s'.t.jobs && s'.t.jobs[j] == s.t.jobs[j]
            && (Agree(s', j) <==> s.t.jobs[j].status == Queued)
  {
    assert JobOk(s, s.t.jobOfFile[f]);
  }

  /**
   The other way for an upload to end, when a job exists because an enqueue committed and threw
   (or `queued` could not be written): right after it the rows agree exactly when the job has
   itself failed with the upload's error, or, if the write had no effect, when they agreed before.
   The log says that the file has no job all the same.
   */
  lemma FailedUploadAgreesIff(s: State, f: FileId, i: Input)
    requires Reachable(s) && f in s.uploads && s.uploads[f].phase.MarkUploadFailed? && i.newJob !in s.t.jobs
    requires f in s.t.jobOfFile
    ensures s.t.jobOfFile[f] in s.t.jobs
    ensures var s', j, phase := Apply(s, ContinueUpload(f, i)), s.t.jobOfFile[f], s.uploads[f].phase;
            && f in s'.uploads && s'.uploads[f].phase == UploadFailed
            && OrphanFileWithoutJob(s.uploads[f].originalKey, phase.deleteFailed) in s'.logged
            && j in s'.t.jobs && s'.t.jobs[j] == s.t.jobs[j]
            && (Agree(s', j) <==>
                 if i.fault.Refused? then Agree(s, j)
                 else s.t.jobs[j].status == Failed && s.t.jobs[j].lastError == Some(phase.error))
  {
    ReachableInv(s);
    FailedUploadAgrees(s, f, i);
  }

  lemma FailedUploadAgrees(s: State, f: FileId, i: Input)
    requires f in s.uploads && Cell(s, f) && s.uploads[f].phase.MarkUploadFailed? && i.newJob !in s.t.jobs
    requires f in s.t.jobOfFile
    ensures s.t.jobOfFile[f] in s.t.jobs
    ensures var s', j, phase := Apply(s, ContinueUpload(f, i)), s.t.jobOfFile[f], s.uploads[f].phase;
            && f in s'.uploads && s'.uploads[f].phase == UploadFailed
            && OrphanFileWithoutJob(s.uploads[f].originalKey, phase.deleteFailed) in s'.logged
            && j in s'.t.jobs && s'.t.jobs[j] == s.t.jobs[j]
            && (Agree(s', j) <==>
                 if i.fault.Refused? then Agree(s, j)
                 else s.t.jobs[j].status == Failed && s.t.jobs[j].lastError == Some(phase.error))
  {
    assert JobOk(s, s.t.jobOfFile[f]);
  }

  /** The race happens: the claim comes between the enqueue and the write of `queued`. */
  lemma ClaimCanComeFirst() returns (s: State)
    ensures Reachable(s) && "f" in s.uploads && s.uploads["f"].phase == Uploaded
    ensures 0 in s.t.jobs && s.t.jobs[0].status == Processing && !Agree(s, 0)
    ensures "f" in s.t.files && s.t.files["f"].status == FileQueued
  {
    var before := ClaimedEarly((payload, version) => ReportValid);
    s := UploadStep(before, "f", QUIET.(newJob := 1));
    StepIsReachable(before, ContinueUpload("f", QUIET.(newJob := 1)), s);
  }

  /** So does the other end: a queued job for a file that reads failed and whose original is gone. */
  lemma FailedUploadCanLeaveJob() returns (s: State)
    ensures Reachable(s) && "f" in s.uploads && s.uploads["f"].phase == UploadFailed
    ensures 0 in s.t.jobs && s.t.jobs[0].status == Queued && !Agree(s, 0)
    ensures "f" in s.t.files && s.t.files["f"].status == FileFailed && KEY !in s.store
  {
    var before := Compensated((payload, version) => ReportValid);
    s := UploadStep(before, "f", QUIET.(newJob := 1));
    StepIsReachable(before, ContinueUpload("f", QUIET.(newJob := 1)), s);
  }

  /** If the upload's last write precedes the first claim, the rows agree in every later state. */
  lemma UploadBeforeClaimAgrees(s: State, f: FileId, i: Input, actions: seq<Action>, last: State)
    requires Reachable(s) && f in s.uploads && s.uploads[f].phase == MarkQueued
    requires i.fault.Fine? && i.newJob !in s.t.jobs
    requires f in s.t.jobOfFile && s.t.jobOfFile[f] in s.history && s.history[s.t.jobOfFile[f]] == []
    requires Runs(Apply(s, ContinueUpload(f, i)), actions, last)
    ensures s.t.jobOfFile[f] in last.t.jobs && Agree(last, s.t.jobOfFile[f])
  {
    ReachableInv(s);
    var j := s.t.jobOfFile[f];
    assert Cell(s, f) && JobOk(s, j);
    UploadWriteAgreesIff(s, f, i);
    StepKeepsInv(s, ContinueUpload(f, i));
    AgreementInRun(Apply(s, ContinueUpload(f, i)), actions, last, f, j);
  }

  /** In every interleaving the file's attempts are the job's, and a failed job keeps a stable error. */
  lemma AttemptsAlwaysAgree(s: State, j: JobId)
    requires Reachable(s) && j in s.t.jobs
    ensures s.t.jobs[j].fileId in s.t.files && s.t.files[s.t.jobs[j].fileId].processingAttempts == s.t.jobs[j].attempts
    ensures s.t.jobs[j].lastError.Some? ==>
              var e := s.t.jobs[j].lastError.value;
              SanitizeErrorMessage(e.message) == e.message && SanitizeErrorCode(e.code) == e.code
  {
    ReachableInv(s);
    assert Cell(s, s.t.jobs[j].fileId) && JobOk(s, j);
    if s.t.jobs[j].lastError.Some? {
      MessagePasses(s.t.jobs[j].lastError.value.message);
      CodePasses(s.t.jobs[j].lastError.value.code);
    }
  }
}
