/** Which error a step of the pipeline ends in, and what the rows of job and file say of it afterwards. */
module JobErrors {
  import opened Options
  import opened ErrorText
  import opened JobTables
  import opened JobProtocol
  import opened JobSettlement
  import opened JobTheorems

  predicate Is(e: ProcessingError, code: string, message: Text, retriable: bool) {
    e.code == Ascii(code) && e.message == message && e.retriable == retriable
  }

  // ----- what each step ends in

  /** The phase of the handler after its next step. */
  function Next(s: State, h: HandlerId, i: Input): Phase
    requires h in s.handlers && Live(s.handlers[h].phase) && !Finishing(s.handlers[h].phase)
  {
    var s' := PipelineStep(s, h, i);
    if h in s'.handlers then s'.handlers[h].phase else s.handlers[h].phase
  }

  lemma AfterReadingContext(s: State, h: HandlerId, i: Input)
    requires h in s.handlers && s.handlers[h].phase.ReadContext?
    ensures var f, next := s.handlers[h].job.fileId, Next(s, h, i);
            if i.fault.Fine? && f in s.t.files then
              next == ReadTranscript(Context(s.t.files[f].userId, s.t.files[f].originalKey))
            else
              && next.Recover?
              && (!i.fault.Fine? ==> Is(next.error, "processing_failed", i.message, false))
              && (i.fault.Fine? ==> next.error.code == Ascii("file_context_not_found") && !next.error.retriable)
  {
  }

  lemma AfterReadingTranscript(s: State, h: HandlerId, i: Input)
    requires h in s.handlers && s.handlers[h].phase.ReadTranscript?
    ensures var ctx, next := s.handlers[h].phase.ctx, Next(s, h, i);
            if !i.fault.Fine? || ctx.originalKey !in s.store || !s.store[ctx.originalKey].Transcript? then
              next.Recover? && Is(next.error, "s3_read_failed", i.message, i.retriable)
            else if Trim(s.store[ctx.originalKey].text) == [] then
              next.Recover? && next.error.code == Ascii("empty_original_transcript") && !next.error.retriable
            else next == CallLlm(ctx)
  {
  }

  lemma AfterTheModel(s: State, h: HandlerId, i: Input)
    requires h in s.handlers && s.handlers[h].phase.CallLlm?
    ensures var ctx, next := s.handlers[h].phase.ctx, Next(s, h, i);
            match i.llm
            case LlmThrew(code) =>
              && next.Recover?
              && (i.retriable ==> next.error == ProcessingError(code, i.message, true))
              && (!i.retriable ==> Is(next.error, "llm_call_failed", i.message, false))
            case LlmReturned(output) =>
              var verdict := s.validator(output.payload, output.versions.schema);
              && (verdict == ReportValid <==> next == PutReport(ctx, output))
              && (verdict == ReportInvalid <==> next == PutRaw(ctx, output))
              && (verdict == ValidatorThrew <==> next.Recover? && Is(next.error, "processing_failed", i.message, false))
  {
  }

  lemma AfterWritingRawOutput(s: State, h: HandlerId, i: Input)
    requires h in s.handlers && (s.handlers[h].phase.PutRaw? || s.handlers[h].phase.SaveRaw?)
    ensures var phase, next := s.handlers[h].phase, Next(s, h, i);
            if phase.PutRaw? && i.fault.Fine? then next == SaveRaw(phase.ctx, phase.output)
            else
              && next.Recover?
              && Is(next.error, if phase.PutRaw? then "s3_write_failed" else "schema_validation_failed",
                    i.message, false)
  {
  }

  lemma AfterWritingReport(s: State, h: HandlerId, i: Input)
    requires h in s.handlers && (s.handlers[h].phase.PutReport? || s.handlers[h].phase.SaveReport?)
    ensures var phase, next := s.handlers[h].phase, Next(s, h, i);
            if phase.PutReport? then
              && (i.fault.Fine? ==> next == SaveReport(phase.ctx, phase.output))
              && (!i.fault.Fine? ==> next.Recover? && Is(next.error, "s3_write_failed", i.message, i.retriable))
            else
              && (i.fault.Fine? && s.handlers[h].job.fileId in s.t.files ==> next == Finish)
              && (!(i.fault.Fine? && s.handlers[h].job.fileId in s.t.files) ==>
                   next.CleanUp? && next.ctx == phase.ctx && Is(next.error, "db_update_failed", i.message, i.retriable))
  {
  }

  lemma AfterCleaningUp(s: State, h: HandlerId, i: Input)
    requires h in s.handlers && s.handlers[h].phase.CleanUp?
    ensures Next(s, h, i) == Recover(s.handlers[h].phase.error)
  {
  }

  /** A `markSucceeded` that throws is an unknown error to the catch block; what throws there ends the call. */
  lemma AfterFinalizing(s: State, h: HandlerId, i: Input)
    requires h in s.handlers && Finishing(s.handlers[h].phase)
    ensures h in FinalStep(s, h, i).handlers
    ensures var next := FinalStep(s, h, i).handlers[h].phase;
            && (next.Recover? ==> s.handlers[h].phase.Finish? && Is(next.error, "processing_failed", i.message, false))
            && (!next.Recover? ==> next.Ended? && (next.resolved || s.handlers[h].phase.Recover?))
  {
  }

  // ----- what the rows say

  /**
   After a committed catch block the job row has the code and the message of the error, each
   sanitized and in its own column; a code or message that is stable is there as it was. The file
   shows the same error if the job has failed, and none if it waits for a retry.
   */
  lemma RecordedErrorIsTheThrownOne(s: State, h: HandlerId, i: Input)
    requires Reachable(s) && h in s.handlers && s.handlers[h].phase.Recover? && FinalStep(s, h, i).history != s.history
    ensures var hd, s' := s.handlers[h], FinalStep(s, h, i);
            && hd.job.id in s'.t.jobs && hd.job.fileId in s'.t.files
            && var job, file := s'.t.jobs[hd.job.id], s'.t.files[hd.job.fileId];
               && job.lastError.Some? && Records(job.lastError.value, hd.phase.error.code, hd.phase.error.message)
               && (job.status == Failed ==> file.status == FileFailed && file.error == job.lastError)
               && (job.status == Queued ==> file.status == FileQueued && file.error == None)
               && (job.status == Failed || job.status == Queued)
  {
    var hd := s.handlers[h];
    HandlerFacts(s, h);
    RecoveryCommits(s, FinalStep(s, h, i), h, i);
    RecoveryRecords(s.t.jobs[hd.job.id], s.t.files[hd.job.fileId], hd.job, hd.phase.error, i.now, i.random);
  }

  lemma RecoveryCommits(s: State, s': State, h: HandlerId, i: Input)
    requires h in s.handlers && s.handlers[h].phase.Recover? && s.handlers[h].job.id in s.history
    requires s' == FinalStep(s, h, i) && s'.history != s.history
    ensures var hd := s.handlers[h];
            var verdict := RecoveryVerdict(hd.job, hd.phase.error, i.now, i.random);
            && hd.job.id in s.t.jobs && hd.job.fileId in s.t.files
            && hd.job.id in s'.t.jobs && s'.t.jobs[hd.job.id] == FinalizedJob(s.t.jobs[hd.job.id], verdict)
            && hd.job.fileId in s'.t.files
            && s'.t.files[hd.job.fileId] ==
               FinalizedFile(s.t.files[hd.job.fileId], verdict, hd.job.attempts, i.now)
  {
  }

  /** `markSucceeded` that commits clears the error of the job and of its file. */
  lemma SuccessClearsTheError(s: State, h: HandlerId, i: Input)
    requires Reachable(s) && h in s.handlers && s.handlers[h].phase.Finish? && FinalStep(s, h, i).history != s.history
    ensures var hd, s' := s.handlers[h], FinalStep(s, h, i);
            && hd.job.id in s'.t.jobs && hd.job.fileId in s'.t.files
            && s'.t.jobs[hd.job.id].status == Succeeded && s'.t.jobs[hd.job.id].lastError == None
            && s'.t.files[hd.job.fileId].status == FileSucceeded && s'.t.files[hd.job.fileId].error == None
            && s'.t.files[hd.job.fileId].processedAt == Some(i.now)
  {
    var hd := s.handlers[h];
    HandlerFacts(s, h);
    CellFacts(s, hd.job.fileId);
    var settled, verdict, phase := FinalStepIs(s, FinalStep(s, h, i), hd.job.fileId, h, i);
  }

  // ----- uploads

  /** The phase of the upload after its next step, and the error that a failing end will write. */
  lemma AfterUploadStep(s: State, f: FileId, i: Input)
    requires f in s.uploads && LiveUpload(s.uploads[f].phase)
    ensures f in UploadStep(s, f, i).uploads
    ensures var phase, next := s.uploads[f].phase, UploadStep(s, f, i).uploads[f].phase;
            match phase
            case PutOriginal =>
              if i.fault.Fine? then next == Enqueue
              else next == MarkUploadFailed(
                JobError(Ascii("s3_put_failed"), SanitizeErrorMessage(i.message)), false, false)
            case Enqueue =>
              next == if i.fault.Fine? && (f in s.t.files || f in s.t.jobOfFile || i.newJob in s.t.jobs)
                      then MarkQueued else DeleteOriginal(i.message)
            case MarkQueued =>
              next == if i.fault.Fine? && f in s.t.files && s.t.files[f].userId == s.uploads[f].userId
                      then Uploaded else DeleteOriginal(i.message)
            case DeleteOriginal(cause) =>
              next == MarkUploadFailed(
                JobError(Ascii("enqueue_failed"), SanitizeErrorMessage(cause)), true, !i.fault.Fine?)
            case MarkUploadFailed(_, _, _) => next == UploadFailed
  {
  }

  /** An upload goes on only if the row of its file could be inserted and that was acknowledged. */
  lemma UploadBeginsIff(s: State, a: Action)
    requires Enabled(s, a) && a.BeginUpload?
    ensures var s', f := Apply(s, a), a.fileId;
            && f in s'.uploads
            && (LiveUpload(s'.uploads[f].phase) <==> a.fault.Fine? && f !in s.t.files)
            && (LiveUpload(s'.uploads[f].phase) ==>
                 && s'.uploads[f].phase == PutOriginal && f in s'.t.files
                 && s'.t.files[f].status == FileProcessing && s'.t.files[f].processingAttempts == 0)
  {
  }

  /** The failing end writes its error to the file, unless the write is refused. */
  lemma FailedUploadShowsItsError(s: State, f: FileId, i: Input)
    requires Reachable(s) && f in s.uploads && s.uploads[f].phase.MarkUploadFailed?
    ensures var s' := UploadStep(s, f, i);
            f in s'.t.files &&
            if i.fault.Refused? then s'.t == s.t
            else s'.t.files[f].status == FileFailed && s'.t.files[f].error == Some(s.uploads[f].phase.error)
  {
    RowOfUpload(s, f);
    FailureIsWritten(s, f, i);
  }

  lemma RowOfUpload(s: State, f: FileId)
    requires Reachable(s) && f in s.uploads && LiveUpload(s.uploads[f].phase)
    ensures f in s.t.files && s.t.files[f].userId == s.uploads[f].userId
  {
    CellFacts(s, f);
  }

  lemma FailureIsWritten(s: State, f: FileId, i: Input)
    requires f in s.uploads && s.uploads[f].phase.MarkUploadFailed?
    requires f in s.t.files && s.t.files[f].userId == s.uploads[f].userId
    ensures var s' := UploadStep(s, f, i);
            f in s'.t.files &&
            if i.fault.Refused? then s'.t == s.t
            else s'.t.files[f].status == FileFailed && s'.t.files[f].error == Some(s.uploads[f].phase.error)
  {
  }
}
