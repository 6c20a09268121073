/**
 `upload`, `process` and `processClaimedJob` as the program runs them, against a mutable
 database and object store. Each await is matched by the step of JobProtocol that it is:
 whatever the code has done to the real state, the protocol can do, so that the theorems
 about its runs hold of the code.
 */
module Runtime {
  import opened Options
  import opened Sets
  import opened ErrorText
  import opened JsonValues
  import opened StorageKeys
  import opened JobTables
  import opened RetryBackoff
  import opened JobProtocol
  import opened Repositories

  lemma ClaimStepResult(s: State, h: HandlerId, j: JobId, workerId: string, now: Millis, fault: Fault)
    requires j in s.t.jobs && h !in s.handlers && !fault.Refused?
    ensures var tx, s' := ClaimTx(s.t, j, workerId, now), ClaimStep(s, h, j, workerId, now, fault);
            && s'.store == s.store && s'.logged == s.logged && s'.validator == s.validator
            && match tx
               case RolledBack(_) => s' == s
               case Committed(t) =>
                 && s'.t == t && h in s'.handlers
                 && var reply := ClaimReturns(s.t, j);
                    if fault.Fine? && reply.Some? then s'.handlers[h] == Handler(reply.value, workerId, ReadContext)
                    else s'.handlers[h].phase == Ended(false)
  {
  }

  /** The step of a handler that records raw output. */
  lemma SaveRawMoves(s: State, h: HandlerId, i: Input)
    requires h in s.handlers && s.handlers[h].phase.SaveRaw?
    ensures Enabled(s, Continue(h, i)) && Apply(s, Continue(h, i)) == SaveRawStep(s, h, i)
  {
  }

  /** The step of a handler that records a report. */
  lemma SaveReportMoves(s: State, h: HandlerId, i: Input)
    requires h in s.handlers && s.handlers[h].phase.SaveReport?
    ensures Enabled(s, Continue(h, i)) && Apply(s, Continue(h, i)) == SaveReportStep(s, h, i)
  {
  }

  class System {
    const db: Database
    const validator: (Json, string) -> Validation
    var objects: map<StorageKey, Body>
    var logged: set<LogEvent>

    ghost var s: State
    ghost var start: State
    ghost var trace: seq<Action>

    /** The real state is the state that the trace leads to. */
    ghost predicate Valid()
      reads this, db
    {
      s.t == db.Snapshot() && s.store == objects && s.logged == logged
          && s.validator == validator && Runs(start, trace, s)
    }

    constructor (db: Database, validator: (Json, string) -> Validation)
      requires db.Snapshot() == Tables(map[], map[], map[])
      ensures Valid() && Initial(start) && this.db == db && this.validator == validator
    {
      this.db, this.validator := db, validator;
      objects, logged := map[], {};
      s := State(validator, Tables(map[], map[], map[]), map[], map[], map[], {}, map[], {});
      start := State(validator, Tables(map[], map[], map[]), map[], map[], map[], {}, map[], {});
      trace := [];
    }

    /** Whatever the code has done so far, the theorems of the protocol hold of it. */
    lemma StateIsReachable()
      requires Valid() && Initial(start)
      ensures Reachable(s)
    {
    }

    /** The protocol takes the step that matches the await just completed. */
    ghost method Take(a: Action)
      requires Runs(start, trace, s) && Enabled(s, a)
      modifies this`s, this`trace
      ensures s == Apply(old(s), a) && trace == old(trace) + [a] && Runs(start, trace, s)
    {
      RunsOneMore(start, trace, s, a);
      trace := trace + [a];
      s := Apply(s, a);
    }

    method PutObject(key: StorageKey, body: Body, fault: Fault) returns (ok: bool)
      modifies this`objects
      ensures objects == if fault.Refused? then old(objects) else old(objects)[key := body]
      ensures ok <==> fault.Fine?
    {
      if !fault.Refused? {
        objects := objects[key := body];
      }
      ok := fault.Fine?;
    }

    method DeleteObject(key: StorageKey, fault: Fault) returns (ok: bool)
      modifies this`objects
      ensures objects == if fault.Refused? then old(objects) else old(objects) - {key}
      ensures ok <==> fault.Fine?
    {
      if !fault.Refused? {
        objects := objects - {key};
      }
      ok := fault.Fine?;
    }

    /** A call that is refused does not reach the database; one that is not acknowledged throws after it has. */
    method SaveReportMetadata(fileId: FileId, key: StorageKey, versions: Versions, fault: Fault) returns (ok: bool)
      modifies db
      ensures var call := Run(old(db.Snapshot()), SaveReportTx(old(db.Snapshot()), fileId, key, versions), fault);
              db.Snapshot() == call.t && ok == call.returned
    {
      ok := false;
      if !fault.Refused? {
        var reply := db.SaveReportMetadata(fileId, key, versions);
        ok := reply.Returned? && fault.Fine?;
      }
    }

    method SaveRawMetadata(fileId: FileId, key: StorageKey, versions: Versions, fault: Fault) returns (ok: bool)
      modifies db
      ensures var call := Run(old(db.Snapshot()), SaveRawTx(old(db.Snapshot()), fileId, key, versions), fault);
              db.Snapshot() == call.t && ok == call.returned
    {
      ok := false;
      if !fault.Refused? {
        var reply := db.SaveRawMetadata(fileId, key, versions);
        ok := reply.Returned? && fault.Fine?;
      }
    }

    /** The three finalizations, told apart by their verdict. */
    method Finalize(me: Handler, verdict: Verdict, now: Millis, fault: Fault) returns (ok: bool)
      modifies db
      ensures var call := Run(old(db.Snapshot()),
                FinalizeTx(old(db.Snapshot()), me.job.id, me.job.fileId, me.workerId, me.job.attempts, verdict, now),
                    fault);
              db.Snapshot() == call.t && ok == call.returned
    {
      if fault.Refused? {
        return false;
      }
      var reply: Reply<()>;
      match verdict {
        case MarkSucceeded =>
          reply := db.MarkSucceeded(me.job.id, me.job.fileId, me.workerId, me.job.attempts, now);
        case MarkFailed(error) =>
          reply := db.MarkFailed(me.job.id, me.job.fileId, me.workerId, me.job.attempts, error, now);
        case Requeue(at, error) =>
          reply := db.RequeueWithBackoff(me.job.id, me.job.fileId, me.workerId, me.job.attempts, at, error, now);
      }
      ok := reply.Returned? && fault.Fine?;
    }

    // ----- app/processing/report_pipeline_processor.ts

    /** The call `h` of `processClaimedJob`, with its job and the id of its worker, is at `phase`. */
    ghost predicate At(h: HandlerId, me: Handler, phase: Phase)
      reads this
    {
      h in s.handlers && s.handlers[h] == me.(phase := phase)
    }

    /** The run has gone on, by steps of this handler and of anybody else. */
    twostate predicate Went()
      reads this
    {
      start == old(start) && old(trace) <= trace
    }

    /**
     The handler waits for a reply. While it does, others take any steps of theirs: the
     contract lets everything change except what belongs to the handler.
     */
    method Await(h: HandlerId) returns (i: Input)
      requires Valid() && h in s.handlers
      modifies this, db
      ensures Valid() && Went()
      ensures h in s.handlers && s.handlers[h] == old(s.handlers[h])
    {
      i := *;
    }

    method ReadOriginalTranscript(h: HandlerId, me: Handler, ctx: Context) returns (thrown: Option<ProcessingError>)
      requires Valid() && At(h, me, ReadTranscript(ctx))
      modifies this, db
      ensures Valid() && Went()
      ensures At(h, me, if thrown.None? then CallLlm(ctx) else Recover(thrown.value))
    {
      var i := Await(h);
      if i.fault.Fine? && ctx.originalKey in objects && objects[ctx.originalKey].Transcript? {
        var normalized := Trim(objects[ctx.originalKey].text);
        thrown := if normalized == []
            then Some(Error("empty_original_transcript", Ascii("original transcript is empty"), false))
                  else None;
      } else {
        thrown := Some(Error("s3_read_failed", i.message, i.retriable));
      }
      Take(Continue(h, i));
    }

    /** The call and its catch block. */
    method CallLlmAdapter(i: Input) returns (output: Option<LlmOutput>, thrown: Option<ProcessingError>)
      ensures match i.llm
              case LlmReturned(result) => output == Some(result) && thrown.None?
              case LlmThrew(code) =>
                && output.None?
                && thrown == Some(if i.retriable then ProcessingError(code, i.message, true)
                                  else Error("llm_call_failed", i.message, false))
    {
      output, thrown := None, None;
      match i.llm {
        case LlmReturned(result) => output := Some(result);
        case LlmThrew(code) =>
          if i.retriable {
            thrown := Some(ProcessingError(code, i.message, true));
          } else {
            thrown := Some(Error("llm_call_failed", i.message, false));
          }
      }
    }

    /** The adapter's answer is validated before anybody else runs; the validator may throw as well. */
    method AnalyzeAndValidate(h: HandlerId, me: Handler, ctx: Context)
      returns (output: Option<LlmOutput>, accepted: bool, thrown: Option<ProcessingError>)
      requires Valid() && At(h, me, CallLlm(ctx))
      modifies this, db
      ensures Valid() && Went()
      ensures output.None? <==> thrown.Some?
      ensures At(h, me, if thrown.Some? then Recover(thrown.value)
                        else if accepted then PutReport(ctx, output.value) else PutRaw(ctx, output.value))
    {
      var i := Await(h);
      output, thrown := CallLlmAdapter(i);
      accepted := false;
      if output.Some? {
        match validator(output.value.payload, output.value.versions.schema) {
          case ReportValid => accepted := true;
          case ReportInvalid => accepted := false;
          case ValidatorThrew => output, thrown := None, Some(UnknownError(i.message));
        }
      }
      Take(Continue(h, i));
    }

    method StoreRawOutput(h: HandlerId, me: Handler, ctx: Context, output: LlmOutput)
        returns (stored: bool, thrown: ProcessingError)
      requires Valid() && At(h, me, PutRaw(ctx, output))
      modifies this, db
      ensures Valid() && Went() && At(h, me, if stored then SaveRaw(ctx, output) else Recover(thrown))
    {
      var i := Await(h);
      stored := PutObject(RawKey(ctx.userId, me.job.fileId), RawOutput(output.rawText), i.fault);
      thrown := Error("s3_write_failed", i.message, false);
      Take(Continue(h, i));
    }

    method RecordRawOutput(h: HandlerId, me: Handler, ctx: Context, output: LlmOutput) returns (thrown: ProcessingError)
      requires Valid() && At(h, me, SaveRaw(ctx, output))
      modifies this, db
      ensures Valid() && Went() && At(h, me, Recover(thrown))
    {
      var i := Await(h);
      var saved := SaveRawMetadata(me.job.fileId, RawKey(ctx.userId, me.job.fileId), output.versions, i.fault);
      if !saved {
        logged := logged + {RawMetadataFailed(RawKey(ctx.userId, me.job.fileId))};
      }
      thrown := Error("schema_validation_failed", i.message, false);
      SaveRawMoves(s, h, i);
      Take(Continue(h, i));
    }

    method PersistRawOutputOnSchemaFailure(h: HandlerId, me: Handler, ctx: Context, output: LlmOutput)
      returns (thrown: ProcessingError)
      requires Valid() && At(h, me, PutRaw(ctx, output))
      modifies this, db
      ensures Valid() && Went() && At(h, me, Recover(thrown))
    {
      var stored;
      stored, thrown := StoreRawOutput(h, me, ctx, output);
      if stored {
        thrown := RecordRawOutput(h, me, ctx, output);
      }
    }

    method StoreReport(h: HandlerId, me: Handler, ctx: Context, output: LlmOutput)
        returns (stored: bool, error: ProcessingError)
      requires Valid() && At(h, me, PutReport(ctx, output))
      modifies this, db
      ensures Valid() && Went() && At(h, me, if stored then SaveReport(ctx, output) else Recover(error))
    {
      var i := Await(h);
      stored := PutObject(ReportKey(ctx.userId, me.job.fileId), Report(output.payload), i.fault);
      error := Error("s3_write_failed", i.message, i.retriable);
      Take(Continue(h, i));
    }

    method RecordReport(h: HandlerId, me: Handler, ctx: Context, output: LlmOutput)
        returns (saved: bool, error: ProcessingError)
      requires Valid() && At(h, me, SaveReport(ctx, output))
      modifies this, db
      ensures Valid() && Went() && At(h, me, if saved then Finish else CleanUp(ctx, error))
    {
      var i := Await(h);
      saved := SaveReportMetadata(me.job.fileId, ReportKey(ctx.userId, me.job.fileId), output.versions, i.fault);
      error := Error("db_update_failed", i.message, i.retriable);
      SaveReportMoves(s, h, i);
      Take(Continue(h, i));
    }

    method PersistReportArtifacts(h: HandlerId, me: Handler, ctx: Context, output: LlmOutput)
      returns (thrown: Option<ProcessingError>)
      requires Valid() && At(h, me, PutReport(ctx, output))
      modifies this, db
      ensures Valid() && Went()
      ensures At(h, me, if thrown.None? then Finish else Recover(thrown.value))
    {
      var stored, error := StoreReport(h, me, ctx, output);
      if !stored {
        return Some(error);
      }
      var saved;
      saved, error := RecordReport(h, me, ctx, output);
      if saved {
        return None;
      }
      CleanupWrittenArtifacts(h, me, ctx, error);
      thrown := Some(error);
    }

    method CleanupWrittenArtifacts(h: HandlerId, me: Handler, ctx: Context, error: ProcessingError)
      requires Valid() && At(h, me, CleanUp(ctx, error))
      modifies this, db
      ensures Valid() && Went() && At(h, me, Recover(error))
    {
      var key := ReportKey(ctx.userId, me.job.fileId);
      var i := Await(h);
      var deleted := DeleteObject(key, i.fault);
      if !deleted {
        logged := logged + {OrphanReport(key)};
      }
      Take(Continue(h, i));
    }

    method GetFileContext(h: HandlerId, me: Handler) returns (ctx: Option<Context>, error: ProcessingError)
      requires Valid() && At(h, me, ReadContext)
      modifies this, db
      ensures Valid() && Went()
      ensures At(h, me, if ctx.Some? then ReadTranscript(ctx.value) else Recover(error))
    {
      var i := Await(h);
      if !i.fault.Fine? {
        ctx, error := None, UnknownError(i.message);
      } else if me.job.fileId !in db.files {
        ctx, error := None, Error("file_context_not_found", Ascii("file context is missing for claimed job"), false);
      } else {
        ctx := Some(Context(db.files[me.job.fileId].userId, db.files[me.job.fileId].originalKey));
        error := UnknownError([]);
      }
      Take(Continue(h, i));
    }

    method MakeReport(h: HandlerId, me: Handler, ctx: Context) returns (thrown: Option<ProcessingError>)
      requires Valid() && At(h, me, CallLlm(ctx))
      modifies this, db
      ensures Valid() && Went()
      ensures At(h, me, if thrown.None? then Finish else Recover(thrown.value))
    {
      var output, accepted;
      output, accepted, thrown := AnalyzeAndValidate(h, me, ctx);
      if thrown.Some? {
        return;
      }
      if !accepted {
        var error := PersistRawOutputOnSchemaFailure(h, me, ctx, output.value);
        return Some(error);
      }
      thrown := PersistReportArtifacts(h, me, ctx, output.value);
    }

    /** `process`: returns without an error exactly when the report is stored and its metadata saved. */
    method Process(h: HandlerId, me: Handler) returns (thrown: Option<ProcessingError>)
      requires Valid() && At(h, me, ReadContext)
      modifies this, db
      ensures Valid() && Went()
      ensures At(h, me, if thrown.None? then Finish else Recover(thrown.value))
    {
      var ctx, error := GetFileContext(h, me);
      if ctx.None? {
        return Some(error);
      }
      thrown := ReadOriginalTranscript(h, me, ctx.value);
      if thrown.None? {
        thrown := MakeReport(h, me, ctx.value);
      }
    }

    // ----- app/processing/worker.ts

    method Claim(workerId: string, skip: set<JobId>, now: Millis)
        returns (reply: Reply<Option<ClaimedJob>>, ghost candidate: Option<JobId>)
      modifies db
      ensures candidate.None? ==> db.Snapshot() == old(db.Snapshot()) && reply == Returned(None)
      ensures candidate.Some? ==>
                && IsCandidate(old(db.Snapshot()), skip, now, candidate.value)
                && Performs(old(db.Snapshot()), ClaimTx(old(db.Snapshot()), candidate.value, workerId, now),
                     db.Snapshot(), reply,
                            ClaimReturns(old(db.Snapshot()), candidate.value))
    {
      ghost var before := db.Snapshot();
      reply := db.ClaimReadyJob(workerId, skip, now);
      ghost var any := exists id :: Claimable(before, skip, now, id);
      candidate := None;
      if any {
        ghost var id :| IsCandidate(before, skip, now, id)
                        && Performs(before, ClaimTx(before, id, workerId, now),
                             db.Snapshot(), reply, ClaimReturns(before, id));
        candidate := Some(id);
      }
    }

    /** The claim of one loop turn: a handler is at work exactly if it hands back a job. */
    method ClaimReadyJob(h: HandlerId, workerId: string, skip: set<JobId>, now: Millis, fault: Fault)
      returns (claimed: Option<ClaimedJob>)
      requires Valid() && h !in s.handlers
      modifies this, db
      ensures Valid() && Went()
      ensures claimed.Some? ==> At(h, Handler(claimed.value, workerId, ReadContext), ReadContext)
      ensures claimed.None? && h in s.handlers ==> s.handlers[h].phase == Ended(false)
    {
      if fault.Refused? {
        return None;
      }
      var reply;
      ghost var candidate;
      reply, candidate := Claim(workerId, skip, now);
      if candidate.Some? {
        ClaimStepResult(s, h, candidate.value, workerId, now, fault);
        Take(Action.Claim(h, candidate.value, skip, workerId, now, fault));
      }
      claimed := if reply.Returned? && fault.Fine? then reply.value else None;
    }

    /** The first try block: an error of `process` and an error of `markSucceeded` end in the same catch. */
    method ProcessAndMarkSucceeded(h: HandlerId, me: Handler) returns (thrown: Option<ProcessingError>)
      requires Valid() && At(h, me, ReadContext)
      modifies this, db
      ensures Valid() && Went()
      ensures At(h, me, if thrown.None? then Ended(true) else Recover(thrown.value))
    {
      thrown := Process(h, me);
      if thrown.None? {
        thrown := MarkJobSucceeded(h, me);
      }
    }

    method MarkJobSucceeded(h: HandlerId, me: Handler) returns (thrown: Option<ProcessingError>)
      requires Valid() && At(h, me, Finish)
      modifies this, db
      ensures Valid() && Went()
      ensures At(h, me, if thrown.None? then Ended(true) else Recover(thrown.value))
    {
      var i := Await(h);
      var ok := Finalize(me, Verdict.MarkSucceeded, i.now, i.fault);
      thrown := if ok then None else Some(UnknownError(i.message));
      Take(Continue(h, i));
    }

    /** The branch of the catch block. */
    method Recovery(me: Handler, error: ProcessingError, now: Millis, random: Number) returns (verdict: Verdict)
      ensures verdict == RecoveryVerdict(me.job, error, now, random)
    {
      var normalized := JobError(SanitizeErrorCode(error.code), SanitizeErrorMessage(error.message));
      if error.retriable && me.job.attempts < me.job.maxAttempts {
        var retryDelayMs := RetryDelayMs(me.job.attempts, random);
        return Requeue(now + retryDelayMs, normalized);
      }
      verdict := Verdict.MarkFailed(normalized);
    }

    method RequeueOrFail(h: HandlerId, me: Handler, error: ProcessingError) returns (ok: bool)
      requires Valid() && At(h, me, Recover(error))
      modifies this, db
      ensures Valid() && Went() && At(h, me, Ended(ok))
      ensures ok ==> Recorded(me, error)
    {
      var i := Await(h);
      ok := FinalizeFailed(me, error, i);
      Take(Continue(h, i));
    }

    /** The row of the job has the error, and so has the row of the file if the job has failed. */
    predicate Recorded(me: Handler, error: ProcessingError)
      reads db
    {
      && me.job.id in db.jobs && me.job.fileId in db.files
      && db.jobs[me.job.id].lastError.Some?
      && Records(db.jobs[me.job.id].lastError.value, error.code, error.message)
      && (db.jobs[me.job.id].status == Failed ==> db.files[me.job.fileId].error == db.jobs[me.job.id].lastError)
    }

    method FinalizeFailed(me: Handler, error: ProcessingError, i: Input) returns (ok: bool)
      modifies db
      ensures var verdict := RecoveryVerdict(me.job, error, i.now, i.random);
              var tx := FinalizeTx(old(db.Snapshot()), me.job.id, me.job.fileId, me.workerId,
                                   me.job.attempts, verdict, i.now);
              var call := Run(old(db.Snapshot()), tx, i.fault);
              db.Snapshot() == call.t && ok == call.returned
      ensures ok ==> Recorded(me, error)
    {
      var verdict := Recovery(me, error, i.now, i.random);
      ghost var before := db.Snapshot();
      ok := Finalize(me, verdict, i.now, i.fault);
      if ok {
        RecoveryRecords(before.jobs[me.job.id], before.files[me.job.fileId], me.job, error, i.now, i.random);
      }
    }

    /** Every call ends, having gone through the phases of one handler and no others. */
    method ProcessClaimedJob(h: HandlerId, me: Handler) returns (resolved: bool)
      requires Valid() && At(h, me, ReadContext)
      modifies this, db
      ensures Valid() && Went() && At(h, me, Ended(resolved))
    {
      var thrown := ProcessAndMarkSucceeded(h, me);
      if thrown.None? {
        return true;
      }
      resolved := RequeueOrFail(h, me, thrown.value);
    }

    // ----- app/files/service.ts

    ghost predicate UploadingAt(f: FileId, me: Upload, phase: UploadPhase)
      reads this
    {
      f in s.uploads && s.uploads[f] == me.(phase := phase)
    }

    /** A primary key that the sequence has not handed out. */
    method FreshJobId() returns (id: JobId)
      ensures id !in db.jobs
    {
      id := 0;
      ghost var below: set<JobId> := {};
      while id in db.jobs
        invariant below <= db.jobs.Keys && (forall k | k in below :: k < id)
        decreases |db.jobs.Keys| - |below|
      {
        SubsetSize(below + {id}, db.jobs.Keys);
        below := below + {id};
        id := id + 1;
      }
    }

    method AwaitUpload(f: FileId) returns (i: Input)
      requires Valid() && f in s.uploads
      modifies this, db
      ensures Valid() && Went() && i.newJob !in s.t.jobs
      ensures f in s.uploads && s.uploads[f] == old(s.uploads[f])
    {
      i := *;
      var id := FreshJobId();
      i := i.(newJob := id);
    }

    method CreateFile(f: FileId, userId: string, key: StorageKey, fault: Fault) returns (ok: bool)
      modifies db
      ensures var call := Run(old(db.Snapshot()), CreateFileTx(old(db.Snapshot()), f, userId, key), fault);
              db.Snapshot() == call.t && ok == call.returned
    {
      ok := false;
      if !fault.Refused? {
        var reply := db.CreateProcessingFile(f, userId, key);
        ok := reply.Returned? && fault.Fine?;
      }
    }

    /** `enqueueForFile` and the inner catch block: a unique violation is as good as success. */
    method EnqueueOrFind(f: FileId, i: Input) returns (ok: bool)
      modifies db
      ensures var tx := EnqueueTx(old(db.Snapshot()), f, i.newJob, i.now);
              var call := Run(old(db.Snapshot()), tx, i.fault);
              db.Snapshot() == call.t && ok == (call.returned || (i.fault.Fine? && tx == RolledBack("23505")))
    {
      if i.fault.Refused? {
        return false;
      }
      var reply := db.EnqueueForFile(f, i.newJob, i.now);
      ok := i.fault.Fine? && (reply.Returned? || reply.error == "23505");
    }

    method MarkQueued(f: FileId, userId: string, i: Input) returns (ok: bool)
      modifies db
      ensures var call := Run(old(db.Snapshot()), MarkFileQueuedTx(old(db.Snapshot()), f, userId, i.now), i.fault);
              db.Snapshot() == call.t && ok == call.returned
    {
      ok := false;
      if !i.fault.Refused? {
        var reply := db.MarkFileQueued(f, userId, i.now);
        ok := reply.Returned? && i.fault.Fine?;
      }
    }

    method MarkFailedBestEffort(f: FileId, userId: string, error: JobError, fault: Fault)
      modifies db
      ensures db.Snapshot() == Run(old(db.Snapshot()), MarkFileFailedTx(old(db.Snapshot()), f, userId, error), fault).t
    {
      if !fault.Refused? {
        var reply := db.MarkFileFailed(f, userId, error);
      }
    }

    method PutOriginal(f: FileId, me: Upload) returns (ok: bool, error: JobError)
      requires Valid() && UploadingAt(f, me, UploadPhase.PutOriginal)
      modifies this, db
      ensures Valid() && Went() && UploadingAt(f, me, if ok then Enqueue else MarkUploadFailed(error, false, false))
    {
      var i := AwaitUpload(f);
      ok := PutObject(me.originalKey, Transcript(me.text), i.fault);
      error := JobError(Ascii("s3_put_failed"), SanitizeErrorMessage(i.message));
      Take(ContinueUpload(f, i));
    }

    method EnqueueJob(f: FileId, me: Upload) returns (ok: bool, cause: Text)
      requires Valid() && UploadingAt(f, me, Enqueue)
      modifies this, db
      ensures Valid() && Went() && UploadingAt(f, me, if ok then UploadPhase.MarkQueued else DeleteOriginal(cause))
    {
      var i := AwaitUpload(f);
      ok := EnqueueOrFind(f, i);
      cause := i.message;
      Take(ContinueUpload(f, i));
    }

    method MarkFileQueued(f: FileId, me: Upload) returns (ok: bool, cause: Text)
      requires Valid() && UploadingAt(f, me, UploadPhase.MarkQueued)
      modifies this, db
      ensures Valid() && Went() && UploadingAt(f, me, if ok then Uploaded else DeleteOriginal(cause))
    {
      var i := AwaitUpload(f);
      ok := MarkQueued(f, me.userId, i);
      cause := i.message;
      Take(ContinueUpload(f, i));
    }

    method DeleteStoredOriginal(f: FileId, me: Upload, cause: Text) returns (deleteFailed: bool)
      requires Valid() && UploadingAt(f, me, DeleteOriginal(cause))
      modifies this, db
      ensures Valid() && Went()
      ensures UploadingAt(f, me, MarkUploadFailed(JobError(Ascii("enqueue_failed"), SanitizeErrorMessage(cause)),
              true, deleteFailed))
    {
      var i := AwaitUpload(f);
      var deleted := DeleteObject(me.originalKey, i.fault);
      deleteFailed := !deleted;
      Take(ContinueUpload(f, i));
    }

    method MarkFailedAndLog(f: FileId, me: Upload, error: JobError, enqueueFailed: bool, deleteFailed: bool)
      requires Valid() && UploadingAt(f, me, MarkUploadFailed(error, enqueueFailed, deleteFailed))
      modifies this, db
      ensures Valid() && Went() && UploadingAt(f, me, UploadFailed)
    {
      var i := AwaitUpload(f);
      MarkFailedBestEffort(f, me.userId, error, i.fault);
      if enqueueFailed {
        logged := logged + {OrphanFileWithoutJob(me.originalKey, deleteFailed)};
      }
      if deleteFailed {
        logged := logged + {OrphanOriginal(me.originalKey)};
      }
      Take(ContinueUpload(f, i));
    }

    /** The second try block of `upload`, with its compensation. */
    method EnqueueOrCompensate(f: FileId, me: Upload) returns (ok: bool)
      requires Valid() && UploadingAt(f, me, Enqueue)
      modifies this, db
      ensures Valid() && Went() && UploadingAt(f, me, if ok then Uploaded else UploadFailed)
    {
      var cause;
      ok, cause := EnqueueJob(f, me);
      if ok {
        ok, cause := MarkFileQueued(f, me);
      }
      if !ok {
        var deleteFailed := DeleteStoredOriginal(f, me, cause);
        MarkFailedAndLog(f, me, JobError(Ascii("enqueue_failed"), SanitizeErrorMessage(cause)), true, deleteFailed);
      }
    }

    /** `upload` from the first repository call on; `f` is the new random id. */
    method UploadFile(f: FileId, userId: string, extension: Extension, text: Text, fault: Fault) returns (ok: bool)
      requires Valid() && f !in s.uploads
      modifies this, db
      ensures Valid() && Went()
      ensures f in s.uploads
      ensures s.uploads[f] ==
              Upload(userId, OriginalKey(userId, f, extension), text, if ok then Uploaded else UploadFailed)
    {
      var key := OriginalKey(userId, f, extension);
      var me := Upload(userId, key, text, UploadPhase.PutOriginal);
      var created := CreateFile(f, userId, key, fault);
      Take(BeginUpload(f, userId, extension, text, fault));
      if !created {
        return false;
      }
      var error;
      ok, error := PutOriginal(f, me);
      if ok {
        ok := EnqueueOrCompensate(f, me);
      } else {
        MarkFailedAndLog(f, me, error, false, false);
      }
    }
  }
}
