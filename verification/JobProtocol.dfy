/**
 Uploads, workers and the report pipeline as one transition system. Every call to the
 database or to the object store is one atomic step that commits and returns, throws
 without an effect, or commits and throws. Any number of handlers and uploads interleave,
 several workers may share an id, and each of them may crash between two steps.
 */
module JobProtocol {
  import opened ErrorText
  import opened JsonValues
  import opened StorageKeys
  import opened JobTables
  import opened RetryBackoff

  datatype Body = Transcript(text: Text) | Report(payload: Json) | RawOutput(text: Text)

  /** What `validateReportPayload` does with a payload and a schema version. */
  datatype Validation = ReportValid | ReportInvalid | ValidatorThrew

  /** A call that took effect and threw, where that leaves something behind. */
  datatype Loss = LostPut(key: StorageKey) | LostSave(fileId: FileId)

  datatype Context = Context(userId: string, originalKey: StorageKey)
  datatype LlmOutput = LlmOutput(payload: Json, rawText: Text, versions: Versions)

  /** The error a step leaves for the catch block of `processClaimedJob`. */
  datatype ProcessingError = ProcessingError(code: Text, message: Text, retriable: bool)

  /** Where a call of `processClaimedJob` is; each constructor names the await it is about to run. */
  datatype Phase =
    | ReadContext
    | ReadTranscript(ctx: Context)
    | CallLlm(ctx: Context)
    | PutRaw(ctx: Context, output: LlmOutput)
    | SaveRaw(ctx: Context, output: LlmOutput)
    | PutReport(ctx: Context, output: LlmOutput)
    | SaveReport(ctx: Context, output: LlmOutput)
    | CleanUp(ctx: Context, error: ProcessingError)
    | Finish
    | Recover(error: ProcessingError)
    | Ended(resolved: bool)
    | Crashed(at: Phase)

  type HandlerId = nat
  datatype Handler = Handler(job: ClaimedJob, workerId: string, phase: Phase)

  datatype UploadPhase =
    | PutOriginal
    | Enqueue
    | MarkQueued
    | DeleteOriginal(cause: Text)
    | MarkUploadFailed(error: JobError, enqueueFailed: bool, deleteFailed: bool)
    | Uploaded
    | UploadFailed
    | UploadCrashed(before: UploadPhase)

  datatype Upload = Upload(userId: string, originalKey: StorageKey, text: Text, phase: UploadPhase)

  datatype LogEvent =
    | OrphanReport(key: StorageKey)
    | RawMetadataFailed(key: StorageKey)
    | OrphanFileWithoutJob(key: StorageKey, deleteFailed: bool)
    | OrphanOriginal(key: StorageKey)

  /** What a job's history records: committed claims and committed finalizations. */
  datatype Event =
    | Claimed(handler: HandlerId, attempts: int)
    | Finalized(handler: HandlerId, attempts: int, verdict: Verdict)

  /**
   `history` and `lost` are bookkeeping of the proof: no step looks at them. `lost` has the
   puts, and the writes of report metadata, that took effect and threw. `validator` stands for
   the compiled report schemas.
   */
  datatype State = State(
    validator: (Json, string) -> Validation,
    t: Tables,
    store: map<StorageKey, Body>,
    handlers: map<HandlerId, Handler>,
    uploads: map<FileId, Upload>,
    logged: set<LogEvent>,
    history: map<JobId, seq<Event>>,
    lost: set<Loss>)

  datatype Fault = Fine | Refused | Unacknowledged
  datatype LlmReply = LlmReturned(output: LlmOutput) | LlmThrew(code: Text)

  /** Everything one step takes from outside: the fault, the error text, the clock and so on. */
  datatype Input = Input(
    fault: Fault, message: Text, retriable: bool, now: Millis, random: Number, llm: LlmReply, newJob: JobId)

  datatype Action =
    | BeginUpload(fileId: FileId, userId: string, extension: Extension, text: Text, fault: Fault)
    | ContinueUpload(fileId: FileId, input: Input)
    | CrashUpload(fileId: FileId)
    | Claim(handlerId: HandlerId, jobId: JobId, skip: set<JobId>, workerId: string, now: Millis, fault: Fault)
    | Heartbeat(jobId: JobId, workerId: string, now: Millis)
    | Continue(handlerId: HandlerId, input: Input)
    | Crash(handlerId: HandlerId)

  predicate Live(phase: Phase) {
    !phase.Ended? && !phase.Crashed?
  }

  predicate LiveUpload(phase: UploadPhase) {
    !phase.Uploaded? && !phase.UploadFailed? && !phase.UploadCrashed?
  }

  ghost predicate Initial(s: State) {
    && s.t == Tables(map[], map[], map[]) && s.store == map[] && s.handlers == map[] && s.uploads == map[]
    && s.logged == {} && s.history == map[] && s.lost == {}
  }

  // ----- calls

  datatype Call = Call(t: Tables, returned: bool, committed: bool)

  function Run(t: Tables, tx: Outcome, fault: Fault): Call {
    if fault.Refused? || tx.RolledBack? then Call(t, false, false) else Call(tx.tables, fault.Fine?, true)
  }

  // ----- the handler

  function Error(code: string, message: Text, retriable: bool): ProcessingError {
    ProcessingError(Ascii(code), message, retriable)
  }

  /** Any error that is not a ProcessingJobError. */
  function UnknownError(message: Text): ProcessingError {
    Error("processing_failed", message, false)
  }

  /** normalizeProcessingError, and the branch of the catch block. */
  function RecoveryVerdict(job: ClaimedJob, e: ProcessingError, now: Millis, random: Number): Verdict {
    var normalized := JobError(SanitizeErrorCode(e.code), SanitizeErrorMessage(e.message));
    if e.retriable && job.attempts < job.maxAttempts
    then Requeue(now + RetryDelayMs(job.attempts, random), normalized)
    else MarkFailed(normalized)
  }

  /** Whichever branch the catch block takes, the job row records the error, and the file row that of a failed job. */
  lemma RecoveryRecords(
    job: JobRow, file: FileRow, claimed: ClaimedJob, e: ProcessingError, now: Millis, random: Number)
    ensures var verdict := RecoveryVerdict(claimed, e, now, random);
            var job', file' := FinalizedJob(job, verdict), FinalizedFile(file, verdict, claimed.attempts, now);
            && job'.lastError.Some? && Records(job'.lastError.value, e.code, e.message)
            && (job'.status == Failed ==> file'.status == FileFailed && file'.error == job'.lastError)
            && (job'.status == Queued ==> file'.status == FileQueued && file'.error.None?)
            && (job'.status == Failed || job'.status == Queued)
  {
    CodePasses(e.code);
    CodePasses(SanitizeErrorCode(e.code));
    MessagePasses(e.message);
  }

  function To(s: State, h: HandlerId, phase: Phase): State
    requires h in s.handlers
  {
    s.(handlers := s.handlers[h := s.handlers[h].(phase := phase)])
  }

  function Record(s: State, j: JobId, committed: bool, e: Event): State {
    if committed && j in s.history then s.(history := s.history[j := s.history[j] + [e]]) else s
  }

  function Lose(s: State, fault: Fault, loss: Loss): State {
    if fault.Unacknowledged? then s.(lost := s.lost + {loss}) else s
  }

  /** The validator accepts the payload under the schema version it came with. */
  predicate Accepted(s: State, payload: Json, versions: Versions) {
    s.validator(payload, versions.schema) == ReportValid
  }

  function Put(s: State, key: StorageKey, body: Body, fault: Fault): State {
    if fault.Refused? then s else Lose(s.(store := s.store[key := body]), fault, LostPut(key))
  }

  function Delete(s: State, key: StorageKey, fault: Fault): State {
    if fault.Refused? then s else s.(store := s.store - {key})
  }

  function Log(s: State, condition: bool, e: LogEvent): State {
    if condition then s.(logged := s.logged + {e}) else s
  }

  /** `getFileContext`. */
  function ContextStep(s: State, h: HandlerId, i: Input): State
    requires h in s.handlers && s.handlers[h].phase.ReadContext?
  {
    var f := s.handlers[h].job.fileId;
    if !i.fault.Fine? then To(s, h, Recover(UnknownError(i.message)))
    else if f !in s.t.files
      then To(s, h, Recover(Error("file_context_not_found", Ascii("file context is missing for claimed job"), false)))
    else To(s, h, ReadTranscript(Context(s.t.files[f].userId, s.t.files[f].originalKey)))
  }

  /** `readOriginalTranscript`. */
  function TranscriptStep(s: State, h: HandlerId, i: Input): State
    requires h in s.handlers && s.handlers[h].phase.ReadTranscript?
  {
    var ctx := s.handlers[h].phase.ctx;
    if !i.fault.Fine? || ctx.originalKey !in s.store || !s.store[ctx.originalKey].Transcript?
      then To(s, h, Recover(Error("s3_read_failed", i.message, i.retriable)))
    else if Trim(s.store[ctx.originalKey].text) == []
      then To(s, h, Recover(Error("empty_original_transcript", Ascii("original transcript is empty"), false)))
    else To(s, h, CallLlm(ctx))
  }

  /** `callLlmAdapter`, and the validation of what it returned. */
  function LlmStep(s: State, h: HandlerId, i: Input): State
    requires h in s.handlers && s.handlers[h].phase.CallLlm?
  {
    var ctx := s.handlers[h].phase.ctx;
    match i.llm
    case LlmThrew(code) =>
      To(s, h, Recover(if i.retriable then ProcessingError(code, i.message, true)
                       else Error("llm_call_failed", i.message, false)))
    case LlmReturned(output) =>
      To(s, h, match s.validator(output.payload, output.versions.schema)
               case ReportValid => PutReport(ctx, output)
               case ReportInvalid => PutRaw(ctx, output)
               case ValidatorThrew => Recover(UnknownError(i.message)))
  }

  /** The two awaits of `persistRawOutputOnSchemaFailure`. */
  function PutRawStep(s: State, h: HandlerId, i: Input): State
    requires h in s.handlers && s.handlers[h].phase.PutRaw?
  {
    var phase := s.handlers[h].phase;
    To(Put(s, RawKey(phase.ctx.userId, s.handlers[h].job.fileId), RawOutput(phase.output.rawText), i.fault), h,
       if i.fault.Fine? then SaveRaw(phase.ctx, phase.output) else Recover(Error("s3_write_failed", i.message, false)))
  }

  function SaveRawStep(s: State, h: HandlerId, i: Input): State
    requires h in s.handlers && s.handlers[h].phase.SaveRaw?
  {
    var f, phase := s.handlers[h].job.fileId, s.handlers[h].phase;
    var key := RawKey(phase.ctx.userId, f);
    var call := Run(s.t, SaveRawTx(s.t, f, key, phase.output.versions), i.fault);
    To(Log(s.(t := call.t), !call.returned, RawMetadataFailed(key)), h,
        Recover(Error("schema_validation_failed", i.message, false)))
  }

  /** The awaits of `persistReportArtifacts`, and of the clean-up in its catch block. */
  function PutReportStep(s: State, h: HandlerId, i: Input): State
    requires h in s.handlers && s.handlers[h].phase.PutReport?
  {
    var phase := s.handlers[h].phase;
    To(Put(s, ReportKey(phase.ctx.userId, s.handlers[h].job.fileId), Report(phase.output.payload), i.fault), h,
       if i.fault.Fine? then SaveReport(phase.ctx, phase.output)
       else Recover(Error("s3_write_failed", i.message, i.retriable)))
  }

  function SaveReportStep(s: State, h: HandlerId, i: Input): State
    requires h in s.handlers && s.handlers[h].phase.SaveReport?
  {
    var f, phase := s.handlers[h].job.fileId, s.handlers[h].phase;
    var call := Run(s.t, SaveReportTx(s.t, f, ReportKey(phase.ctx.userId, f), phase.output.versions), i.fault);
    To(Lose(s.(t := call.t), if call.committed then i.fault else Fine, LostSave(f)), h,
       if call.returned then Finish else CleanUp(phase.ctx, Error("db_update_failed", i.message, i.retriable)))
  }

  function CleanUpStep(s: State, h: HandlerId, i: Input): State
    requires h in s.handlers && s.handlers[h].phase.CleanUp?
  {
    var key := ReportKey(s.handlers[h].phase.ctx.userId, s.handlers[h].job.fileId);
    To(Log(Delete(s, key, i.fault), !i.fault.Fine?, OrphanReport(key)), h, Recover(s.handlers[h].phase.error))
  }

  predicate Finishing(phase: Phase) {
    phase.Finish? || phase.Recover?
  }

  /** One await of `process`. */
  function PipelineStep(s: State, h: HandlerId, i: Input): State
    requires h in s.handlers && Live(s.handlers[h].phase) && !Finishing(s.handlers[h].phase)
  {
    match s.handlers[h].phase
    case ReadContext => ContextStep(s, h, i)
    case ReadTranscript(_) => TranscriptStep(s, h, i)
    case CallLlm(_) => LlmStep(s, h, i)
    case PutRaw(_, _) => PutRawStep(s, h, i)
    case SaveRaw(_, _) => SaveRawStep(s, h, i)
    case PutReport(_, _) => PutReportStep(s, h, i)
    case SaveReport(_, _) => SaveReportStep(s, h, i)
    case CleanUp(_, _) => CleanUpStep(s, h, i)
  }

  /** `markSucceeded`, or what the catch block does instead. */
  function FinalStep(s: State, h: HandlerId, i: Input): State
    requires h in s.handlers && Finishing(s.handlers[h].phase)
  {
    var hd := s.handlers[h];
    var verdict := if hd.phase.Finish? then MarkSucceeded else RecoveryVerdict(hd.job, hd.phase.error, i.now, i.random);
    var tx := FinalizeTx(s.t, hd.job.id, hd.job.fileId, hd.workerId, hd.job.attempts, verdict, i.now);
    var call := Run(s.t, tx, i.fault);
    To(Record(s.(t := call.t), hd.job.id, call.committed, Finalized(h, hd.job.attempts, verdict)), h,
       if hd.phase.Finish? && !call.returned then Recover(UnknownError(i.message)) else Ended(call.returned))
  }

  // ----- the upload

  function UploadTo(s: State, f: FileId, phase: UploadPhase): State
    requires f in s.uploads
  {
    s.(uploads := s.uploads[f := s.uploads[f].(phase := phase)])
  }

  /** `putObject` of the original; on failure the file is marked failed. */
  function PutOriginalStep(s: State, f: FileId, i: Input): State
    requires f in s.uploads
  {
    var u := s.uploads[f];
    UploadTo(Put(s, u.originalKey, Transcript(u.text), i.fault), f,
             if i.fault.Fine? then Enqueue
             else MarkUploadFailed(JobError(Ascii("s3_put_failed"), SanitizeErrorMessage(i.message)), false, false))
  }

  /** `enqueueForFile`, where a unique violation counts as success. */
  function EnqueueStep(s: State, f: FileId, i: Input): State
    requires f in s.uploads
  {
    var tx := EnqueueTx(s.t, f, i.newJob, i.now);
    var call := Run(s.t, tx, i.fault);
    var s' := s.(t := call.t, history := if call.committed then s.history[i.newJob := []] else s.history);
    var duplicate := i.fault.Fine? && tx == RolledBack("23505");
    UploadTo(s', f, if call.returned || duplicate then MarkQueued else DeleteOriginal(i.message))
  }

  function MarkQueuedStep(s: State, f: FileId, i: Input): State
    requires f in s.uploads
  {
    var call := Run(s.t, MarkFileQueuedTx(s.t, f, s.uploads[f].userId, i.now), i.fault);
    UploadTo(s.(t := call.t), f, if call.returned then Uploaded else DeleteOriginal(i.message))
  }

  /** The compensation: the original is deleted, then the file is marked failed, then the orphans are logged. */
  function DeleteOriginalStep(s: State, f: FileId, i: Input): State
    requires f in s.uploads && s.uploads[f].phase.DeleteOriginal?
  {
    var error := JobError(Ascii("enqueue_failed"), SanitizeErrorMessage(s.uploads[f].phase.cause));
    UploadTo(Delete(s, s.uploads[f].originalKey, i.fault), f, MarkUploadFailed(error, true, !i.fault.Fine?))
  }

  function MarkUploadFailedStep(s: State, f: FileId, i: Input): State
    requires f in s.uploads && s.uploads[f].phase.MarkUploadFailed?
  {
    var u := s.uploads[f];
    var call := Run(s.t, MarkFileFailedTx(s.t, f, u.userId, u.phase.error), i.fault);
    var s' := Log(s.(t := call.t), u.phase.enqueueFailed, OrphanFileWithoutJob(u.originalKey, u.phase.deleteFailed));
    UploadTo(Log(s', u.phase.deleteFailed, OrphanOriginal(u.originalKey)), f, UploadFailed)
  }

  /** One await of `upload`, once the file row exists. */
  function UploadStep(s: State, f: FileId, i: Input): State
    requires f in s.uploads && LiveUpload(s.uploads[f].phase)
  {
    match s.uploads[f].phase
    case PutOriginal => PutOriginalStep(s, f, i)
    case Enqueue => EnqueueStep(s, f, i)
    case MarkQueued => MarkQueuedStep(s, f, i)
    case DeleteOriginal(_) => DeleteOriginalStep(s, f, i)
    case MarkUploadFailed(_, _, _) => MarkUploadFailedStep(s, f, i)
  }

  // ----- steps and runs

  ghost predicate Enabled(s: State, a: Action) {
    match a
    case BeginUpload(f, _, _, _, _) => f !in s.uploads
    case ContinueUpload(f, i) => f in s.uploads && LiveUpload(s.uploads[f].phase) && i.newJob !in s.t.jobs
    case CrashUpload(f) => f in s.uploads && LiveUpload(s.uploads[f].phase)
    case Claim(h, j, skip, _, now, fault) => h !in s.handlers && IsCandidate(s.t, skip, now, j) && !fault.Refused?
    case Heartbeat(j, w, _) => HoldsLock(s.t, j, w)
    case Continue(h, _) => h in s.handlers && Live(s.handlers[h].phase)
    case Crash(h) => h in s.handlers && Live(s.handlers[h].phase)
  }

  /** The file a step is about. */
  function FileOf(s: State, a: Action): FileId
    requires Enabled(s, a)
  {
    match a
    case BeginUpload(f, _, _, _, _) => f
    case ContinueUpload(f, _) => f
    case CrashUpload(f) => f
    case Claim(_, j, _, _, _, _) => s.t.jobs[j].fileId
    case Heartbeat(j, _, _) => s.t.jobs[j].fileId
    case Continue(h, _) => s.handlers[h].job.fileId
    case Crash(h) => s.handlers[h].job.fileId
  }

  function BeginUploadStep(s: State, f: FileId, userId: string, extension: Extension, text: Text, fault: Fault): State {
    var key := OriginalKey(userId, f, extension);
    var call := Run(s.t, CreateFileTx(s.t, f, userId, key), fault);
    var phase := if call.returned then PutOriginal else UploadFailed;
    s.(t := call.t, uploads := s.uploads[f := Upload(userId, key, text, phase)])
  }

  /** A claim that commits but is not acknowledged leaves the job to a handler that never runs. */
  function ClaimStep(s: State, h: HandlerId, j: JobId, workerId: string, now: Millis, fault: Fault): State
    requires j in s.t.jobs
  {
    var call := Run(s.t, ClaimTx(s.t, j, workerId, now), fault);
    if !call.committed then s
    else
      var job := s.t.jobs[j];
      var claimed := ClaimedJob(j, job.fileId, job.attempts + 1, job.maxAttempts, job.lockTtlSeconds);
      var phase := if call.returned && ClaimReturns(s.t, j).Some? then ReadContext else Ended(false);
      Record(s.(t := call.t, handlers := s.handlers[h := Handler(claimed, workerId, phase)]),
             j, true, Claimed(h, claimed.attempts))
  }

  function Apply(s: State, a: Action): State
    requires Enabled(s, a)
  {
    match a
    case BeginUpload(f, userId, extension, text, fault) => BeginUploadStep(s, f, userId, extension, text, fault)
    case ContinueUpload(f, i) => UploadStep(s, f, i)
    case CrashUpload(f) => UploadTo(s, f, UploadCrashed(s.uploads[f].phase))
    case Claim(h, j, _, workerId, now, fault) => ClaimStep(s, h, j, workerId, now, fault)
    case Heartbeat(j, workerId, now) => s.(t := Run(s.t, HeartbeatTx(s.t, j, workerId, now), Fine).t)
    case Continue(h, i) => if Finishing(s.handlers[h].phase) then FinalStep(s, h, i) else PipelineStep(s, h, i)
    case Crash(h) => To(s, h, Crashed(s.handlers[h].phase))
  }

  /** `actions` leads from `s` to `last`. */
  ghost predicate Runs(s: State, actions: seq<Action>, last: State)
    decreases |actions|
  {
    if actions == [] then last == s
    else Enabled(s, actions[0]) && Runs(Apply(s, actions[0]), actions[1..], last)
  }

  ghost predicate Reachable(s: State) {
    exists first, actions :: Initial(first) && Runs(first, actions, s)
  }

  lemma {:induction false} RunsOneMore(first: State, actions: seq<Action>, s: State, a: Action)
    requires Runs(first, actions, s) && Enabled(s, a)
    ensures Runs(first, actions + [a], Apply(s, a))
    decreases |actions|
  {
    if actions == [] {
      assert actions + [a] == [a];
      assert Runs(Apply(s, a), [], Apply(s, a));
    } else {
      assert (actions + [a])[1..] == actions[1..] + [a];
      RunsOneMore(Apply(first, actions[0]), actions[1..], s, a);
    }
  }

  lemma StepIsReachable(s: State, a: Action, s': State)
    requires Reachable(s) && Enabled(s, a) && s' == Apply(s, a)
    ensures Reachable(s')
  {
    var first, actions :| Initial(first) && Runs(first, actions, s);
    RunsOneMore(first, actions, s, a);
  }
}
