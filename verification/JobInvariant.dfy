/**
 The invariant of JobProtocol. It is stated file by file: everything about one file sits in
 `Cell`, and a step about one file leaves the cells of all others alone.
 */
module JobInvariant {
  import opened Options
  import opened ErrorText
  import opened StorageKeys
  import opened JobTables
  import opened JobProtocol

  /** The phase of a handler or upload, looking through a crash. */
  function At(phase: Phase): Phase {
    match phase case Crashed(at) => at case _ => phase
  }

  function UploadAt(phase: UploadPhase): UploadPhase {
    match phase case UploadCrashed(before) => before case _ => phase
  }

  predicate HasContext(phase: Phase) {
    phase.ReadTranscript? || phase.CallLlm? || phase.PutRaw? || phase.SaveRaw?
        || phase.PutReport? || phase.SaveReport? || phase.CleanUp?
  }

  // ----- jobs and their history

  /** The history of a job alternates claims 1, 2, 3, ... with finalizations by the same handler. */
  ghost predicate HistoryOk(history: seq<Event>, job: JobRow) {
    && |history| == 2 * job.attempts - (if job.status == Processing then 1 else 0)
    && (forall i | 0 <= i < |history| :: history[i].attempts == i / 2 + 1 && (history[i].Claimed? <==> i % 2 == 0))
    && (forall i | 0 <= i < |history| && i % 2 == 1 :: history[i].handler == history[i - 1].handler)
    && (forall i | 0 <= i < |history| - 1 && i % 2 == 1 :: history[i].verdict.Requeue?)
    && (job.status == Succeeded ==> history != [] && history[|history| - 1].verdict.MarkSucceeded?)
    && (job.status == Failed ==> history != [] && history[|history| - 1].verdict.MarkFailed?)
    && (job.status == Queued && history != [] ==> history[|history| - 1].verdict.Requeue?)
  }

  predicate LockOk(job: JobRow) {
    && (job.lockedAt.Some? <==> job.status == Processing)
    && (job.lockedBy.Some? <==> job.status == Processing)
    && (job.heartbeatAt.Some? <==> job.status == Processing)
  }

  predicate AttemptsOk(job: JobRow) {
    && 0 <= job.attempts <= job.maxAttempts
    && (job.status == Queued ==> job.attempts < job.maxAttempts)
    && (job.status != Queued ==> job.attempts > 0)
  }

  /** The handler of the latest claim. */
  ghost function LastHandler(s: State, j: JobId): HandlerId
    requires j in s.history && s.history[j] != []
  {
    s.history[j][|s.history[j]| - 1].handler
  }

  /** The report of `f` is stored under its key, was accepted by the validator, and the row names it. */
  ghost predicate ReportInPlace(s: State, f: FileId) {
    && f in s.t.files
    && var key := ReportKey(s.t.files[f].userId, f);
    && s.t.files[f].reportKey == Some(key)
    && key in s.store && s.store[key].Report?
    && s.t.files[f].versions.Some? && Accepted(s, s.store[key].payload, s.t.files[f].versions.value)
  }

  /** A processing job belongs to its last handler, which is at work or has come to grief. */
  ghost predicate HeldByLast(s: State, j: JobId)
    requires j in s.t.jobs
  {
    && j in s.history && s.history[j] != []
    && LastHandler(s, j) in s.handlers
    && var hd := s.handlers[LastHandler(s, j)];
    && hd.job.id == j && hd.job.fileId == s.t.jobs[j].fileId && hd.job.attempts == s.t.jobs[j].attempts
    && s.t.jobs[j].lockedBy == Some(hd.workerId)
    && hd.phase != Ended(true)
  }

  ghost predicate JobOk(s: State, j: JobId)
    requires j in s.t.jobs
  {
    var job := s.t.jobs[j];
    && j in s.history && HistoryOk(s.history[j], job)
    && LockOk(job) && AttemptsOk(job)
    && (job.lastError.Some? ==> StableCode(job.lastError.value.code) && StableMessage(job.lastError.value.message))
    && (job.status == Processing ==> HeldByLast(s, j))
    && (job.status == Succeeded ==> ReportInPlace(s, job.fileId))
  }

  // ----- handlers

  /** The handler still holds its job: nobody else has claimed or finalized it since. */
  predicate Holds(s: State, hd: Handler) {
    && hd.job.id in s.t.jobs
    && s.t.jobs[hd.job.id].status == Processing
    && s.t.jobs[hd.job.id].attempts == hd.job.attempts
    && s.t.jobs[hd.job.id].lockedBy == Some(hd.workerId)
  }

  /** `markSucceeded` committed and threw, so the handler does not know that it is done. */
  predicate Outlived(job: JobRow, hd: Handler) {
    job.status == Succeeded && job.attempts == hd.job.attempts
  }

  ghost predicate PhaseOk(s: State, hd: Handler)
    requires hd.job.id in s.t.jobs
  {
    var f, phase := hd.job.fileId, hd.phase;
    && (HasContext(phase) ==>
         && f in s.t.files && phase.ctx.userId == s.t.files[f].userId
         && phase.ctx.originalKey == s.t.files[f].originalKey)
    && (phase.PutReport? || phase.SaveReport? ==> Accepted(s, phase.output.payload, phase.output.versions))
    && (phase.PutRaw? || phase.SaveRaw? ==>
         s.validator(phase.output.payload, phase.output.versions.schema) == ReportInvalid)
    && (phase.SaveRaw? ==>
         var key := RawKey(phase.ctx.userId, f); key in s.store && s.store[key] == RawOutput(phase.output.rawText))
    && (phase.SaveReport? ==>
         var key := ReportKey(phase.ctx.userId, f); key in s.store && s.store[key] == Report(phase.output.payload))
    && (phase.Finish? ==> ReportInPlace(s, f))
    && (Live(phase) ==> Holds(s, hd) || (phase.Recover? && !phase.error.retriable && Outlived(s.t.jobs[hd.job.id], hd)))
  }

  ghost predicate HandlerOk(s: State, h: HandlerId)
    requires h in s.handlers
  {
    var hd := s.handlers[h];
    && hd.job.id in s.t.jobs && hd.job.id in s.history
    && s.t.jobs[hd.job.id].fileId == hd.job.fileId && s.t.jobs[hd.job.id].maxAttempts == hd.job.maxAttempts
    && 1 <= hd.job.attempts <= s.t.jobs[hd.job.id].attempts
    && 2 * hd.job.attempts - 2 < |s.history[hd.job.id]|
    && s.history[hd.job.id][2 * hd.job.attempts - 2] == Claimed(h, hd.job.attempts)
    && PhaseOk(s, hd)
  }

  // ----- files and uploads

  ghost predicate FileOk(s: State, f: FileId)
    requires f in s.uploads
  {
    var u := s.uploads[f];
    && u.originalKey.OriginalKey? && u.originalKey.userId == u.userId && u.originalKey.fileId == f
    && (f in s.t.files ==>
         && s.t.files[f].userId == u.userId && s.t.files[f].originalKey == u.originalKey
         && (s.t.files[f].reportKey.Some? ==> s.t.files[f].reportKey == Some(ReportKey(u.userId, f)))
         && (s.t.files[f].rawKey.Some? ==> s.t.files[f].rawKey == Some(RawKey(u.userId, f)))
         && (f !in s.t.jobOfFile ==> s.t.files[f].status != FileSucceeded && s.t.files[f].processingAttempts == 0))
    && (LiveUpload(u.phase) ==> f in s.t.files)
    && (u.phase == PutOriginal || u.phase == Enqueue ==> f !in s.t.jobOfFile)
    && (u.phase == MarkQueued || u.phase == Uploaded ==> f in s.t.jobOfFile)
    && (u.phase.MarkUploadFailed? && !u.phase.enqueueFailed ==> f !in s.t.jobOfFile && !u.phase.deleteFailed)
    && (f in s.t.jobOfFile ==>
         var j := s.t.jobOfFile[f];
         && f in s.t.files && j in s.t.jobs && s.t.jobs[j].fileId == f && JobOk(s, j)
         && s.t.files[f].processingAttempts == s.t.jobs[j].attempts
         && (s.t.files[f].status == FileSucceeded ==> s.t.jobs[j].status == Succeeded))
  }

  // ----- storage accounting

  /** The last handler of a processing job is (or crashed) at a phase satisfying `there`. */
  ghost predicate LastAt(s: State, f: FileId, there: Phase -> bool) {
    && f in s.t.jobOfFile && s.t.jobOfFile[f] in s.t.jobs
    && s.t.jobs[s.t.jobOfFile[f]].status == Processing
    && HeldByLast(s, s.t.jobOfFile[f])
    && there(At(s.handlers[LastHandler(s, s.t.jobOfFile[f])].phase))
  }

  predicate BetweenPutAndSave(phase: Phase) {
    phase.SaveReport? || phase.CleanUp?
  }

  predicate AfterPutRaw(phase: Phase) {
    phase.SaveRaw?
  }

  predicate PastSave(phase: Phase) {
    phase.Finish? || phase.Ended? || (phase.Recover? && !phase.error.retriable)
  }

  /** A stored report is referenced, logged, about to be recorded, or was put by a call that threw. */
  ghost predicate ReportAccounted(s: State, f: FileId)
    requires f in s.uploads
  {
    var report := ReportKey(s.uploads[f].userId, f);
    report in s.store ==>
      || (f in s.t.files && s.t.files[f].reportKey == Some(report))
      || OrphanReport(report) in s.logged || LostPut(report) in s.lost
      || LastAt(s, f, BetweenPutAndSave)
  }

  /** A row refers to a stored report, unless metadata was saved by a call that threw. */
  ghost predicate ReferenceAccounted(s: State, f: FileId)
    requires f in s.uploads
  {
    f in s.t.files && s.t.files[f].reportKey.Some? && LostSave(f) !in s.lost ==>
      && ReportKey(s.uploads[f].userId, f) in s.store && f in s.t.jobOfFile && s.t.jobOfFile[f] in s.t.jobs
      && s.t.jobs[s.t.jobOfFile[f]].status != Queued
      && (s.t.jobs[s.t.jobOfFile[f]].status == Processing ==> LastAt(s, f, PastSave))
  }

  ghost predicate RawAccounted(s: State, f: FileId)
    requires f in s.uploads
  {
    var raw := RawKey(s.uploads[f].userId, f);
    && (raw in s.store ==>
         || (f in s.t.files && s.t.files[f].rawKey == Some(raw))
         || RawMetadataFailed(raw) in s.logged || LostPut(raw) in s.lost
         || LastAt(s, f, AfterPutRaw))
    && (f in s.t.files && s.t.files[f].rawKey.Some? ==> raw in s.store)
  }

  predicate OriginalAccounted(s: State, f: FileId)
    requires f in s.uploads
  {
    var u := s.uploads[f];
    u.originalKey in s.store && f !in s.t.jobOfFile ==>
      var p := UploadAt(u.phase);
      || OrphanOriginal(u.originalKey) in s.logged || LostPut(u.originalKey) in s.lost
      || p.Enqueue? || p.DeleteOriginal? || (p.MarkUploadFailed? && p.deleteFailed)
  }

  ghost predicate Accounted(s: State, f: FileId)
    requires f in s.uploads
  {
    ReportAccounted(s, f) && ReferenceAccounted(s, f) && RawAccounted(s, f) && OriginalAccounted(s, f)
  }

  // ----- one file, all files

  /** The unique index finds every job of the file. */
  ghost predicate IndexOk(s: State, f: FileId) {
    forall j | j in s.t.jobs && s.t.jobs[j].fileId == f :: f in s.t.jobOfFile && s.t.jobOfFile[f] == j
  }

  ghost predicate HandlersOk(s: State, f: FileId) {
    forall h | h in s.handlers && s.handlers[h].job.fileId == f :: HandlerOk(s, h)
  }

  /** Objects stored for the file lie under the file's own keys. */
  ghost predicate StoreOk(s: State, f: FileId)
    requires f in s.uploads
  {
    forall k | k in s.store && k.fileId == f ::
        k.userId == s.uploads[f].userId && (k.OriginalKey? ==> k == s.uploads[f].originalKey)
  }

  ghost predicate Cell(s: State, f: FileId)
    requires f in s.uploads
  {
    FileOk(s, f) && IndexOk(s, f) && HandlersOk(s, f) && StoreOk(s, f) && Accounted(s, f)
  }

  ghost predicate Closed(s: State) {
    && (forall j | j in s.t.jobs :: s.t.jobs[j].fileId in s.uploads)
    && (forall h | h in s.handlers :: s.handlers[h].job.fileId in s.uploads)
    && (forall f | f in s.t.files || f in s.t.jobOfFile :: f in s.uploads)
    && (forall k | k in s.store :: k.fileId in s.uploads)
  }

  ghost predicate Inv(s: State) {
    Closed(s) && forall f | f in s.uploads :: Cell(s, f)
  }

  // ----- a step about one file

  /** `s'` differs from `s` in what belongs to file `f` only. */
  ghost predicate SameElsewhere(s: State, s': State, f: FileId) {
    && s'.validator == s.validator && s.logged <= s'.logged && s.lost <= s'.lost
    && (forall g | g != f ::
         && (g in s.uploads <==> g in s'.uploads) && (g in s.uploads ==> s'.uploads[g] == s.uploads[g])
         && (g in s.t.files <==> g in s'.t.files) && (g in s.t.files ==> s'.t.files[g] == s.t.files[g])
         && (g in s.t.jobOfFile <==> g in s'.t.jobOfFile)
         && (g in s.t.jobOfFile ==> s'.t.jobOfFile[g] == s.t.jobOfFile[g]))
    && (forall j | j in s.t.jobs && s.t.jobs[j].fileId != f ::
         && j in s'.t.jobs && s'.t.jobs[j] == s.t.jobs[j]
         && (j in s.history ==> j in s'.history && s'.history[j] == s.history[j]))
    && (forall j | j in s'.t.jobs && s'.t.jobs[j].fileId != f :: j in s.t.jobs && s.t.jobs[j] == s'.t.jobs[j])
    && (forall h | h in s.handlers && s.handlers[h].job.fileId != f ::
         h in s'.handlers && s'.handlers[h] == s.handlers[h])
    && (forall h | h in s'.handlers && s'.handlers[h].job.fileId != f ::
         h in s.handlers && s.handlers[h] == s'.handlers[h])
    && (forall k | k in s.store && k.fileId != f :: k in s'.store && s'.store[k] == s.store[k])
    && (forall k | k in s'.store && k.fileId != f :: k in s.store)
  }

  lemma CellElsewhere(s: State, s': State, f: FileId, g: FileId)
    requires SameElsewhere(s, s', f) && g != f && g in s.uploads && Cell(s, g)
    ensures Cell(s', g)
  {
    JobElsewhere(s, s', f, g);
    forall h | h in s'.handlers && s'.handlers[h].job.fileId == g ensures HandlerOk(s', h) {
      HandlerElsewhere(s, s', f, g, h);
    }
    AccountedElsewhere(s, s', f, g);
  }

  lemma HandlerElsewhere(s: State, s': State, f: FileId, g: FileId, h: HandlerId)
    requires SameElsewhere(s, s', f) && g != f && h in s'.handlers && s'.handlers[h].job.fileId == g
    requires h in s.handlers ==> HandlerOk(s, h)
    ensures HandlerOk(s', h)
  {
    assert h in s.handlers && s.handlers[h] == s'.handlers[h];
  }

  lemma JobElsewhere(s: State, s': State, f: FileId, g: FileId)
    requires SameElsewhere(s, s', f) && g != f && g in s.uploads && Cell(s, g)
    ensures FileOk(s', g)
  {
    if g in s.t.jobOfFile {
      var j := s.t.jobOfFile[g];
      assert JobOk(s, j);
      if s.t.jobs[j].status == Processing {
        HeldElsewhere(s, s', f, j);
      }
      assert JobOk(s', j);
    }
  }

  lemma HeldElsewhere(s: State, s': State, f: FileId, j: JobId)
    requires SameElsewhere(s, s', f) && j in s.t.jobs && s.t.jobs[j].fileId != f && HeldByLast(s, j)
    ensures j in s'.t.jobs && HeldByLast(s', j) && LastHandler(s', j) == LastHandler(s, j)
    ensures s'.handlers[LastHandler(s, j)] == s.handlers[LastHandler(s, j)]
  {
    var h := LastHandler(s, j);
    assert h in s.handlers && s.handlers[h].job.fileId != f;
    assert h in s'.handlers && s'.handlers[h] == s.handlers[h];
  }

  lemma LastAtElsewhere(s: State, s': State, f: FileId, g: FileId, there: Phase -> bool)
    requires SameElsewhere(s, s', f) && g != f && g in s.uploads && FileOk(s, g)
    ensures LastAt(s, g, there) ==> LastAt(s', g, there)
  {
    if LastAt(s, g, there) {
      HeldElsewhere(s, s', f, s.t.jobOfFile[g]);
    }
  }

  lemma AccountedElsewhere(s: State, s': State, f: FileId, g: FileId)
    requires SameElsewhere(s, s', f) && g != f && g in s.uploads && Cell(s, g) && FileOk(s', g)
    ensures Accounted(s', g)
  {
    LastAtElsewhere(s, s', f, g, BetweenPutAndSave);
    LastAtElsewhere(s, s', f, g, AfterPutRaw);
    LastAtElsewhere(s, s', f, g, PastSave);
    var u := s.uploads[g];
    assert ReportKey(u.userId, g) in s.store <==> ReportKey(u.userId, g) in s'.store;
    assert RawKey(u.userId, g) in s.store <==> RawKey(u.userId, g) in s'.store;
    assert u.originalKey in s.store <==> u.originalKey in s'.store;
  }

  /** To keep the invariant, a step about `f` has to restore the cell of `f`. */
  lemma Close(s: State, s': State, f: FileId)
    requires Inv(s) && SameElsewhere(s, s', f)
    requires f in s'.uploads && Cell(s', f)
    ensures Inv(s')
  {
    forall g | g in s'.uploads ensures Cell(s', g) {
      if g != f {
        CellElsewhere(s, s', f, g);
      }
    }
  }

  lemma InitialInv(s: State)
    requires Initial(s)
    ensures Inv(s)
  {
  }
}
