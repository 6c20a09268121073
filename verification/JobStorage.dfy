/** What becomes of stored objects, in every run, busy or not, with crashes and lost acknowledgements. */
module JobStorage {
  import opened Options
  import opened JsonValues
  import opened StorageKeys
  import opened JobTables
  import opened JobProtocol
  import opened JobInvariant
  import opened JobWitnesses
  import opened JobOriginals
  import opened UploadSteps

  predicate Pending(phase: UploadPhase) {
    phase.Enqueue? || phase.DeleteOriginal? || (phase.MarkUploadFailed? && phase.deleteFailed)
  }

  /** The object is referenced by its row, has a job, or is named in a log event. */
  predicate Traced(s: State, k: StorageKey) {
    match k
    case ReportKey(_, f) => (f in s.t.files && s.t.files[f].reportKey == Some(k)) || OrphanReport(k) in s.logged
    case RawKey(_, f) => (f in s.t.files && s.t.files[f].rawKey == Some(k)) || RawMetadataFailed(k) in s.logged
    case OriginalKey(_, f, _) => f in s.t.jobOfFile || OrphanOriginal(k) in s.logged
  }

  /** Whoever stored the object is about to leave that trace, or has crashed just before. */
  ghost predicate AboutToBeTraced(s: State, k: StorageKey) {
    match k
    case ReportKey(_, f) => LastAt(s, f, BetweenPutAndSave)
    case RawKey(_, f) => LastAt(s, f, AfterPutRaw)
    case OriginalKey(_, f, _) => f in s.uploads && Pending(UploadAt(s.uploads[f].phase))
  }

  lemma CellAccounts(s: State, k: StorageKey)
    requires k.fileId in s.uploads && Cell(s, k.fileId) && k in s.store
    ensures Traced(s, k) || AboutToBeTraced(s, k) || LostPut(k) in s.lost
  {
    assert Accounted(s, k.fileId);
  }

  /**
   At every moment, every stored object is traced, or about to be, or was put by a call that
   took effect and threw. Nothing else that happens, to this file or others, matters.
   */
  lemma ObjectsAreAccountedFor(s: State, k: StorageKey)
    requires Reachable(s) && k in s.store
    ensures Traced(s, k) || AboutToBeTraced(s, k) || LostPut(k) in s.lost
  {
    ReachableInv(s);
    CellAccounts(s, k);
  }

  /** Nothing is running for the file, and nothing of it has crashed. */
  ghost predicate QuietFor(s: State, f: FileId) {
    && (f in s.uploads ==> s.uploads[f].phase.Uploaded? || s.uploads[f].phase.UploadFailed?)
    && (forall h | h in s.handlers && s.handlers[h].job.fileId == f :: s.handlers[h].phase.Ended?)
  }

  /** Once the upload and the handlers of one file have ended, its objects are traced, however busy the rest is. */
  lemma EndedFilesAreTraced(s: State, k: StorageKey)
    requires Reachable(s) && QuietFor(s, k.fileId) && k in s.store && LostPut(k) !in s.lost
    ensures Traced(s, k)
  {
    ReachableInv(s);
    CellAccounts(s, k);
    NobodyIsAboutTo(s, k);
  }

  lemma NobodyIsAboutTo(s: State, k: StorageKey)
    requires k.fileId in s.uploads && Cell(s, k.fileId) && QuietFor(s, k.fileId)
    ensures !AboutToBeTraced(s, k)
  {
  }

  /** A row refers to a stored report, unless its metadata was written by a call that threw. */
  lemma RowsReferToStoredReports(s: State, f: FileId)
    requires Reachable(s) && f in s.t.files && s.t.files[f].reportKey.Some? && LostSave(f) !in s.lost
    ensures s.t.files[f].reportKey.value in s.store
  {
    ReachableInv(s);
    ReferenceOfCell(s, f);
  }

  lemma ReferenceOfCell(s: State, f: FileId)
    requires f in s.uploads && Cell(s, f) && f in s.t.files && s.t.files[f].reportKey.Some? && LostSave(f) !in s.lost
    ensures s.t.files[f].reportKey.value in s.store
  {
    assert ReferenceAccounted(s, f);
  }

  // ----- the calls that leave something untraced

  lemma OriginalKeyOf(s: State, f: FileId)
    requires Reachable(s) && f in s.uploads
    ensures s.uploads[f].originalKey.OriginalKey?
  {
    ReachableInv(s);
    assert FileOk(s, f);
  }

  /**
   Once the upload and the handlers of a file have ended, its stored original is traced exactly
   unless its put took effect and threw.
   */
  lemma OriginalIsTracedIff(s: State, k: StorageKey)
    requires Reachable(s) && k.OriginalKey? && QuietFor(s, k.fileId) && k in s.store
    ensures Traced(s, k) <==> LostPut(k) !in s.lost
  {
    LostOriginalsAreUntraceable(s, k);
    if LostPut(k) !in s.lost {
      EndedFilesAreTraced(s, k);
    }
  }

  /**
   A put of the original that takes effect and throws, and the rest of the upload: the object
   stays in the store and nothing has ever known of it.
   */
  lemma LostOriginalStaysUntraced(s: State, f: FileId, i: Input, i': Input, middle: State, last: State)
    requires Reachable(s) && f in s.uploads && s.uploads[f].phase == PutOriginal && i.fault.Unacknowledged?
    requires middle == UploadStep(s, f, i) && LiveUpload(middle.uploads[f].phase) && last == UploadStep(middle, f, i')
    ensures var k := s.uploads[f].originalKey;
            && last.uploads[f].phase == UploadFailed && k in last.store && last.lost == s.lost + {LostPut(k)}
            && !Traced(last, k)
  {
    OriginalKeyOf(s, f);
    NoTraceBeforePut(s, f);
    PutThenMarkFailed(s, f, i, i', middle, last);
  }

  lemma NoTraceBeforePut(s: State, f: FileId)
    requires Reachable(s) && f in s.uploads && s.uploads[f].phase == PutOriginal
    ensures s.uploads[f].originalKey.fileId == f && !Traced(s, s.uploads[f].originalKey)
  {
    ReachableInv(s);
    OriginalKeyOf(s, f);
    LostOriginalsAreUntraceable(s, s.uploads[f].originalKey);
    assert FileOk(s, f);
  }

  lemma PutThenMarkFailed(s: State, f: FileId, i: Input, i': Input, middle: State, last: State)
    requires f in s.uploads && s.uploads[f].phase == PutOriginal && i.fault.Unacknowledged?
    requires s.uploads[f].originalKey.OriginalKey?
    requires middle == UploadStep(s, f, i) && LiveUpload(middle.uploads[f].phase) && last == UploadStep(middle, f, i')
    ensures var k := s.uploads[f].originalKey;
            && last.uploads == s.uploads[f := s.uploads[f].(phase := UploadFailed)] && last.handlers == s.handlers
            && k in last.store && last.lost == s.lost + {LostPut(k)}
            && last.logged == s.logged && last.t.jobOfFile == s.t.jobOfFile
  {
    assert middle.uploads[f].phase.MarkUploadFailed? && !middle.uploads[f].phase.deleteFailed;
  }

  /** The key that a handler is about to put. */
  function PutKey(hd: Handler): StorageKey
    requires hd.phase.PutReport? || hd.phase.PutRaw?
  {
    if hd.phase.PutReport? then ReportKey(hd.phase.ctx.userId, hd.job.fileId)
    else RawKey(hd.phase.ctx.userId, hd.job.fileId)
  }

  lemma PutIsLost(s: State, h: HandlerId, i: Input, middle: State)
    requires h in s.handlers && (s.handlers[h].phase.PutReport? || s.handlers[h].phase.PutRaw?)
    requires i.fault.Unacknowledged?
    requires middle == PipelineStep(s, h, i)
    ensures var k := PutKey(s.handlers[h]);
            && h in middle.handlers && middle.handlers[h].phase.Recover?
            && k in middle.store && middle.lost == s.lost + {LostPut(k)}
            && middle.t == s.t && middle.logged == s.logged
  {
  }

  /** A finalization neither references an object nor logs it. */
  lemma FinalLeavesTraces(s: State, h: HandlerId, i: Input, last: State, k: StorageKey)
    requires h in s.handlers && s.handlers[h].phase.Recover? && last == FinalStep(s, h, i)
    ensures h in last.handlers && last.handlers[h].phase.Ended? && last.store == s.store && last.lost == s.lost
    ensures Traced(last, k) <==> Traced(s, k)
  {
  }

  /** The same for a report or raw output, after whatever the handler's catch block does. */
  lemma LostPutStaysUntraced(s: State, h: HandlerId, i: Input, i': Input, middle: State, last: State)
    requires h in s.handlers && (s.handlers[h].phase.PutReport? || s.handlers[h].phase.PutRaw?)
    requires i.fault.Unacknowledged?
    requires middle == PipelineStep(s, h, i) && h in middle.handlers && Finishing(middle.handlers[h].phase)
    requires last == FinalStep(middle, h, i')
    ensures var k := PutKey(s.handlers[h]);
            && h in last.handlers && last.handlers[h].phase.Ended? && k in last.store
            && last.lost == s.lost + {LostPut(k)}
            && (Traced(last, k) <==> Traced(s, k))
  {
    PutIsLost(s, h, i, middle);
    FinalLeavesTraces(middle, h, i', last, PutKey(s.handlers[h]));
  }

  lemma ContextRow(s: State, h: HandlerId)
    requires Reachable(s) && h in s.handlers && s.handlers[h].phase.SaveReport?
    ensures s.handlers[h].job.fileId in s.t.files
    ensures ReportKey(s.handlers[h].phase.ctx.userId, s.handlers[h].job.fileId) in s.store
  {
    ReachableInv(s);
    assert Cell(s, s.handlers[h].job.fileId) && HandlerOk(s, h);
  }

  /**
   Metadata that is saved by a call that throws, and the clean-up: the row refers to nothing
   unless the deletion is refused.
   */
  lemma LostSaveRefersToNothing(s: State, h: HandlerId, i: Input, i': Input, middle: State, last: State)
    requires Reachable(s) && h in s.handlers && s.handlers[h].phase.SaveReport? && i.fault.Unacknowledged?
    requires middle == PipelineStep(s, h, i) && h in middle.handlers && middle.handlers[h].phase.CleanUp?
    requires last == PipelineStep(middle, h, i')
    ensures var f := s.handlers[h].job.fileId;
            var k := ReportKey(s.handlers[h].phase.ctx.userId, f);
            && f in last.t.files && last.t.files[f].reportKey == Some(k) && last.lost == s.lost + {LostSave(f)}
            && (k in last.store <==> i'.fault.Refused?)
  {
    ContextRow(s, h);
    SaveThenCleanUp(s, h, i, i', middle, last);
  }

  lemma SaveThenCleanUp(s: State, h: HandlerId, i: Input, i': Input, middle: State, last: State)
    requires h in s.handlers && s.handlers[h].phase.SaveReport? && i.fault.Unacknowledged?
    requires s.handlers[h].job.fileId in s.t.files
    requires middle == PipelineStep(s, h, i) && h in middle.handlers && middle.handlers[h].phase.CleanUp?
    requires last == PipelineStep(middle, h, i')
    ensures var f := s.handlers[h].job.fileId;
            var k := ReportKey(s.handlers[h].phase.ctx.userId, f);
            && f in last.t.files && last.t.files[f].reportKey == Some(k) && last.lost == s.lost + {LostSave(f)}
            && (k in last.store <==> i'.fault.Refused? && k in s.store)
  {
  }

  // ----- and each of them can happen

  /** What one lost call leaves behind when everything about the file has ended. */
  ghost predicate Breaks(s: State, loss: Loss) {
    && Reachable(s) && s.lost == {loss}
    && match loss
       case LostPut(k) => QuietFor(s, k.fileId) && k in s.store && !Traced(s, k)
       case LostSave(f) => f in s.t.files && s.t.files[f].reportKey.Some? && s.t.files[f].reportKey.value !in s.store
  }

  lemma LostOriginalBreaks() returns (s: State)
    ensures Breaks(s, LostPut(KEY))
  {
    var before := Begun((payload, version) => ReportValid);
    var i := QUIET.(fault := Unacknowledged);
    var middle := UploadStep(before, "f", i);
    StepIsReachable(before, ContinueUpload("f", i), middle);
    assert middle.uploads["f"].phase.MarkUploadFailed?;
    s := UploadStep(middle, "f", QUIET);
    StepIsReachable(middle, ContinueUpload("f", QUIET), s);
    PutThenMarkFailed(before, "f", i, QUIET, middle, s);
  }

  lemma LostReportBreaks() returns (s: State)
    ensures Breaks(s, LostPut(REPORT_KEY))
  {
    var put := ReportPut(Unacknowledged);
    s := HandlerFails(put, STARTED, WithObject(REPORT_KEY, Report(Null)),
        Error("s3_write_failed", [], false), {LostPut(REPORT_KEY)});
    s := UploadEnds(s);
  }

  lemma LostRawBreaks() returns (s: State)
    ensures Breaks(s, LostPut(RAW_KEY))
  {
    var put := RawPutLost();
    s := HandlerFails(put, STARTED, WithObject(RAW_KEY, RawOutput([])),
        Error("s3_write_failed", [], false), {LostPut(RAW_KEY)});
    s := UploadEnds(s);
  }

  lemma LostSaveBreaks() returns (s: State)
    ensures Breaks(s, LostSave("f"))
  {
    s := SaveLostAndCleanedUp();
  }

  /** For each kind of call whose loss the accounting excludes there is a run that one such loss breaks. */
  lemma EveryKindOfLossBreaks()
    ensures exists s :: Breaks(s, LostPut(KEY))
    ensures exists s :: Breaks(s, LostPut(REPORT_KEY))
    ensures exists s :: Breaks(s, LostPut(RAW_KEY))
    ensures exists s :: Breaks(s, LostSave("f"))
  {
    var original := LostOriginalBreaks();
    var report := LostReportBreaks();
    var raw := LostRawBreaks();
    var save := LostSaveBreaks();
  }
}
