/** Every step of JobProtocol keeps the invariant. */
module JobSteps {
  import opened Options
  import opened StorageKeys
  import opened JobTables
  import opened JobProtocol
  import opened JobInvariant

  // ----- what a holding handler knows

  /** The job of file `f`, as the handler `h` of that file sees it. */
  ghost predicate HoldsAs(s: State, f: FileId, h: HandlerId) {
    && f in s.uploads && f in s.t.files && h in s.handlers && s.handlers[h].job.fileId == f && Holds(s, s.handlers[h])
    && f in s.t.jobOfFile && s.t.jobOfFile[f] == s.handlers[h].job.id && s.t.jobs[s.handlers[h].job.id].fileId == f
    && s.handlers[h].job.id in s.history && s.history[s.handlers[h].job.id] != []
    && LastHandler(s, s.handlers[h].job.id) == h
  }

  /** A handler that holds its job is the last one to have claimed it. */
  lemma HolderIsLast(s: State, f: FileId, h: HandlerId)
    requires f in s.uploads && FileOk(s, f) && IndexOk(s, f)
    requires h in s.handlers && s.handlers[h].job.fileId == f && HandlerOk(s, h) && Holds(s, s.handlers[h])
    ensures HoldsAs(s, f, h) && JobOk(s, s.handlers[h].job.id)
  {
    var j := s.handlers[h].job.id;
    assert JobOk(s, j);
    assert |s.history[j]| - 1 == 2 * s.handlers[h].job.attempts - 2;
  }

  /** ... and the only live one. */
  lemma OnlyHolderIsLive(s: State, f: FileId, h: HandlerId, other: HandlerId)
    requires HoldsAs(s, f, h)
    requires h != other && other in s.handlers && s.handlers[other].job.fileId == f
    requires HandlerOk(s, h) && HandlerOk(s, other) && IndexOk(s, f)
    ensures !Live(s.handlers[other].phase)
  {
    assert s.handlers[other].job.id == s.handlers[h].job.id;
  }

  // ----- steps of the pipeline

  /** The tables, but for the artifact columns of one file. */
  ghost predicate ArtifactsOnly(s: State, s': State, f: FileId, h: HandlerId)
    requires h in s.handlers && f in s.uploads
  {
    var report, raw := ReportKey(s.uploads[f].userId, f), RawKey(s.uploads[f].userId, f);
    && s'.validator == s.validator && s'.uploads == s.uploads && s'.history == s.history
    && s.logged <= s'.logged && s.lost <= s'.lost
    && s'.t.jobs == s.t.jobs && s'.t.jobOfFile == s.t.jobOfFile
    && f in s.t.files && f in s'.t.files
    && s'.t.files == s.t.files[f := s'.t.files[f]]
    && s'.t.files[f] == s.t.files[f].(reportKey := s'.t.files[f].reportKey,
         rawKey := s'.t.files[f].rawKey, versions := s'.t.files[f].versions)
    && (s'.t.files[f].reportKey == s.t.files[f].reportKey || s'.t.files[f].reportKey == Some(report))
    && (s'.t.files[f].rawKey == s.t.files[f].rawKey || s'.t.files[f].rawKey == Some(raw))
    && (forall k | k in s.store && k != report && k != raw :: k in s'.store && s'.store[k] == s.store[k])
    && (forall k | k in s'.store && k != report && k != raw :: k in s.store)
    && h in s'.handlers && s'.handlers == s.handlers[h := s.handlers[h].(phase := s'.handlers[h].phase)]
  }

  lemma ArtifactsKeepFile(s: State, s': State, f: FileId, h: HandlerId)
    requires HoldsAs(s, f, h) && FileOk(s, f) && ArtifactsOnly(s, s', f, h) && s'.handlers[h].phase != Ended(true)
    ensures FileOk(s', f)
  {
    assert JobOk(s, s.handlers[h].job.id);
    assert JobOk(s', s.handlers[h].job.id);
  }

  lemma ArtifactsKeepHandlers(s: State, s': State, f: FileId, h: HandlerId)
    requires HoldsAs(s, f, h) && HandlersOk(s, f) && IndexOk(s, f) && ArtifactsOnly(s, s', f, h)
    requires s'.handlers[h].job.id in s'.t.jobs && PhaseOk(s', s'.handlers[h])
    ensures HandlersOk(s', f)
  {
    forall other | other in s'.handlers && s'.handlers[other].job.fileId == f ensures HandlerOk(s', other) {
      assert HandlerOk(s, other) && HandlerOk(s, h);
      if other != h {
        OnlyHolderIsLive(s, f, h, other);
      }
    }
  }

  lemma ArtifactsElsewhere(s: State, s': State, f: FileId, h: HandlerId)
    requires HoldsAs(s, f, h) && FileOk(s, f) && IndexOk(s, f) && StoreOk(s, f) && ArtifactsOnly(s, s', f, h)
    ensures f in s'.uploads && IndexOk(s', f) && StoreOk(s', f) && SameElsewhere(s, s', f)
  {
  }

  lemma ArtifactsKeepCell(s: State, s': State, f: FileId, h: HandlerId)
    requires HoldsAs(s, f, h) && Cell(s, f) && ArtifactsOnly(s, s', f, h)
    requires s'.handlers[h].phase != Ended(true)
    requires s'.handlers[h].job.id in s'.t.jobs && PhaseOk(s', s'.handlers[h])
    requires Accounted(s', f)
    ensures f in s'.uploads && Cell(s', f) && SameElsewhere(s, s', f)
  {
    ArtifactsElsewhere(s, s', f, h);
    ArtifactsKeepFile(s, s', f, h);
    ArtifactsKeepHandlers(s, s', f, h);
  }

  /** While a handler holds the job, the last handler's phase is its phase. */
  lemma LastIs(s: State, f: FileId, h: HandlerId, there: Phase -> bool)
    requires HoldsAs(s, f, h) && s.handlers[h].phase != Ended(true)
    ensures LastAt(s, f, there) <==> there(At(s.handlers[h].phase))
  {
  }

  /** Moving on without having written anything leaves nothing new to account for. */
  lemma MoveKeepsCell(s: State, s': State, f: FileId, h: HandlerId, phase: Phase)
    requires HoldsAs(s, f, h) && Cell(s, f)
    requires s.handlers[h].phase.ReadContext? || s.handlers[h].phase.ReadTranscript? || s.handlers[h].phase.CallLlm?
    requires s' == To(s, h, phase) && Live(phase)
    requires s'.handlers[h].job.id in s'.t.jobs && PhaseOk(s', s'.handlers[h])
    ensures f in s'.uploads && Cell(s', f) && SameElsewhere(s, s', f)
  {
    LastIs(s, f, h, BetweenPutAndSave);
    LastIs(s, f, h, AfterPutRaw);
    LastIs(s, f, h, PastSave);
    ArtifactsKeepCell(s, s', f, h);
  }

  lemma ContextReads(s: State, f: FileId, h: HandlerId, i: Input) returns (phase: Phase)
    requires HoldsAs(s, f, h) && s.handlers[h].phase.ReadContext?
    ensures ContextStep(s, h, i) == To(s, h, phase) && Live(phase) && PhaseOk(s, s.handlers[h].(phase := phase))
  {
    phase := ContextStep(s, h, i).handlers[h].phase;
  }

  lemma TranscriptReads(s: State, f: FileId, h: HandlerId, i: Input) returns (phase: Phase)
    requires HoldsAs(s, f, h) && s.handlers[h].phase.ReadTranscript? && PhaseOk(s, s.handlers[h])
    ensures TranscriptStep(s, h, i) == To(s, h, phase) && Live(phase) && PhaseOk(s, s.handlers[h].(phase := phase))
  {
    phase := TranscriptStep(s, h, i).handlers[h].phase;
  }

  lemma LlmReads(s: State, f: FileId, h: HandlerId, i: Input) returns (phase: Phase)
    requires HoldsAs(s, f, h) && s.handlers[h].phase.CallLlm? && PhaseOk(s, s.handlers[h])
    ensures LlmStep(s, h, i) == To(s, h, phase) && Live(phase) && PhaseOk(s, s.handlers[h].(phase := phase))
  {
    phase := LlmStep(s, h, i).handlers[h].phase;
  }

  /** `Accounted` for a file whose job is held at the given phase. */
  ghost predicate AccountedAs(s: State, f: FileId, phase: Phase)
    requires f in s.uploads && f in s.t.files
  {
    var u, file := s.uploads[f], s.t.files[f];
    var report, raw := ReportKey(u.userId, f), RawKey(u.userId, f);
    && (report in s.store ==>
         || file.reportKey == Some(report) || OrphanReport(report) in s.logged || LostPut(report) in s.lost
         || BetweenPutAndSave(At(phase)))
    && (file.reportKey.Some? && LostSave(f) !in s.lost ==> report in s.store && PastSave(At(phase)))
    && (raw in s.store ==>
         || file.rawKey == Some(raw) || RawMetadataFailed(raw) in s.logged || LostPut(raw) in s.lost
         || AfterPutRaw(At(phase)))
    && (file.rawKey.Some? ==> raw in s.store)
  }

  lemma AccountedWhileHeld(s: State, f: FileId, h: HandlerId)
    requires HoldsAs(s, f, h) && s.handlers[h].phase != Ended(true)
    ensures Accounted(s, f) <==> AccountedAs(s, f, s.handlers[h].phase)
  {
    LastIs(s, f, h, BetweenPutAndSave);
    LastIs(s, f, h, AfterPutRaw);
    LastIs(s, f, h, PastSave);
  }

  /** What the writing steps share: the file's owner is the one the handler read. */
  predicate ContextIsCurrent(s: State, f: FileId, h: HandlerId) {
    && f in s.uploads && f in s.t.files && h in s.handlers && HasContext(s.handlers[h].phase)
    && s.handlers[h].phase.ctx.userId == s.uploads[f].userId == s.t.files[f].userId
  }

  /** What a writing step has to show; the rest of the cell follows. */
  ghost predicate WritesWell(s: State, s': State, f: FileId, h: HandlerId)
    requires f in s.uploads && h in s.handlers && f in s.t.files
  {
    && ArtifactsOnly(s, s', f, h)
    && s'.handlers[h].phase != Ended(true)
    && s'.handlers[h].job.id in s'.t.jobs && PhaseOk(s', s'.handlers[h])
    && (AccountedAs(s, f, s.handlers[h].phase) ==> AccountedAs(s', f, s'.handlers[h].phase))
  }

  lemma WriteKeepsCell(s: State, s': State, f: FileId, h: HandlerId)
    requires HoldsAs(s, f, h) && Cell(s, f) && s.handlers[h].phase != Ended(true) && WritesWell(s, s', f, h)
    ensures f in s'.uploads && Cell(s', f) && SameElsewhere(s, s', f)
  {
    AccountedWhileHeld(s, f, h);
    assert HoldsAs(s', f, h);
    AccountedWhileHeld(s', f, h);
    ArtifactsKeepCell(s, s', f, h);
  }

  /** A put or a deletion under one of the file's artifact keys, perhaps a log event, and a new phase. */
  lemma StoreIsArtifacts(s: State, s': State, f: FileId, h: HandlerId, key: StorageKey, phase: Phase)
    requires f in s.uploads && f in s.t.files && h in s.handlers && s.logged <= s'.logged && s.lost <= s'.lost
    requires s' == To(s.(store := s'.store, logged := s'.logged, lost := s'.lost), h, phase)
    requires s'.store - {key} == s.store - {key}
    requires key == ReportKey(s.uploads[f].userId, f) || key == RawKey(s.uploads[f].userId, f)
    ensures ArtifactsOnly(s, s', f, h)
  {
    assert s.t.files == s.t.files[f := s.t.files[f]];
    forall k | k != key ensures (k in s.store <==> k in s'.store) && (k in s.store ==> s'.store[k] == s.store[k]) {
      assert k in s.store <==> k in s.store - {key};
      assert k in s'.store <==> k in s'.store - {key};
      assert k in s.store ==> s.store[k] == (s.store - {key})[k];
    }
  }

  /** New metadata in the row, perhaps a log event and a loss, and a new phase. */
  lemma SaveIsArtifacts(s: State, s': State, f: FileId, h: HandlerId, file: FileRow, phase: Phase)
    requires f in s.uploads && f in s.t.files && h in s.handlers && s.logged <= s'.logged && s.lost <= s'.lost
    requires s' == To(s.(t := s.t.(files := s.t.files[f := file]), logged := s'.logged, lost := s'.lost), h, phase)
    requires file == s.t.files[f].(reportKey := file.reportKey, rawKey := file.rawKey, versions := file.versions)
    requires file.reportKey == s.t.files[f].reportKey || file.reportKey == Some(ReportKey(s.uploads[f].userId, f))
    requires file.rawKey == s.t.files[f].rawKey || file.rawKey == Some(RawKey(s.uploads[f].userId, f))
    ensures ArtifactsOnly(s, s', f, h)
  {
  }

  lemma PutRawWrites(s: State, s': State, f: FileId, h: HandlerId, i: Input)
    requires HoldsAs(s, f, h) && ContextIsCurrent(s, f, h) && PhaseOk(s, s.handlers[h]) && s.handlers[h].phase.PutRaw?
    requires s' == PutRawStep(s, h, i)
    ensures WritesWell(s, s', f, h)
  {
    var phase := s.handlers[h].phase;
    StoreIsArtifacts(s, s', f, h, RawKey(phase.ctx.userId, f), s'.handlers[h].phase);
  }

  lemma SaveRawWrites(s: State, s': State, f: FileId, h: HandlerId, i: Input)
    requires HoldsAs(s, f, h) && ContextIsCurrent(s, f, h) && PhaseOk(s, s.handlers[h]) && s.handlers[h].phase.SaveRaw?
    requires s' == SaveRawStep(s, h, i)
    ensures WritesWell(s, s', f, h)
  {
    assert s.t.files == s.t.files[f := s.t.files[f]];
    SaveIsArtifacts(s, s', f, h, s'.t.files[f], s'.handlers[h].phase);
  }

  lemma PutReportWrites(s: State, s': State, f: FileId, h: HandlerId, i: Input)
    requires HoldsAs(s, f, h) && ContextIsCurrent(s, f, h) && PhaseOk(s, s.handlers[h])
    requires s.handlers[h].phase.PutReport?
    requires s' == PutReportStep(s, h, i)
    ensures WritesWell(s, s', f, h)
  {
    var phase := s.handlers[h].phase;
    StoreIsArtifacts(s, s', f, h, ReportKey(phase.ctx.userId, f), s'.handlers[h].phase);
  }

  lemma SaveReportWrites(s: State, s': State, f: FileId, h: HandlerId, i: Input)
    requires HoldsAs(s, f, h) && ContextIsCurrent(s, f, h) && PhaseOk(s, s.handlers[h])
    requires s.handlers[h].phase.SaveReport?
    requires s' == SaveReportStep(s, h, i)
    ensures WritesWell(s, s', f, h)
  {
    assert s.t.files == s.t.files[f := s.t.files[f]];
    SaveIsArtifacts(s, s', f, h, s'.t.files[f], s'.handlers[h].phase);
  }

  lemma CleanUpWrites(s: State, s': State, f: FileId, h: HandlerId, i: Input)
    requires HoldsAs(s, f, h) && ContextIsCurrent(s, f, h) && PhaseOk(s, s.handlers[h]) && s.handlers[h].phase.CleanUp?
    requires s' == CleanUpStep(s, h, i)
    ensures WritesWell(s, s', f, h)
  {
    StoreIsArtifacts(s, s', f, h, ReportKey(s.handlers[h].phase.ctx.userId, f), s'.handlers[h].phase);
  }
}
