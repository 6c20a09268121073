/** What becomes of an original whose put took effect and threw: it stays stored and untraced for ever. */
module JobOriginals {
  import opened StorageKeys
  import opened JobTables
  import opened JobProtocol
  import opened JobInvariant
  import opened UploadSteps

  /** The upload went straight from the put to the end that marks the file failed. */
  predicate FailsAtOnce(phase: UploadPhase) {
    phase.UploadFailed? || (phase.MarkUploadFailed? && !phase.enqueueFailed && !phase.deleteFailed)
  }

  /** The put of the original `k` took effect and threw: it is stored, and nothing knows of it. */
  predicate Untraceable(s: State, k: StorageKey) {
    var f := k.fileId;
    && f in s.uploads && s.uploads[f].originalKey == k && FailsAtOnce(UploadAt(s.uploads[f].phase))
    && k in s.store && f !in s.t.jobOfFile && OrphanOriginal(k) !in s.logged
  }

  predicate LossOk(s: State, k: StorageKey) {
    && (LostPut(k) in s.lost ==> Untraceable(s, k))
    && (OrphanOriginal(k) in s.logged ==> k.fileId in s.uploads && s.uploads[k.fileId].phase == UploadFailed)
  }

  ghost predicate OriginalsOk(s: State) {
    forall k: StorageKey | k.OriginalKey? :: LossOk(s, k)
  }

  // ----- steps that are not about originals

  /** The step leaves uploads, job index, stored originals, and what is known about them. */
  ghost predicate SameOriginals(s: State, s': State) {
    && s'.uploads == s.uploads && s'.t.jobOfFile == s.t.jobOfFile
    && forall k: StorageKey | k.OriginalKey? ::
         && (k in s'.store <==> k in s.store) && (k in s.store ==> s'.store[k] == s.store[k])
         && (LostPut(k) in s'.lost <==> LostPut(k) in s.lost)
         && (OrphanOriginal(k) in s'.logged <==> OrphanOriginal(k) in s.logged)
  }

  lemma SameOriginalsStayOk(s: State, s': State)
    requires OriginalsOk(s) && SameOriginals(s, s')
    ensures OriginalsOk(s')
  {
    forall k: StorageKey | k.OriginalKey? ensures LossOk(s', k) {
      assert LossOk(s, k);
    }
  }

  lemma MoveKeepsOriginals(s: State, h: HandlerId, phase: Phase)
    requires h in s.handlers
    ensures SameOriginals(s, To(s, h, phase))
  {
  }

  lemma ContextMoves(s: State, h: HandlerId, i: Input) returns (phase: Phase)
    requires h in s.handlers && s.handlers[h].phase.ReadContext?
    ensures ContextStep(s, h, i) == To(s, h, phase)
  {
    phase := ContextStep(s, h, i).handlers[h].phase;
  }

  lemma TranscriptMoves(s: State, h: HandlerId, i: Input) returns (phase: Phase)
    requires h in s.handlers && s.handlers[h].phase.ReadTranscript?
    ensures TranscriptStep(s, h, i) == To(s, h, phase)
  {
    phase := TranscriptStep(s, h, i).handlers[h].phase;
  }

  lemma LlmKeepsOriginals(s: State, s': State, h: HandlerId, i: Input)
    requires h in s.handlers && s.handlers[h].phase.CallLlm? && s' == LlmStep(s, h, i)
    ensures SameOriginals(s, s')
  {
  }

  lemma PutRawKeepsOriginals(s: State, s': State, h: HandlerId, i: Input)
    requires h in s.handlers && s.handlers[h].phase.PutRaw? && s' == PutRawStep(s, h, i)
    ensures SameOriginals(s, s')
  {
  }

  lemma SaveRawKeepsOriginals(s: State, s': State, h: HandlerId, i: Input)
    requires h in s.handlers && s.handlers[h].phase.SaveRaw? && s' == SaveRawStep(s, h, i)
    ensures SameOriginals(s, s')
  {
  }

  lemma PutReportKeepsOriginals(s: State, s': State, h: HandlerId, i: Input)
    requires h in s.handlers && s.handlers[h].phase.PutReport? && s' == PutReportStep(s, h, i)
    ensures SameOriginals(s, s')
  {
  }

  lemma SaveReportKeepsOriginals(s: State, s': State, h: HandlerId, i: Input)
    requires h in s.handlers && s.handlers[h].phase.SaveReport? && s' == SaveReportStep(s, h, i)
    ensures SameOriginals(s, s')
  {
  }

  lemma CleanUpKeepsOriginals(s: State, s': State, h: HandlerId, i: Input)
    requires h in s.handlers && s.handlers[h].phase.CleanUp? && s' == CleanUpStep(s, h, i)
    ensures SameOriginals(s, s')
  {
  }

  lemma FinalKeepsOriginals(s: State, h: HandlerId, i: Input)
    requires h in s.handlers && Finishing(s.handlers[h].phase)
    ensures SameOriginals(s, FinalStep(s, h, i))
  {
  }

  lemma ContinueKeepsOriginals(s: State, s': State, h: HandlerId, i: Input)
    requires h in s.handlers && Live(s.handlers[h].phase)
    requires s' == if Finishing(s.handlers[h].phase) then FinalStep(s, h, i) else PipelineStep(s, h, i)
    ensures SameOriginals(s, s')
  {
    match s.handlers[h].phase
    case ReadContext =>
      var phase := ContextMoves(s, h, i);
      MoveKeepsOriginals(s, h, phase);
    case ReadTranscript(_) =>
      var phase := TranscriptMoves(s, h, i);
      MoveKeepsOriginals(s, h, phase);
    case CallLlm(_) => LlmKeepsOriginals(s, s', h, i);
    case PutRaw(_, _) => PutRawKeepsOriginals(s, s', h, i);
    case SaveRaw(_, _) => SaveRawKeepsOriginals(s, s', h, i);
    case PutReport(_, _) => PutReportKeepsOriginals(s, s', h, i);
    case SaveReport(_, _) => SaveReportKeepsOriginals(s, s', h, i);
    case CleanUp(_, _) => CleanUpKeepsOriginals(s, s', h, i);
    case Finish => FinalKeepsOriginals(s, h, i);
    case Recover(_) => FinalKeepsOriginals(s, h, i);
  }

  lemma HandlerKeepsOriginals(s: State, s': State, a: Action)
    requires Enabled(s, a) && (a.Continue? || a.Crash?) && s' == Apply(s, a)
    ensures SameOriginals(s, s')
  {
    if a.Continue? {
      ContinueKeepsOriginals(s, s', a.handlerId, a.input);
    }
  }

  lemma QueueKeepsOriginals(s: State, s': State, a: Action)
    requires Enabled(s, a) && (a.Claim? || a.Heartbeat?) && s' == Apply(s, a)
    ensures SameOriginals(s, s')
  {
  }

  // ----- steps of the upload

  /** Only the upload of `f` has moved, and only its own original is touched. */
  ghost predicate OriginalOf(s: State, s': State, f: FileId)
    requires f in s.uploads
  {
    && f in s'.uploads && s'.uploads == s.uploads[f := s'.uploads[f]]
    && s'.uploads[f] == s.uploads[f].(phase := s'.uploads[f].phase)
    && (forall g | g != f :: g in s'.t.jobOfFile <==> g in s.t.jobOfFile)
    && forall k: StorageKey | k.OriginalKey? && k != s.uploads[f].originalKey ::
         && (k in s'.store <==> k in s.store) && (k in s.store ==> s'.store[k] == s.store[k])
         && (LostPut(k) in s'.lost <==> LostPut(k) in s.lost)
         && (OrphanOriginal(k) in s'.logged <==> OrphanOriginal(k) in s.logged)
  }

  lemma OtherOriginalsStayOk(s: State, s': State, f: FileId)
    requires f in s.uploads && s.uploads[f].originalKey.fileId == f && LiveUpload(s.uploads[f].phase)
    requires OriginalsOk(s) && OriginalOf(s, s', f) && LossOk(s', s.uploads[f].originalKey)
    ensures OriginalsOk(s')
  {
    forall k: StorageKey | k.OriginalKey? && k != s.uploads[f].originalKey ensures LossOk(s', k) {
      assert LossOk(s, k);
    }
  }

  /** What `UploadStep` does to the upload's own original. */
  lemma OwnOriginalStaysOk(s: State, s': State, f: FileId, i: Input)
    requires f in s.uploads && FileOk(s, f) && LiveUpload(s.uploads[f].phase) && s' == UploadStep(s, f, i)
    requires LossOk(s, s.uploads[f].originalKey)
    ensures OriginalOf(s, s', f) && LossOk(s', s.uploads[f].originalKey)
  {
    match s.uploads[f].phase
    case PutOriginal => PutIsOk(s, s', f, i);
    case Enqueue => EnqueueIsOk(s, s', f, i);
    case MarkQueued => MarkQueuedIsOk(s, s', f, i);
    case DeleteOriginal(_) => DeleteIsOk(s, s', f, i);
    case MarkUploadFailed(_, _, _) => MarkFailedIsOk(s, s', f, i);
  }

  lemma PutIsOk(s: State, s': State, f: FileId, i: Input)
    requires f in s.uploads && FileOk(s, f) && s.uploads[f].phase == PutOriginal && s' == PutOriginalStep(s, f, i)
    requires LossOk(s, s.uploads[f].originalKey)
    ensures OriginalOf(s, s', f) && LossOk(s', s.uploads[f].originalKey)
  {
  }

  lemma EnqueueIsOk(s: State, s': State, f: FileId, i: Input)
    requires f in s.uploads && FileOk(s, f) && s.uploads[f].phase == Enqueue && s' == EnqueueStep(s, f, i)
    requires LossOk(s, s.uploads[f].originalKey)
    ensures OriginalOf(s, s', f) && LossOk(s', s.uploads[f].originalKey)
  {
  }

  lemma MarkQueuedIsOk(s: State, s': State, f: FileId, i: Input)
    requires f in s.uploads && FileOk(s, f) && s.uploads[f].phase == MarkQueued && s' == MarkQueuedStep(s, f, i)
    requires LossOk(s, s.uploads[f].originalKey)
    ensures OriginalOf(s, s', f) && LossOk(s', s.uploads[f].originalKey)
  {
  }

  lemma DeleteIsOk(s: State, s': State, f: FileId, i: Input)
    requires f in s.uploads && FileOk(s, f) && s.uploads[f].phase.DeleteOriginal? && s' == DeleteOriginalStep(s, f, i)
    requires LossOk(s, s.uploads[f].originalKey)
    ensures OriginalOf(s, s', f) && LossOk(s', s.uploads[f].originalKey)
  {
  }

  lemma MarkFailedIsOk(s: State, s': State, f: FileId, i: Input)
    requires f in s.uploads && FileOk(s, f) && s.uploads[f].phase.MarkUploadFailed?
    requires s' == MarkUploadFailedStep(s, f, i) && LossOk(s, s.uploads[f].originalKey)
    ensures OriginalOf(s, s', f) && LossOk(s', s.uploads[f].originalKey)
  {
  }

  lemma BegunOriginalsAreOk(s: State, s': State, a: Action)
    requires OriginalsOk(s) && Enabled(s, a) && a.BeginUpload? && s' == Apply(s, a)
    ensures OriginalsOk(s')
  {
    forall k: StorageKey | k.OriginalKey? ensures LossOk(s', k) {
      assert LossOk(s, k);
    }
  }

  lemma CrashedOriginalsAreOk(s: State, s': State, f: FileId)
    requires OriginalsOk(s) && f in s.uploads && LiveUpload(s.uploads[f].phase)
    requires s' == UploadTo(s, f, UploadCrashed(s.uploads[f].phase))
    ensures OriginalsOk(s')
  {
    forall k: StorageKey | k.OriginalKey? ensures LossOk(s', k) {
      assert LossOk(s, k);
    }
  }

  // ----- all steps

  lemma StepKeepsOriginals(s: State, a: Action)
    requires Inv(s) && OriginalsOk(s) && Enabled(s, a)
    ensures OriginalsOk(Apply(s, a))
  {
    var s' := Apply(s, a);
    if a.Continue? || a.Crash? {
      HandlerKeepsOriginals(s, s', a);
      SameOriginalsStayOk(s, s');
    } else if a.Claim? || a.Heartbeat? {
      QueueKeepsOriginals(s, s', a);
      SameOriginalsStayOk(s, s');
    } else if a.BeginUpload? {
      BegunOriginalsAreOk(s, s', a);
    } else if a.CrashUpload? {
      CrashedOriginalsAreOk(s, s', a.fileId);
    } else {
      UploadKeepsOriginals(s, s', a);
    }
  }

  lemma UploadKeepsOriginals(s: State, s': State, a: Action)
    requires Inv(s) && OriginalsOk(s) && Enabled(s, a) && a.ContinueUpload? && s' == Apply(s, a)
    ensures OriginalsOk(s')
  {
    assert FileOk(s, a.fileId) by { assert Cell(s, a.fileId); }
    assert LossOk(s, s.uploads[a.fileId].originalKey);
    OwnOriginalStaysOk(s, s', a.fileId, a.input);
    OtherOriginalsStayOk(s, s', a.fileId);
  }

  lemma {:induction false} RunKeepsOriginals(s: State, actions: seq<Action>, last: State)
    requires Inv(s) && OriginalsOk(s) && Runs(s, actions, last)
    ensures OriginalsOk(last)
    decreases |actions|
  {
    if actions != [] {
      StepKeepsInv(s, actions[0]);
      StepKeepsOriginals(s, actions[0]);
      RunKeepsOriginals(Apply(s, actions[0]), actions[1..], last);
    }
  }

  lemma ReachableOriginals(s: State)
    requires Reachable(s)
    ensures Inv(s) && OriginalsOk(s)
  {
    var first, actions :| Initial(first) && Runs(first, actions, s);
    InitialInv(first);
    RunKeepsInv(first, actions, s);
    RunKeepsOriginals(first, actions, s);
  }

  lemma {:induction false} LossesRemain(s: State, actions: seq<Action>, last: State)
    requires Inv(s) && Runs(s, actions, last)
    ensures s.lost <= last.lost
    decreases |actions|
  {
    if actions != [] {
      StepIsAboutFile(s, Apply(s, actions[0]), actions[0]);
      StepKeepsInv(s, actions[0]);
      LossesRemain(Apply(s, actions[0]), actions[1..], last);
    }
  }

  /** From the put that took effect and threw on, the original stays stored and untraced. */
  lemma LostOriginalIsNeverTraced(s: State, actions: seq<Action>, last: State, k: StorageKey)
    requires Reachable(s) && Runs(s, actions, last) && k.OriginalKey? && LostPut(k) in s.lost
    ensures Untraceable(last, k)
  {
    ReachableOriginals(s);
    LossesRemain(s, actions, last);
    RunKeepsOriginals(s, actions, last);
    assert LossOk(last, k);
  }

  /** An original whose put took effect and threw is stored, without a job and without a log event. */
  lemma LostOriginalsAreUntraceable(s: State, k: StorageKey)
    requires Reachable(s) && k.OriginalKey?
    ensures LostPut(k) in s.lost ==> Untraceable(s, k)
    ensures OrphanOriginal(k) in s.logged ==> k.fileId in s.uploads && s.uploads[k.fileId].phase == UploadFailed
  {
    ReachableOriginals(s);
    assert LossOk(s, k);
  }
}
