/** The steps of an upload keep the invariant, and with them every step does. */
module UploadSteps {
  import opened ErrorText
  import opened StorageKeys
  import opened JobTables
  import opened JobProtocol
  import opened JobInvariant
  import opened JobSettlement

  /** An upload changes its own phase, the original object, and the status columns of its file. */
  ghost predicate UploadOnly(s: State, s': State, f: FileId)
    requires f in s.uploads
  {
    var key := s.uploads[f].originalKey;
    && s'.validator == s.validator && s'.handlers == s.handlers && s'.history == s.history
    && s.logged <= s'.logged && s.lost <= s'.lost
    && s'.t.jobs == s.t.jobs && s'.t.jobOfFile == s.t.jobOfFile
    && f in s'.uploads && s'.uploads == s.uploads[f := s.uploads[f].(phase := s'.uploads[f].phase)]
    && f in s.t.files && f in s'.t.files && s'.t.files == s.t.files[f := s'.t.files[f]]
    && s'.t.files[f] == s.t.files[f].(status := s'.t.files[f].status,
         error := s'.t.files[f].error, queuedAt := s'.t.files[f].queuedAt)
    && (s'.t.files[f].status == s.t.files[f].status || s'.t.files[f].status != FileSucceeded)
    && (forall k | k in s.store && k != key :: k in s'.store && s'.store[k] == s.store[k])
    && (forall k | k in s'.store && k != key :: k in s.store)
  }

  /** What an upload step has to show about the new phase. */
  ghost predicate UploadPhaseOk(s: State, f: FileId)
    requires f in s.uploads
  {
    var phase := s.uploads[f].phase;
    && (phase == PutOriginal || phase == Enqueue ==> f !in s.t.jobOfFile)
    && (phase == MarkQueued || phase == Uploaded ==> f in s.t.jobOfFile)
    && (phase.MarkUploadFailed? && !phase.enqueueFailed ==> f !in s.t.jobOfFile && !phase.deleteFailed)
  }

  lemma UploadKeepsFile(s: State, s': State, f: FileId)
    requires f in s.uploads && FileOk(s, f) && UploadOnly(s, s', f) && UploadPhaseOk(s', f)
    ensures FileOk(s', f)
  {
    if f in s.t.jobOfFile {
      assert JobOk(s, s.t.jobOfFile[f]);
      assert JobOk(s', s.t.jobOfFile[f]);
    }
  }

  lemma UploadKeepsHandlers(s: State, s': State, f: FileId)
    requires f in s.uploads && s.uploads[f].originalKey.OriginalKey? && HandlersOk(s, f) && UploadOnly(s, s', f)
    ensures HandlersOk(s', f)
  {
    forall h | h in s'.handlers && s'.handlers[h].job.fileId == f ensures HandlerOk(s', h) {
      assert HandlerOk(s, h);
    }
  }

  lemma UploadElsewhere(s: State, s': State, f: FileId)
    requires f in s.uploads && FileOk(s, f) && IndexOk(s, f) && StoreOk(s, f) && UploadOnly(s, s', f)
    ensures f in s'.uploads && IndexOk(s', f) && StoreOk(s', f) && SameElsewhere(s, s', f)
  {
  }

  lemma UploadAccounts(s: State, s': State, f: FileId)
    requires f in s.uploads && s.uploads[f].originalKey.OriginalKey?
    requires Accounted(s, f) && UploadOnly(s, s', f) && OriginalAccounted(s', f)
    ensures Accounted(s', f)
  {
  }

  lemma UploadKeepsCell(s: State, s': State, f: FileId)
    requires f in s.uploads && Cell(s, f) && UploadsWell(s, s', f)
    ensures f in s'.uploads && Cell(s', f) && SameElsewhere(s, s', f)
  {
    UploadElsewhere(s, s', f);
    UploadKeepsFile(s, s', f);
    UploadKeepsHandlers(s, s', f);
    UploadAccounts(s, s', f);
  }

  ghost predicate UploadsWell(s: State, s': State, f: FileId)
    requires f in s.uploads
  {
    && UploadOnly(s, s', f) && UploadPhaseOk(s', f)
    && (OriginalAccounted(s, f) ==> OriginalAccounted(s', f))
  }

  /** A put or a deletion of the original, and a new phase. */
  lemma StoreOnly(s: State, s': State, f: FileId, phase: UploadPhase)
    requires f in s.uploads && f in s.t.files && s.lost <= s'.lost
    requires s' == s.(store := s'.store, lost := s'.lost, uploads := s.uploads[f := s.uploads[f].(phase := phase)])
    requires var key := s.uploads[f].originalKey;
             || s'.store == s.store || s'.store == s.store - {key}
             || s'.store == s.store[key := Transcript(s.uploads[f].text)]
    ensures UploadOnly(s, s', f)
  {
    assert s.t.files == s.t.files[f := s.t.files[f]];
  }

  lemma PutOriginalIs(s: State, s': State, f: FileId, i: Input)
    requires f in s.uploads && FileOk(s, f) && s.uploads[f].phase == PutOriginal && s' == PutOriginalStep(s, f, i)
    ensures UploadsWell(s, s', f)
  {
    StoreOnly(s, s', f, s'.uploads[f].phase);
  }

  lemma MarkQueuedIs(s: State, s': State, f: FileId, i: Input)
    requires f in s.uploads && FileOk(s, f) && s.uploads[f].phase == MarkQueued && s' == MarkQueuedStep(s, f, i)
    ensures UploadsWell(s, s', f)
  {
  }

  lemma DeleteOriginalIs(s: State, s': State, f: FileId, i: Input)
    requires f in s.uploads && f in s.t.files && s.uploads[f].phase.DeleteOriginal? && s' == DeleteOriginalStep(s, f, i)
    ensures UploadsWell(s, s', f)
  {
    StoreOnly(s, s', f, s'.uploads[f].phase);
  }

  lemma MarkUploadFailedIs(s: State, s': State, f: FileId, i: Input)
    requires f in s.uploads && f in s.t.files && s.uploads[f].phase.MarkUploadFailed?
    requires s' == MarkUploadFailedStep(s, f, i)
    ensures UploadsWell(s, s', f)
  {
    var call := Run(s.t, MarkFileFailedTx(s.t, f, s.uploads[f].userId, s.uploads[f].phase.error), i.fault);
    assert s' == s.(t := call.t, logged := s'.logged, uploads := s.uploads[f := s.uploads[f].(phase := UploadFailed)]);
    assert UploadOnly(s, s', f);
  }

  lemma CrashUploadKeepsCell(s: State, s': State, f: FileId)
    requires f in s.uploads && Cell(s, f) && LiveUpload(s.uploads[f].phase)
    requires s' == UploadTo(s, f, UploadCrashed(s.uploads[f].phase))
    ensures f in s'.uploads && Cell(s', f) && SameElsewhere(s, s', f)
  {
    UploadKeepsCell(s, s', f);
  }

  // ----- enqueueing

  function EnqueuedState(s: State, f: FileId, j: JobId, now: Millis, phase: UploadPhase): State
    requires f in s.uploads
  {
    s.(t := s.t.(jobs := s.t.jobs[j := NewJob(f, now)], jobOfFile := s.t.jobOfFile[f := j]),
       history := s.history[j := []],
       uploads := s.uploads[f := s.uploads[f].(phase := phase)])
  }

  /** Enqueueing either creates the job of the file, or does nothing but start the compensation. */
  lemma EnqueueStepIs(s: State, s': State, f: FileId, i: Input)
    requires f in s.uploads && FileOk(s, f) && s.uploads[f].phase == Enqueue && i.newJob !in s.t.jobs
    requires s' == EnqueueStep(s, f, i)
    ensures s'.uploads[f].phase == MarkQueued || s'.uploads[f].phase.DeleteOriginal?
    ensures s' == EnqueuedState(s, f, i.newJob, i.now, s'.uploads[f].phase)
            || UploadsWell(s, s', f)
  {
  }

  lemma NoHandlersYet(s: State, f: FileId)
    requires HandlersOk(s, f) && IndexOk(s, f) && f !in s.t.jobOfFile
    ensures forall h | h in s.handlers :: s.handlers[h].job.fileId != f
  {
  }

  lemma EnqueuedFile(s: State, s': State, f: FileId, j: JobId, now: Millis, phase: UploadPhase)
    requires f in s.uploads && FileOk(s, f) && IndexOk(s, f) && s.uploads[f].phase == Enqueue && j !in s.t.jobs
    requires phase == MarkQueued || phase.DeleteOriginal?
    requires s' == EnqueuedState(s, f, j, now, phase)
    ensures FileOk(s', f) && IndexOk(s', f)
  {
    assert JobOk(s', j);
  }

  lemma EnqueuedKeepsCell(s: State, s': State, f: FileId, j: JobId, now: Millis, phase: UploadPhase)
    requires f in s.uploads && Cell(s, f) && s.uploads[f].phase == Enqueue && j !in s.t.jobs
    requires phase == MarkQueued || phase.DeleteOriginal?
    requires s' == EnqueuedState(s, f, j, now, phase)
    ensures f in s'.uploads && Cell(s', f) && SameElsewhere(s, s', f)
  {
    NoHandlersYet(s, f);
    EnqueuedFile(s, s', f, j, now, phase);
  }

  /** Whatever an upload step does, it is an enqueue or stays within the upload's own columns. */
  lemma UploadStepIs(s: State, s': State, f: FileId, i: Input)
    requires f in s.uploads && FileOk(s, f) && LiveUpload(s.uploads[f].phase) && i.newJob !in s.t.jobs
    requires s' == UploadStep(s, f, i)
    ensures || UploadOnly(s, s', f)
            || (s.uploads[f].phase == Enqueue && f in s'.uploads
                && s' == EnqueuedState(s, f, i.newJob, i.now, s'.uploads[f].phase))
  {
    match s.uploads[f].phase
    case PutOriginal => PutOriginalIs(s, s', f, i);
    case Enqueue => EnqueueStepIs(s, s', f, i);
    case MarkQueued => MarkQueuedIs(s, s', f, i);
    case DeleteOriginal(_) => DeleteOriginalIs(s, s', f, i);
    case MarkUploadFailed(_, _, _) => MarkUploadFailedIs(s, s', f, i);
  }

  lemma ContinueUploadKeepsCell(s: State, s': State, f: FileId, i: Input)
    requires f in s.uploads && Cell(s, f) && LiveUpload(s.uploads[f].phase) && i.newJob !in s.t.jobs
    requires s' == UploadStep(s, f, i)
    ensures f in s'.uploads && Cell(s', f) && SameElsewhere(s, s', f)
  {
    match s.uploads[f].phase
    case PutOriginal => PutOriginalIs(s, s', f, i); UploadKeepsCell(s, s', f);
    case Enqueue =>
      EnqueueStepIs(s, s', f, i);
      if UploadsWell(s, s', f) {
        UploadKeepsCell(s, s', f);
      } else {
        EnqueuedKeepsCell(s, s', f, i.newJob, i.now, s'.uploads[f].phase);
      }
    case MarkQueued => MarkQueuedIs(s, s', f, i); UploadKeepsCell(s, s', f);
    case DeleteOriginal(_) => DeleteOriginalIs(s, s', f, i); UploadKeepsCell(s, s', f);
    case MarkUploadFailed(_, _, _) => MarkUploadFailedIs(s, s', f, i); UploadKeepsCell(s, s', f);
  }

  // ----- starting an upload

  /** Nothing in the state is about `f` yet. */
  ghost predicate Unused(s: State, f: FileId) {
    && f !in s.uploads && f !in s.t.files && f !in s.t.jobOfFile
    && (forall j | j in s.t.jobs :: s.t.jobs[j].fileId != f)
    && (forall h | h in s.handlers :: s.handlers[h].job.fileId != f)
    && (forall k | k in s.store :: k.fileId != f)
  }

  lemma BeginKeepsCell(s: State, s': State, f: FileId, userId: string, extension: Extension, text: Text, fault: Fault)
    requires Unused(s, f) && s' == BeginUploadStep(s, f, userId, extension, text, fault)
    ensures f in s'.uploads && Cell(s', f) && SameElsewhere(s, s', f)
  {
  }

  // ----- all steps

  /** What a step about `f` has to do. */
  ghost predicate Restores(s: State, s': State, f: FileId) {
    f in s'.uploads && Cell(s', f) && SameElsewhere(s, s', f)
  }

  lemma UploadActionKeepsCell(s: State, s': State, a: Action)
    requires Inv(s) && Enabled(s, a) && s' == Apply(s, a) && (a.BeginUpload? || a.ContinueUpload? || a.CrashUpload?)
    ensures Restores(s, s', FileOf(s, a))
  {
    var f := a.fileId;
    match a
    case BeginUpload(_, userId, extension, text, fault) => BeginKeepsCell(s, s', f, userId, extension, text, fault);
    case ContinueUpload(_, i) => ContinueUploadKeepsCell(s, s', f, i);
    case CrashUpload(_) => CrashUploadKeepsCell(s, s', f);
  }

  lemma ClaimActionKeepsCell(s: State, s': State, a: Action)
    requires Inv(s) && Enabled(s, a) && a.Claim? && s' == Apply(s, a)
    ensures Restores(s, s', FileOf(s, a))
  {
    assert Cell(s, s.t.jobs[a.jobId].fileId);
    ClaimKeepsCell(s, s.t.jobs[a.jobId].fileId, a.jobId, a.handlerId, a.workerId, a.now, a.fault);
  }

  lemma HeartbeatActionKeepsCell(s: State, s': State, a: Action)
    requires Inv(s) && Enabled(s, a) && a.Heartbeat? && s' == Apply(s, a)
    ensures Restores(s, s', FileOf(s, a))
  {
    assert Cell(s, s.t.jobs[a.jobId].fileId);
    HeartbeatKeepsCell(s, s', s.t.jobs[a.jobId].fileId, a.jobId, a.now);
  }

  lemma HandlerActionKeepsCell(s: State, s': State, a: Action)
    requires Inv(s) && Enabled(s, a) && s' == Apply(s, a) && (a.Continue? || a.Crash?)
    ensures Restores(s, s', FileOf(s, a))
  {
    var h := a.handlerId;
    var f := s.handlers[h].job.fileId;
    assert Cell(s, f) && HandlerOk(s, h);
    match a
    case Continue(_, i) =>
      if Finishing(s.handlers[h].phase) {
        FinalKeepsCell(s, s', f, h, i);
      } else {
        HolderContinues(s, s', f, h, i);
      }
    case Crash(_) => CrashKeepsCell(s, f, h);
  }

  /** A step restores the cell of its file and touches no other. */
  lemma StepIsAboutFile(s: State, s': State, a: Action)
    requires Inv(s) && Enabled(s, a) && s' == Apply(s, a)
    ensures Restores(s, s', FileOf(s, a))
  {
    if a.BeginUpload? || a.ContinueUpload? || a.CrashUpload? {
      UploadActionKeepsCell(s, s', a);
    } else if a.Claim? {
      ClaimActionKeepsCell(s, s', a);
    } else if a.Heartbeat? {
      HeartbeatActionKeepsCell(s, s', a);
    } else {
      HandlerActionKeepsCell(s, s', a);
    }
  }

  /** Every step of every upload, worker and handler keeps the invariant. */
  lemma StepKeepsInv(s: State, a: Action)
    requires Inv(s) && Enabled(s, a)
    ensures Inv(Apply(s, a))
  {
    StepIsAboutFile(s, Apply(s, a), a);
    Close(s, Apply(s, a), FileOf(s, a));
  }

  lemma {:induction false} RunKeepsInv(s: State, actions: seq<Action>, last: State)
    requires Inv(s) && Runs(s, actions, last)
    ensures Inv(last)
    decreases |actions|
  {
    if actions != [] {
      StepKeepsInv(s, actions[0]);
      RunKeepsInv(Apply(s, actions[0]), actions[1..], last);
    }
  }

  lemma ReachableInv(s: State)
    requires Reachable(s)
    ensures Inv(s)
  {
    var first, actions :| Initial(first) && Runs(first, actions, s);
    InitialInv(first);
    RunKeepsInv(first, actions, s);
  }
}
