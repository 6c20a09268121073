/** The text of an upload, from the request to the pipeline: it is stored whole, and nothing else is read. */
module JobTexts {
  import opened ErrorText
  import opened StorageKeys
  import opened JobTables
  import opened JobProtocol
  import opened JobInvariant
  import opened UploadSteps
  import opened JobOriginals

  // ----- stored originals

  /** The put has been acknowledged and nothing has deleted the object since. */
  predicate Kept(phase: UploadPhase) {
    phase.Enqueue? || phase.MarkQueued? || phase.Uploaded?
  }

  predicate TextOk(s: State, f: FileId)
    requires f in s.uploads
  {
    var u := s.uploads[f];
    && (u.originalKey in s.store ==> s.store[u.originalKey] == Transcript(u.text))
    && (Kept(UploadAt(u.phase)) ==> u.originalKey in s.store)
  }

  ghost predicate TextsOk(s: State) {
    forall f | f in s.uploads :: s.uploads[f].originalKey.OriginalKey? && TextOk(s, f)
  }

  lemma SameOriginalsKeepTexts(s: State, s': State)
    requires TextsOk(s) && SameOriginals(s, s')
    ensures TextsOk(s')
  {
    forall f | f in s'.uploads ensures s'.uploads[f].originalKey.OriginalKey? && TextOk(s', f) {
      assert TextOk(s, f);
    }
  }

  lemma OtherTextsStay(s: State, s': State, f: FileId)
    requires TextsOk(s) && f in s.uploads && OriginalOf(s, s', f) && TextOk(s', f)
    requires forall g | g in s.uploads && g != f :: s.uploads[g].originalKey != s.uploads[f].originalKey
    ensures TextsOk(s')
  {
    forall g | g in s'.uploads ensures s'.uploads[g].originalKey.OriginalKey? && TextOk(s', g) {
      assert TextOk(s, g);
    }
  }

  lemma PutKeepsText(s: State, s': State, f: FileId, i: Input)
    requires f in s.uploads && s.uploads[f].phase == PutOriginal && TextOk(s, f) && s' == PutOriginalStep(s, f, i)
    ensures f in s'.uploads && TextOk(s', f)
  {
  }

  lemma EnqueueKeepsText(s: State, s': State, f: FileId, i: Input)
    requires f in s.uploads && s.uploads[f].phase == Enqueue && TextOk(s, f) && s' == EnqueueStep(s, f, i)
    ensures f in s'.uploads && TextOk(s', f)
  {
  }

  lemma MarkQueuedKeepsText(s: State, s': State, f: FileId, i: Input)
    requires f in s.uploads && s.uploads[f].phase == MarkQueued && TextOk(s, f) && s' == MarkQueuedStep(s, f, i)
    ensures f in s'.uploads && TextOk(s', f)
  {
  }

  lemma DeleteKeepsText(s: State, s': State, f: FileId, i: Input)
    requires f in s.uploads && s.uploads[f].phase.DeleteOriginal? && TextOk(s, f) && s' == DeleteOriginalStep(s, f, i)
    ensures f in s'.uploads && TextOk(s', f)
  {
  }

  lemma MarkFailedKeepsText(s: State, s': State, f: FileId, i: Input)
    requires f in s.uploads && s.uploads[f].phase.MarkUploadFailed? && TextOk(s, f)
    requires s' == MarkUploadFailedStep(s, f, i)
    ensures f in s'.uploads && TextOk(s', f)
  {
  }

  lemma UploadStepKeepsText(s: State, s': State, f: FileId, i: Input)
    requires f in s.uploads && LiveUpload(s.uploads[f].phase) && TextOk(s, f) && s' == UploadStep(s, f, i)
    ensures f in s'.uploads && TextOk(s', f)
  {
    match s.uploads[f].phase
    case PutOriginal => PutKeepsText(s, s', f, i);
    case Enqueue => EnqueueKeepsText(s, s', f, i);
    case MarkQueued => MarkQueuedKeepsText(s, s', f, i);
    case DeleteOriginal(_) => DeleteKeepsText(s, s', f, i);
    case MarkUploadFailed(_, _, _) => MarkFailedKeepsText(s, s', f, i);
  }

  lemma KeysDiffer(s: State, f: FileId, g: FileId)
    requires Inv(s) && f in s.uploads && g in s.uploads && f != g
    ensures s.uploads[g].originalKey != s.uploads[f].originalKey
  {
    assert Cell(s, f) && Cell(s, g);
  }

  lemma UploadKeepsTexts(s: State, s': State, a: Action)
    requires Inv(s) && OriginalsOk(s) && TextsOk(s) && Enabled(s, a) && a.ContinueUpload? && s' == Apply(s, a)
    ensures TextsOk(s') && OriginalOf(s, s', a.fileId)
  {
    var f := a.fileId;
    assert Cell(s, f) && LossOk(s, s.uploads[f].originalKey) && TextOk(s, f);
    OwnOriginalStaysOk(s, s', f, a.input);
    UploadStepKeepsText(s, s', f, a.input);
    forall g | g in s.uploads && g != f ensures s.uploads[g].originalKey != s.uploads[f].originalKey {
      KeysDiffer(s, f, g);
    }
    OtherTextsStay(s, s', f);
  }

  lemma BeginKeepsTexts(s: State, s': State, a: Action)
    requires Inv(s) && TextsOk(s) && Enabled(s, a) && a.BeginUpload? && s' == Apply(s, a)
    ensures TextsOk(s')
  {
    assert OriginalKey(a.userId, a.fileId, a.extension) !in s.store;
    forall f | f in s'.uploads ensures s'.uploads[f].originalKey.OriginalKey? && TextOk(s', f) {
      assert f != a.fileId ==> TextOk(s, f);
    }
  }

  lemma CrashKeepsTexts(s: State, s': State, f: FileId)
    requires TextsOk(s) && f in s.uploads && LiveUpload(s.uploads[f].phase)
    requires s' == UploadTo(s, f, UploadCrashed(s.uploads[f].phase))
    ensures TextsOk(s')
  {
    forall g | g in s'.uploads ensures s'.uploads[g].originalKey.OriginalKey? && TextOk(s', g) {
      assert TextOk(s, g);
    }
  }

  lemma StepKeepsTexts(s: State, a: Action)
    requires Inv(s) && OriginalsOk(s) && TextsOk(s) && Enabled(s, a)
    ensures TextsOk(Apply(s, a))
  {
    var s' := Apply(s, a);
    if a.Continue? || a.Crash? {
      HandlerKeepsOriginals(s, s', a);
      SameOriginalsKeepTexts(s, s');
    } else if a.Claim? || a.Heartbeat? {
      QueueKeepsOriginals(s, s', a);
      SameOriginalsKeepTexts(s, s');
    } else if a.BeginUpload? {
      BeginKeepsTexts(s, s', a);
    } else if a.CrashUpload? {
      CrashKeepsTexts(s, s', a.fileId);
    } else {
      UploadKeepsTexts(s, s', a);
    }
  }

  lemma {:induction false} RunKeepsTexts(s: State, actions: seq<Action>, last: State)
    requires Inv(s) && OriginalsOk(s) && TextsOk(s) && Runs(s, actions, last)
    ensures Inv(last) && OriginalsOk(last) && TextsOk(last)
    decreases |actions|
  {
    if actions != [] {
      StepKeepsInv(s, actions[0]);
      StepKeepsOriginals(s, actions[0]);
      StepKeepsTexts(s, actions[0]);
      RunKeepsTexts(Apply(s, actions[0]), actions[1..], last);
    }
  }

  lemma ReachableTexts(s: State)
    requires Reachable(s)
    ensures Inv(s) && OriginalsOk(s) && TextsOk(s)
  {
    var first, actions :| Initial(first) && Runs(first, actions, s);
    InitialInv(first);
    RunKeepsTexts(first, actions, s);
  }

  // ----- the upload that a request began

  predicate BegunAs(s: State, f: FileId, userId: string, extension: Extension, text: Text) {
    f in s.uploads && s.uploads[f] == Upload(userId, OriginalKey(userId, f, extension), text, s.uploads[f].phase)
  }

  lemma UploadsKeepTheirText(s: State, a: Action, f: FileId, userId: string, extension: Extension, text: Text)
    requires Inv(s) && OriginalsOk(s) && Enabled(s, a) && BegunAs(s, f, userId, extension, text)
    ensures BegunAs(Apply(s, a), f, userId, extension, text)
  {
    var s' := Apply(s, a);
    if a.Continue? || a.Crash? {
      HandlerKeepsOriginals(s, s', a);
    } else if a.Claim? || a.Heartbeat? {
      QueueKeepsOriginals(s, s', a);
    } else if a.ContinueUpload? {
      assert Cell(s, a.fileId) && LossOk(s, s.uploads[a.fileId].originalKey);
      OwnOriginalStaysOk(s, s', a.fileId, a.input);
    }
  }

  lemma {:induction false} RunKeepsUpload(
    s: State, actions: seq<Action>, last: State, f: FileId, userId: string, extension: Extension, text: Text)
    requires Inv(s) && OriginalsOk(s) && Runs(s, actions, last) && BegunAs(s, f, userId, extension, text)
    ensures BegunAs(last, f, userId, extension, text)
    decreases |actions|
  {
    if actions != [] {
      StepKeepsInv(s, actions[0]);
      StepKeepsOriginals(s, actions[0]);
      UploadsKeepTheirText(s, actions[0], f, userId, extension, text);
      RunKeepsUpload(Apply(s, actions[0]), actions[1..], last, f, userId, extension, text);
    }
  }

  lemma {:induction false} BegunInRun(s: State, actions: seq<Action>, last: State, n: nat)
    requires Inv(s) && OriginalsOk(s) && Runs(s, actions, last) && n < |actions| && actions[n].BeginUpload?
    ensures var a := actions[n]; BegunAs(last, a.fileId, a.userId, a.extension, a.text)
    decreases |actions|
  {
    var next := Apply(s, actions[0]);
    StepKeepsInv(s, actions[0]);
    StepKeepsOriginals(s, actions[0]);
    if n == 0 {
      var a := actions[0];
      RunKeepsUpload(next, actions[1..], last, a.fileId, a.userId, a.extension, a.text);
    } else {
      assert actions[1..][n - 1] == actions[n];
      BegunInRun(next, actions[1..], last, n - 1);
    }
  }

  /**
   Whatever else a run does: an upload that it began keeps its owner and its key, what is stored
   under the key is the whole text of the request, and it is stored as long as the upload has not
   failed. The row of the file, once there is one, names the same owner and key.
   */
  lemma UploadedTextIsStored(first: State, actions: seq<Action>, last: State, n: nat)
    requires Initial(first) && Runs(first, actions, last) && n < |actions| && actions[n].BeginUpload?
    ensures var f, u, text := actions[n].fileId, actions[n].userId, actions[n].text;
            var key := OriginalKey(u, f, actions[n].extension);
            && f in last.uploads
            && last.uploads[f].userId == u && last.uploads[f].originalKey == key && last.uploads[f].text == text
            && (key in last.store ==> last.store[key] == Transcript(text))
            && (Kept(UploadAt(last.uploads[f].phase)) ==> key in last.store)
            && (f in last.t.files ==> last.t.files[f].userId == u && last.t.files[f].originalKey == key)
  {
    InitialInv(first);
    RunKeepsTexts(first, actions, last);
    BegunInRun(first, actions, last, n);
    assert Cell(last, actions[n].fileId) && TextOk(last, actions[n].fileId);
  }

  // ----- what the pipeline reads and writes

  /** A handler goes on to the model exactly with the uploaded text, if that is not blank. */
  lemma ModelReadsUploadedText(s: State, h: HandlerId, i: Input)
    requires Reachable(s) && h in s.handlers && s.handlers[h].phase.ReadTranscript?
    ensures var f := s.handlers[h].job.fileId;
            && f in s.uploads && s.handlers[h].phase.ctx.originalKey == s.uploads[f].originalKey
            && h in TranscriptStep(s, h, i).handlers
            && var next := TranscriptStep(s, h, i).handlers[h].phase;
               (next.CallLlm? <==>
                 && i.fault.Fine? && s.uploads[f].originalKey in s.store
                 && exists c | c in s.uploads[f].text :: !IsSpace(c))
  {
    ReachableTexts(s);
    var f := s.handlers[h].job.fileId;
    HandlerSees(s, h);
    assert TextOk(s, f);
    BlankIff(s.uploads[f].text);
  }

  lemma HandlerSees(s: State, h: HandlerId)
    requires Inv(s) && h in s.handlers && HasContext(s.handlers[h].phase)
    ensures var f, ctx := s.handlers[h].job.fileId, s.handlers[h].phase.ctx;
            f in s.uploads && ctx.userId == s.uploads[f].userId && ctx.originalKey == s.uploads[f].originalKey
  {
    var f := s.handlers[h].job.fileId;
    assert f in s.uploads && Cell(s, f) && HandlerOk(s, h);
  }

  lemma BlankIff(t: Text)
    ensures Trim(t) == [] <==> forall c | c in t :: IsSpace(c)
  {
    var n := TrimStartDrops(t);
    var m := TrimEndDrops(t[n..]);
    if Trim(t) == [] {
      assert n == |t|;
    } else {
      assert !IsSpace(t[n]) && t[n] in t;
    }
  }

  // ----- stored reports and raw outputs

  /** A stored report was accepted under some schema version; what is stored as raw output is one. */
  ghost predicate BodyOk(s: State, k: StorageKey)
    requires k in s.store
  {
    match k
    case OriginalKey(_, _, _) => s.store[k].Transcript?
    case ReportKey(_, _) =>
      s.store[k].Report? && exists version :: s.validator(s.store[k].payload, version) == ReportValid
    case RawKey(_, _) => s.store[k].RawOutput?
  }

  ghost predicate BodiesOk(s: State) {
    forall k | k in s.store :: BodyOk(s, k)
  }

  /** Everything in the new store was there before, or is as it should be. */
  ghost predicate BodiesStay(s: State, s': State) {
    && s'.validator == s.validator
    && forall k | k in s'.store :: (k in s.store && s'.store[k] == s.store[k]) || BodyOk(s', k)
  }

  lemma StayingBodiesAreOk(s: State, s': State)
    requires BodiesOk(s) && BodiesStay(s, s')
    ensures BodiesOk(s')
  {
    forall k | k in s'.store ensures BodyOk(s', k) {
      assert k in s.store && s'.store[k] == s.store[k] ==> BodyOk(s, k);
    }
  }

  lemma MoveKeepsBodies(s: State, h: HandlerId, phase: Phase)
    requires h in s.handlers
    ensures BodiesStay(s, To(s, h, phase))
  {
  }

  lemma PutRawKeepsBodies(s: State, s': State, h: HandlerId, i: Input)
    requires h in s.handlers && s.handlers[h].phase.PutRaw? && s' == PutRawStep(s, h, i)
    ensures BodiesStay(s, s')
  {
  }

  lemma SaveRawKeepsBodies(s: State, s': State, h: HandlerId, i: Input)
    requires h in s.handlers && s.handlers[h].phase.SaveRaw? && s' == SaveRawStep(s, h, i)
    ensures BodiesStay(s, s')
  {
  }

  lemma PutReportKeepsBodies(s: State, s': State, h: HandlerId, i: Input)
    requires h in s.handlers && s.handlers[h].phase.PutReport? && s' == PutReportStep(s, h, i)
    requires s.handlers[h].job.id in s.t.jobs && PhaseOk(s, s.handlers[h])
    ensures BodiesStay(s, s')
  {
  }

  lemma SaveReportKeepsBodies(s: State, s': State, h: HandlerId, i: Input)
    requires h in s.handlers && s.handlers[h].phase.SaveReport? && s' == SaveReportStep(s, h, i)
    ensures BodiesStay(s, s')
  {
  }

  lemma CleanUpKeepsBodies(s: State, s': State, h: HandlerId, i: Input)
    requires h in s.handlers && s.handlers[h].phase.CleanUp? && s' == CleanUpStep(s, h, i)
    ensures BodiesStay(s, s')
  {
  }

  lemma FinalKeepsBodies(s: State, s': State, h: HandlerId, i: Input)
    requires h in s.handlers && Finishing(s.handlers[h].phase) && s' == FinalStep(s, h, i)
    ensures BodiesStay(s, s')
  {
  }

  lemma LlmKeepsBodies(s: State, s': State, h: HandlerId, i: Input)
    requires h in s.handlers && s.handlers[h].phase.CallLlm? && s' == LlmStep(s, h, i)
    ensures BodiesStay(s, s')
  {
  }

  lemma ContinueKeepsBodies(s: State, s': State, h: HandlerId, i: Input)
    requires h in s.handlers && s.handlers[h].job.id in s.t.jobs && PhaseOk(s, s.handlers[h])
    requires Live(s.handlers[h].phase)
    requires s' == if Finishing(s.handlers[h].phase) then FinalStep(s, h, i) else PipelineStep(s, h, i)
    ensures BodiesStay(s, s')
  {
    match s.handlers[h].phase
    case ReadContext =>
      var phase := ContextMoves(s, h, i);
      MoveKeepsBodies(s, h, phase);
    case ReadTranscript(_) =>
      var phase := TranscriptMoves(s, h, i);
      MoveKeepsBodies(s, h, phase);
    case CallLlm(_) => LlmKeepsBodies(s, s', h, i);
    case PutRaw(_, _) => PutRawKeepsBodies(s, s', h, i);
    case SaveRaw(_, _) => SaveRawKeepsBodies(s, s', h, i);
    case PutReport(_, _) => PutReportKeepsBodies(s, s', h, i);
    case SaveReport(_, _) => SaveReportKeepsBodies(s, s', h, i);
    case CleanUp(_, _) => CleanUpKeepsBodies(s, s', h, i);
    case Finish => FinalKeepsBodies(s, s', h, i);
    case Recover(_) => FinalKeepsBodies(s, s', h, i);
  }

  lemma HandlerKeepsBodies(s: State, s': State, a: Action)
    requires Inv(s) && Enabled(s, a) && (a.Continue? || a.Crash?) && s' == Apply(s, a)
    ensures BodiesStay(s, s')
  {
    var h := a.handlerId;
    assert Cell(s, s.handlers[h].job.fileId) && HandlerOk(s, h);
    if a.Continue? {
      ContinueKeepsBodies(s, s', h, a.input);
    }
  }

  lemma UploadKeepsBodies(s: State, s': State, a: Action)
    requires Enabled(s, a) && (a.BeginUpload? || a.CrashUpload? || a.Claim? || a.Heartbeat?) && s' == Apply(s, a)
    ensures BodiesStay(s, s')
  {
  }

  lemma ContinueUploadKeepsBodies(s: State, s': State, f: FileId, i: Input)
    requires f in s.uploads && s.uploads[f].originalKey.OriginalKey? && LiveUpload(s.uploads[f].phase)
    requires s' == UploadStep(s, f, i)
    ensures BodiesStay(s, s')
  {
    match s.uploads[f].phase
    case PutOriginal => assert s' == PutOriginalStep(s, f, i);
    case Enqueue => assert s' == EnqueueStep(s, f, i);
    case MarkQueued => assert s' == MarkQueuedStep(s, f, i);
    case DeleteOriginal(_) => assert s' == DeleteOriginalStep(s, f, i);
    case MarkUploadFailed(_, _, _) => assert s' == MarkUploadFailedStep(s, f, i);
  }

  lemma StepKeepsBodies(s: State, a: Action)
    requires Inv(s) && BodiesOk(s) && Enabled(s, a)
    ensures BodiesOk(Apply(s, a))
  {
    var s' := Apply(s, a);
    if a.Continue? || a.Crash? {
      HandlerKeepsBodies(s, s', a);
    } else if a.ContinueUpload? {
      assert Cell(s, a.fileId);
      ContinueUploadKeepsBodies(s, s', a.fileId, a.input);
    } else {
      UploadKeepsBodies(s, s', a);
    }
    StayingBodiesAreOk(s, s');
  }

  lemma {:induction false} RunKeepsBodies(s: State, actions: seq<Action>, last: State)
    requires Inv(s) && BodiesOk(s) && Runs(s, actions, last)
    ensures BodiesOk(last)
    decreases |actions|
  {
    if actions != [] {
      StepKeepsInv(s, actions[0]);
      StepKeepsBodies(s, actions[0]);
      RunKeepsBodies(Apply(s, actions[0]), actions[1..], last);
    }
  }

  /** Whatever is ever stored as a report was accepted by the validator, orphans and losses included. */
  lemma StoredReportsAreAccepted(s: State, k: StorageKey)
    requires Reachable(s) && k in s.store
    ensures BodyOk(s, k)
  {
    var first, actions :| Initial(first) && Runs(first, actions, s);
    InitialInv(first);
    RunKeepsBodies(first, actions, s);
  }

  /** While raw output is being recorded, what is stored is the text the validator has just refused. */
  lemma RawOutputWasRefused(s: State, h: HandlerId)
    requires Reachable(s) && h in s.handlers && s.handlers[h].phase.SaveRaw?
    ensures var f, phase := s.handlers[h].job.fileId, s.handlers[h].phase;
            && s.validator(phase.output.payload, phase.output.versions.schema) == ReportInvalid
            && f in s.uploads
            && var key := RawKey(s.uploads[f].userId, f);
               key in s.store && s.store[key] == RawOutput(phase.output.rawText)
  {
    ReachableInv(s);
    HandlerSees(s, h);
    assert Cell(s, s.handlers[h].job.fileId) && HandlerOk(s, h);
  }
}
