/** Concrete runs of the protocol, step by step, for the states that the theorems speak of. */
module JobWitnesses {
  import opened Options
  import opened ErrorText
  import opened JsonValues
  import opened StorageKeys
  import opened JobTables
  import opened RetryBackoff
  import opened JobProtocol

  // ----- one file, from the upload to the claim

  const KEY := OriginalKey("u", "f", Txt)
  const TEXT: Text := [0x61]
  const QUIET := Input(Fine, [], false, 0, NotFinite, LlmThrew([]), 0)

  type Validator = (Json, string) -> Validation

  function WithUpload(validator: Validator, files: map<FileId, FileRow>,
      store: map<StorageKey, Body>, phase: UploadPhase): State {
    State(validator, Tables(map[], files, map[]), store, map[],
        map["f" := Upload("u", KEY, TEXT, phase)], {}, map[], {})
  }

  lemma Begun(validator: Validator) returns (s: State)
    ensures s == WithUpload(validator, map["f" := NewFile("u", KEY)], map[], PutOriginal) && Reachable(s)
  {
    var first := State(validator, Tables(map[], map[], map[]), map[], map[], map[], {}, map[], {});
    assert Runs(first, [], first);
    s := WithUpload(validator, map["f" := NewFile("u", KEY)], map[], PutOriginal);
    StepIsReachable(first, BeginUpload("f", "u", Txt, TEXT, Fine), s);
  }

  lemma Stored(validator: Validator) returns (s: State)
    ensures s == WithUpload(validator, map["f" := NewFile("u", KEY)], map[KEY := Transcript(TEXT)], Enqueue)
    ensures Reachable(s)
  {
    var before := Begun(validator);
    s := WithUpload(validator, map["f" := NewFile("u", KEY)], map[KEY := Transcript(TEXT)], Enqueue);
    StepIsReachable(before, ContinueUpload("f", QUIET), s);
  }

  /** A file with a queued job that nobody has claimed. */
  function WithJob(validator: Validator, phase: UploadPhase): State {
    State(validator, Tables(map[0 := NewJob("f", 0)], map["f" := NewFile("u", KEY)], map["f" := 0]),
        map[KEY := Transcript(TEXT)],
          map[], map["f" := Upload("u", KEY, TEXT, phase)], {}, map[0 := []], {})
  }

  lemma Enqueued(validator: Validator, fault: Fault) returns (s: State)
    requires !fault.Refused?
    ensures s == WithJob(validator, if fault.Fine? then MarkQueued else DeleteOriginal([])) && Reachable(s)
  {
    var before := Stored(validator);
    s := WithJob(validator, if fault.Fine? then MarkQueued else DeleteOriginal([]));
    StepIsReachable(before, ContinueUpload("f", QUIET.(fault := fault)), s);
  }

  const ENQUEUE_FAILED :=
    MarkUploadFailed(JobError(Ascii("enqueue_failed"), SanitizeErrorMessage([])), true, false)

  /** The enqueue committed and threw, and the original has been deleted. */
  lemma Compensated(validator: Validator) returns (s: State)
    ensures s == WithJob(validator, ENQUEUE_FAILED).(store := map[]) && Reachable(s)
  {
    var before := Enqueued(validator, Unacknowledged);
    s := WithJob(validator, ENQUEUE_FAILED).(store := map[]);
    StepIsReachable(before, ContinueUpload("f", QUIET.(newJob := 1)), s);
  }

  // ----- the claim, while the upload has still to write `queued`

  const CLAIMED := ClaimedJob(0, "f", 1, ENQUEUED_MAX_ATTEMPTS, DEFAULT_LOCK_TTL_SECONDS)
  const RUNNING := NewJob("f", 0).(status := Processing, lockedAt := Some(0),
      lockedBy := Some("w"), heartbeatAt := Some(0), attempts := 1)

  /** The job is claimed and its handler is at the given phase. */
  function WithHandler(validator: Validator, file: FileRow, store: map<StorageKey, Body>,
      phase: Phase, lost: set<Loss>): State {
    State(validator, Tables(map[0 := RUNNING], map["f" := file], map["f" := 0]), store,
          map[0 := Handler(CLAIMED, "w", phase)], map["f" := Upload("u", KEY, TEXT, MarkQueued)], {},
          map[0 := [Claimed(0, 1)]], lost)
  }

  const STARTED := StartedFile(NewFile("u", KEY), 1, 0)
  const ORIGINAL := map[KEY := Transcript(TEXT)]

  lemma ClaimedEarly(validator: Validator) returns (s: State)
    ensures s == WithHandler(validator, STARTED, ORIGINAL, ReadContext, {}) && Reachable(s)
  {
    var before := Enqueued(validator, Fine);
    s := WithHandler(validator, STARTED, ORIGINAL, ReadContext, {});
    assert [] + [Claimed(0, 1)] == [Claimed(0, 1)];
    assert Apply(before, Claim(0, 0, {}, "w", 0, Fine)).t == s.t;
    StepIsReachable(before, Claim(0, 0, {}, "w", 0, Fine), s);
  }

  const CTX := Context("u", KEY)

  lemma HandlerMoves(s: State, i: Input, s': State)
    requires Reachable(s) && 0 in s.handlers && Live(s.handlers[0].phase)
    requires s' == if Finishing(s.handlers[0].phase) then FinalStep(s, 0, i) else PipelineStep(s, 0, i)
    ensures Reachable(s')
  {
    StepIsReachable(s, Continue(0, i), s');
  }

  lemma Reading(validator: Validator) returns (s: State)
    ensures s == WithHandler(validator, STARTED, ORIGINAL, ReadTranscript(CTX), {}) && Reachable(s)
  {
    var before := ClaimedEarly(validator);
    s := WithHandler(validator, STARTED, ORIGINAL, ReadTranscript(CTX), {});
    HandlerMoves(before, QUIET, s);
  }

  lemma Calling(validator: Validator) returns (s: State)
    ensures s == WithHandler(validator, STARTED, ORIGINAL, CallLlm(CTX), {}) && Reachable(s)
  {
    var before := Reading(validator);
    s := WithHandler(validator, STARTED, ORIGINAL, CallLlm(CTX), {});
    assert Trim(TEXT) == TEXT;
    HandlerMoves(before, QUIET, s);
  }

  const OUTPUT := LlmOutput(Null, [], Versions("", ""))

  /** The model has answered, and the validator has accepted or refused the answer. */
  lemma Answered(accepts: bool) returns (s: State)
    ensures s == WithHandler(s.validator, STARTED, ORIGINAL,
                             if accepts then PutReport(CTX, OUTPUT) else PutRaw(CTX, OUTPUT), {})
    ensures Reachable(s) && Accepted(s, OUTPUT.payload, OUTPUT.versions) == accepts
  {
    var validator: Validator := (payload, version) => if accepts then ReportValid else ReportInvalid;
    var before := Calling(validator);
    s := WithHandler(validator, STARTED, ORIGINAL, if accepts then PutReport(CTX, OUTPUT) else PutRaw(CTX, OUTPUT), {});
    HandlerMoves(before, QUIET.(llm := LlmReturned(OUTPUT)), s);
  }

  // ----- writes whose acknowledgement is lost

  const REPORT_KEY := ReportKey("u", "f")
  const RAW_KEY := RawKey("u", "f")

  function WithObject(k: StorageKey, body: Body): map<StorageKey, Body> {
    ORIGINAL[k := body]
  }

  function ReportPutState(validator: Validator, fault: Fault): State {
    var stored := WithObject(REPORT_KEY, Report(Null));
    if fault.Fine? then WithHandler(validator, STARTED, stored, SaveReport(CTX, OUTPUT), {})
    else WithHandler(validator, STARTED, stored, Recover(Error("s3_write_failed", [], false)), {LostPut(REPORT_KEY)})
  }

  lemma ReportPut(fault: Fault) returns (s: State)
    requires !fault.Refused?
    ensures s == ReportPutState(s.validator, fault) && Reachable(s)
  {
    var before := Answered(true);
    s := ReportPutState(before.validator, fault);
    HandlerMoves(before, QUIET.(fault := fault), s);
  }

  function RawPutState(validator: Validator): State {
    WithHandler(validator, STARTED, WithObject(RAW_KEY, RawOutput([])),
                Recover(Error("s3_write_failed", [], false)), {LostPut(RAW_KEY)})
  }

  lemma RawPutLost() returns (s: State)
    ensures s == RawPutState(s.validator) && Reachable(s)
  {
    var before := Answered(false);
    s := RawPutState(before.validator);
    HandlerMoves(before, QUIET.(fault := Unacknowledged), s);
  }

  const SAVED := STARTED.(reportKey := Some(REPORT_KEY), versions := Some(OUTPUT.versions))

  const SAVE_FAILED := Error("db_update_failed", [], false)

  /** The metadata write commits and throws. */
  lemma SaveReportLost(s: State, h: HandlerId, i: Input)
    requires h in s.handlers && s.handlers[h].phase.SaveReport? && i.fault.Unacknowledged?
    requires s.handlers[h].job.fileId in s.t.files
    ensures var f, phase := s.handlers[h].job.fileId, s.handlers[h].phase;
            PipelineStep(s, h, i) == s.(
              t := s.t.(files := s.t.files[f := s.t.files[f].(
                reportKey := Some(ReportKey(phase.ctx.userId, f)), versions := Some(phase.output.versions))]),
              lost := s.lost + {LostSave(f)},
              handlers := s.handlers[h := s.handlers[h].(
                phase := CleanUp(phase.ctx, Error("db_update_failed", i.message, i.retriable)))])
  {
  }

  lemma SaveLost() returns (s: State)
    ensures s == WithHandler(s.validator, SAVED, WithObject(REPORT_KEY, Report(Null)),
                             CleanUp(CTX, SAVE_FAILED), {LostSave("f")})
    ensures Reachable(s)
  {
    var before := ReportPut(Fine);
    s := WithHandler(before.validator, SAVED, WithObject(REPORT_KEY, Report(Null)),
                     CleanUp(CTX, SAVE_FAILED), {LostSave("f")});
    SaveReportLost(before, 0, QUIET.(fault := Unacknowledged));
    HandlerMoves(before, QUIET.(fault := Unacknowledged), s);
  }

  lemma CleanUpDeletes(s: State, h: HandlerId, i: Input)
    requires h in s.handlers && s.handlers[h].phase.CleanUp? && i.fault.Fine?
    ensures var hd := s.handlers[h];
            PipelineStep(s, h, i) == s.(
              store := s.store - {ReportKey(hd.phase.ctx.userId, hd.job.fileId)},
              handlers := s.handlers[h := hd.(phase := Recover(hd.phase.error))])
  {
  }

  lemma SaveLostAndCleanedUp() returns (s: State)
    ensures s == WithHandler(s.validator, SAVED, ORIGINAL, Recover(SAVE_FAILED), {LostSave("f")}) && Reachable(s)
  {
    var before := SaveLost();
    s := WithHandler(before.validator, SAVED, ORIGINAL, Recover(SAVE_FAILED), {LostSave("f")});
    assert WithObject(REPORT_KEY, Report(Null)) - {REPORT_KEY} == ORIGINAL;
    CleanUpDeletes(before, 0, QUIET);
    HandlerMoves(before, QUIET, s);
  }

  /** The handler's catch block fails the job. */
  lemma HandlerFails(s: State, file: FileRow, store: map<StorageKey, Body>, e: ProcessingError, lost: set<Loss>)
      returns (s': State)
    requires s == WithHandler(s.validator, file, store, Recover(e), lost)
    requires Reachable(s) && !e.retriable && file.userId == "u"
    ensures Reachable(s') && s'.uploads == s.uploads && s'.store == store && s'.logged == {} && s'.lost == lost
    ensures s'.t.jobs.Keys == {0} && "f" in s'.t.files && s'.t.files["f"].userId == "u"
    ensures s'.t.files["f"].reportKey == file.reportKey && s'.t.files["f"].rawKey == file.rawKey
    ensures s'.handlers.Keys == {0} && s'.handlers[0].phase == Ended(true)
  {
    s' := FinalStep(s, 0, QUIET);
    HandlerMoves(s, QUIET, s');
  }

  /** The upload writes its last. */
  lemma UploadEnds(s: State) returns (s': State)
    requires Reachable(s) && s.t.jobs.Keys == {0} && s.uploads == map["f" := Upload("u", KEY, TEXT, MarkQueued)]
    requires "f" in s.t.files && s.t.files["f"].userId == "u"
    ensures Reachable(s') && s'.uploads == map["f" := Upload("u", KEY, TEXT, Uploaded)]
    ensures s'.handlers == s.handlers && s'.store == s.store && s'.logged == s.logged && s'.lost == s.lost
    ensures "f" in s'.t.files
    ensures s'.t.files["f"].reportKey == s.t.files["f"].reportKey && s'.t.files["f"].rawKey == s.t.files["f"].rawKey
  {
    s' := UploadStep(s, "f", QUIET.(newJob := 1));
    StepIsReachable(s, ContinueUpload("f", QUIET.(newJob := 1)), s');
  }
}
