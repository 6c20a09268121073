/** Claims, finalizations, heartbeats and crashes keep the invariant. */
module JobSettlement {
  import opened Options
  import opened ErrorText
  import opened JobTables
  import opened JobProtocol
  import opened JobInvariant
  import opened JobSteps

  // ----- the pipeline, put together

  lemma ContextOfHolder(s: State, f: FileId, h: HandlerId)
    requires HoldsAs(s, f, h) && FileOk(s, f) && PhaseOk(s, s.handlers[h]) && HasContext(s.handlers[h].phase)
    ensures ContextIsCurrent(s, f, h)
  {
  }

  lemma PipelineKeepsCell(s: State, s': State, f: FileId, h: HandlerId, i: Input)
    requires HoldsAs(s, f, h) && Cell(s, f) && PhaseOk(s, s.handlers[h])
    requires Live(s.handlers[h].phase) && !Finishing(s.handlers[h].phase)
    requires s' == PipelineStep(s, h, i)
    ensures f in s'.uploads && Cell(s', f) && SameElsewhere(s, s', f)
  {
    if s.handlers[h].phase.ReadContext? || s.handlers[h].phase.ReadTranscript? || s.handlers[h].phase.CallLlm? {
      var phase := PipelineReads(s, f, h, i);
      MoveKeepsCell(s, s', f, h, phase);
    } else {
      PipelineWritesWell(s, s', f, h, i);
      WriteKeepsCell(s, s', f, h);
    }
  }

  lemma PipelineReads(s: State, f: FileId, h: HandlerId, i: Input) returns (phase: Phase)
    requires HoldsAs(s, f, h) && PhaseOk(s, s.handlers[h])
    requires s.handlers[h].phase.ReadContext? || s.handlers[h].phase.ReadTranscript? || s.handlers[h].phase.CallLlm?
    ensures PipelineStep(s, h, i) == To(s, h, phase) && Live(phase) && PhaseOk(s, s.handlers[h].(phase := phase))
  {
    match s.handlers[h].phase
    case ReadContext => phase := ContextReads(s, f, h, i);
    case ReadTranscript(_) => phase := TranscriptReads(s, f, h, i);
    case CallLlm(_) => phase := LlmReads(s, f, h, i);
  }

  lemma PipelineWritesWell(s: State, s': State, f: FileId, h: HandlerId, i: Input)
    requires HoldsAs(s, f, h) && FileOk(s, f) && PhaseOk(s, s.handlers[h])
    requires Live(s.handlers[h].phase) && HasContext(s.handlers[h].phase)
    requires !s.handlers[h].phase.ReadTranscript? && !s.handlers[h].phase.CallLlm?
    requires s' == PipelineStep(s, h, i)
    ensures WritesWell(s, s', f, h)
  {
    ContextOfHolder(s, f, h);
    match s.handlers[h].phase
    case PutRaw(_, _) => PutRawWrites(s, s', f, h, i);
    case SaveRaw(_, _) => SaveRawWrites(s, s', f, h, i);
    case PutReport(_, _) => PutReportWrites(s, s', f, h, i);
    case SaveReport(_, _) => SaveReportWrites(s, s', f, h, i);
    case CleanUp(_, _) => CleanUpWrites(s, s', f, h, i);
    case _ =>
  }

  /** Whatever a pipeline step does, it changes the handler, its artifacts, and nothing else. */
  lemma PipelineIsArtifacts(s: State, s': State, f: FileId, h: HandlerId, i: Input)
    requires HoldsAs(s, f, h) && FileOk(s, f) && PhaseOk(s, s.handlers[h])
    requires Live(s.handlers[h].phase) && !Finishing(s.handlers[h].phase)
    requires s' == PipelineStep(s, h, i)
    ensures ArtifactsOnly(s, s', f, h)
  {
    if s.handlers[h].phase.ReadContext? || s.handlers[h].phase.ReadTranscript? || s.handlers[h].phase.CallLlm? {
      var phase := PipelineReads(s, f, h, i);
    } else {
      PipelineWritesWell(s, s', f, h, i);
    }
  }

  // ----- finalizations that do not commit, and crashes

  /** `s'` is `s` with handler `h` at another phase. */
  ghost predicate PhaseOnly(s: State, s': State, h: HandlerId, phase: Phase)
    requires h in s.handlers
  {
    s' == To(s, h, phase)
  }

  /** The holder changes phase and nothing else: a crash, or a finalization without an effect. */
  lemma HolderMovesWell(s: State, s': State, f: FileId, h: HandlerId, phase: Phase)
    requires HoldsAs(s, f, h) && PhaseOk(s, s.handlers[h]) && PhaseOnly(s, s', h, phase)
    requires || phase == Crashed(s.handlers[h].phase)
             || (s.handlers[h].phase.Finish? && phase.Recover? && !phase.error.retriable)
             || (Finishing(s.handlers[h].phase) && phase == Ended(false))
    requires Live(s.handlers[h].phase)
    ensures WritesWell(s, s', f, h)
  {
  }

  lemma StrayFile(s: State, s': State, f: FileId, h: HandlerId, phase: Phase)
    requires f in s.uploads && FileOk(s, f) && IndexOk(s, f) && h in s.handlers
    requires s.handlers[h].job.fileId == f && HandlerOk(s, h)
    requires s.t.jobs[s.handlers[h].job.id].status == Succeeded && PhaseOnly(s, s', h, phase)
    ensures FileOk(s', f)
  {
    assert JobOk(s, s.handlers[h].job.id);
    assert JobOk(s', s.handlers[h].job.id);
  }

  lemma StrayHandlers(s: State, s': State, f: FileId, h: HandlerId, phase: Phase)
    requires HandlersOk(s, f) && h in s.handlers && PhaseOnly(s, s', h, phase) && !Live(phase)
    ensures HandlersOk(s', f)
  {
    forall other | other in s'.handlers && s'.handlers[other].job.fileId == f ensures HandlerOk(s', other) {
      assert HandlerOk(s, other);
    }
  }

  /** A handler whose job has succeeded under it fades out. */
  lemma StrayFadesOut(s: State, s': State, f: FileId, h: HandlerId, phase: Phase)
    requires f in s.uploads && Cell(s, f) && h in s.handlers && s.handlers[h].job.fileId == f && HandlerOk(s, h)
    requires s.t.jobs[s.handlers[h].job.id].status == Succeeded
    requires PhaseOnly(s, s', h, phase) && !Live(phase)
    ensures f in s'.uploads && Cell(s', f) && SameElsewhere(s, s', f)
  {
    StrayFile(s, s', f, h, phase);
    StrayHandlers(s, s', f, h, phase);
    assert Accounted(s', f);
  }

  lemma CrashKeepsCell(s: State, f: FileId, h: HandlerId)
    requires f in s.uploads && Cell(s, f) && h in s.handlers && s.handlers[h].job.fileId == f
    requires Live(s.handlers[h].phase)
    ensures var s' := To(s, h, Crashed(s.handlers[h].phase)); f in s'.uploads && Cell(s', f) && SameElsewhere(s, s', f)
  {
    var s' := To(s, h, Crashed(s.handlers[h].phase));
    assert HandlerOk(s, h);
    if Holds(s, s.handlers[h]) {
      HolderIsLast(s, f, h);
      HolderMovesWell(s, s', f, h, Crashed(s.handlers[h].phase));
      WriteKeepsCell(s, s', f, h);
    } else {
      StrayFadesOut(s, s', f, h, Crashed(s.handlers[h].phase));
    }
  }

  // ----- finalizations that commit

  lemma RecoveryErrorIsStable(job: ClaimedJob, e: ProcessingError, now: Millis, random: RetryBackoff.Number)
    ensures var verdict := RecoveryVerdict(job, e, now, random);
            && !verdict.MarkSucceeded? && StableCode(Sanitized(verdict.error).code)
            && StableMessage(Sanitized(verdict.error).message)
            && (verdict.Requeue? ==> e.retriable && job.attempts < job.maxAttempts)
  {
    CodePasses(SanitizeErrorCode(e.code));
    MessagePasses(e.message);
  }

  /** The state after the job and the file of `f` have been finalized by their holder. */
  function Settled(s: State, f: FileId, h: HandlerId, verdict: Verdict, now: Millis, phase: Phase): State
    requires HoldsAs(s, f, h)
  {
    var hd := s.handlers[h];
    var j := hd.job.id;
    s.(t := s.t.(jobs := s.t.jobs[j := FinalizedJob(s.t.jobs[j], verdict)],
                 files := s.t.files[f := FinalizedFile(s.t.files[f], verdict, hd.job.attempts, now)]),
       history := s.history[j := s.history[j] + [Finalized(h, hd.job.attempts, verdict)]],
       handlers := s.handlers[h := hd.(phase := phase)])
  }

  /** What a holder may decide. */
  ghost predicate VerdictOk(s: State, h: HandlerId, verdict: Verdict)
    requires h in s.handlers
  {
    match verdict
    case MarkSucceeded => ReportInPlace(s, s.handlers[h].job.fileId)
    case MarkFailed(e) => StableCode(Sanitized(e).code) && StableMessage(Sanitized(e).message)
    case Requeue(_, e) =>
      && StableCode(Sanitized(e).code) && StableMessage(Sanitized(e).message)
      && s.handlers[h].job.attempts < s.handlers[h].job.maxAttempts && s.handlers[h].phase.Recover?
      && s.handlers[h].phase.error.retriable
  }

  predicate PhaseAfter(verdict: Verdict, phase: Phase) {
    phase.Ended? || (verdict.MarkSucceeded? && phase.Recover? && !phase.error.retriable)
  }

  lemma {:induction false} SettledHistory(s: State, s': State, f: FileId, h: HandlerId,
      verdict: Verdict, now: Millis, phase: Phase)
    requires HoldsAs(s, f, h) && HandlerOk(s, h) && JobOk(s, s.handlers[h].job.id)
    requires s' == Settled(s, f, h, verdict, now, phase)
    ensures HistoryOk(s'.history[s.handlers[h].job.id], s'.t.jobs[s.handlers[h].job.id])
  {
    var j := s.handlers[h].job.id;
    var before, after := s.history[j], s'.history[j];
    assert after == before + [Finalized(h, s.handlers[h].job.attempts, verdict)];
    assert |before| == 2 * s.t.jobs[j].attempts - 1;
    forall k | 0 <= k < |after| - 1 && k % 2 == 1 ensures after[k].verdict.Requeue? {
      assert after[k] == before[k] && k < |before| - 1;
    }
  }

  lemma SettledFile(s: State, s': State, f: FileId, h: HandlerId, verdict: Verdict, now: Millis, phase: Phase)
    requires HoldsAs(s, f, h) && FileOk(s, f) && HandlerOk(s, h) && VerdictOk(s, h, verdict)
    requires s' == Settled(s, f, h, verdict, now, phase)
    ensures FileOk(s', f)
  {
    assert JobOk(s, s.handlers[h].job.id);
    SettledHistory(s, s', f, h, verdict, now, phase);
    assert JobOk(s', s.handlers[h].job.id);
  }

  lemma SettledHandlers(s: State, s': State, f: FileId, h: HandlerId, verdict: Verdict, now: Millis, phase: Phase)
    requires HoldsAs(s, f, h) && HandlersOk(s, f) && IndexOk(s, f) && PhaseAfter(verdict, phase)
    requires s' == Settled(s, f, h, verdict, now, phase)
    ensures HandlersOk(s', f)
  {
    forall other | other in s'.handlers && s'.handlers[other].job.fileId == f ensures HandlerOk(s', other) {
      assert HandlerOk(s, other) && HandlerOk(s, h);
      if other != h {
        OnlyHolderIsLive(s, f, h, other);
        SettledOther(s, s', f, h, other, verdict, now, phase);
      } else {
        SettledOwn(s, s', f, h, verdict, now, phase);
      }
    }
  }

  lemma SettledOwn(s: State, s': State, f: FileId, h: HandlerId, verdict: Verdict, now: Millis, phase: Phase)
    requires HoldsAs(s, f, h) && HandlerOk(s, h) && PhaseAfter(verdict, phase)
    requires s' == Settled(s, f, h, verdict, now, phase)
    ensures HandlerOk(s', h)
  {
  }

  lemma SettledOther(s: State, s': State, f: FileId, h: HandlerId, other: HandlerId,
      verdict: Verdict, now: Millis, phase: Phase)
    requires HoldsAs(s, f, h) && other != h && other in s.handlers && HandlerOk(s, other)
    requires !Live(s.handlers[other].phase) && s' == Settled(s, f, h, verdict, now, phase)
    ensures HandlerOk(s', other)
  {
  }

  lemma SettledAccounts(s: State, s': State, f: FileId, h: HandlerId, verdict: Verdict, now: Millis, phase: Phase)
    requires HoldsAs(s, f, h) && Accounted(s, f) && VerdictOk(s, h, verdict) && Finishing(s.handlers[h].phase)
    requires s' == Settled(s, f, h, verdict, now, phase)
    ensures Accounted(s', f)
  {
    AccountedWhileHeld(s, f, h);
  }

  lemma SettledElsewhere(s: State, s': State, f: FileId, h: HandlerId, verdict: Verdict, now: Millis, phase: Phase)
    requires HoldsAs(s, f, h) && IndexOk(s, f) && StoreOk(s, f)
    requires s' == Settled(s, f, h, verdict, now, phase)
    ensures f in s'.uploads && IndexOk(s', f) && StoreOk(s', f) && SameElsewhere(s, s', f)
  {
  }

  lemma SettlingKeepsCell(s: State, s': State, f: FileId, h: HandlerId, verdict: Verdict, now: Millis, phase: Phase)
    requires HoldsAs(s, f, h) && Cell(s, f) && HandlerOk(s, h) && VerdictOk(s, h, verdict) && PhaseAfter(verdict, phase)
    requires Finishing(s.handlers[h].phase)
    requires s' == Settled(s, f, h, verdict, now, phase)
    ensures f in s'.uploads && Cell(s', f) && SameElsewhere(s, s', f)
  {
    SettledElsewhere(s, s', f, h, verdict, now, phase);
    SettledFile(s, s', f, h, verdict, now, phase);
    SettledHandlers(s, s', f, h, verdict, now, phase);
    SettledAccounts(s, s', f, h, verdict, now, phase);
  }

  /** A finalization commits only for a holder, and then it is `Settled`; otherwise only the phase moves. */
  lemma FinalStepIs(s: State, s': State, f: FileId, h: HandlerId, i: Input)
      returns (settled: bool, verdict: Verdict, phase: Phase)
    requires f in s.uploads && FileOk(s, f) && IndexOk(s, f)
    requires h in s.handlers && s.handlers[h].job.fileId == f && HandlerOk(s, h)
    requires Finishing(s.handlers[h].phase) && s' == FinalStep(s, h, i)
    ensures settled ==> HoldsAs(s, f, h) && VerdictOk(s, h, verdict) && PhaseAfter(verdict, phase)
                        && s' == Settled(s, f, h, verdict, i.now, phase)
    ensures phase.Ended? || (s.handlers[h].phase.Finish? && phase.Recover?)
    ensures !settled ==> PhaseOnly(s, s', h, phase)
                         && (s.handlers[h].phase.Recover? ==> phase == Ended(false))
                         && (s.handlers[h].phase.Finish? ==> phase.Recover? && !phase.error.retriable)
  {
    var hd := s.handlers[h];
    verdict := if hd.phase.Finish? then MarkSucceeded else RecoveryVerdict(hd.job, hd.phase.error, i.now, i.random);
    var tx := FinalizeTx(s.t, hd.job.id, f, hd.workerId, hd.job.attempts, verdict, i.now);
    settled := Run(s.t, tx, i.fault).committed;
    phase := s'.handlers[h].phase;
    if settled {
      assert Holds(s, hd);
      HolderIsLast(s, f, h);
      if hd.phase.Recover? {
        RecoveryErrorIsStable(hd.job, hd.phase.error, i.now, i.random);
      }
    }
  }

  lemma FinalKeepsCell(s: State, s': State, f: FileId, h: HandlerId, i: Input)
    requires f in s.uploads && Cell(s, f)
    requires h in s.handlers && s.handlers[h].job.fileId == f && HandlerOk(s, h)
    requires Finishing(s.handlers[h].phase) && s' == FinalStep(s, h, i)
    ensures f in s'.uploads && Cell(s', f) && SameElsewhere(s, s', f)
  {
    var settled, verdict, phase := FinalStepIs(s, s', f, h, i);
    if settled {
      SettlingKeepsCell(s, s', f, h, verdict, i.now, phase);
    } else if Holds(s, s.handlers[h]) {
      HolderIsLast(s, f, h);
      HolderMovesWell(s, s', f, h, phase);
      WriteKeepsCell(s, s', f, h);
    } else {
      StrayFadesOut(s, s', f, h, phase);
    }
  }

  lemma HolderContinues(s: State, s': State, f: FileId, h: HandlerId, i: Input)
    requires f in s.uploads && Cell(s, f)
    requires h in s.handlers && s.handlers[h].job.fileId == f && HandlerOk(s, h) && Holds(s, s.handlers[h])
    requires Live(s.handlers[h].phase) && !Finishing(s.handlers[h].phase)
    requires s' == PipelineStep(s, h, i)
    ensures f in s'.uploads && Cell(s', f) && SameElsewhere(s, s', f)
  {
    HolderIsLast(s, f, h);
    PipelineKeepsCell(s, s', f, h, i);
  }

  // ----- claims and heartbeats

  /** Nobody is at work on a queued job. */
  lemma QueuedIsIdle(s: State, f: FileId, j: JobId, h: HandlerId)
    requires f in s.uploads && IndexOk(s, f) && j in s.t.jobs && s.t.jobs[j].fileId == f && s.t.jobs[j].status == Queued
    requires h in s.handlers && s.handlers[h].job.fileId == f && HandlerOk(s, h)
    ensures !Live(s.handlers[h].phase)
  {
    assert s.handlers[h].job.id == j;
  }

  function ClaimedState(s: State, j: JobId, h: HandlerId, workerId: string, now: Millis, phase: Phase): State
    requires j in s.t.jobs && j in s.history && s.t.jobs[j].fileId in s.t.files
  {
    var job := s.t.jobs[j];
    var f := job.fileId;
    var claimed := job.(status := Processing, lockedAt := Some(now), lockedBy := Some(workerId),
                        heartbeatAt := Some(now), attempts := job.attempts + 1);
    s.(t := s.t.(jobs := s.t.jobs[j := claimed],
        files := s.t.files[f := StartedFile(s.t.files[f], claimed.attempts, now)]),
       history := s.history[j := s.history[j] + [Claimed(h, claimed.attempts)]],
       handlers := s.handlers[h := Handler(ClaimedJob(j, f, claimed.attempts, job.maxAttempts, job.lockTtlSeconds),
           workerId, phase)])
  }

  /** The unguarded increment never meets the `attempts <= max_attempts` check: the claim commits. */
  lemma ClaimStepIs(s: State, f: FileId, j: JobId, h: HandlerId, workerId: string, now: Millis, fault: Fault)
    requires f in s.uploads && FileOk(s, f) && IndexOk(s, f)
    requires j in s.t.jobs && s.t.jobs[j].fileId == f && s.t.jobs[j].status == Queued && !fault.Refused?
    ensures j in s.history && f in s.t.files
    ensures var s' := ClaimStep(s, h, j, workerId, now, fault);
            s' == ClaimedState(s, j, h, workerId, now, if fault.Fine? then ReadContext else Ended(false))
  {
    assert JobOk(s, j);
  }

  lemma ClaimedFile(s: State, s': State, f: FileId, j: JobId, h: HandlerId, workerId: string, now: Millis, phase: Phase)
    requires f in s.uploads && FileOk(s, f) && IndexOk(s, f) && f in s.t.files && phase != Ended(true)
    requires j in s.t.jobs && j in s.history && s.t.jobs[j].fileId == f
    requires s.t.jobs[j].status == Queued && h !in s.handlers
    requires s' == ClaimedState(s, j, h, workerId, now, phase)
    ensures FileOk(s', f)
  {
    assert JobOk(s, j);
    assert HistoryOk(s'.history[j], s'.t.jobs[j]);
    assert JobOk(s', j);
  }

  lemma ClaimedHandlers(s: State, s': State, f: FileId, j: JobId, h: HandlerId,
      workerId: string, now: Millis, phase: Phase)
    requires f in s.uploads && HandlersOk(s, f) && IndexOk(s, f) && f in s.t.files
    requires (phase == ReadContext || phase == Ended(false))
    requires j in s.t.jobs && j in s.history && s.t.jobs[j].fileId == f
    requires s.t.jobs[j].status == Queued && h !in s.handlers
    requires JobOk(s, j)
    requires s' == ClaimedState(s, j, h, workerId, now, phase)
    ensures HandlersOk(s', f)
  {
    forall other | other in s'.handlers && s'.handlers[other].job.fileId == f ensures HandlerOk(s', other) {
      if other != h {
        assert HandlerOk(s, other);
        QueuedIsIdle(s, f, j, other);
      }
    }
  }

  lemma ClaimedElsewhere(s: State, s': State, f: FileId, j: JobId, h: HandlerId,
      workerId: string, now: Millis, phase: Phase)
    requires f in s.uploads && IndexOk(s, f) && StoreOk(s, f) && f in s.t.files && h !in s.handlers
    requires j in s.t.jobs && j in s.history && s.t.jobs[j].fileId == f
    requires s' == ClaimedState(s, j, h, workerId, now, phase)
    ensures f in s'.uploads && IndexOk(s', f) && StoreOk(s', f) && SameElsewhere(s, s', f)
  {
  }

  lemma ClaimKeepsCell(s: State, f: FileId, j: JobId, h: HandlerId, workerId: string, now: Millis, fault: Fault)
    requires f in s.uploads && Cell(s, f) && h !in s.handlers && !fault.Refused?
    requires j in s.t.jobs && s.t.jobs[j].fileId == f && s.t.jobs[j].status == Queued
    ensures var s' := ClaimStep(s, h, j, workerId, now, fault);
            f in s'.uploads && Cell(s', f) && SameElsewhere(s, s', f)
  {
    var s' := ClaimStep(s, h, j, workerId, now, fault);
    var phase := if fault.Fine? then ReadContext else Ended(false);
    assert JobOk(s, j);
    ClaimStepIs(s, f, j, h, workerId, now, fault);
    ClaimedElsewhere(s, s', f, j, h, workerId, now, phase);
    ClaimedFile(s, s', f, j, h, workerId, now, phase);
    ClaimedHandlers(s, s', f, j, h, workerId, now, phase);
    assert Accounted(s', f);
  }

  lemma HeartbeatFile(s: State, s': State, f: FileId, j: JobId, now: Millis)
    requires f in s.uploads && FileOk(s, f) && IndexOk(s, f)
    requires j in s.t.jobs && s.t.jobs[j].fileId == f && s.t.jobs[j].status == Processing
    requires s' == s.(t := s.t.(jobs := s.t.jobs[j := s.t.jobs[j].(heartbeatAt := Some(now))]))
    ensures FileOk(s', f)
  {
    assert JobOk(s, j);
    assert HeldByLast(s', j);
    assert JobOk(s', j);
  }

  lemma HeartbeatHandlers(s: State, s': State, f: FileId, j: JobId, now: Millis)
    requires HandlersOk(s, f) && j in s.t.jobs
    requires s' == s.(t := s.t.(jobs := s.t.jobs[j := s.t.jobs[j].(heartbeatAt := Some(now))]))
    ensures HandlersOk(s', f)
  {
    forall h | h in s'.handlers && s'.handlers[h].job.fileId == f ensures HandlerOk(s', h) {
      assert HandlerOk(s, h);
    }
  }

  lemma HeartbeatKeepsCell(s: State, s': State, f: FileId, j: JobId, now: Millis)
    requires f in s.uploads && Cell(s, f) && j in s.t.jobs && s.t.jobs[j].fileId == f
    requires s.t.jobs[j].status == Processing
    requires s' == s.(t := s.t.(jobs := s.t.jobs[j := s.t.jobs[j].(heartbeatAt := Some(now))]))
    ensures f in s'.uploads && Cell(s', f) && SameElsewhere(s, s', f)
  {
    HeartbeatFile(s, s', f, j, now);
    HeartbeatHandlers(s, s', f, j, now);
    assert Accounted(s', f);
  }
}
