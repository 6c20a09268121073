/** Jobs that stay in processing for ever, exactly when they do, and where runs end. */
module JobReclaim {
  import opened JobTables
  import opened JobProtocol
  import opened JobInvariant
  import opened JobSteps
  import opened JobSettlement
  import opened UploadSteps
  import opened JobRuns
  import opened JobTermination
  import opened JobWitnesses

  // ----- stuck jobs

  /** The last handler of a processing job is gone. */
  ghost predicate Stuck(s: State, j: JobId)
    requires j in s.t.jobs
  {
    s.t.jobs[j].status == Processing && HeldByLast(s, j) && !Live(s.handlers[LastHandler(s, j)].phase)
  }

  lemma StuckStaysStuck(s: State, a: Action, f: FileId, j: JobId)
    requires Inv(s) && Enabled(s, a) && j in s.t.jobs && s.t.jobs[j].fileId == f && f in s.uploads && Stuck(s, j)
    ensures var s' := Apply(s, a);
            j in s'.t.jobs && s'.t.jobs[j].fileId == f && Stuck(s', j) && s'.t.jobs[j].attempts == s.t.jobs[j].attempts
  {
    var change := ChangeOf(s, a, f, j);
    StuckChangesNothing(s, Apply(s, a), f, j, change);
    DeadHandlersStayDead(s, a, LastHandler(s, j));
    StuckFrame(s, Apply(s, a), f, j);
  }

  lemma StuckFrame(s: State, s': State, f: FileId, j: JobId)
    requires f in s.t.files && j in s.t.jobs && Stuck(s, j) && SameJob(s, s', j)
    requires var h := LastHandler(s, j); h in s'.handlers && s'.handlers[h] == s.handlers[h]
    ensures Stuck(s', j) && s'.t.jobs[j].attempts == s.t.jobs[j].attempts && s'.t.jobs[j].fileId == s.t.jobs[j].fileId
  {
  }

  lemma StuckChangesNothing(s: State, s': State, f: FileId, j: JobId, change: Change)
    requires f in s.uploads && f in s.t.files && j in s.t.jobs && s.t.jobs[j].fileId == f && Stuck(s, j)
    requires Describes(s, s', f, j, change)
    ensures change.Nothing?
  {
  }

  lemma {:induction false} StuckInRun(s: State, actions: seq<Action>, last: State, f: FileId, j: JobId)
    requires Inv(s) && Runs(s, actions, last) && j in s.t.jobs && s.t.jobs[j].fileId == f && Stuck(s, j)
    ensures j in last.t.jobs && last.t.jobs[j].status == Processing && last.t.jobs[j].attempts == s.t.jobs[j].attempts
    decreases |actions|
  {
    if actions != [] {
      StepKeepsInv(s, actions[0]);
      StuckStaysStuck(s, actions[0], f, j);
      StuckInRun(Apply(s, actions[0]), actions[1..], last, f, j);
    }
  }

  /** A job whose handler died while processing is never reclaimed, in any continuation of the run. */
  lemma StuckJobsAreNeverReclaimed(s: State, actions: seq<Action>, last: State, j: JobId)
    requires Reachable(s) && Runs(s, actions, last) && j in s.t.jobs && Stuck(s, j)
    ensures j in last.t.jobs && last.t.jobs[j].status == Processing && last.t.jobs[j].attempts == s.t.jobs[j].attempts
  {
    ReachableInv(s);
    StuckInRun(s, actions, last, s.t.jobs[j].fileId, j);
  }

  /** With nobody at work, a job is queued, finished, or stuck behind a crash or a finalization that threw. */
  lemma IdleJobsAreSettledOrStuck(s: State, j: JobId)
    requires Reachable(s) && j in s.t.jobs && forall h | h in s.handlers :: !Live(s.handlers[h].phase)
    ensures s.t.jobs[j].status == Processing ==>
              && Stuck(s, j)
              && var phase := s.handlers[LastHandler(s, j)].phase; phase.Crashed? || phase == Ended(false)
  {
    ReachableInv(s);
    assert Cell(s, s.t.jobs[j].fileId) && JobOk(s, j);
  }

  // ----- a live handler can always settle its job

  ghost predicate CanLeaveProcessing(s: State, j: JobId) {
    exists actions, last :: Runs(s, actions, last) && j in last.t.jobs && last.t.jobs[j].status != Processing
  }

  lemma LeavesAfter(s: State, a: Action, j: JobId)
    requires Enabled(s, a) && CanLeaveProcessing(Apply(s, a), j)
    ensures CanLeaveProcessing(s, j)
  {
    var next := Apply(s, a);
    var actions, last :| Runs(next, actions, last) && j in last.t.jobs && last.t.jobs[j].status != Processing;
    assert ([a] + actions)[0] == a && ([a] + actions)[1..] == actions;
    assert Runs(s, [a] + actions, last);
  }

  /** A finalization that meets no fault commits for whoever holds the job. */
  lemma HolderFinalizes(s: State, f: FileId, h: HandlerId)
    requires f in s.t.files && h in s.handlers && s.handlers[h].job.fileId == f && Holds(s, s.handlers[h])
    requires Finishing(s.handlers[h].phase)
    ensures var s', j := FinalStep(s, h, QUIET), s.handlers[h].job.id;
            j in s'.t.jobs && s'.t.jobs[j].status != Processing
  {
  }

  lemma FinalizationLeaves(s: State, f: FileId, h: HandlerId)
    requires f in s.t.files && h in s.handlers && s.handlers[h].job.fileId == f && Holds(s, s.handlers[h])
    requires Finishing(s.handlers[h].phase)
    ensures CanLeaveProcessing(s, s.handlers[h].job.id)
  {
    HolderFinalizes(s, f, h);
    var s' := Apply(s, Continue(h, QUIET));
    assert Runs(s', [], s');
    LeavesAfter(s, Continue(h, QUIET), s.handlers[h].job.id);
  }

  /** After one more step of the pipeline the handler is still at work on the job it holds. */
  lemma HolderGoesOn(s: State, s': State, f: FileId, h: HandlerId)
    requires HoldsAs(s, f, h) && FileOk(s, f) && PhaseOk(s, s.handlers[h])
    requires Live(s.handlers[h].phase) && !Finishing(s.handlers[h].phase) && s' == PipelineStep(s, h, QUIET)
    ensures h in s'.handlers && s'.handlers[h].job == s.handlers[h].job && Live(s'.handlers[h].phase)
    ensures Holds(s', s'.handlers[h]) && PhaseWeight(s'.handlers[h].phase) < PhaseWeight(s.handlers[h].phase)
  {
    PipelineIsArtifacts(s, s', f, h, QUIET);
    PipelinePhaseFalls(s, s', h, QUIET);
    PipelineStaysLive(s, h);
  }

  lemma PipelineStaysLive(s: State, h: HandlerId)
    requires h in s.handlers && Live(s.handlers[h].phase) && !Finishing(s.handlers[h].phase)
    ensures h in PipelineStep(s, h, QUIET).handlers && Live(PipelineStep(s, h, QUIET).handlers[h].phase)
  {
    match s.handlers[h].phase
    case ReadContext => assert Live(ContextStep(s, h, QUIET).handlers[h].phase);
    case ReadTranscript(_) => assert Live(TranscriptStep(s, h, QUIET).handlers[h].phase);
    case CallLlm(_) => assert Live(LlmStep(s, h, QUIET).handlers[h].phase);
    case PutRaw(_, _) => assert Live(PutRawStep(s, h, QUIET).handlers[h].phase);
    case SaveRaw(_, _) => assert Live(SaveRawStep(s, h, QUIET).handlers[h].phase);
    case PutReport(_, _) => assert Live(PutReportStep(s, h, QUIET).handlers[h].phase);
    case SaveReport(_, _) => assert Live(SaveReportStep(s, h, QUIET).handlers[h].phase);
    case CleanUp(_, _) => assert Live(CleanUpStep(s, h, QUIET).handlers[h].phase);
  }

  lemma {:induction false} HolderCanLeave(s: State, f: FileId, h: HandlerId)
    requires Inv(s) && h in s.handlers && s.handlers[h].job.fileId == f && f in s.uploads
    requires Live(s.handlers[h].phase) && Holds(s, s.handlers[h])
    ensures CanLeaveProcessing(s, s.handlers[h].job.id)
    decreases PhaseWeight(s.handlers[h].phase)
  {
    assert Cell(s, f) && HandlerOk(s, h);
    HolderIsLast(s, f, h);
    if Finishing(s.handlers[h].phase) {
      FinalizationLeaves(s, f, h);
    } else {
      var s' := Apply(s, Continue(h, QUIET));
      HolderGoesOn(s, s', f, h);
      StepKeepsInv(s, Continue(h, QUIET));
      HolderCanLeave(s', f, h);
      LeavesAfter(s, Continue(h, QUIET), s.handlers[h].job.id);
    }
  }

  lemma HolderOfProcessing(s: State, j: JobId)
    requires Inv(s) && j in s.t.jobs && s.t.jobs[j].status == Processing && !Stuck(s, j)
    ensures j in s.history && s.history[j] != []
    ensures var h := LastHandler(s, j);
            && h in s.handlers && s.handlers[h].job.id == j && s.handlers[h].job.fileId in s.uploads
            && Live(s.handlers[h].phase) && Holds(s, s.handlers[h])
  {
    assert Cell(s, s.t.jobs[j].fileId) && JobOk(s, j);
  }

  /**
   A processing job stays processing in every continuation of the run exactly when the handler
   of its latest claim is gone: no other worker ever takes it over, and nothing else is needed.
   */
  lemma ProcessingForEverIffStuck(s: State, j: JobId)
    requires Reachable(s) && j in s.t.jobs && s.t.jobs[j].status == Processing
    ensures Stuck(s, j) <==> !CanLeaveProcessing(s, j)
  {
    ReachableInv(s);
    if Stuck(s, j) {
      forall actions, last | Runs(s, actions, last) ensures j in last.t.jobs && last.t.jobs[j].status == Processing {
        StuckJobsAreNeverReclaimed(s, actions, last, j);
      }
    } else {
      HolderOfProcessing(s, j);
      HolderCanLeave(s, s.t.jobs[j].fileId, LastHandler(s, j));
    }
  }

  lemma HolderFacts(s: State, h: HandlerId)
    requires Reachable(s) && h in s.handlers && Holds(s, s.handlers[h])
    ensures HoldsAs(s, s.handlers[h].job.fileId, h)
  {
    ReachableInv(s);
    assert Cell(s, s.handlers[h].job.fileId) && HandlerOk(s, h);
    HolderIsLast(s, s.handlers[h].job.fileId, h);
  }

  /** Whenever the holder crashes, or the finalization in its catch block throws without an effect, its job is stuck. */
  lemma LosingTheHolderSticks(s: State, h: HandlerId, i: Input)
    requires Reachable(s) && h in s.handlers && Live(s.handlers[h].phase) && Holds(s, s.handlers[h])
    ensures Stuck(To(s, h, Crashed(s.handlers[h].phase)), s.handlers[h].job.id)
    ensures s.handlers[h].phase.Recover? && i.fault.Refused? ==>
              s.handlers[h].job.id in FinalStep(s, h, i).t.jobs && Stuck(FinalStep(s, h, i), s.handlers[h].job.id)
  {
    HolderFacts(s, h);
    DeadHolderSticks(s, h, Crashed(s.handlers[h].phase));
    if s.handlers[h].phase.Recover? && i.fault.Refused? {
      RefusedFinalizationEnds(s, h, i);
      DeadHolderSticks(s, h, Ended(false));
    }
  }

  lemma DeadHolderSticks(s: State, h: HandlerId, phase: Phase)
    requires h in s.handlers && HoldsAs(s, s.handlers[h].job.fileId, h) && !Live(phase) && phase != Ended(true)
    ensures s.handlers[h].job.id in To(s, h, phase).t.jobs && Stuck(To(s, h, phase), s.handlers[h].job.id)
  {
  }

  lemma RefusedFinalizationEnds(s: State, h: HandlerId, i: Input)
    requires h in s.handlers && s.handlers[h].phase.Recover? && i.fault.Refused?
    ensures FinalStep(s, h, i) == To(s, h, Ended(false))
  {
  }

  /** Such a state is reached by one upload, one claim and one crash. */
  lemma CrashLeavesStuckJob() returns (s: State)
    ensures Reachable(s) && 0 in s.t.jobs && Stuck(s, 0)
  {
    var before := ClaimedEarly((payload, version) => ReportValid);
    s := To(before, 0, Crashed(ReadContext));
    StepIsReachable(before, Crash(0), s);
  }

  // ----- where runs end

  lemma QueuedIsClaimable(s: State, j: JobId, h: HandlerId, workerId: string)
    requires j in s.t.jobs && s.t.jobs[j].status == Queued && s.t.jobs[j].lockedAt.None? && h !in s.handlers
    ensures Enabled(s, Claim(h, j, s.t.jobs.Keys - {j}, workerId, s.t.jobs[j].nextRunAt, Fine))
  {
  }

  lemma QueuedIsUnlocked(s: State, j: JobId)
    requires Reachable(s) && j in s.t.jobs && s.t.jobs[j].status == Queued
    ensures s.t.jobs[j].lockedAt.None?
  {
    ReachableInv(s);
    assert Cell(s, s.t.jobs[j].fileId) && JobOk(s, j);
  }

  lemma EndedHandlersLeaveNothing(s: State, j: JobId)
    requires Reachable(s) && j in s.t.jobs
    requires forall other | other in s.handlers :: s.handlers[other].phase == Ended(true)
    ensures s.t.jobs[j].status != Processing
  {
    ReachableInv(s);
    assert Cell(s, s.t.jobs[j].fileId) && JobOk(s, j);
  }

  /**
   When every handler has ended, without a crash and without a finalization that threw, every
   job has succeeded, has failed, or waits for a claim, which is enabled as soon as it is due.
   */
  lemma EndedJobsAreDoneOrClaimable(s: State, j: JobId, h: HandlerId, workerId: string)
    requires Reachable(s) && j in s.t.jobs && h !in s.handlers
    requires forall other | other in s.handlers :: s.handlers[other].phase == Ended(true)
    ensures || s.t.jobs[j].status == Succeeded || s.t.jobs[j].status == Failed
            || Enabled(s, Claim(h, j, s.t.jobs.Keys - {j}, workerId, s.t.jobs[j].nextRunAt, Fine))
  {
    EndedHandlersLeaveNothing(s, j);
    if s.t.jobs[j].status == Queued {
      QueuedIsUnlocked(s, j);
      QueuedIsClaimable(s, j, h, workerId);
    }
  }
}
