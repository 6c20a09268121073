/** What the job queue guarantees in every run of any number of uploads, workers and faults. */
module JobTheorems {
  import opened JsonValues
  import opened StorageKeys
  import opened JobTables
  import opened RetryBackoff
  import opened JobProtocol
  import opened JobInvariant
  import opened JobSettlement
  import opened UploadSteps

  // ----- one owner at a time

  lemma CellFacts(s: State, f: FileId)
    requires Reachable(s)
    ensures f in s.t.files || f in s.t.jobOfFile ==> f in s.uploads
    ensures f in s.uploads ==> Cell(s, f)
  {
    ReachableInv(s);
  }

  lemma HandlerFacts(s: State, h: HandlerId)
    requires Reachable(s) && h in s.handlers
    ensures s.handlers[h].job.fileId in s.uploads && HandlerOk(s, h)
  {
    ReachableInv(s);
    assert Cell(s, s.handlers[h].job.fileId);
  }

  lemma JobFacts(s: State, j: JobId)
    requires Reachable(s) && j in s.t.jobs
    ensures s.t.jobs[j].fileId in s.uploads && Cell(s, s.t.jobs[j].fileId) && JobOk(s, j)
    ensures s.t.jobs[j].fileId in s.t.files && s.t.jobOfFile[s.t.jobs[j].fileId] == j
  {
    ReachableInv(s);
    assert Cell(s, s.t.jobs[j].fileId);
  }

  /**
   Attempts stay within the limit, the lock columns are set exactly while the job is
   processing, and so the stale-lock test of the claim query never decides anything:
   a job can be claimed exactly when it is queued and due.
   */
  lemma LockIsHeldExactlyWhileProcessing(s: State, j: JobId, now: Millis)
    requires Reachable(s) && j in s.t.jobs
    ensures var job := s.t.jobs[j];
            && 0 <= job.attempts <= job.maxAttempts && (job.status == Queued ==> job.attempts < job.maxAttempts)
            && (job.status == Processing <==> job.lockedAt.Some?) && (job.status == Processing <==> job.lockedBy.Some?)
            && (Ready(job, now) <==> job.status == Queued && job.nextRunAt <= now)
  {
    JobFacts(s, j);
  }

  /** The increment in the claim never violates `attempts <= max_attempts`, so an enabled claim commits. */
  lemma ClaimNeverViolatesTheCheck(s: State, j: JobId, skip: set<JobId>, workerId: string, now: Millis)
    requires Reachable(s) && IsCandidate(s.t, skip, now, j)
    ensures ClaimTx(s.t, j, workerId, now).Committed? && ClaimReturns(s.t, j).Some?
    ensures s.t.jobs[j].status != Processing
  {
    JobFacts(s, j);
  }

  /** A job that a claim can leave behind: queued, due, and locked by no other transaction. */
  predicate Waits(s: State, skip: set<JobId>, now: Millis, j: JobId) {
    j in s.t.jobs && j !in skip && s.t.jobs[j].status == Queued && s.t.jobs[j].nextRunAt <= now
  }

  /**
   Claims go by the time a job is due, and by its number among jobs due at the same time: what is
   claimed waited, nothing that waited comes before it, and what still waits afterwards is no
   older. A claim is possible whenever a job waits.
   */
  lemma ClaimsTakeTheOldest(s: State, a: Action)
    requires Reachable(s) && Enabled(s, a) && a.Claim?
    ensures Waits(s, a.skip, a.now, a.jobId)
    ensures var s', due := Apply(s, a), s.t.jobs[a.jobId].nextRunAt;
            && (forall j | Waits(s, a.skip, a.now, j) ::
                 due < s.t.jobs[j].nextRunAt || (due == s.t.jobs[j].nextRunAt && a.jobId <= j))
            && !Waits(s', a.skip, a.now, a.jobId)
            && (forall j | Waits(s', a.skip, a.now, j) ::
                 due < s'.t.jobs[j].nextRunAt || (due == s'.t.jobs[j].nextRunAt && a.jobId <= j))
  {
    forall j | Waits(s, a.skip, a.now, j) ensures Claimable(s.t, a.skip, a.now, j) {
      LockIsHeldExactlyWhileProcessing(s, j, a.now);
    }
    ClaimTouchesOneJob(s, a);
  }

  lemma ClaimTouchesOneJob(s: State, a: Action)
    requires Reachable(s) && Enabled(s, a) && a.Claim?
    ensures var s' := Apply(s, a);
            && a.jobId in s'.t.jobs && s'.t.jobs[a.jobId].status == Processing
            && s'.t.jobs == s.t.jobs[a.jobId := s'.t.jobs[a.jobId]]
  {
    JobFacts(s, a.jobId);
    ClaimStepIs(s, s.t.jobs[a.jobId].fileId, a.jobId, a.handlerId, a.workerId, a.now, a.fault);
  }

  lemma {:induction false} OldestOf(s: State, skip: set<JobId>, now: Millis, among: set<JobId>) returns (j: JobId)
    requires among != {} && forall k | k in among :: k in s.t.jobs
    ensures j in among
    ensures forall k | k in among :: RunsBefore(s.t, j, k)
  {
    j :| j in among;
    if among != {j} {
      var k := OldestOf(s, skip, now, among - {j});
      assert among == (among - {j}) + {j};
      if RunsBefore(s.t, k, j) {
        j := k;
      }
    }
  }

  /** Whenever a job waits, some claim is possible. */
  lemma WaitingJobsCanBeClaimed(
    s: State, skip: set<JobId>, now: Millis, waiting: JobId, h: HandlerId, workerId: string) returns (j: JobId)
    requires Reachable(s) && Waits(s, skip, now, waiting) && h !in s.handlers
    ensures Enabled(s, Claim(h, j, skip, workerId, now, Fine))
  {
    forall k | Waits(s, skip, now, k) ensures Claimable(s.t, skip, now, k) {
      LockIsHeldExactlyWhileProcessing(s, k, now);
    }
    var ready := set k | k in s.t.jobs && Claimable(s.t, skip, now, k);
    assert waiting in ready;
    j := OldestOf(s, skip, now, ready);
  }

  /**
   A job's history is claim 1, its finalization, claim 2, its finalization, and so on: every
   attempt number is handed out once and in order, each claim is followed by at most one
   committed finalization, by the same handler and with the same number, and nothing follows
   a success or a failure.
   */
  lemma ClaimsAndFinalizationsAlternate(s: State, j: JobId)
    requires Reachable(s) && j in s.t.jobs
    ensures j in s.history
    ensures var events, job := s.history[j], s.t.jobs[j];
            && |events| == 2 * job.attempts - (if job.status == Processing then 1 else 0) <= 2 * job.maxAttempts
            && (forall i | 0 <= i < |events| && i % 2 == 0 :: events[i] == Claimed(events[i].handler, i / 2 + 1))
            && (forall i | 0 <= i < |events| && i % 2 == 1 ::
                  && events[i].Finalized? && events[i].handler == events[i - 1].handler
                  && events[i].attempts == i / 2 + 1
                  && (events[i].verdict.Requeue? <==> i < |events| - 1 || job.status == Queued))
  {
    JobFacts(s, j);
    var events, job := s.history[j], s.t.jobs[j];
    assert HistoryOk(events, job);
  }

  /** At no time are two calls of `processClaimedJob` at work on one job. */
  lemma OneLiveHandlerPerJob(s: State, h: HandlerId, other: HandlerId)
    requires Reachable(s) && h in s.handlers && other in s.handlers
    requires s.handlers[h].job.id == s.handlers[other].job.id
    requires Live(s.handlers[h].phase) && Live(s.handlers[other].phase)
    ensures h == other
  {
    HandlerFacts(s, h);
    HandlerFacts(s, other);
  }

  /** The attempts a committed finalization writes to the file are the ones in the job row at that moment. */
  lemma FinalizationWritesRowAttempts(s: State, h: HandlerId, i: Input)
    requires Reachable(s) && h in s.handlers && Finishing(s.handlers[h].phase)
    requires var j := s.handlers[h].job.id; j in s.history && FinalStep(s, h, i).history != s.history
    ensures var s', j, f := FinalStep(s, h, i), s.handlers[h].job.id, s.handlers[h].job.fileId;
            && j in s.t.jobs && s.t.jobs[j].status == Processing && s.handlers[h].job.attempts == s.t.jobs[j].attempts
            && f in s'.t.files && s'.t.files[f].processingAttempts == s'.t.jobs[j].attempts == s.t.jobs[j].attempts
  {
    var f := s.handlers[h].job.fileId;
    HandlerFacts(s, h);
    CellFacts(s, f);
    var s' := FinalStep(s, h, i);
    var settled, verdict, phase := FinalStepIs(s, s', f, h, i);
  }

  /**
   What the catch block commits: with a retriable error and attempts left the job can be claimed
   again after the backoff of its next attempt, give or take a fifth, and not before; otherwise it has failed.
   */
  lemma RecoveryWaitsOrFails(s: State, h: HandlerId, i: Input)
    requires Reachable(s) && h in s.handlers && s.handlers[h].phase.Recover? && FinalStep(s, h, i).history != s.history
    ensures var hd, s' := s.handlers[h], FinalStep(s, h, i);
            && hd.job.id in s'.t.jobs
            && var job := s'.t.jobs[hd.job.id];
               if hd.phase.error.retriable && hd.job.attempts < hd.job.maxAttempts then
                 && job.status == Queued && (forall t :: Ready(job, t) <==> job.nextRunAt <= t)
                 && 4 * BaseDelayMs(hd.job.attempts + 1) <= 5 * (job.nextRunAt - i.now)
                 && 5 * (job.nextRunAt - i.now) <= 6 * BaseDelayMs(hd.job.attempts + 1)
               else
                 job.status == Failed && job.lastError.Some? && (forall t :: !Ready(job, t))
  {
    var hd := s.handlers[h];
    HandlerFacts(s, h);
    DelayWithinJitter(hd.job.attempts, i.random);
  }

  // ----- the report

  /** A file that reads `succeeded` has an accepted report stored under the key in its row. */
  lemma SucceededFileHasAcceptedReport(s: State, f: FileId)
    requires Reachable(s) && f in s.t.files && s.t.files[f].status == FileSucceeded
    ensures ReportInPlace(s, f)
    ensures f in s.t.jobOfFile && s.t.jobOfFile[f] in s.t.jobs && s.t.jobs[s.t.jobOfFile[f]].status == Succeeded
  {
    CellFacts(s, f);
    assert JobOk(s, s.t.jobOfFile[f]);
  }

  datatype ReportReply = NotFound | ReportNotReady | ReportFetchFailed | ReportFetched(report: Json)

  /** FileReportService.getForUser; `fault` is the outcome of the read from the object store. */
  function GetReportForUser(s: State, f: FileId, userId: string, fault: Fault): ReportReply {
    if !OwnsFile(s.t, f, userId) then NotFound
    else if s.t.files[f].status != FileSucceeded || s.t.files[f].reportKey.None? then ReportNotReady
    else
      var key := s.t.files[f].reportKey.value;
      if !fault.Fine? || key !in s.store || !s.store[key].Report? then ReportFetchFailed
      else ReportFetched(s.store[key].payload)
  }

  /** Owners get a report exactly when the file succeeded and the store answers, and then an accepted one. */
  lemma FetchedReportsAreAccepted(s: State, f: FileId, userId: string, fault: Fault)
    requires Reachable(s)
    ensures GetReportForUser(s, f, userId, fault).ReportFetched? <==>
            OwnsFile(s.t, f, userId) && s.t.files[f].status == FileSucceeded && fault.Fine?
    ensures GetReportForUser(s, f, userId, fault).ReportFetched? ==>
              && s.t.files[f].versions.Some?
              && Accepted(s, GetReportForUser(s, f, userId, fault).report, s.t.files[f].versions.value)
              && ReportKey(userId, f) in s.store
              && s.store[ReportKey(userId, f)] == Report(GetReportForUser(s, f, userId, fault).report)
    ensures GetReportForUser(s, f, userId, fault).NotFound? <==> f !in s.t.files || s.t.files[f].userId != userId
    ensures GetReportForUser(s, f, userId, fault).ReportNotReady? <==>
            f in s.t.files && s.t.files[f].userId == userId && s.t.files[f].status != FileSucceeded
  {
    if OwnsFile(s.t, f, userId) && s.t.files[f].status == FileSucceeded {
      SucceededFileHasAcceptedReport(s, f);
    }
  }
}
