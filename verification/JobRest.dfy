/** Where runs come to rest: every maximal run settles each job that is not stuck. */
module JobRest {
  import opened JobTables
  import opened JobProtocol
  import opened JobInvariant
  import opened JobSteps
  import opened JobSettlement
  import opened UploadSteps
  import opened JobTermination
  import opened JobWitnesses
  import opened JobReclaim

  // ----- states in which nothing is left to do

  /** Nothing can happen but heartbeats and new uploads. */
  ghost predicate Resting(s: State) {
    forall a | Costs(a) :: !Enabled(s, a)
  }

  /** No upload and no handler is at work, and no job is queued. */
  ghost predicate NobodyAtWork(s: State) {
    && (forall f | f in s.uploads :: !LiveUpload(s.uploads[f].phase))
    && (forall h | h in s.handlers :: !Live(s.handlers[h].phase))
    && (forall j | j in s.t.jobs :: s.t.jobs[j].status != Queued)
  }

  /** Above a finite set of ids of jobs or handlers. */
  lemma {:induction false} FreshId(used: set<nat>) returns (h: nat)
    ensures forall u | u in used :: u < h
  {
    if used == {} {
      h := 0;
    } else {
      var u :| u in used;
      var above := FreshId(used - {u});
      h := if u < above then above else u + 1;
      assert used == (used - {u}) + {u};
    }
  }

  /** Nothing fails in the step, and nobody crashes. */
  predicate Calm(a: Action) {
    match a
    case ContinueUpload(_, i) => i.fault.Fine?
    case Claim(_, _, _, _, _, fault) => fault.Fine?
    case Continue(_, i) => i == QUIET
    case _ => false
  }

  /** Where somebody is at work or a job is queued, a step is possible. */
  lemma SomeStepIsEnabled(s: State) returns (a: Action)
    requires Reachable(s) && !NobodyAtWork(s)
    ensures Costs(a) && Enabled(s, a) && Calm(a)
  {
    if f :| f in s.uploads && LiveUpload(s.uploads[f].phase) {
      var j := FreshId(s.t.jobs.Keys);
      a := ContinueUpload(f, QUIET.(newJob := j));
    } else if h :| h in s.handlers && Live(s.handlers[h].phase) {
      a := Continue(h, QUIET);
    } else {
      var j :| j in s.t.jobs && s.t.jobs[j].status == Queued;
      var h := FreshId(s.handlers.Keys);
      QueuedIsUnlocked(s, j);
      QueuedIsClaimable(s, j, h, "");
      a := Claim(h, j, s.t.jobs.Keys - {j}, "", s.t.jobs[j].nextRunAt, Fine);
    }
  }

  lemma RestingIffNobodyAtWork(s: State)
    requires Reachable(s)
    ensures Resting(s) <==> NobodyAtWork(s)
  {
    if !NobodyAtWork(s) {
      var a := SomeStepIsEnabled(s);
    }
  }

  /**
   In a state in which no step but heartbeats and new uploads is possible, every job has
   succeeded, has failed, or is stuck behind a crash or a finalization that threw; without
   these it has succeeded or failed.
   */
  lemma RestingJobsAreSettledOrStuck(s: State, j: JobId)
    requires Reachable(s) && Resting(s) && j in s.t.jobs
    ensures s.t.jobs[j].status == Succeeded || s.t.jobs[j].status == Failed || Stuck(s, j)
    ensures (forall h | h in s.handlers :: s.handlers[h].phase == Ended(true)) ==> s.t.jobs[j].status != Processing
  {
    RestingIffNobodyAtWork(s);
    IdleJobsAreSettledOrStuck(s, j);
    if forall h | h in s.handlers :: s.handlers[h].phase == Ended(true) {
      EndedHandlersLeaveNothing(s, j);
    }
  }

  // ----- a calm continuation settles every job that is not stuck already

  lemma SameHolderSticksNothing(s: State, s': State, j: JobId)
    requires j in s.t.jobs && j in s'.t.jobs && s'.t.jobs[j] == s.t.jobs[j] && !Stuck(s, j)
    requires j in s.history && j in s'.history && s'.history[j] == s.history[j]
    requires forall h | h in s'.handlers && s'.handlers[h].job.fileId == s.t.jobs[j].fileId ::
               h in s.handlers && s.handlers[h] == s'.handlers[h]
    ensures !Stuck(s', j)
  {
  }

  lemma ElsewhereSticksNothing(s: State, s': State, g: FileId, j: JobId)
    requires SameElsewhere(s, s', g) && j in s.t.jobs && s.t.jobs[j].fileId != g && j in s.history && !Stuck(s, j)
    ensures j in s'.t.jobs && !Stuck(s', j)
  {
    SameHolderSticksNothing(s, s', j);
  }

  lemma ClaimSticksNothing(s: State, s': State, f: FileId, j: JobId, h: HandlerId, workerId: string, now: Millis)
    requires f in s.uploads && FileOk(s, f) && IndexOk(s, f) && j in s.t.jobs && s.t.jobs[j].fileId == f
    requires s.t.jobs[j].status == Queued && s' == ClaimStep(s, h, j, workerId, now, Fine)
    ensures j in s'.t.jobs && !Stuck(s', j)
  {
    ClaimStepIs(s, f, j, h, workerId, now, Fine);
  }

  lemma HolderSticksNothing(s: State, s': State, f: FileId, j: JobId, h: HandlerId)
    requires HoldsAs(s, f, h) && FileOk(s, f) && PhaseOk(s, s.handlers[h])
    requires Live(s.handlers[h].phase) && s.handlers[h].job.id == j
    requires s' == if Finishing(s.handlers[h].phase) then FinalStep(s, h, QUIET) else PipelineStep(s, h, QUIET)
    ensures j in s'.t.jobs && !Stuck(s', j)
  {
    if Finishing(s.handlers[h].phase) {
      HolderEndsUnstuck(s, s', f, h);
    } else {
      HolderGoesOnUnstuck(s, s', f, h);
    }
  }

  lemma HolderEndsUnstuck(s: State, s': State, f: FileId, h: HandlerId)
    requires f in s.t.files && h in s.handlers && s.handlers[h].job.fileId == f && Holds(s, s.handlers[h])
    requires Finishing(s.handlers[h].phase) && s' == FinalStep(s, h, QUIET)
    ensures s.handlers[h].job.id in s'.t.jobs && !Stuck(s', s.handlers[h].job.id)
  {
    HolderFinalizes(s, f, h);
  }

  lemma HolderGoesOnUnstuck(s: State, s': State, f: FileId, h: HandlerId)
    requires HoldsAs(s, f, h) && FileOk(s, f) && PhaseOk(s, s.handlers[h])
    requires Live(s.handlers[h].phase) && !Finishing(s.handlers[h].phase) && s' == PipelineStep(s, h, QUIET)
    ensures s.handlers[h].job.id in s'.t.jobs && !Stuck(s', s.handlers[h].job.id)
  {
    PipelineIsArtifacts(s, s', f, h, QUIET);
    PipelineStaysLive(s, h);
    LiveHolderIsNotStuck(s, s', f, h);
  }

  lemma LiveHolderIsNotStuck(s: State, s': State, f: FileId, h: HandlerId)
    requires HoldsAs(s, f, h) && ArtifactsOnly(s, s', f, h) && Live(s'.handlers[h].phase)
    ensures s.handlers[h].job.id in s'.t.jobs && !Stuck(s', s.handlers[h].job.id)
  {
  }

  lemma UploadSticksNothing(s: State, s': State, f: FileId, j: JobId, i: Input)
    requires f in s.uploads && FileOk(s, f) && LiveUpload(s.uploads[f].phase) && i.newJob !in s.t.jobs
    requires j in s.t.jobs && j in s.history && !Stuck(s, j) && s' == UploadStep(s, f, i)
    ensures j in s'.t.jobs && !Stuck(s', j)
  {
    UploadStepIs(s, s', f, i);
    SameHolderSticksNothing(s, s', j);
  }

  lemma CalmStepSticksNothing(s: State, a: Action, j: JobId)
    requires Inv(s) && Enabled(s, a) && Calm(a) && j in s.t.jobs && !Stuck(s, j)
    ensures j in Apply(s, a).t.jobs && !Stuck(Apply(s, a), j)
  {
    var s', f := Apply(s, a), s.t.jobs[j].fileId;
    assert Cell(s, f) && JobOk(s, j);
    if FileOf(s, a) != f {
      StepIsAboutFile(s, s', a);
      ElsewhereSticksNothing(s, s', FileOf(s, a), j);
    } else {
      OwnCalmStepSticksNothing(s, s', a, f, j);
    }
  }

  lemma OwnCalmStepSticksNothing(s: State, s': State, a: Action, f: FileId, j: JobId)
    requires f in s.uploads && Cell(s, f) && Enabled(s, a) && Calm(a) && FileOf(s, a) == f && s' == Apply(s, a)
    requires j in s.t.jobs && s.t.jobs[j].fileId == f && JobOk(s, j) && !Stuck(s, j)
    ensures j in s'.t.jobs && !Stuck(s', j)
  {
    match a
    case ContinueUpload(_, i) => UploadSticksNothing(s, s', f, j, i);
    case Claim(h, claimed, _, workerId, now, _) =>
      assert claimed == j;
      ClaimSticksNothing(s, s', f, j, h, workerId, now);
    case Continue(h, _) => HandlerSticksNothing(s, s', f, j, h);
  }

  lemma HandlerSticksNothing(s: State, s': State, f: FileId, j: JobId, h: HandlerId)
    requires f in s.uploads && Cell(s, f) && h in s.handlers && s.handlers[h].job.fileId == f
    requires j in s.t.jobs && s.t.jobs[j].fileId == f && Live(s.handlers[h].phase)
    requires s' == if Finishing(s.handlers[h].phase) then FinalStep(s, h, QUIET) else PipelineStep(s, h, QUIET)
    ensures j in s'.t.jobs && !Stuck(s', j)
  {
    assert HandlerOk(s, h) && s.handlers[h].job.id == j;
    if Holds(s, s.handlers[h]) {
      HolderIsLast(s, f, h);
      HolderSticksNothing(s, s', f, j, h);
    } else {
      StraySticksNothing(s, s', f, j, h);
    }
  }

  /** A call that has outlived its job finds it succeeded. */
  lemma StraySticksNothing(s: State, s': State, f: FileId, j: JobId, h: HandlerId)
    requires f in s.uploads && FileOk(s, f) && IndexOk(s, f) && h in s.handlers && s.handlers[h].job.fileId == f
    requires HandlerOk(s, h) && s.handlers[h].job.id == j && !Holds(s, s.handlers[h])
    requires Finishing(s.handlers[h].phase) && s' == FinalStep(s, h, QUIET)
    ensures j in s'.t.jobs && !Stuck(s', j)
  {
    var settled, verdict, phase := FinalStepIs(s, s', f, h, QUIET);
  }

  /** Without another fault or crash, everything comes to rest, and only what is stuck already stays unsettled. */
  lemma EveryJobCanSettle(s: State) returns (actions: seq<Action>, last: State)
    requires Reachable(s)
    ensures Runs(s, actions, last) && Resting(last) && forall a | a in actions :: Calm(a)
    ensures forall j | j in s.t.jobs && !Stuck(s, j) ::
              j in last.t.jobs && (last.t.jobs[j].status == Succeeded || last.t.jobs[j].status == Failed)
  {
    actions, last := RestIsReached(s);
    forall j | j in s.t.jobs && !Stuck(s, j)
      ensures j in last.t.jobs && (last.t.jobs[j].status == Succeeded || last.t.jobs[j].status == Failed)
    {
      RestingJobsAreSettledOrStuck(last, j);
    }
  }

  lemma CalmStep(s: State) returns (a: Action, next: State)
    requires Reachable(s) && !NobodyAtWork(s)
    ensures Enabled(s, a) && Calm(a) && next == Apply(s, a) && Reachable(next) && Rank(next) < Rank(s)
    ensures forall j | j in s.t.jobs && !Stuck(s, j) :: j in next.t.jobs && !Stuck(next, j)
  {
    a := SomeStepIsEnabled(s);
    next := Apply(s, a);
    ReachableInv(s);
    StepLowersRank(s, a);
    StepIsReachable(s, a, next);
    forall j | j in s.t.jobs && !Stuck(s, j) ensures j in next.t.jobs && !Stuck(next, j) {
      CalmStepSticksNothing(s, a, j);
    }
  }

  lemma {:induction false} RestIsReached(s: State) returns (actions: seq<Action>, last: State)
    requires Reachable(s)
    ensures Runs(s, actions, last) && Reachable(last) && Resting(last) && forall a | a in actions :: Calm(a)
    ensures forall j | j in s.t.jobs && !Stuck(s, j) :: j in last.t.jobs && !Stuck(last, j)
    decreases Rank(s)
  {
    RestingIffNobodyAtWork(s);
    if Resting(s) {
      actions, last := [], s;
    } else {
      var a, next := CalmStep(s);
      var rest;
      rest, last := RestIsReached(next);
      actions := [a] + rest;
      assert actions[1..] == rest;
    }
  }

  lemma {:induction false} RunsJoin(s: State, actions: seq<Action>, middle: State, more: seq<Action>, last: State)
    requires Runs(s, actions, middle) && Runs(middle, more, last)
    ensures Runs(s, actions + more, last)
    decreases |actions|
  {
    if actions == [] {
      assert actions + more == more;
    } else {
      assert (actions + more)[0] == actions[0] && (actions + more)[1..] == actions[1..] + more;
      RunsJoin(Apply(s, actions[0]), actions[1..], middle, more, last);
    }
  }

  /**
   Whatever has happened, every schedule that goes on taking steps comes to rest: at most
   `Rank(s)` more of them are possible without a new upload, and when none is, every job has
   succeeded, has failed or is stuck.
   */
  lemma EveryRunSettles(s: State, actions: seq<Action>, last: State)
    requires Reachable(s) && Runs(s, actions, last) && Count(actions, Begins) == 0
    ensures Count(actions, Costs) <= Rank(s)
    ensures Count(actions, Costs) == Rank(s) ==> Resting(last)
    ensures Resting(last) ==> forall j | j in last.t.jobs ::
              last.t.jobs[j].status == Succeeded || last.t.jobs[j].status == Failed || Stuck(last, j)
  {
    ReachableInv(s);
    RunIsPaidFor(s, actions, last);
    RunIsReachable(s, actions, last);
    if Count(actions, Costs) == Rank(s) {
      NoRankNoStep(last);
    }
    if Resting(last) {
      forall j | j in last.t.jobs
        ensures last.t.jobs[j].status == Succeeded || last.t.jobs[j].status == Failed || Stuck(last, j)
      {
        RestingJobsAreSettledOrStuck(last, j);
      }
    }
  }

  lemma RunIsReachable(s: State, actions: seq<Action>, last: State)
    requires Reachable(s) && Runs(s, actions, last)
    ensures Reachable(last)
  {
    var first, before :| Initial(first) && Runs(first, before, s);
    RunsJoin(first, before, s, actions, last);
  }

  lemma NoRankNoStep(s: State)
    requires Reachable(s) && Rank(s) == 0
    ensures Resting(s)
  {
    ReachableInv(s);
    forall a | Costs(a) ensures !Enabled(s, a) {
      if Enabled(s, a) {
        StepLowersRank(s, a);
      }
    }
  }
}
