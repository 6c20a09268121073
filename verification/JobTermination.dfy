/**
 Termination: apart from heartbeats and new uploads, every step lowers a rank. A run
 therefore has at most 57 such steps for each upload, whatever fails along the way.
 */
module JobTermination {
  import opened JobTables
  import opened JobProtocol
  import opened JobInvariant
  import opened JobSteps
  import opened JobSettlement
  import opened UploadSteps

  // ----- sums over maps

  ghost function Sum<K, V>(m: map<K, V>, weight: V -> nat): nat
    decreases |m|
  {
    if m == map[] then 0
    else
      var k :| k in m;
      assert |m - {k}| < |m| by { MapShrinks(m, k); }
      weight(m[k]) + Sum(m - {k}, weight)
  }

  lemma MapShrinks<K, V>(m: map<K, V>, k: K)
    requires k in m
    ensures |m - {k}| < |m|
  {
    assert (m - {k}).Keys == m.Keys - {k};
    assert |m.Keys - {k}| < |m.Keys|;
  }

  lemma {:induction false} SumSplit<K, V>(m: map<K, V>, weight: V -> nat, k: K)
    requires k in m
    ensures Sum(m, weight) == weight(m[k]) + Sum(m - {k}, weight)
    decreases |m|
  {
    var first :| first in m && Sum(m, weight) == weight(m[first]) + Sum(m - {first}, weight);
    if first != k {
      MapShrinks(m, first);
      SumSplit(m - {first}, weight, k);
      MapShrinks(m, k);
      SumSplit(m - {k}, weight, first);
      assert m - {first} - {k} == m - {k} - {first};
    }
  }

  lemma SumUpdate<K, V>(m: map<K, V>, weight: V -> nat, k: K, v: V)
    ensures Sum(m[k := v], weight) == Sum(m, weight) - (if k in m then weight(m[k]) else 0) + weight(v)
  {
    SumSplit(m[k := v], weight, k);
    if k in m {
      SumSplit(m, weight, k);
      assert m[k := v] - {k} == m - {k};
    } else {
      assert m[k := v] - {k} == m;
    }
  }

  // ----- the rank

  const CLAIM_WEIGHT := 12
  const BEGIN_WEIGHT := 57

  function PhaseWeight(phase: Phase): nat {
    match phase
    case ReadContext => 11
    case ReadTranscript(_) => 10
    case CallLlm(_) => 9
    case PutRaw(_, _) => 8
    case SaveRaw(_, _) => 7
    case PutReport(_, _) => 8
    case SaveReport(_, _) => 7
    case CleanUp(_, _) => 6
    case Finish => 2
    case Recover(_) => 1
    case Ended(_) => 0
    case Crashed(_) => 0
  }

  function HandlerWeight(hd: Handler): nat {
    PhaseWeight(hd.phase)
  }

  function UploadPhaseWeight(phase: UploadPhase): nat {
    match phase
    case PutOriginal => BEGIN_WEIGHT
    case Enqueue => BEGIN_WEIGHT - 1
    case MarkQueued => 3
    case DeleteOriginal(_) => 2
    case MarkUploadFailed(_, _, _) => 1
    case Uploaded => 0
    case UploadFailed => 0
    case UploadCrashed(_) => 0
  }

  function UploadWeight(u: Upload): nat {
    UploadPhaseWeight(u.phase)
  }

  /** What the attempts that are left can still cost. */
  function JobWeight(job: JobRow): nat {
    if job.attempts <= job.maxAttempts then CLAIM_WEIGHT * (job.maxAttempts - job.attempts) else 0
  }

  ghost function Rank(s: State): nat {
    Sum(s.t.jobs, JobWeight) + Sum(s.handlers, HandlerWeight) + Sum(s.uploads, UploadWeight)
  }

  predicate Begins(a: Action) {
    a.BeginUpload?
  }

  predicate Costs(a: Action) {
    !a.BeginUpload? && !a.Heartbeat?
  }

  // ----- every step

  lemma UploadPhaseFalls(s: State, f: FileId, i: Input)
    requires f in s.uploads && LiveUpload(s.uploads[f].phase)
    ensures f in UploadStep(s, f, i).uploads
    ensures UploadWeight(UploadStep(s, f, i).uploads[f]) < UploadWeight(s.uploads[f])
    ensures s.uploads[f].phase == Enqueue ==> UploadWeight(UploadStep(s, f, i).uploads[f]) <= 3
  {
  }

  /** The handler is in both states, and its phase weighs less in the second. */
  predicate PhaseFell(s: State, s': State, h: HandlerId) {
    h in s.handlers && h in s'.handlers && HandlerWeight(s'.handlers[h]) < HandlerWeight(s.handlers[h])
  }

  lemma ContextFalls(s: State, h: HandlerId, i: Input)
    requires h in s.handlers && s.handlers[h].phase.ReadContext?
    ensures PhaseFell(s, ContextStep(s, h, i), h)
  {
  }

  lemma TranscriptFalls(s: State, h: HandlerId, i: Input)
    requires h in s.handlers && s.handlers[h].phase.ReadTranscript?
    ensures PhaseFell(s, TranscriptStep(s, h, i), h)
  {
  }

  lemma LlmFalls(s: State, h: HandlerId, i: Input)
    requires h in s.handlers && s.handlers[h].phase.CallLlm?
    ensures PhaseFell(s, LlmStep(s, h, i), h)
  {
  }

  lemma RawFalls(s: State, h: HandlerId, i: Input)
    requires h in s.handlers
    ensures s.handlers[h].phase.PutRaw? ==> PhaseFell(s, PutRawStep(s, h, i), h)
    ensures s.handlers[h].phase.SaveRaw? ==> PhaseFell(s, SaveRawStep(s, h, i), h)
  {
  }

  lemma ReportFalls(s: State, h: HandlerId, i: Input)
    requires h in s.handlers
    ensures s.handlers[h].phase.PutReport? ==> PhaseFell(s, PutReportStep(s, h, i), h)
    ensures s.handlers[h].phase.SaveReport? ==> PhaseFell(s, SaveReportStep(s, h, i), h)
    ensures s.handlers[h].phase.CleanUp? ==> PhaseFell(s, CleanUpStep(s, h, i), h)
  {
  }

  lemma PipelinePhaseFalls(s: State, s': State, h: HandlerId, i: Input)
    requires h in s.handlers && Live(s.handlers[h].phase) && !Finishing(s.handlers[h].phase)
    requires s' == PipelineStep(s, h, i)
    ensures PhaseFell(s, s', h)
  {
    match s.handlers[h].phase
    case ReadContext => ContextFalls(s, h, i);
    case ReadTranscript(_) => TranscriptFalls(s, h, i);
    case CallLlm(_) => LlmFalls(s, h, i);
    case PutRaw(_, _) => RawFalls(s, h, i);
    case SaveRaw(_, _) => RawFalls(s, h, i);
    case PutReport(_, _) => ReportFalls(s, h, i);
    case SaveReport(_, _) => ReportFalls(s, h, i);
    case CleanUp(_, _) => ReportFalls(s, h, i);
  }

  /** One upload moved on and nothing else that has a weight. */
  lemma UploadMoveLowersRank(s: State, s': State, f: FileId)
    requires f in s.uploads && f in s'.uploads && s'.uploads == s.uploads[f := s'.uploads[f]]
    requires s'.t.jobs == s.t.jobs && s'.handlers == s.handlers
    ensures Rank(s') == Rank(s) - UploadWeight(s.uploads[f]) + UploadWeight(s'.uploads[f])
  {
    SumUpdate(s.uploads, UploadWeight, f, s'.uploads[f]);
  }

  /** One handler moved on, and one job changed without a change of its weight. */
  lemma HandlerMoveLowersRank(s: State, s': State, h: HandlerId, j: JobId)
    requires h in s.handlers && h in s'.handlers && s'.handlers == s.handlers[h := s'.handlers[h]]
    requires j in s.t.jobs && j in s'.t.jobs && s'.t.jobs == s.t.jobs[j := s'.t.jobs[j]]
    requires JobWeight(s'.t.jobs[j]) == JobWeight(s.t.jobs[j])
    requires s'.uploads == s.uploads
    ensures Rank(s') == Rank(s) - HandlerWeight(s.handlers[h]) + HandlerWeight(s'.handlers[h])
  {
    SumUpdate(s.handlers, HandlerWeight, h, s'.handlers[h]);
    SumUpdate(s.t.jobs, JobWeight, j, s'.t.jobs[j]);
  }

  lemma EnqueueLowersRank(s: State, s': State, f: FileId, j: JobId, now: Millis, phase: UploadPhase)
    requires f in s.uploads && s.uploads[f].phase == Enqueue && j !in s.t.jobs && UploadPhaseWeight(phase) <= 3
    requires s' == EnqueuedState(s, f, j, now, phase)
    ensures Rank(s') < Rank(s)
  {
    SumUpdate(s.uploads, UploadWeight, f, s'.uploads[f]);
    SumUpdate(s.t.jobs, JobWeight, j, NewJob(f, now));
  }

  lemma ClaimLowersRank(s: State, s': State, j: JobId, h: HandlerId, workerId: string, now: Millis, phase: Phase)
    requires j in s.t.jobs && j in s.history && s.t.jobs[j].fileId in s.t.files && h !in s.handlers
    requires 0 <= s.t.jobs[j].attempts < s.t.jobs[j].maxAttempts && PhaseWeight(phase) <= 11
    requires s' == ClaimedState(s, j, h, workerId, now, phase)
    ensures Rank(s') < Rank(s)
  {
    SumUpdate(s.t.jobs, JobWeight, j, s'.t.jobs[j]);
    SumUpdate(s.handlers, HandlerWeight, h, s'.handlers[h]);
  }

  lemma UploadLowersRank(s: State, s': State, f: FileId, i: Input)
    requires f in s.uploads && FileOk(s, f) && LiveUpload(s.uploads[f].phase) && i.newJob !in s.t.jobs
    requires s' == UploadStep(s, f, i)
    ensures Rank(s') < Rank(s)
  {
    UploadPhaseFalls(s, f, i);
    UploadStepIs(s, s', f, i);
    if UploadOnly(s, s', f) {
      UploadMoveLowersRank(s, s', f);
    } else {
      EnqueueLowersRank(s, s', f, i.newJob, i.now, s'.uploads[f].phase);
    }
  }

  lemma FinalLowersRank(s: State, s': State, f: FileId, h: HandlerId, i: Input)
    requires f in s.uploads && FileOk(s, f) && IndexOk(s, f)
    requires h in s.handlers && s.handlers[h].job.fileId == f && HandlerOk(s, h) && Finishing(s.handlers[h].phase)
    requires s' == FinalStep(s, h, i)
    ensures Rank(s') < Rank(s)
  {
    var settled, verdict, phase := FinalStepIs(s, s', f, h, i);
    EndedWeighsLess(s.handlers[h].phase, phase);
    if settled {
      SettledLowersRank(s, s', f, h, verdict, i.now, phase);
    } else {
      PhaseOnlyLowersRank(s, s', h, phase);
    }
  }

  lemma EndedWeighsLess(before: Phase, after: Phase)
    ensures Finishing(before) && (after.Ended? || (before.Finish? && after.Recover?))
            ==> PhaseWeight(after) < PhaseWeight(before)
  {
  }

  lemma PhaseOnlyLowersRank(s: State, s': State, h: HandlerId, phase: Phase)
    requires h in s.handlers && s.handlers[h].job.id in s.t.jobs && PhaseOnly(s, s', h, phase)
    requires PhaseWeight(phase) < PhaseWeight(s.handlers[h].phase)
    ensures Rank(s') < Rank(s)
  {
    HandlerMoveLowersRank(s, s', h, s.handlers[h].job.id);
  }

  lemma SettledLowersRank(s: State, s': State, f: FileId, h: HandlerId, verdict: Verdict, now: Millis, phase: Phase)
    requires HoldsAs(s, f, h) && PhaseWeight(phase) < PhaseWeight(s.handlers[h].phase)
    requires s' == Settled(s, f, h, verdict, now, phase)
    ensures Rank(s') < Rank(s)
  {
    HandlerMoveLowersRank(s, s', h, s.handlers[h].job.id);
  }

  lemma PipelineLowersRank(s: State, s': State, f: FileId, h: HandlerId, i: Input)
    requires HoldsAs(s, f, h) && FileOk(s, f) && PhaseOk(s, s.handlers[h])
    requires Live(s.handlers[h].phase) && !Finishing(s.handlers[h].phase)
    requires s' == PipelineStep(s, h, i)
    ensures Rank(s') < Rank(s)
  {
    PipelineIsArtifacts(s, s', f, h, i);
    PipelinePhaseFalls(s, s', h, i);
    HandlerMoveLowersRank(s, s', h, s.handlers[h].job.id);
  }

  lemma HandlerLowersRank(s: State, s': State, f: FileId, h: HandlerId, i: Input)
    requires f in s.uploads && FileOk(s, f) && IndexOk(s, f)
    requires h in s.handlers && s.handlers[h].job.fileId == f && HandlerOk(s, h) && Live(s.handlers[h].phase)
    requires s' == if Finishing(s.handlers[h].phase) then FinalStep(s, h, i) else PipelineStep(s, h, i)
    ensures Rank(s') < Rank(s)
  {
    if Finishing(s.handlers[h].phase) {
      FinalLowersRank(s, s', f, h, i);
    } else {
      HolderIsLast(s, f, h);
      PipelineLowersRank(s, s', f, h, i);
    }
  }

  lemma ClaimStepLowersRank(s: State, s': State, f: FileId, j: JobId, h: HandlerId,
      workerId: string, now: Millis, fault: Fault)
    requires f in s.uploads && FileOk(s, f) && IndexOk(s, f) && h !in s.handlers && !fault.Refused?
    requires j in s.t.jobs && s.t.jobs[j].fileId == f && s.t.jobs[j].status == Queued
    requires s' == ClaimStep(s, h, j, workerId, now, fault)
    ensures Rank(s') < Rank(s)
  {
    ClaimStepIs(s, f, j, h, workerId, now, fault);
    assert JobOk(s, j);
    ClaimLowersRank(s, s', j, h, workerId, now, if fault.Fine? then ReadContext else Ended(false));
  }

  lemma UploadCrashLowersRank(s: State, s': State, f: FileId)
    requires f in s.uploads && LiveUpload(s.uploads[f].phase)
    requires s' == UploadTo(s, f, UploadCrashed(s.uploads[f].phase))
    ensures Rank(s') < Rank(s)
  {
    UploadMoveLowersRank(s, s', f);
  }

  lemma HandlerCrashLowersRank(s: State, s': State, h: HandlerId)
    requires h in s.handlers && s.handlers[h].job.id in s.t.jobs && Live(s.handlers[h].phase)
    requires s' == To(s, h, Crashed(s.handlers[h].phase))
    ensures Rank(s') < Rank(s)
  {
    HandlerMoveLowersRank(s, s', h, s.handlers[h].job.id);
  }

  lemma UploadActionLowersRank(s: State, s': State, a: Action)
    requires Inv(s) && Enabled(s, a) && (a.ContinueUpload? || a.CrashUpload?) && s' == Apply(s, a)
    ensures Rank(s') < Rank(s)
  {
    assert Cell(s, a.fileId);
    if a.ContinueUpload? {
      UploadLowersRank(s, s', a.fileId, a.input);
    } else {
      UploadCrashLowersRank(s, s', a.fileId);
    }
  }

  lemma ClaimActionLowersRank(s: State, s': State, a: Action)
    requires Inv(s) && Enabled(s, a) && a.Claim? && s' == Apply(s, a)
    ensures Rank(s') < Rank(s)
  {
    var f := s.t.jobs[a.jobId].fileId;
    assert Cell(s, f);
    ClaimStepLowersRank(s, s', f, a.jobId, a.handlerId, a.workerId, a.now, a.fault);
  }

  lemma HandlerActionLowersRank(s: State, s': State, a: Action)
    requires Inv(s) && Enabled(s, a) && (a.Continue? || a.Crash?) && s' == Apply(s, a)
    ensures Rank(s') < Rank(s)
  {
    var h := a.handlerId;
    assert Cell(s, s.handlers[h].job.fileId) && HandlerOk(s, h);
    if a.Continue? {
      HandlerLowersRank(s, s', s.handlers[h].job.fileId, h, a.input);
    } else {
      HandlerCrashLowersRank(s, s', h);
    }
  }

  /** Claims, handler steps, upload steps and crashes all lower the rank. */
  lemma StepLowersRank(s: State, a: Action)
    requires Inv(s) && Enabled(s, a) && Costs(a)
    ensures Rank(Apply(s, a)) < Rank(s)
  {
    if a.ContinueUpload? || a.CrashUpload? {
      UploadActionLowersRank(s, Apply(s, a), a);
    } else if a.Claim? {
      ClaimActionLowersRank(s, Apply(s, a), a);
    } else {
      HandlerActionLowersRank(s, Apply(s, a), a);
    }
  }

  lemma FreeStepRank(s: State, a: Action)
    requires Enabled(s, a) && !Costs(a)
    ensures Rank(Apply(s, a)) <= Rank(s) + if a.BeginUpload? then BEGIN_WEIGHT else 0
  {
    var s' := Apply(s, a);
    if a.BeginUpload? {
      SumUpdate(s.uploads, UploadWeight, a.fileId, s'.uploads[a.fileId]);
    } else {
      SumUpdate(s.t.jobs, JobWeight, a.jobId, s'.t.jobs[a.jobId]);
    }
  }

  // ----- whole runs

  function Count(actions: seq<Action>, which: Action -> bool): nat {
    if actions == [] then 0 else (if which(actions[0]) then 1 else 0) + Count(actions[1..], which)
  }

  /** The steps of a run are paid for by the rank it starts with and by the uploads it begins. */
  lemma {:induction false} RunIsPaidFor(s: State, actions: seq<Action>, last: State)
    requires Inv(s) && Runs(s, actions, last)
    ensures Count(actions, Costs) + Rank(last) <= Rank(s) + BEGIN_WEIGHT * Count(actions, Begins)
    decreases |actions|
  {
    if actions != [] {
      var a := actions[0];
      StepKeepsInv(s, a);
      RunIsPaidFor(Apply(s, a), actions[1..], last);
      if Costs(a) {
        StepLowersRank(s, a);
      } else {
        FreeStepRank(s, a);
      }
    }
  }

  /** From the empty system, n uploads allow at most 57 n steps besides heartbeats. */
  lemma RunsAreFinite(first: State, actions: seq<Action>, last: State)
    requires Initial(first) && Runs(first, actions, last)
    ensures Count(actions, Costs) <= 57 * Count(actions, Begins)
  {
    InitialInv(first);
    RunIsPaidFor(first, actions, last);
  }
}
