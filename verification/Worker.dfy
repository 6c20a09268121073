/**
 The loop of ProcessingWorker in app/processing/worker.ts: how many jobs it takes on, and
 what becomes of each of them. What one call of `processClaimedJob` does is in Runtime.
 */
module Worker {
  import opened Options
  import opened Sets
  import opened JobTables
  import opened Repositories

  /** The promise of the n-th call of `processClaimedJob`. */
  type Call = nat

  /** The jobs among the answers of `claimReadyJob`. */
  function HandedOut(answers: seq<Reply<Option<ClaimedJob>>>): seq<ClaimedJob> {
    if answers == [] then []
    else
      var last := answers[|answers| - 1];
      HandedOut(answers[..|answers| - 1])
      + (if last.Returned? && last.value.Some? then [last.value.value] else [])
  }

  lemma HandedOutOneMore(answers: seq<Reply<Option<ClaimedJob>>>, reply: Reply<Option<ClaimedJob>>)
    ensures HandedOut(answers + [reply]) ==
            HandedOut(answers) + (if reply.Returned? && reply.value.Some? then [reply.value.value] else [])
  {
    assert (answers + [reply])[..|answers|] == answers;
  }

  class ProcessingWorker {
    const concurrency: nat
    var inFlight: set<Call>
    var stopRequested: bool
    var running: bool

    /** What `claimReadyJob` has answered so far, and for each sleep whether there was nothing left to claim. */
    ghost var answers: seq<Reply<Option<ClaimedJob>>>
    ghost var sleeps: seq<bool>

    /** What has happened so far: jobs handed out by claims, jobs passed on for processing, calls that have ended. */
    var claims: seq<ClaimedJob>
    var calls: seq<ClaimedJob>
    var settled: set<Call>

    /**
     The environment: `stop` is called after this many awaits at the latest. A run that nobody
     stops does not return.
     */
    var patience: nat

    /** Calls are in flight or settled, never both, and no more than `concurrency` are in flight. */
    ghost predicate Valid()
      reads this
    {
      && |inFlight| <= concurrency
      && inFlight !! settled
      && (forall c: Call :: c in inFlight || c in settled <==> c < |calls|)
    }

    /** Every job that was handed out has been passed on exactly once, in the order of the answers. */
    ghost predicate NothingLost()
      reads this
    {
      Valid() && calls == claims && claims == HandedOut(answers)
    }

    /** All slots are taken, or the last claim found nothing. */
    ghost predicate NothingToClaim()
      reads this
    {
      |inFlight| == concurrency || (answers != [] && answers[|answers| - 1] == Returned(None))
    }

    ghost function AwaitsLeft(): nat
      reads this
    {
      if stopRequested then 0 else 1 + patience
    }

    constructor (concurrency: nat, patience: nat)
      ensures NothingLost() && claims == [] && !running && !stopRequested && this.concurrency == concurrency
    {
      this.concurrency, this.patience := concurrency, patience;
      inFlight, stopRequested, running := {}, false, false;
      claims, calls, settled := [], [], {};
      answers, sleeps := [], [];
    }

    /** Nothing that has happened is undone. */
    twostate predicate Later()
      reads this
    {
      && old(claims) <= claims && old(calls) <= calls && old(settled) <= settled
      && old(answers) <= answers && old(sleeps) <= sleeps
      && (old(stopRequested) ==> stopRequested) && AwaitsLeft() <= old(AwaitsLeft())
    }

    method Stop()
      modifies this`stopRequested
      ensures stopRequested
    {
      stopRequested := true;
    }

    /** At an await, calls in flight may end and `stop` may be called. */
    method Await()
      requires Valid()
      modifies this`inFlight, this`settled, this`stopRequested, this`patience
      ensures Valid() && Later() && inFlight <= old(inFlight)
      ensures AwaitsLeft() < old(AwaitsLeft()) || stopRequested
    {
      var ended: set<Call> := *;
      ended := ended * inFlight;
      SubsetSize(inFlight - ended, inFlight);
      inFlight, settled := inFlight - ended, settled + ended;
      var stop: bool := *;
      if stop || patience == 0 {
        Stop();
      } else {
        patience := patience - 1;
      }
    }

    /** The repository's answer arrives after whatever else happened during the wait, `stop` included. */
    method ClaimReadyJob() returns (reply: Reply<Option<ClaimedJob>>)
      requires NothingLost()
      modifies this`inFlight, this`settled, this`stopRequested, this`patience, this`claims, this`answers
      ensures Valid() && Later() && inFlight <= old(inFlight)
      ensures answers == old(answers) + [reply] && claims == HandedOut(answers)
      ensures claims == calls + (if reply.Returned? && reply.value.Some? then [reply.value.value] else [])
      ensures AwaitsLeft() < old(AwaitsLeft()) || stopRequested
    {
      Await();
      reply := *;
      HandedOutOneMore(answers, reply);
      answers := answers + [reply];
      if reply.Returned? && reply.value.Some? {
        claims := claims + [reply.value.value];
      }
    }

    /** `processClaimedJob(claimed)` starts and its promise is added. */
    method StartProcessing(claimed: ClaimedJob)
      requires Valid() && |inFlight| < concurrency
      modifies this`inFlight, this`calls
      ensures Valid() && calls == old(calls) + [claimed] && inFlight == old(inFlight) + {|old(calls)|}
    {
      var current: Call := |calls|;
      calls := calls + [claimed];
      inFlight := inFlight + {current};
    }

    /**
     Claims until the slots are full, nothing is ready, `stop` was called or a claim threw.
     A job whose claim answers after `stop` is passed on all the same.
     */
    method FillConcurrencySlots() returns (reply: Reply<()>)
      requires NothingLost()
      modifies this`inFlight, this`settled, this`stopRequested, this`patience, this`claims, this`calls, this`answers
      ensures NothingLost() && Later()
      ensures reply.Returned? && !stopRequested && |inFlight| < concurrency ==> AwaitsLeft() < old(AwaitsLeft())
      ensures old(!stopRequested && |inFlight| < concurrency) ==> |answers| > |old(answers)|
      ensures forall k | |old(answers)| <= k < |answers| - 1 :: answers[k].Returned? && answers[k].value.Some?
      ensures reply.Returned? && !stopRequested ==>
                || |inFlight| == concurrency
                || (|answers| > |old(answers)| && answers[|answers| - 1] == Returned(None))
      ensures reply.Threw? ==> |answers| > |old(answers)| && answers[|answers| - 1] == Threw(reply.error)
    {
      reply := Returned(());
      while !stopRequested && |inFlight| < concurrency
        invariant NothingLost() && Later()
        invariant old(!stopRequested && |inFlight| < concurrency) && answers == old(answers) ==>
                    !stopRequested && |inFlight| < concurrency
        invariant forall k | |old(answers)| <= k < |answers| :: answers[k].Returned? && answers[k].value.Some?
        decreases AwaitsLeft()
      {
        ghost var before := inFlight;
        var claimed := ClaimReadyJob();
        SubsetSize(inFlight, before);
        if claimed.Threw? {
          return Threw(claimed.error);
        }
        if claimed.value.None? {
          break;
        }
        StartProcessing(claimed.value.value);
      }
    }

    /** `sleep(pollMs)`. */
    method Sleep()
      requires NothingLost()
      modifies this`inFlight, this`settled, this`stopRequested, this`patience, this`sleeps
      ensures NothingLost() && Later() && sleeps == old(sleeps) + [old(NothingToClaim())]
      ensures AwaitsLeft() < old(AwaitsLeft()) || stopRequested
    {
      sleeps := sleeps + [NothingToClaim()];
      Await();
    }

    /** `Promise.allSettled([...inFlight])`: the loop has ended, so nothing is added meanwhile. */
    method AllSettled()
      requires Valid()
      modifies this`inFlight, this`settled, this`stopRequested
      ensures Valid() && Later() && inFlight == {}
    {
      inFlight, settled := {}, settled + inFlight;
      var stop: bool := *;
      if stop {
        Stop();
      }
    }

    /** The loop of `run`. */
    method PollUntilStopped() returns (reply: Reply<()>)
      requires NothingLost()
      modifies this`inFlight, this`settled, this`stopRequested, this`patience, this`claims, this`calls, this`answers,
               this`sleeps
      ensures NothingLost() && Later()
      ensures reply.Returned? ==> stopRequested
      ensures reply.Threw? ==> answers != [] && answers[|answers| - 1] == Threw(reply.error)
      ensures old(stopRequested) ==> reply.Returned? && claims == old(claims)
      ensures old(!stopRequested && |inFlight| < concurrency) ==> |answers| > |old(answers)|
      ensures forall k | |old(sleeps)| <= k < |sleeps| :: sleeps[k]
    {
      reply := Returned(());
      while !stopRequested
        invariant NothingLost() && Later() && reply.Returned?
        invariant old(stopRequested) ==> claims == old(claims)
        invariant old(!stopRequested && |inFlight| < concurrency) && answers == old(answers) ==>
                    !stopRequested && |inFlight| < concurrency
        invariant forall k | |old(sleeps)| <= k < |sleeps| :: sleeps[k]
        decreases AwaitsLeft()
      {
        reply := FillConcurrencySlots();
        if reply.Threw? || stopRequested {
          break;
        }
        Sleep();
      }
    }

    /**
     `run` returns only after `stop`, or throws what a claim threw. Either way no call is in
     flight any more, and every job that was ever claimed has had its one call, which has ended.
     A second `run` is refused and changes nothing. It starts by claiming, and it only sleeps when
     all slots are taken or the last claim found nothing.
     */
    method Run() returns (reply: Reply<()>)
      requires NothingLost()
      modifies this
      ensures old(running) ==>
                && reply == Threw("worker_already_running") && running
                && inFlight == old(inFlight) && claims == old(claims)
                && calls == old(calls) && settled == old(settled) && stopRequested == old(stopRequested)
      ensures !old(running) ==>
                && NothingLost() && Later() && !running && inFlight == {}
                && (forall c: Call :: c in settled <==> c < |claims|)
                && (reply.Returned? ==> stopRequested)
      ensures old(stopRequested) && !old(running) ==> reply.Returned? && claims == old(claims)
      ensures old(!running && !stopRequested && |inFlight| < concurrency) ==> |answers| > |old(answers)|
      ensures forall k | |old(sleeps)| <= k < |sleeps| :: sleeps[k]
      ensures reply.Threw? && !old(running) ==> answers != [] && answers[|answers| - 1] == Threw(reply.error)
    {
      if running {
        return Threw("worker_already_running");
      }
      running := true;
      reply := PollUntilStopped();
      AllSettled();
      running := false;
    }
  }

  // ----- the heartbeat

  /** toHeartbeatIntervalMs. */
  function HeartbeatIntervalMs(lockTtlSeconds: int): int {
    var ttlMs := (if lockTtlSeconds < 1 then 1 else lockTtlSeconds) * 1000;
    if ttlMs / 3 < 1000 then 1000 else ttlMs / 3
  }

  /** Three heartbeats to a lock of three seconds or more, and never more than one a second. */
  lemma ThreeHeartbeatsPerLock(lockTtlSeconds: int)
    ensures HeartbeatIntervalMs(lockTtlSeconds) >= 1_000
    ensures lockTtlSeconds >= 3 ==>
              var interval := HeartbeatIntervalMs(lockTtlSeconds);
              3 * interval <= lockTtlSeconds * 1_000 < 3 * interval + 3
    ensures HeartbeatIntervalMs(DEFAULT_LOCK_TTL_SECONDS) == 100_000
  {
  }

  /** A punctual heartbeat comes before the lock counts as stale exactly for locks of at least two seconds. */
  lemma HeartbeatBeatsTheLockIff(lockTtlSeconds: int, job: JobRow, now: Millis)
    requires job.lockedAt.Some? && job.lockedBy.Some? && job.heartbeatAt.Some? && job.lockTtlSeconds == lockTtlSeconds
    ensures (forall t | job.heartbeatAt.value <= t <= job.heartbeatAt.value + HeartbeatIntervalMs(lockTtlSeconds) ::
               !LockIsFree(job, t))
            <==> lockTtlSeconds >= 2
  {
    var last := job.heartbeatAt.value + HeartbeatIntervalMs(lockTtlSeconds);
    assert LockIsFree(job, last) <==> lockTtlSeconds < 2;
  }
}
