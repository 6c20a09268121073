/**
 The access-request limiter of infra/access_requests: hourly counters that are cleaned up
 now and then stand in for counting the whole history of attempts.
 */
module AccessRequests {
  import opened Options

  type Millis = int

  const HOUR: Millis := 3_600_000
  const DAY: Millis := 24 * HOUR
  const RETENTION: Millis := 14 * DAY
  const DUPLICATE_WINDOW: Millis := DAY
  const CLEANUP_EVERY := 100

  datatype Status = New | Contacted | Approved | Rejected
  datatype Request = Request(email: string, status: Status, createdAt: Millis)

  datatype Scope = Ip | Email
  datatype BucketKey = BucketKey(scope: Scope, subject: string, start: Millis)

  /** `now` is the clock of the program, `dbNow` the `NOW()` of the transaction. The email stands for its hash. */
  datatype Attempt = Attempt(now: Millis, dbNow: Millis, ip: Option<string>, email: string)
  datatype Outcome = RateLimitedIp | RateLimitedEmail | Duplicate24h | Created

  datatype Limiter = Limiter(buckets: map<BucketKey, nat>, requests: seq<Request>)

  function Limit(scope: Scope): nat {
    match scope
    case Ip => 10
    case Email => 3
  }

  function StartOfBucket(now: Millis): Millis {
    now / HOUR * HOUR
  }

  function IpKey(a: Attempt): BucketKey
    requires a.ip.Some?
  {
    BucketKey(Ip, a.ip.value, StartOfBucket(a.now))
  }

  function EmailKey(a: Attempt): BucketKey {
    BucketKey(Email, a.email, StartOfBucket(a.now))
  }

  function Hits(buckets: map<BucketKey, nat>, key: BucketKey): nat {
    if key in buckets then buckets[key] else 0
  }

  function CleanedUp(buckets: map<BucketKey, nat>, now: Millis): map<BucketKey, nat> {
    map k | k in buckets && k.start >= now - RETENTION :: buckets[k]
  }

  function Increment(buckets: map<BucketKey, nat>, key: BucketKey): map<BucketKey, nat> {
    buckets[key := Hits(buckets, key) + 1]
  }

  predicate HasRecentDuplicate(requests: seq<Request>, email: string, now: Millis) {
    exists i | 0 <= i < |requests| ::
      requests[i].email == email && requests[i].status != Rejected && requests[i].createdAt >= now - DUPLICATE_WINDOW
  }

  // ----- the transaction, as a function

  function AfterIp(l: Limiter, a: Attempt, cleanup: bool): map<BucketKey, nat> {
    var kept := if cleanup then CleanedUp(l.buckets, a.now) else l.buckets;
    if a.ip.Some? then Increment(kept, IpKey(a)) else kept
  }

  function Persist(l: Limiter, a: Attempt, cleanup: bool): (Limiter, Outcome) {
    var afterIp := AfterIp(l, a, cleanup);
    if a.ip.Some? && Hits(afterIp, IpKey(a)) > Limit(Ip) then (l.(buckets := afterIp), RateLimitedIp)
    else
      var counted := l.(buckets := Increment(afterIp, EmailKey(a)));
      if Hits(counted.buckets, EmailKey(a)) > Limit(Email) then (counted, RateLimitedEmail)
      else if HasRecentDuplicate(l.requests, a.email, a.now) then (counted, Duplicate24h)
      else (counted.(requests := l.requests + [Request(a.email, New, a.dbNow)]), Created)
  }

  class AccessRequestRepository {
    var cleanupTick: nat
    var buckets: map<BucketKey, nat>
    var requests: seq<Request>

    ghost function Contents(): Limiter
      reads this
    {
      Limiter(buckets, requests)
    }

    method ShouldRunRateLimitCleanup() returns (run: bool)
      modifies this`cleanupTick
      ensures cleanupTick == old(cleanupTick) + 1 && (run <==> cleanupTick % CLEANUP_EVERY == 0)
      ensures run <==> cleanupTick % 100 == 0
    {
      cleanupTick := cleanupTick + 1;
      run := cleanupTick % CLEANUP_EVERY == 0;
    }

    method CleanupOldRateLimitBuckets(now: Millis)
      modifies this`buckets
      ensures buckets == CleanedUp(old(buckets), now)
      ensures forall k :: k in buckets <==> k in old(buckets) && k.start >= now - 14 * 24 * 60 * 60 * 1_000
      ensures forall k | k in buckets :: buckets[k] == old(buckets)[k]
    {
      var cutoff := now - 14 * 24 * 60 * 60 * 1_000;
      buckets := map k | k in buckets && !(k.start < cutoff) :: buckets[k];
    }

    /** `INSERT ... ON CONFLICT DO UPDATE ... RETURNING hit_count`. */
    method IncrementRateLimitBucket(key: BucketKey) returns (hitCount: nat)
      modifies this`buckets
      ensures buckets == Increment(old(buckets), key) && hitCount == Hits(buckets, key)
      ensures buckets == old(buckets)[key := hitCount]
      ensures hitCount == if key in old(buckets) then old(buckets)[key] + 1 else 1
    {
      if key in buckets {
        buckets := buckets[key := buckets[key] + 1];
      } else {
        buckets := buckets[key := 1];
      }
      hitCount := buckets[key];
    }

    /** `LIMIT 1`: the scan stops at the first row found. */
    method FindRecentDuplicate(email: string, now: Millis) returns (found: bool)
      ensures found <==> HasRecentDuplicate(requests, email, now)
      ensures found <==> exists r ::
                r in requests && r.email == email && r.status != Rejected && r.createdAt >= now - 24 * 60 * 60 * 1_000
    {
      var duplicateCutoff := now - DUPLICATE_WINDOW;
      found := false;
      for i := 0 to |requests|
        invariant !found && forall k | 0 <= k < i ::
          !(requests[k].email == email && requests[k].status != Rejected
              && requests[k].createdAt >= now - DUPLICATE_WINDOW)
      {
        var r := requests[i];
        if r.email == email && r.status in {New, Contacted, Approved} && r.createdAt >= duplicateCutoff {
          assert requests[i].status != Rejected;
          return true;
        }
      }
    }

    /** If `aborts`, a query throws and the transaction is rolled back; the tick is not part of it. */
    method PersistAccessRequestAttempt(a: Attempt, aborts: bool) returns (outcome: Option<Outcome>)
      modifies this
      ensures cleanupTick == old(cleanupTick) + 1
      ensures aborts ==> outcome.None? && Contents() == old(Contents())
      ensures !aborts ==>
                outcome.Some? && (Contents(), outcome.value) ==
                    Persist(old(Contents()), a, cleanupTick % CLEANUP_EVERY == 0)
    {
      var savedBuckets, savedRequests := buckets, requests;
      var result := PersistInTransaction(a);
      outcome := Some(result);
      if aborts {
        buckets, requests := savedBuckets, savedRequests;
        outcome := None;
      }
    }

    method PersistInTransaction(a: Attempt) returns (outcome: Outcome)
      modifies this
      ensures cleanupTick == old(cleanupTick) + 1
      ensures (Contents(), outcome) == Persist(old(Contents()), a, cleanupTick % CLEANUP_EVERY == 0)
    {
      var cleanup := ShouldRunRateLimitCleanup();
      if cleanup {
        CleanupOldRateLimitBuckets(a.now);
      }
      var bucketStart := StartOfBucket(a.now);
      if a.ip.Some? {
        var ipHits := IncrementRateLimitBucket(BucketKey(Ip, a.ip.value, bucketStart));
        if ipHits > 10 {
          return RateLimitedIp;
        }
      }
      var emailHits := IncrementRateLimitBucket(BucketKey(Email, a.email, bucketStart));
      if emailHits > 3 {
        return RateLimitedEmail;
      }
      var duplicateExists := FindRecentDuplicate(a.email, a.now);
      if duplicateExists {
        return Duplicate24h;
      }
      requests := requests + [Request(a.email, New, a.dbNow)];
      outcome := Created;
    }

    method UpdateStatusForAdmin(id: nat, status: Status) returns (found: bool)
      modifies this`requests
      ensures found <==> id < |old(requests)|
      ensures requests == WithStatus(old(requests), id, status)
      ensures found ==> requests == old(requests)[id := old(requests)[id].(status := status)]
      ensures !found ==> requests == old(requests)
    {
      found := id < |requests|;
      if found {
        requests := requests[id := requests[id].(status := status)];
      }
    }
  }

  /** updateStatusForAdmin: any status may follow any other. */
  function WithStatus(requests: seq<Request>, id: nat, status: Status): seq<Request> {
    if id < |requests| then requests[id := requests[id].(status := status)] else requests
  }

  // ----- runs

  /** An attempt that commits, of a process whose tick calls for a cleanup or not, or an admin's decision. */
  datatype Event = Attempted(a: Attempt, cleanup: bool) | StatusSet(id: nat, status: Status)

  function Step(l: Limiter, e: Event): (Limiter, Option<Outcome>) {
    match e
    case Attempted(a, cleanup) => var (next, outcome) := Persist(l, a, cleanup); (next, Some(outcome))
    case StatusSet(id, status) => (l.(requests := WithStatus(l.requests, id, status)), None)
  }

  function Run(l: Limiter, events: seq<Event>): (Limiter, seq<Option<Outcome>>)
    decreases |events|
  {
    if events == [] then (l, [])
    else
      var (next, outcome) := Step(l, events[0]);
      var (last, outcomes) := Run(next, events[1..]);
      (last, [outcome] + outcomes)
  }

  const NOTHING := Limiter(map[], [])

  // ----- the reference: the whole history, counted

  datatype Entry = Entry(attempt: Attempt, outcome: Outcome)
  datatype Ledger = Ledger(entries: seq<Entry>, requests: seq<Request>)

  const EMPTY := Ledger([], [])

  /** The attempt got as far as the counter `key`, whatever became of it. */
  predicate Reached(e: Entry, key: BucketKey) {
    && StartOfBucket(e.attempt.now) == key.start
    && match key.scope
       case Ip => e.attempt.ip == Some(key.subject)
       case Email => e.attempt.email == key.subject && e.outcome != RateLimitedIp
  }

  function Count(entries: seq<Entry>, key: BucketKey): nat {
    if entries == [] then 0
    else Count(entries[..|entries| - 1], key) + (if Reached(entries[|entries| - 1], key) then 1 else 0)
  }

  function Judge(h: Ledger, a: Attempt): Outcome {
    if a.ip.Some? && Count(h.entries, IpKey(a)) >= Limit(Ip) then RateLimitedIp
    else if Count(h.entries, EmailKey(a)) >= Limit(Email) then RateLimitedEmail
    else if HasRecentDuplicate(h.requests, a.email, a.now) then Duplicate24h
    else Created
  }

  function CountingStep(h: Ledger, e: Event): (Ledger, Option<Outcome>) {
    match e
    case Attempted(a, _) =>
      var outcome := Judge(h, a);
      (Ledger(h.entries + [Entry(a, outcome)],
              if outcome == Created then h.requests + [Request(a.email, New, a.dbNow)] else h.requests), Some(outcome))
    case StatusSet(id, status) => (h.(requests := WithStatus(h.requests, id, status)), None)
  }

  function CountingRun(h: Ledger, events: seq<Event>): (Ledger, seq<Option<Outcome>>)
    decreases |events|
  {
    if events == [] then (h, [])
    else
      var (next, outcome) := CountingStep(h, events[0]);
      var (last, outcomes) := CountingRun(next, events[1..]);
      (last, [outcome] + outcomes)
  }

  // ----- the table refines the history

  /** No attempt so far can have caused a cleanup of `key`. */
  ghost predicate Remembered(entries: seq<Entry>, key: BucketKey) {
    forall e | e in entries :: key.start >= e.attempt.now - RETENTION
  }

  ghost predicate Mirrors(l: Limiter, h: Ledger) {
    l.requests == h.requests && forall k | Remembered(h.entries, k) :: Hits(l.buckets, k) == Count(h.entries, k)
  }

  /** The largest step back of the clock that no cleanup can notice. */
  const MAX_FALLBACK: Millis := RETENTION - HOUR + 1

  ghost predicate NotBefore(entries: seq<Entry>, now: Millis, fallback: Millis) {
    forall e | e in entries :: now >= e.attempt.now - fallback
  }

  ghost predicate FallsBackAtMost(entries: seq<Entry>, events: seq<Event>, fallback: Millis) {
    && (forall j | 0 <= j < |events| && events[j].Attempted? :: NotBefore(entries, events[j].a.now, fallback))
    && (forall i, j | 0 <= i < j < |events| && events[i].Attempted? && events[j].Attempted? ::
          events[j].a.now >= events[i].a.now - fallback)
  }

  lemma CountGrows(entries: seq<Entry>, e: Entry, key: BucketKey)
    ensures Count(entries + [e], key) == Count(entries, key) + (if Reached(e, key) then 1 else 0)
  {
    assert (entries + [e])[..|entries|] == entries;
  }

  lemma BucketIsRemembered(entries: seq<Entry>, now: Millis, key: BucketKey)
    requires NotBefore(entries, now, MAX_FALLBACK) && key.start == StartOfBucket(now)
    ensures Remembered(entries, key) && key.start >= now - RETENTION
  {
    assert now - HOUR + 1 <= StartOfBucket(now);
  }

  /** The attempt adds one hit to each counter it reaches, and takes none from counters that are not too old. */
  lemma HitsAfter(l: Limiter, a: Attempt, cleanup: bool, key: BucketKey)
    requires key.start >= a.now - RETENTION
    ensures var (next, outcome) := Persist(l, a, cleanup);
            Hits(next.buckets, key) == Hits(l.buckets, key) + (if Reached(Entry(a, outcome), key) then 1 else 0)
  {
    var kept := if cleanup then CleanedUp(l.buckets, a.now) else l.buckets;
    assert Hits(kept, key) == Hits(l.buckets, key);
  }

  lemma RememberedBefore(entries: seq<Entry>, e: Entry, key: BucketKey)
    requires Remembered(entries + [e], key)
    ensures Remembered(entries, key) && key.start >= e.attempt.now - RETENTION
  {
    assert e in entries + [e];
    assert forall other | other in entries :: other in entries + [e];
  }

  lemma AttemptIsJudged(l: Limiter, h: Ledger, a: Attempt, cleanup: bool)
    requires Mirrors(l, h) && NotBefore(h.entries, a.now, MAX_FALLBACK)
    ensures Persist(l, a, cleanup).1 == Judge(h, a)
  {
    BucketIsRemembered(h.entries, a.now, EmailKey(a));
    if a.ip.Some? {
      BucketIsRemembered(h.entries, a.now, IpKey(a));
    }
  }

  lemma AttemptMirrors(l: Limiter, h: Ledger, a: Attempt, cleanup: bool)
    requires Mirrors(l, h) && NotBefore(h.entries, a.now, MAX_FALLBACK)
    ensures Persist(l, a, cleanup).1 == Judge(h, a)
    ensures Mirrors(Persist(l, a, cleanup).0, CountingStep(h, Event.Attempted(a, cleanup)).0)
  {
    AttemptIsJudged(l, h, a, cleanup);
    var next, entry := Persist(l, a, cleanup).0, Entry(a, Judge(h, a));
    forall k | Remembered(h.entries + [entry], k) ensures Hits(next.buckets, k) == Count(h.entries + [entry], k) {
      RememberedBefore(h.entries, entry, k);
      HitsAfter(l, a, cleanup, k);
      CountGrows(h.entries, entry, k);
    }
  }

  lemma FallbackOfRest(entries: seq<Entry>, e: Entry, events: seq<Event>, fallback: Millis)
    requires events != [] && events[0].Attempted? && e.attempt == events[0].a
    requires FallsBackAtMost(entries, events, fallback)
    ensures FallsBackAtMost(entries + [e], events[1..], fallback)
  {
  }

  lemma {:induction false} TableMirrorsHistory(l: Limiter, h: Ledger, events: seq<Event>)
    requires Mirrors(l, h) && FallsBackAtMost(h.entries, events, MAX_FALLBACK)
    ensures Run(l, events).1 == CountingRun(h, events).1
    ensures Mirrors(Run(l, events).0, CountingRun(h, events).0)
    decreases |events|
  {
    if events != [] {
      var l', h' := Step(l, events[0]).0, CountingStep(h, events[0]).0;
      if events[0].Attempted? {
        assert events[0] == Event.Attempted(events[0].a, events[0].cleanup);
        AttemptMirrors(l, h, events[0].a, events[0].cleanup);
        FallbackOfRest(h.entries, Entry(events[0].a, Judge(h, events[0].a)), events, MAX_FALLBACK);
      }
      TableMirrorsHistory(l', h', events[1..]);
    }
  }
}
