/** What the access-request limiter promises over whole runs, sequential but with any clocks. */
module AccessRequestTheorems {
  import opened Options
  import opened AccessRequests

  // ----- counters with cleanup against the whole history

  lemma {:induction false} RunOneMore(l: Limiter, events: seq<Event>, e: Event)
    ensures var (middle, outcomes) := Run(l, events);
            Run(l, events + [e]) == (Step(middle, e).0, outcomes + [Step(middle, e).1])
    decreases |events|
  {
    if events == [] {
      var o := Step(l, e).1;
      assert events + [e] == [e] && [e][1..] == [] && [] + [o] == [o] + [];
    } else {
      assert (events + [e])[1..] == events[1..] + [e];
      var next, first := Step(l, events[0]).0, Step(l, events[0]).1;
      RunOneMore(next, events[1..], e);
      var (middle, rest) := Run(next, events[1..]);
      assert [first] + (rest + [Step(middle, e).1]) == ([first] + rest) + [Step(middle, e).1];
    }
  }

  lemma {:induction false} CountingRunOneMore(h: Ledger, events: seq<Event>, e: Event)
    ensures var (middle, outcomes) := CountingRun(h, events);
            CountingRun(h, events + [e]) == (CountingStep(middle, e).0, outcomes + [CountingStep(middle, e).1])
    decreases |events|
  {
    if events == [] {
      var o := CountingStep(h, e).1;
      assert events + [e] == [e] && [e][1..] == [] && [] + [o] == [o] + [];
    } else {
      assert (events + [e])[1..] == events[1..] + [e];
      var next, first := CountingStep(h, events[0]).0, CountingStep(h, events[0]).1;
      CountingRunOneMore(next, events[1..], e);
      var (middle, rest) := CountingRun(next, events[1..]);
      assert [first] + (rest + [CountingStep(middle, e).1]) == ([first] + rest) + [CountingStep(middle, e).1];
    }
  }

  /** Attempts of one address without an IP, all at the end of the hour that starts at zero. */
  function LateAttempt(): Event {
    Event.Attempted(Attempt(HOUR - 1, HOUR - 1, None, "a@x"), false)
  }

  const LATE_KEY := BucketKey(Email, "a@x", 0)

  lemma {:induction false} CountOfLateAttempts(n: nat, events: seq<Event>)
    requires events == seq(n, _ => LateAttempt())
    ensures var h := CountingRun(EMPTY, events).0;
            Count(h.entries, LATE_KEY) == n && forall e | e in h.entries :: e.attempt == LateAttempt().a
    decreases n
  {
    if n > 0 {
      var before := seq(n - 1, _ => LateAttempt());
      assert events == before + [LateAttempt()];
      CountOfLateAttempts(n - 1, before);
      CountingRunOneMore(EMPTY, before, LateAttempt());
      var h := CountingRun(EMPTY, before).0;
      CountGrows(h.entries, Entry(LateAttempt().a, Judge(h, LateAttempt().a)), LATE_KEY);
    }
  }

  /** An attempt of somebody else `fallback` milliseconds later, with a cleanup. */
  function Cleaner(fallback: Millis): Event {
    Event.Attempted(Attempt(HOUR - 1 + fallback, HOUR - 1 + fallback, None, "b@x"), true)
  }

  function LateThenClean(fallback: Millis): seq<Event> {
    seq(3, _ => LateAttempt()) + [Cleaner(fallback)]
  }

  lemma HistoryRemembers(fallback: Millis)
    ensures Judge(CountingRun(EMPTY, LateThenClean(fallback)).0, LateAttempt().a) == RateLimitedEmail
  {
    var late, clean := seq(3, _ => LateAttempt()), Cleaner(fallback);
    CountOfLateAttempts(3, late);
    CountingRunOneMore(EMPTY, late, clean);
    CleanerIsSomebodyElse(CountingRun(EMPTY, late).0, clean.a);
  }

  lemma CleanerIsSomebodyElse(h: Ledger, a: Attempt)
    requires Count(h.entries, LATE_KEY) == 3 && a.email == "b@x"
    ensures Judge(CountingStep(h, Event.Attempted(a, true)).0, LateAttempt().a) == RateLimitedEmail
  {
    CountGrows(h.entries, Entry(a, Judge(h, a)), LATE_KEY);
    assert EmailKey(LateAttempt().a) == LATE_KEY;
  }

  lemma TableForgets(fallback: Millis)
    requires fallback > MAX_FALLBACK
    ensures Persist(Run(NOTHING, LateThenClean(fallback)).0, LateAttempt().a, false).1 != RateLimitedEmail
  {
    var late, clean := seq(3, _ => LateAttempt()), Cleaner(fallback);
    RunOneMore(NOTHING, late, clean);
    assert LATE_KEY !in CleanedUp(Run(NOTHING, late).0.buckets, clean.a.now);
    assert LATE_KEY !in Persist(Run(NOTHING, late).0, clean.a, true).0.buckets;
  }

  /** If the clock falls back further, a cleanup can make the table forget a full counter. */
  lemma ForgottenCounter(fallback: Millis) returns (events: seq<Event>)
    requires fallback > MAX_FALLBACK
    ensures FallsBackAtMost([], events, fallback)
    ensures Run(NOTHING, events).1 != CountingRun(EMPTY, events).1
  {
    var before := LateThenClean(fallback);
    events := before + [LateAttempt()];
    LateRunFallsBack(fallback);
    TableForgets(fallback);
    HistoryRemembers(fallback);
    LastAnswersDiffer(before, LateAttempt());
  }

  lemma LateRunFallsBack(fallback: Millis)
    requires fallback >= 0
    ensures FallsBackAtMost([], LateThenClean(fallback) + [LateAttempt()], fallback)
  {
    var events := LateThenClean(fallback) + [LateAttempt()];
    assert forall i | 0 <= i < |events| :: events[i].Attempted? && HOUR - 1 <= events[i].a.now <= HOUR - 1 + fallback;
  }

  lemma LastAnswersDiffer(events: seq<Event>, e: Event)
    requires Step(Run(NOTHING, events).0, e).1 != CountingStep(CountingRun(EMPTY, events).0, e).1
    ensures Run(NOTHING, events + [e]).1 != CountingRun(EMPTY, events + [e]).1
  {
    RunOneMore(NOTHING, events, e);
    CountingRunOneMore(EMPTY, events, e);
    SameLength(NOTHING, EMPTY, events);
    var tables, counts := Run(NOTHING, events + [e]).1, CountingRun(EMPTY, events + [e]).1;
    assert tables[|events|] != counts[|events|];
  }

  lemma {:induction false} SameLength(l: Limiter, h: Ledger, events: seq<Event>)
    ensures |Run(l, events).1| == |events| == |CountingRun(h, events).1|
    decreases |events|
  {
    if events != [] {
      SameLength(Step(l, events[0]).0, CountingStep(h, events[0]).0, events[1..]);
    }
  }

  /**
   The table answers every attempt as if the whole history were kept and counted, exactly
   when the clock never falls back by more than fourteen days less an hour (and a millisecond).
   */
  lemma OutcomesMatchHistoryIff(fallback: Millis)
    ensures (forall events | FallsBackAtMost([], events, fallback) ::
            Run(NOTHING, events).1 == CountingRun(EMPTY, events).1)
            <==> fallback <= MAX_FALLBACK
  {
    if fallback <= MAX_FALLBACK {
      forall events | FallsBackAtMost([], events, fallback)
        ensures Run(NOTHING, events).1 == CountingRun(EMPTY, events).1
      {
        TableMirrorsHistory(NOTHING, EMPTY, events);
      }
    } else {
      var events := ForgottenCounter(fallback);
    }
  }

  /** Counters that no cleanup can have touched count the attempts that reached them, refused ones included. */
  lemma HitCountsAreAttempts(events: seq<Event>, key: BucketKey)
    requires FallsBackAtMost([], events, MAX_FALLBACK) && Remembered(CountingRun(EMPTY, events).0.entries, key)
    ensures Hits(Run(NOTHING, events).0.buckets, key) == Count(CountingRun(EMPTY, events).0.entries, key)
    ensures Run(NOTHING, events).0.requests == CountingRun(EMPTY, events).0.requests
  {
    TableMirrorsHistory(NOTHING, EMPTY, events);
  }

  // ----- limits

  /** The attempts of a run of the table, with the answers they got. */
  function EntriesOf(l: Limiter, events: seq<Event>): seq<Entry>
    decreases |events|
  {
    if events == [] then [] else EntryOf(l, events[0]) + EntriesOf(Step(l, events[0]).0, events[1..])
  }

  function EntryOf(l: Limiter, e: Event): seq<Entry> {
    var outcome := Step(l, e).1;
    if outcome.Some? then [Entry(e.a, outcome.value)] else []
  }

  lemma {:induction false} EntriesAreHistory(l: Limiter, h: Ledger, events: seq<Event>)
    requires Mirrors(l, h) && FallsBackAtMost(h.entries, events, MAX_FALLBACK)
    ensures CountingRun(h, events).0.entries == h.entries + EntriesOf(l, events)
    decreases |events|
  {
    if events != [] {
      FirstEvent(l, h, events);
      var l', h' := Step(l, events[0]).0, CountingStep(h, events[0]).0;
      EntriesAreHistory(l', h', events[1..]);
      InOrder(h.entries, EntryOf(l, events[0]), EntriesOf(l', events[1..]));
    }
  }

  lemma InOrder<T>(before: seq<T>, head: seq<T>, rest: seq<T>)
    ensures before + (head + rest) == (before + head) + rest
  {
  }

  lemma FirstEvent(l: Limiter, h: Ledger, events: seq<Event>)
    requires events != [] && Mirrors(l, h) && FallsBackAtMost(h.entries, events, MAX_FALLBACK)
    ensures var l', h' := Step(l, events[0]).0, CountingStep(h, events[0]).0;
            && Mirrors(l', h') && FallsBackAtMost(h'.entries, events[1..], MAX_FALLBACK)
            && h'.entries == h.entries + EntryOf(l, events[0])
  {
    if events[0].Attempted? {
      assert events[0] == Event.Attempted(events[0].a, events[0].cleanup);
      AttemptMirrors(l, h, events[0].a, events[0].cleanup);
      FallbackOfRest(h.entries, Entry(events[0].a, Judge(h, events[0].a)), events, MAX_FALLBACK);
    }
  }

  function CreatedIn(entries: seq<Entry>, key: BucketKey): nat {
    if entries == [] then 0
    else
      var last := entries[|entries| - 1];
      CreatedIn(entries[..|entries| - 1], key) + (if Reached(last, key) && last.outcome == Created then 1 else 0)
  }

  lemma {:induction false} LimitsAreKept(h: Ledger, events: seq<Event>, key: BucketKey)
    requires CreatedIn(h.entries, key) <= Count(h.entries, key) && CreatedIn(h.entries, key) <= Limit(key.scope)
    ensures CreatedIn(CountingRun(h, events).0.entries, key) <= Limit(key.scope)
    decreases |events|
  {
    if events != [] {
      var next := CountingStep(h, events[0]).0;
      if events[0].Attempted? {
        var entry := Entry(events[0].a, Judge(h, events[0].a));
        CountGrows(h.entries, entry, key);
        assert (h.entries + [entry])[..|h.entries|] == h.entries;
        if Reached(entry, key) && entry.outcome == Created {
          assert key == if key.scope == Ip then IpKey(events[0].a) else EmailKey(events[0].a);
        }
      }
      LimitsAreKept(next, events[1..], key);
    }
  }

  /** No clock hour yields more than ten creations for an IP, nor more than three for an email. */
  lemma CreationsPerBucket(events: seq<Event>, key: BucketKey)
    requires FallsBackAtMost([], events, MAX_FALLBACK)
    ensures CreatedIn(EntriesOf(NOTHING, events), key) <= Limit(key.scope)
  {
    EntriesAreHistory(NOTHING, EMPTY, events);
    assert EMPTY.entries + EntriesOf(NOTHING, events) == EntriesOf(NOTHING, events);
    LimitsAreKept(EMPTY, events, key);
  }

  /** Creations for a subject from `from` to an hour later, both included. */
  function CreatedWithinHour(entries: seq<Entry>, scope: Scope, subject: string, from: Millis): nat {
    if entries == [] then 0
    else
      var last := entries[|entries| - 1];
      CreatedWithinHour(entries[..|entries| - 1], scope, subject, from)
      + (if from <= last.attempt.now <= from + HOUR && last.outcome == Created
            && Reached(last, BucketKey(scope, subject, StartOfBucket(last.attempt.now))) then 1 else 0)
  }

  lemma {:induction false} HourTouchesTwoBuckets(entries: seq<Entry>, scope: Scope, subject: string, from: Millis)
    ensures var start := StartOfBucket(from);
            CreatedWithinHour(entries, scope, subject, from)
            <= CreatedIn(entries, BucketKey(scope, subject, start))
               + CreatedIn(entries, BucketKey(scope, subject, start + HOUR))
  {
    if entries != [] {
      HourTouchesTwoBuckets(entries[..|entries| - 1], scope, subject, from);
      var now := entries[|entries| - 1].attempt.now;
      if from <= now <= from + HOUR {
        assert StartOfBucket(now) == StartOfBucket(from) || StartOfBucket(now) == StartOfBucket(from) + HOUR;
      }
    }
  }

  /** Hence no stretch of sixty minutes yields more than twenty for an IP, nor more than six for an email. */
  lemma CreationsPerHour(events: seq<Event>, scope: Scope, subject: string, from: Millis)
    requires FallsBackAtMost([], events, MAX_FALLBACK)
    ensures CreatedWithinHour(EntriesOf(NOTHING, events), scope, subject, from) <= 2 * Limit(scope)
    ensures Limit(Ip) == 10 && Limit(Email) == 3
  {
    HourTouchesTwoBuckets(EntriesOf(NOTHING, events), scope, subject, from);
    CreationsPerBucket(events, BucketKey(scope, subject, StartOfBucket(from)));
    CreationsPerBucket(events, BucketKey(scope, subject, StartOfBucket(from) + HOUR));
  }

  // ----- one request a day

  /**
   Two requests for one email are a day apart (less the clock skew), unless the earlier one has
   been rejected once.
   */
  ghost predicate SpacedOut(requests: seq<Request>, rejected: set<nat>, skew: Millis) {
    && (forall i | 0 <= i < |requests| && requests[i].status == Rejected :: i in rejected)
    && (forall i, j | 0 <= i < j < |requests| && requests[i].email == requests[j].email && i !in rejected ::
          requests[j].createdAt - requests[i].createdAt > DUPLICATE_WINDOW - skew)
  }

  function RejectedBy(events: seq<Event>): set<nat> {
    set i | 0 <= i < |events| && events[i].StatusSet? && events[i].status == Rejected :: events[i].id
  }

  ghost predicate SkewAtMost(events: seq<Event>, skew: Millis) {
    forall i | 0 <= i < |events| && events[i].Attempted? :: events[i].a.dbNow >= events[i].a.now - skew
  }

  lemma StepKeepsSpacing(l: Limiter, e: Event, rejected: set<nat>, skew: Millis)
    requires SpacedOut(l.requests, rejected, skew) && (e.Attempted? ==> e.a.dbNow >= e.a.now - skew)
    ensures SpacedOut(Step(l, e).0.requests, rejected + RejectedBy([e]), skew)
  {
    assert e.StatusSet? && e.status == Rejected ==> [e][0].id in RejectedBy([e]);
    if e.Attempted? {
      AttemptKeepsSpacing(l, e.a, e.cleanup, rejected, skew);
      assert RejectedBy([e]) == {};
      assert rejected + RejectedBy([e]) == rejected;
    } else {
      var requests, next := l.requests, WithStatus(l.requests, e.id, e.status);
      assert forall i | 0 <= i < |requests| ::
          next[i].email == requests[i].email && next[i].createdAt == requests[i].createdAt;
    }
  }

  lemma AttemptKeepsSpacing(l: Limiter, a: Attempt, cleanup: bool, rejected: set<nat>, skew: Millis)
    requires SpacedOut(l.requests, rejected, skew) && a.dbNow >= a.now - skew
    ensures SpacedOut(Persist(l, a, cleanup).0.requests, rejected, skew)
  {
  }

  lemma {:induction false} RunKeepsSpacing(l: Limiter, events: seq<Event>, rejected: set<nat>, skew: Millis)
    requires SpacedOut(l.requests, rejected, skew) && SkewAtMost(events, skew)
    ensures SpacedOut(Run(l, events).0.requests, rejected + RejectedBy(events), skew)
    decreases |events|
  {
    if events == [] {
      assert rejected + RejectedBy(events) == rejected;
    } else {
      StepKeepsSpacing(l, events[0], rejected, skew);
      RunKeepsSpacing(Step(l, events[0]).0, events[1..], rejected + RejectedBy([events[0]]), skew);
      RejectedByParts(events);
      assert rejected + RejectedBy(events) == rejected + RejectedBy([events[0]]) + RejectedBy(events[1..]);
    }
  }

  lemma RejectedByParts(events: seq<Event>)
    requires events != []
    ensures RejectedBy(events) == RejectedBy([events[0]]) + RejectedBy(events[1..])
  {
    var first, rest := [events[0]], events[1..];
    forall id | id in RejectedBy(events) ensures id in RejectedBy(first) + RejectedBy(rest) {
      var i :| 0 <= i < |events| && events[i].StatusSet? && events[i].status == Rejected && events[i].id == id;
      assert if i == 0 then first[0] == events[0] else rest[i - 1] == events[i];
    }
    forall id | id in RejectedBy(first) ensures id in RejectedBy(events) {
      assert first[0] == events[0];
    }
    forall id | id in RejectedBy(rest) ensures id in RejectedBy(events) {
      var i :| 0 <= i < |rest| && rest[i].StatusSet? && rest[i].status == Rejected && rest[i].id == id;
      assert events[i + 1] == rest[i];
    }
  }

  /**
   Requests for one email that are never rejected lie more than 24 hours apart, in the order
   of their creation, whatever values the clock takes: no order of the clock is assumed, only
   that the database clock is not behind the program's by more than `skew`.
   */
  lemma UnrejectedRequestsAreADayApart(events: seq<Event>, skew: Millis, i: nat, j: nat)
    requires SkewAtMost(events, skew)
    requires var requests := Run(NOTHING, events).0.requests;
             i < j < |requests| && requests[i].email == requests[j].email
    requires i !in RejectedBy(events)
    ensures var requests := Run(NOTHING, events).0.requests;
            requests[j].createdAt - requests[i].createdAt > 24 * HOUR - skew
  {
    RunKeepsSpacing(NOTHING, events, {}, skew);
    assert {} + RejectedBy(events) == RejectedBy(events);
  }

  /** A request may be rejected, replaced at once, and approved again: then two unrejected ones are not apart. */
  lemma ReapprovedRequestsCanCoincide() returns (events: seq<Event>)
    ensures SkewAtMost(events, 0)
    ensures var requests := Run(NOTHING, events).0.requests;
            |requests| == 2 && requests[0] == requests[1].(status := Approved) && requests[1].status == New
  {
    var attempt, reject, approve := LateAttempt(), StatusSet(0, Rejected), StatusSet(0, Approved);
    events := [attempt] + [reject] + [attempt] + [approve];
    assert Run(NOTHING, []) == (NOTHING, []);
    RunOneMore(NOTHING, [], attempt);
    assert [] + [attempt] == [attempt];
    RunOneMore(NOTHING, [attempt], reject);
    RunOneMore(NOTHING, [attempt] + [reject], attempt);
    RunOneMore(NOTHING, [attempt] + [reject] + [attempt], approve);
  }
}
