/**
 What an applicant is answered, in terms of the attempts and requests so far: how many attempts
 of the same address or email fell into the same clock hour, and which requests are recent.
 */
module AccessRequestAnswers {
  import opened Options
  import opened AccessRequests
  import opened AccessRequestTheorems

  function CountIf<T>(s: seq<T>, p: T -> bool): nat {
    if s == [] then 0 else CountIf(s[..|s| - 1], p) + (if p(s[|s| - 1]) then 1 else 0)
  }

  /** An unrejected request of the same email in the last 24 hours. */
  ghost predicate RequestedLately(requests: seq<Request>, a: Attempt) {
    exists r :: r in requests
      && r.email == a.email && r.status != Rejected && r.createdAt >= a.now - 24 * 60 * 60 * 1_000
  }

  lemma DuplicateMeans(requests: seq<Request>, a: Attempt)
    ensures HasRecentDuplicate(requests, a.email, a.now) <==> RequestedLately(requests, a)
  {
    if HasRecentDuplicate(requests, a.email, a.now) {
      var i :| 0 <= i < |requests| && requests[i].email == a.email && requests[i].status != Rejected
               && requests[i].createdAt >= a.now - DUPLICATE_WINDOW;
      assert requests[i] in requests;
    }
  }

  // ----- one attempt, on the tables

  /** The hits of a counter for the hour of the attempt. */
  function HitsOf(l: Limiter, scope: Scope, subject: string, now: Millis): nat {
    var key := BucketKey(scope, subject, now / 3_600_000 * 3_600_000);
    if key in l.buckets then l.buckets[key] else 0
  }

  /**
   The answer to one attempt: the eleventh hit of an address in a clock hour and the fourth of an
   email are refused, then duplicates are, and only then a request is created, with the
   database's time. A cleanup makes no difference to the counters of the hour.
   */
  lemma AnswerOfOneAttempt(l: Limiter, a: Attempt, cleanup: bool)
    ensures var (next, outcome) := Persist(l, a, cleanup);
            var byIp := a.ip.Some? && HitsOf(l, Ip, a.ip.value, a.now) >= 10;
            var byEmail := HitsOf(l, Email, a.email, a.now) >= 3;
            && (outcome == RateLimitedIp <==> byIp)
            && (outcome == RateLimitedEmail <==> !byIp && byEmail)
            && (outcome == Duplicate24h <==> !byIp && !byEmail && RequestedLately(l.requests, a))
            && (outcome == Created <==> !byIp && !byEmail && !RequestedLately(l.requests, a))
            && next.requests ==
               l.requests + (if outcome == Created then [Request(a.email, Status.New, a.dbNow)] else [])
  {
    DuplicateMeans(l.requests, a);
    assert StartOfBucket(a.now) >= a.now - RETENTION;
    assert l.requests + [] == l.requests;
  }

  function OwnRows(requests: seq<Request>, email: string): seq<Request> {
    if requests == [] then []
    else (if requests[0].email == email then [requests[0]] else []) + OwnRows(requests[1..], email)
  }

  lemma {:induction false} OwnRowsMembers(requests: seq<Request>, email: string, r: Request)
    ensures r in OwnRows(requests, email) <==> r in requests && r.email == email
  {
    if requests != [] {
      OwnRowsMembers(requests[1..], email, r);
    }
  }

  /** Only the counters of its own address and email, and the requests of its own email, decide an attempt. */
  lemma OthersDoNotMatter(l: Limiter, other: Limiter, a: Attempt, cleanup: bool, otherCleanup: bool)
    requires a.ip.Some? ==> HitsOf(l, Ip, a.ip.value, a.now) == HitsOf(other, Ip, a.ip.value, a.now)
    requires HitsOf(l, Email, a.email, a.now) == HitsOf(other, Email, a.email, a.now)
    requires OwnRows(l.requests, a.email) == OwnRows(other.requests, a.email)
    ensures Persist(l, a, cleanup).1 == Persist(other, a, otherCleanup).1
  {
    AnswerOfOneAttempt(l, a, cleanup);
    AnswerOfOneAttempt(other, a, otherCleanup);
    forall r: Request | r.email == a.email ensures r in l.requests <==> r in other.requests {
      OwnRowsMembers(l.requests, a.email, r);
      OwnRowsMembers(other.requests, a.email, r);
    }
  }

  // ----- a run, on the history

  predicate SameHour(x: Millis, y: Millis) {
    x / 3_600_000 == y / 3_600_000
  }

  lemma {:induction false} IpCount(entries: seq<Entry>, a: Attempt)
    requires a.ip.Some?
    ensures Count(entries, IpKey(a)) ==
            CountIf(entries, (e: Entry) => e.attempt.ip == a.ip && SameHour(e.attempt.now, a.now))
  {
    if entries != [] {
      IpCount(entries[..|entries| - 1], a);
    }
  }

  lemma {:induction false} EmailCount(entries: seq<Entry>, a: Attempt)
    ensures Count(entries, EmailKey(a)) ==
            CountIf(entries, (e: Entry) => e.attempt.email == a.email && SameHour(e.attempt.now, a.now)
                                           && e.outcome != RateLimitedIp)
  {
    if entries != [] {
      EmailCount(entries[..|entries| - 1], a);
    }
  }

  lemma PrefixFallsBack(events: seq<Event>, e: Event)
    requires FallsBackAtMost([], events + [e], MAX_FALLBACK)
    ensures FallsBackAtMost([], events, MAX_FALLBACK)
  {
    assert forall i | 0 <= i < |events| :: (events + [e])[i] == events[i];
  }

  /**
   Whatever came before (attempts, decisions, cleanups), an attempt is answered from the attempts
   and requests so far: refused by address when ten attempts from it fell into the same clock
   hour, by email when three attempts that passed the first limit did, as a duplicate when an
   unrejected request of the email is at most a day old, and otherwise accepted.
   */
  lemma AnswerFromHistory(events: seq<Event>, a: Attempt, cleanup: bool)
    requires FallsBackAtMost([], events + [Event.Attempted(a, cleanup)], MAX_FALLBACK)
    ensures |Run(NOTHING, events + [Event.Attempted(a, cleanup)]).1| == |events| + 1
    ensures var answer := Run(NOTHING, events + [Event.Attempted(a, cleanup)]).1[|events|];
            var attempts, requests := EntriesOf(NOTHING, events), Run(NOTHING, events).0.requests;
            var byIp := a.ip.Some? &&
              CountIf(attempts, (e: Entry) => e.attempt.ip == a.ip && SameHour(e.attempt.now, a.now)) >= 10;
            var byEmail :=
              CountIf(attempts, (e: Entry) => e.attempt.email == a.email && SameHour(e.attempt.now, a.now)
                                              && e.outcome != RateLimitedIp) >= 3;
            answer == Some(if byIp then RateLimitedIp
                           else if byEmail then RateLimitedEmail
                           else if RequestedLately(requests, a) then Duplicate24h
                           else Created)
  {
    var e := Event.Attempted(a, cleanup);
    PrefixFallsBack(events, e);
    TableMirrorsHistory(NOTHING, EMPTY, events);
    TableMirrorsHistory(NOTHING, EMPTY, events + [e]);
    RunOneMore(NOTHING, events, e);
    SameLength(NOTHING, EMPTY, events);
    CountingRunOneMore(EMPTY, events, e);
    EntriesAreHistory(NOTHING, EMPTY, events);
    var h := CountingRun(EMPTY, events).0;
    assert h.entries == EntriesOf(NOTHING, events);
    JudgeMeans(h, a);
  }

  lemma JudgeMeans(h: Ledger, a: Attempt)
    ensures var byIp := a.ip.Some? &&
              CountIf(h.entries, (e: Entry) => e.attempt.ip == a.ip && SameHour(e.attempt.now, a.now)) >= 10;
            var byEmail :=
              CountIf(h.entries, (e: Entry) => e.attempt.email == a.email && SameHour(e.attempt.now, a.now)
                                               && e.outcome != RateLimitedIp) >= 3;
            Judge(h, a) == if byIp then RateLimitedIp
                           else if byEmail then RateLimitedEmail
                           else if RequestedLately(h.requests, a) then Duplicate24h
                           else Created
  {
    DuplicateMeans(h.requests, a);
    EmailCount(h.entries, a);
    if a.ip.Some? {
      IpCount(h.entries, a);
    }
  }

  // ----- the requests are the attempts that were accepted

  /** Email and time of each request. */
  function Rows(requests: seq<Request>): seq<(string, Millis)> {
    seq(|requests|, i requires 0 <= i < |requests| => (requests[i].email, requests[i].createdAt))
  }

  function Row(e: Entry): seq<(string, Millis)> {
    if e.outcome == Created then [(e.attempt.email, e.attempt.dbNow)] else []
  }

  function Accepted(entries: seq<Entry>): seq<(string, Millis)> {
    if entries == [] then [] else Row(entries[0]) + Accepted(entries[1..])
  }

  lemma RowsAfterStep(l: Limiter, e: Event)
    ensures Rows(Step(l, e).0.requests) == Rows(l.requests) + Accepted(EntryOf(l, e))
  {
    if e.Attempted? {
      AnswerOfOneAttempt(l, e.a, e.cleanup);
      var rest: seq<Entry> := EntryOf(l, e)[1..];
      assert rest == [];
    }
  }

  lemma {:induction false} AcceptedParts(a: seq<Entry>, b: seq<Entry>)
    ensures Accepted(a + b) == Accepted(a) + Accepted(b)
  {
    if a == [] {
      assert a + b == b;
    } else {
      var rest := a[1..];
      assert (a + b)[0] == a[0] && (a + b)[1..] == rest + b;
      AcceptedParts(rest, b);
      InOrder(Row(a[0]), Accepted(rest), Accepted(b));
    }
  }

  /** One row per accepted attempt, in order, with its email and the database's time; decisions change neither. */
  lemma {:induction false} RequestsAreAcceptedAttempts(l: Limiter, events: seq<Event>)
    ensures Rows(Run(l, events).0.requests) == Rows(l.requests) + Accepted(EntriesOf(l, events))
    decreases |events|
  {
    if events != [] {
      var next := Step(l, events[0]).0;
      RowsAfterStep(l, events[0]);
      RequestsAreAcceptedAttempts(next, events[1..]);
      AcceptedParts(EntryOf(l, events[0]), EntriesOf(next, events[1..]));
      InOrder(Rows(l.requests), Accepted(EntryOf(l, events[0])), Accepted(EntriesOf(next, events[1..])));
    }
  }

  lemma {:induction false} NoAttemptNoRow(entries: seq<Entry>, email: string, i: nat)
    requires i < |Accepted(entries)| && forall e | e in entries :: e.attempt.email != email
    ensures Accepted(entries)[i].0 != email
  {
    var head := Row(entries[0]);
    assert entries[0] in entries && forall e | e in entries[1..] :: e in entries;
    if i >= |head| {
      NoAttemptNoRow(entries[1..], email, i - |head|);
    }
  }

  lemma {:induction false} EntriesAreOfEvents(l: Limiter, events: seq<Event>, e: Entry)
    requires e in EntriesOf(l, events)
    ensures exists j :: 0 <= j < |events| && events[j].Attempted? && events[j].a == e.attempt
    decreases |events|
  {
    if e !in EntryOf(l, events[0]) {
      EntriesAreOfEvents(Step(l, events[0]).0, events[1..], e);
      var j :| 0 <= j < |events[1..]| && events[1..][j].Attempted? && events[1..][j].a == e.attempt;
      assert events[j + 1] == events[1..][j];
    }
  }

  lemma {:induction false} CountIfNone<T>(s: seq<T>, p: T -> bool)
    requires forall x | x in s :: !p(x)
    ensures CountIf(s, p) == 0
  {
    if s != [] {
      CountIfNone(s[..|s| - 1], p);
    }
  }

  /** Who has not attempted before is accepted, whatever everybody else did, unless the address is used up. */
  lemma FirstAttemptIsAccepted(events: seq<Event>, a: Attempt, cleanup: bool)
    requires FallsBackAtMost([], events + [Event.Attempted(a, cleanup)], MAX_FALLBACK)
    requires forall j | 0 <= j < |events| && events[j].Attempted? :: events[j].a.email != a.email
    requires a.ip.Some? ==>
               CountIf(EntriesOf(NOTHING, events),
                       (e: Entry) => e.attempt.ip == a.ip && SameHour(e.attempt.now, a.now)) < 10
    ensures |Run(NOTHING, events + [Event.Attempted(a, cleanup)]).1| == |events| + 1
    ensures Run(NOTHING, events + [Event.Attempted(a, cleanup)]).1[|events|] == Some(Created)
  {
    AnswerFromHistory(events, a, cleanup);
    var attempts, requests := EntriesOf(NOTHING, events), Run(NOTHING, events).0.requests;
    forall e | e in attempts ensures e.attempt.email != a.email {
      EntriesAreOfEvents(NOTHING, events, e);
    }
    CountIfNone(attempts, (e: Entry) => e.attempt.email == a.email && SameHour(e.attempt.now, a.now)
                                        && e.outcome != RateLimitedIp);
    RequestsAreAcceptedAttempts(NOTHING, events);
    forall r | r in requests ensures r.email != a.email {
      var i :| 0 <= i < |requests| && requests[i] == r;
      assert Rows(requests)[i] == (r.email, r.createdAt) && Rows(requests) == Accepted(attempts);
      NoAttemptNoRow(attempts, a.email, i);
    }
  }
}
