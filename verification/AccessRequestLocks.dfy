/**
 Access-request attempts as interleaved transactions. Incrementing a counter takes a lock on
 its row and keeps it until the transaction ends; other statements see committed rows only.
 The cleanup at the start of an attempt is one atomic step.
 */
module AccessRequestLocks {
  import opened Options
  import opened AccessRequests

  type TxId = nat

  datatype Phase =
    | WantsIp
    | WantsEmail
    | Checking
    | Inserting
    | Committing(outcome: Outcome)
    | Committed(outcome: Outcome)
    | RolledBack

  /** `pending` holds the counters the transaction has written but not committed. */
  datatype Tx = Tx(a: Attempt, phase: Phase, pending: map<BucketKey, nat>)

  /** A committed request; the attempt it comes from is bookkeeping. */
  datatype Row = Row(request: Request, a: Attempt)

  /** `everRejected` is bookkeeping: the rows an admin has rejected at some time. */
  datatype State = State(
    buckets: map<BucketKey, nat>, rows: seq<Row>, holders: map<BucketKey, TxId>,
    txs: map<TxId, Tx>, everRejected: set<nat>)

  datatype Action =
    | Begin(id: TxId, a: Attempt, cleanup: bool)
    | Lock(id: TxId)
    | Check(id: TxId)
    | Insert(id: TxId)
    | Commit(id: TxId)
    | Abort(id: TxId)
    | SetStatus(row: nat, status: Status)

  predicate Live(phase: Phase) {
    !phase.Committed? && !phase.RolledBack?
  }

  predicate Locking(tx: Tx) {
    (tx.phase.WantsIp? && tx.a.ip.Some?) || tx.phase.WantsEmail?
  }

  function WantedKey(tx: Tx): BucketKey
    requires Locking(tx)
  {
    if tx.phase.WantsIp? then IpKey(tx.a) else EmailKey(tx.a)
  }

  function Requests(rows: seq<Row>): (requests: seq<Request>)
    ensures |requests| == |rows| && forall i | 0 <= i < |rows| :: requests[i] == rows[i].request
  {
    seq(|rows|, i requires 0 <= i < |rows| => rows[i].request)
  }

  ghost predicate Enabled(s: State, act: Action) {
    match act
    case Begin(id, a, cleanup) =>
      id !in s.txs && (cleanup ==> forall k | k in s.holders :: k.start >= a.now - RETENTION)
    case Lock(id) => id in s.txs && Locking(s.txs[id]) && WantedKey(s.txs[id]) !in s.holders
    case Check(id) => id in s.txs && s.txs[id].phase.Checking?
    case Insert(id) => id in s.txs && s.txs[id].phase.Inserting?
    case Commit(id) => id in s.txs && s.txs[id].phase.Committing?
    case Abort(id) => id in s.txs && Live(s.txs[id].phase)
    case SetStatus(row, _) => row < |s.rows|
  }

  function AfterLock(tx: Tx, hits: nat): Phase
    requires Locking(tx)
  {
    if tx.phase.WantsIp? then (if hits > Limit(Ip) then Committing(RateLimitedIp) else WantsEmail)
    else if hits > Limit(Email) then Committing(RateLimitedEmail) else Checking
  }

  function LockStep(s: State, id: TxId): State
    requires id in s.txs && Locking(s.txs[id])
  {
    var tx := s.txs[id];
    var key := WantedKey(tx);
    var hits := Hits(s.buckets, key) + 1;
    s.(holders := s.holders[key := id],
       txs := s.txs[id := tx.(phase := AfterLock(tx, hits), pending := tx.pending[key := hits])])
  }

  function Moved(s: State, id: TxId, phase: Phase): State
    requires id in s.txs
  {
    s.(txs := s.txs[id := s.txs[id].(phase := phase)])
  }

  function Released(holders: map<BucketKey, TxId>, id: TxId): map<BucketKey, TxId> {
    map k | k in holders && holders[k] != id :: holders[k]
  }

  function NewRow(a: Attempt): Row {
    Row(Request(a.email, New, a.dbNow), a)
  }

  function CommitStep(s: State, id: TxId): State
    requires id in s.txs && s.txs[id].phase.Committing?
  {
    var tx := s.txs[id];
    var rows := if tx.phase.outcome == Created then s.rows + [NewRow(tx.a)] else s.rows;
    Moved(s, id, Committed(tx.phase.outcome)).(
      buckets := s.buckets + tx.pending, rows := rows, holders := Released(s.holders, id))
  }

  function Apply(s: State, act: Action): State
    requires Enabled(s, act)
  {
    match act
    case Begin(id, a, cleanup) =>
      s.(buckets := if cleanup then CleanedUp(s.buckets, a.now) else s.buckets,
         txs := s.txs[id := Tx(a, if a.ip.Some? then WantsIp else WantsEmail, map[])])
    case Lock(id) => LockStep(s, id)
    case Check(id) =>
      var duplicate := HasRecentDuplicate(Requests(s.rows), s.txs[id].a.email, s.txs[id].a.now);
      Moved(s, id, if duplicate then Committing(Duplicate24h) else Inserting)
    case Insert(id) => Moved(s, id, Committing(Created))
    case Commit(id) => CommitStep(s, id)
    case Abort(id) => Moved(s, id, RolledBack).(holders := Released(s.holders, id))
    case SetStatus(row, status) =>
      s.(rows := s.rows[row := s.rows[row].(request := s.rows[row].request.(status := status))],
         everRejected := if status == Rejected then s.everRejected + {row} else s.everRejected)
  }

  ghost predicate Runs(s: State, actions: seq<Action>, last: State)
    decreases |actions|
  {
    if actions == [] then last == s else Enabled(s, actions[0]) && Runs(Apply(s, actions[0]), actions[1..], last)
  }

  const NOBODY := State(map[], [], map[], map[], {})

  ghost predicate Reachable(s: State) {
    exists actions :: Runs(NOBODY, actions, s)
  }

  // ----- who holds what

  /** The counters a transaction has locked at this phase. */
  predicate HoldsIp(tx: Tx) {
    tx.a.ip.Some? && Live(tx.phase) && !tx.phase.WantsIp?
  }

  predicate HoldsEmail(tx: Tx) {
    tx.phase.Checking? || tx.phase.Inserting? || (tx.phase.Committing? && tx.phase.outcome != RateLimitedIp)
  }

  predicate Holds(tx: Tx, key: BucketKey) {
    (HoldsIp(tx) && key == IpKey(tx.a)) || (HoldsEmail(tx) && key == EmailKey(tx.a))
  }

  ghost predicate LocksOk(s: State) {
    && (forall k | k in s.holders :: s.holders[k] in s.txs && Holds(s.txs[s.holders[k]], k))
    && (forall id, k | id in s.txs && Holds(s.txs[id], k) :: k in s.holders && s.holders[k] == id)
    && (forall id | id in s.txs && s.txs[id].phase.WantsIp? :: s.txs[id].a.ip.Some?)
  }

  /** A step of one transaction that leaves its locks as they are. */
  lemma LocksWhenMoved(s: State, s': State, id: TxId, tx: Tx)
    requires LocksOk(s) && s'.holders == s.holders && s'.txs == s.txs[id := tx]
    requires forall k :: Holds(tx, k) <==> id in s.txs && Holds(s.txs[id], k)
    requires tx.phase.WantsIp? ==> tx.a.ip.Some?
    ensures LocksOk(s')
  {
  }

  lemma LocksWhenTaken(s: State, s': State, id: TxId, tx: Tx, key: BucketKey)
    requires LocksOk(s) && id in s.txs && key !in s.holders && s'.holders == s.holders[key := id]
    requires s'.txs == s.txs[id := tx]
    requires forall k :: Holds(tx, k) <==> Holds(s.txs[id], k) || k == key
    requires !tx.phase.WantsIp?
    ensures LocksOk(s')
  {
  }

  lemma LocksWhenReleased(s: State, s': State, id: TxId, tx: Tx)
    requires LocksOk(s) && id in s.txs && s'.holders == Released(s.holders, id)
    requires s'.txs == s.txs[id := tx] && !Live(tx.phase)
    ensures LocksOk(s')
  {
  }

  lemma LocksStep(s: State, act: Action)
    requires LocksOk(s) && Enabled(s, act)
    ensures LocksOk(Apply(s, act))
  {
    var s' := Apply(s, act);
    match act
    case Lock(id) => LocksWhenTaken(s, s', id, s'.txs[id], WantedKey(s.txs[id]));
    case Commit(id) => LocksWhenReleased(s, s', id, s'.txs[id]);
    case Abort(id) => LocksWhenReleased(s, s', id, s'.txs[id]);
    case SetStatus(_, _) =>
    case _ => LocksWhenMoved(s, s', act.id, s'.txs[act.id]);
  }

  lemma {:induction false} ReachableLocks(s: State, actions: seq<Action>, last: State)
    requires LocksOk(s) && Runs(s, actions, last)
    ensures LocksOk(last)
    decreases |actions|
  {
    if actions != [] {
      LocksStep(s, actions[0]);
      ReachableLocks(Apply(s, actions[0]), actions[1..], last);
    }
  }

  // ----- no waiting cycle

  predicate WaitsFor(s: State, id: TxId, other: TxId) {
    && id in s.txs && Locking(s.txs[id])
    && WantedKey(s.txs[id]) in s.holders && s.holders[WantedKey(s.txs[id])] == other
  }

  /** `chain[0]` waits for `chain[1]`, which waits for `chain[2]`, and so on. */
  ghost predicate WaitingChain(s: State, chain: seq<TxId>) {
    forall i | 0 <= i < |chain| - 1 :: WaitsFor(s, chain[i], chain[i + 1])
  }

  /**
   IP counters come first: who waits for one holds nothing, and who waits for an email counter
   waits for somebody at work.
   */
  lemma WaitingHasTwoLevels(s: State, a: TxId, b: TxId, c: TxId)
    requires LocksOk(s) && WaitsFor(s, a, b) && WaitsFor(s, b, c)
    ensures s.txs[a].phase.WantsIp? && s.txs[b].phase.WantsEmail?
    ensures c in s.txs && Live(s.txs[c].phase) && !Locking(s.txs[c])
  {
  }

  /** No chain of waiting transactions has more than three members, so none is a cycle. */
  lemma NoWaitingCycle(s: State, chain: seq<TxId>)
    requires Reachable(s) && WaitingChain(s, chain)
    ensures |chain| <= 3
    ensures |chain| >= 2 ==> chain[0] != chain[|chain| - 1]
  {
    var actions :| Runs(NOBODY, actions, s);
    ReachableLocks(NOBODY, actions, s);
    if |chain| >= 2 {
      assert WaitsFor(s, chain[0], chain[1]);
    }
    if |chain| >= 3 {
      assert WaitsFor(s, chain[1], chain[2]);
      assert |chain| >= 4 ==> WaitsFor(s, chain[2], chain[3]);
      WaitingHasTwoLevels(s, chain[0], chain[1], chain[2]);
    }
  }

  /** The next step of a transaction, other than giving up. */
  function NextStep(tx: Tx, id: TxId): Action {
    if tx.phase.Checking? then Check(id)
    else if tx.phase.Inserting? then Insert(id)
    else if tx.phase.Committing? then Commit(id)
    else Lock(id)
  }

  /** Whenever a transaction is under way, one can go on, without anybody giving up. */
  lemma SomebodyCanMove(s: State, id: TxId) returns (mover: TxId)
    requires Reachable(s) && id in s.txs && Live(s.txs[id].phase)
    ensures mover in s.txs && Live(s.txs[mover].phase) && Enabled(s, NextStep(s.txs[mover], mover))
  {
    var actions :| Runs(NOBODY, actions, s);
    ReachableLocks(NOBODY, actions, s);
    mover := id;
    if Locking(s.txs[mover]) && WantedKey(s.txs[mover]) in s.holders {
      mover := s.holders[WantedKey(s.txs[mover])];
      if Locking(s.txs[mover]) && WantedKey(s.txs[mover]) in s.holders {
        var next := s.holders[WantedKey(s.txs[mover])];
        WaitingHasTwoLevels(s, id, mover, next);
        mover := next;
      }
    }
  }

  // ----- no lost hit

  /** A transaction has written the counters it holds, and its answer so far follows from them. */
  predicate Answered(tx: Tx) {
    && (HoldsIp(tx) ==>
         IpKey(tx.a) in tx.pending && (tx.phase == Committing(RateLimitedIp) <==> tx.pending[IpKey(tx.a)] > Limit(Ip)))
    && (HoldsEmail(tx) ==>
         EmailKey(tx.a) in tx.pending
             && (tx.phase == Committing(RateLimitedEmail) <==> tx.pending[EmailKey(tx.a)] > Limit(Email)))
    && (tx.a.ip.None? ==> tx.phase != Committing(RateLimitedIp))
  }

  /** What a transaction has written to a counter is one more than what is committed. */
  ghost predicate CountersOk(s: State) {
    forall id | id in s.txs && Live(s.txs[id].phase) :: CountersOf(s.txs[id], s.buckets)
  }

  ghost predicate CountersOf(tx: Tx, buckets: map<BucketKey, nat>) {
    Answered(tx) && (forall k | k in tx.pending :: Holds(tx, k) && tx.pending[k] == Hits(buckets, k) + 1)
  }

  lemma CountersElsewhere(s: State, buckets: map<BucketKey, nat>, id: TxId)
    requires LocksOk(s) && id in s.txs && Live(s.txs[id].phase) && CountersOf(s.txs[id], s.buckets)
    requires forall k | k in s.holders && s.holders[k] == id :: Hits(buckets, k) == Hits(s.buckets, k)
    ensures CountersOf(s.txs[id], buckets)
  {
  }

  lemma CountersOfLocked(tx: Tx, buckets: map<BucketKey, nat>)
    requires Locking(tx) && CountersOf(tx, buckets)
    ensures var hits := Hits(buckets, WantedKey(tx)) + 1;
            CountersOf(tx.(phase := AfterLock(tx, hits), pending := tx.pending[WantedKey(tx) := hits]), buckets)
  {
  }

  lemma CountersWhenLocked(s: State, id: TxId)
    requires CountersOk(s) && Enabled(s, Lock(id))
    ensures CountersOk(LockStep(s, id))
  {
    CountersOfLocked(s.txs[id], s.buckets);
  }

  lemma CountersWhenCommitted(s: State, id: TxId)
    requires LocksOk(s) && CountersOk(s) && Enabled(s, Commit(id))
    ensures CountersOk(CommitStep(s, id))
  {
    var s' := CommitStep(s, id);
    assert CountersOf(s.txs[id], s.buckets);
    forall other | other in s'.txs && Live(s'.txs[other].phase) ensures CountersOf(s'.txs[other], s'.buckets) {
      assert other != id && s'.txs[other] == s.txs[other];
      CountersElsewhere(s, s'.buckets, other);
    }
  }

  lemma CountersWhenBegun(s: State, id: TxId, a: Attempt, cleanup: bool)
    requires LocksOk(s) && CountersOk(s) && Enabled(s, Begin(id, a, cleanup))
    ensures CountersOk(Apply(s, Begin(id, a, cleanup)))
  {
    var s' := Apply(s, Begin(id, a, cleanup));
    forall other | other in s'.txs && Live(s'.txs[other].phase) ensures CountersOf(s'.txs[other], s'.buckets) {
      if other != id {
        CountersElsewhere(s, s'.buckets, other);
      }
    }
  }

  lemma CountersStep(s: State, act: Action)
    requires LocksOk(s) && CountersOk(s) && Enabled(s, act)
    ensures CountersOk(Apply(s, act))
  {
    match act
    case Begin(id, a, cleanup) => CountersWhenBegun(s, id, a, cleanup);
    case Lock(id) => CountersWhenLocked(s, id);
    case Commit(id) => CountersWhenCommitted(s, id);
    case SetStatus(_, _) =>
    case _ => CountersWhenMoved(s, act);
  }

  lemma CountersWhenMoved(s: State, act: Action)
    requires CountersOk(s) && Enabled(s, act) && (act.Check? || act.Insert? || act.Abort?)
    ensures CountersOk(Apply(s, act))
  {
    var s', id := Apply(s, act), act.id;
    assert CountersOf(s.txs[id], s.buckets);
    if !act.Abort? {
      assert forall k :: Holds(s'.txs[id], k) <==> Holds(s.txs[id], k);
    }
  }

  lemma {:induction false} ReachableCounters(s: State, actions: seq<Action>, last: State)
    requires LocksOk(s) && CountersOk(s) && Runs(s, actions, last)
    ensures LocksOk(last) && CountersOk(last)
    decreases |actions|
  {
    if actions != [] {
      LocksStep(s, actions[0]);
      CountersStep(s, actions[0]);
      ReachableCounters(Apply(s, actions[0]), actions[1..], last);
    }
  }

  lemma CountersFacts(s: State, id: TxId)
    requires Reachable(s) && id in s.txs && Live(s.txs[id].phase)
    ensures CountersOf(s.txs[id], s.buckets)
  {
    var actions :| Runs(NOBODY, actions, s);
    ReachableCounters(NOBODY, actions, s);
  }

  /**
   However the transactions interleave, a commit does to the counters what the attempt would
   have done running alone at that moment, and is refused by a limit exactly if it would have been.
   */
  lemma CommitCountsAsIfAlone(s: State, id: TxId)
    requires Reachable(s) && id in s.txs && s.txs[id].phase.Committing?
    ensures var (alone, outcome) := Persist(Limiter(s.buckets, Requests(s.rows)), s.txs[id].a, false);
            && Apply(s, Commit(id)).buckets == alone.buckets
            && (s.txs[id].phase.outcome == RateLimitedIp <==> outcome == RateLimitedIp)
            && (s.txs[id].phase.outcome == RateLimitedEmail <==> outcome == RateLimitedEmail)
  {
    CountersFacts(s, id);
    AloneCounters(s, s.txs[id]);
  }

  lemma AloneCounters(s: State, tx: Tx)
    requires tx.phase.Committing? && CountersOf(tx, s.buckets)
    ensures var (alone, outcome) := Persist(Limiter(s.buckets, Requests(s.rows)), tx.a, false);
            && s.buckets + tx.pending == alone.buckets
            && (tx.phase.outcome == RateLimitedIp <==> outcome == RateLimitedIp)
            && (tx.phase.outcome == RateLimitedEmail <==> outcome == RateLimitedEmail)
  {
  }

  // ----- one request per counter

  /** The requests with this attempt's counter that were never rejected were too old for its duplicate check. */
  ghost predicate OthersAreOld(s: State, a: Attempt) {
    forall i | 0 <= i < |s.rows| && EmailKey(s.rows[i].a) == EmailKey(a) && i !in s.everRejected ::
      s.rows[i].a.dbNow < a.now - DUPLICATE_WINDOW
  }

  predicate Creates(phase: Phase) {
    phase.Inserting? || phase == Committing(Created)
  }

  ghost predicate RowsOk(s: State) {
    && (forall i | 0 <= i < |s.rows| ::
         && s.rows[i].request.email == s.rows[i].a.email && s.rows[i].request.createdAt == s.rows[i].a.dbNow
         && (s.rows[i].request.status == Rejected ==> i in s.everRejected))
    && (forall i, j | 0 <= i < j < |s.rows| && EmailKey(s.rows[i].a) == EmailKey(s.rows[j].a) && i !in s.everRejected ::
         s.rows[i].a.dbNow < s.rows[j].a.now - DUPLICATE_WINDOW)
    && (forall id | id in s.txs && Creates(s.txs[id].phase) :: OthersAreOld(s, s.txs[id].a))
  }

  /** The lock on the counter has kept rows away that the check could not see. */
  lemma CheckSeesTheCounter(s: State, a: Attempt)
    requires RowsOk(s) && !HasRecentDuplicate(Requests(s.rows), a.email, a.now)
    ensures OthersAreOld(s, a)
  {
    var requests := Requests(s.rows);
    forall i | 0 <= i < |s.rows| && EmailKey(s.rows[i].a) == EmailKey(a) && i !in s.everRejected
      ensures s.rows[i].a.dbNow < a.now - DUPLICATE_WINDOW
    {
      assert requests[i] == s.rows[i].request;
    }
  }

  lemma RowsWhenCommitted(s: State, id: TxId)
    requires LocksOk(s) && RowsOk(s) && Enabled(s, Commit(id))
    ensures RowsOk(CommitStep(s, id))
  {
    if s.txs[id].phase.outcome == Created {
      RowIsAdded(s, id);
    } else {
      assert forall a :: OthersAreOld(s, a) ==> OthersAreOld(CommitStep(s, id), a);
    }
  }

  lemma RowIsAdded(s: State, id: TxId)
    requires LocksOk(s) && RowsOk(s) && Enabled(s, Commit(id)) && s.txs[id].phase.outcome == Created
    ensures RowsOk(CommitStep(s, id))
  {
    var s', tx := CommitStep(s, id), s.txs[id];
    assert Holds(tx, EmailKey(tx.a)) && OthersAreOld(s, tx.a);
    forall other | other in s'.txs && Creates(s'.txs[other].phase) ensures OthersAreOld(s', s'.txs[other].a) {
      assert s'.txs[other] == s.txs[other] && OthersAreOld(s, s.txs[other].a);
      assert Holds(s.txs[other], EmailKey(s.txs[other].a));
      assert s.holders[EmailKey(tx.a)] == id && s.holders[EmailKey(s.txs[other].a)] == other;
    }
  }

  lemma RowsWhenStatusSet(s: State, row: nat, status: Status)
    requires RowsOk(s) && row < |s.rows|
    ensures RowsOk(Apply(s, SetStatus(row, status)))
  {
    var s' := Apply(s, SetStatus(row, status));
    assert forall i | 0 <= i < |s.rows| :: s'.rows[i].a == s.rows[i].a;
    assert forall a :: OthersAreOld(s, a) ==> OthersAreOld(s', a);
  }

  lemma RowsWithTx(s: State, s': State, id: TxId, tx: Tx)
    requires RowsOk(s) && s'.rows == s.rows && s'.everRejected == s.everRejected && s'.txs == s.txs[id := tx]
    requires Creates(tx.phase) ==> OthersAreOld(s, tx.a)
    ensures RowsOk(s')
  {
    assert forall a :: OthersAreOld(s, a) ==> OthersAreOld(s', a);
  }

  lemma RowsWhenMoved(s: State, s': State, act: Action)
    requires RowsOk(s) && Enabled(s, act) && !act.Commit? && !act.SetStatus? && s' == Apply(s, act)
    ensures RowsOk(s')
  {
    var id := act.id;
    if act.Check? && !HasRecentDuplicate(Requests(s.rows), s.txs[id].a.email, s.txs[id].a.now) {
      CheckSeesTheCounter(s, s.txs[id].a);
    }
    if act.Insert? {
      assert OthersAreOld(s, s.txs[id].a);
    }
    RowsWithTx(s, s', id, s'.txs[id]);
  }

  lemma RowsStep(s: State, act: Action)
    requires LocksOk(s) && RowsOk(s) && Enabled(s, act)
    ensures RowsOk(Apply(s, act))
  {
    match act
    case Commit(id) => RowsWhenCommitted(s, id);
    case SetStatus(row, status) => RowsWhenStatusSet(s, row, status);
    case _ => RowsWhenMoved(s, Apply(s, act), act);
  }

  lemma {:induction false} ReachableRows(s: State, actions: seq<Action>, last: State)
    requires LocksOk(s) && RowsOk(s) && Runs(s, actions, last)
    ensures RowsOk(last)
    decreases |actions|
  {
    if actions != [] {
      LocksStep(s, actions[0]);
      RowsStep(s, actions[0]);
      ReachableRows(Apply(s, actions[0]), actions[1..], last);
    }
  }

  // ----- which two attempts can both create

  /** Both attempts have created a request, and neither request has ever been rejected. */
  ghost predicate BothCreated(s: State, a: Attempt, b: Attempt) {
    exists i, j | 0 <= i < |s.rows| && 0 <= j < |s.rows| ::
      i != j && s.rows[i].a == a && s.rows[j].a == b && i !in s.everRejected && j !in s.everRejected
  }

  /** The clock hours differ, or one attempt's clock is a day past the database's time of the other. */
  predicate MayBothCreate(a: Attempt, b: Attempt) {
    || StartOfBucket(a.now) != StartOfBucket(b.now)
    || a.dbNow < b.now - DUPLICATE_WINDOW
    || b.dbNow < a.now - DUPLICATE_WINDOW
  }

  lemma BothCreatedOnlyIf(s: State, a: Attempt, b: Attempt)
    requires Reachable(s) && a.email == b.email && BothCreated(s, a, b)
    ensures MayBothCreate(a, b)
  {
    var actions :| Runs(NOBODY, actions, s);
    ReachableRows(NOBODY, actions, s);
    var i, j :| 0 <= i < |s.rows| && 0 <= j < |s.rows| && i != j && s.rows[i].a == a && s.rows[j].a == b
                && i !in s.everRejected && j !in s.everRejected;
    assert StartOfBucket(a.now) == StartOfBucket(b.now) ==> EmailKey(s.rows[i].a) == EmailKey(s.rows[j].a);
  }

  lemma {:induction false} RunsOneMore(first: State, actions: seq<Action>, s: State, act: Action)
    requires Runs(first, actions, s) && Enabled(s, act)
    ensures Runs(first, actions + [act], Apply(s, act))
    decreases |actions|
  {
    if actions == [] {
      assert actions + [act] == [act];
      assert Runs(Apply(s, act), [], Apply(s, act));
    } else {
      assert (actions + [act])[1..] == actions[1..] + [act];
      RunsOneMore(Apply(first, actions[0]), actions[1..], s, act);
    }
  }

  lemma StepIsReachable(s: State, act: Action, s': State)
    requires Reachable(s) && Enabled(s, act) && s' == Apply(s, act)
    ensures Reachable(s')
  {
    var actions :| Runs(NOBODY, actions, s);
    RunsOneMore(NOBODY, actions, s, act);
  }

  function WithLocks(holders: map<BucketKey, TxId>, a: Attempt, id: TxId): map<BucketKey, TxId> {
    (if a.ip.Some? then holders[IpKey(a) := id] else holders)[EmailKey(a) := id]
  }

  function Counted(buckets: map<BucketKey, nat>, a: Attempt): map<BucketKey, nat> {
    var ip := if a.ip.Some? then map[IpKey(a) := Hits(buckets, IpKey(a)) + 1] else map[];
    ip[EmailKey(a) := Hits(buckets, EmailKey(a)) + 1]
  }

  /** The attempt has done everything but commit. */
  function WithReady(s: State, id: TxId, a: Attempt): State {
    s.(holders := WithLocks(s.holders, a, id), txs := s.txs[id := Tx(a, Committing(Created), Counted(s.buckets, a))])
  }

  predicate CountersAreFree(s: State, a: Attempt) {
    && EmailKey(a) !in s.holders && Hits(s.buckets, EmailKey(a)) < Limit(Email)
    && (a.ip.Some? ==> IpKey(a) !in s.holders && Hits(s.buckets, IpKey(a)) < Limit(Ip))
  }

  lemma IpLocked(s: State, id: TxId, a: Attempt, s': State)
    requires Reachable(s) && id !in s.txs && CountersAreFree(s, a)
    requires s' == s.(holders := if a.ip.Some? then s.holders[IpKey(a) := id] else s.holders,
                      txs := s.txs[id := Tx(a, WantsEmail,
                          if a.ip.Some? then map[IpKey(a) := Hits(s.buckets, IpKey(a)) + 1] else map[])])
    ensures Reachable(s')
  {
    var begun := Apply(s, Begin(id, a, false));
    StepIsReachable(s, Begin(id, a, false), begun);
    if a.ip.Some? {
      StepIsReachable(begun, Lock(id), s');
    }
  }

  lemma AttemptIsReady(s: State, id: TxId, a: Attempt)
    requires Reachable(s) && id !in s.txs && CountersAreFree(s, a)
    requires !HasRecentDuplicate(Requests(s.rows), a.email, a.now)
    ensures Reachable(WithReady(s, id, a))
  {
    var pending := if a.ip.Some? then map[IpKey(a) := Hits(s.buckets, IpKey(a)) + 1] else map[];
    var holders := if a.ip.Some? then s.holders[IpKey(a) := id] else s.holders;
    var s' := s.(holders := holders, txs := s.txs[id := Tx(a, WantsEmail, pending)]);
    IpLocked(s, id, a, s');
    EmailLocked(s, s', id, a, pending);
  }

  lemma EmailLocked(s: State, s': State, id: TxId, a: Attempt, pending: map<BucketKey, nat>)
    requires s' == s.(holders := if a.ip.Some? then s.holders[IpKey(a) := id] else s.holders,
                      txs := s.txs[id := Tx(a, WantsEmail, pending)])
    requires pending == if a.ip.Some? then map[IpKey(a) := Hits(s.buckets, IpKey(a)) + 1] else map[]
    requires Reachable(s') && CountersAreFree(s, a) && !HasRecentDuplicate(Requests(s.rows), a.email, a.now)
    ensures Reachable(WithReady(s, id, a))
  {
    var locked := WithChecking(s, id, a);
    EmailLockIs(s, s', id, a, pending);
    StepIsReachable(s', Lock(id), locked);
    ChecksAndInserts(locked, id, Tx(a, Committing(Created), Counted(s.buckets, a)));
    assert WithReady(s, id, a) == locked.(txs := locked.txs[id := Tx(a, Committing(Created), Counted(s.buckets, a))]);
  }

  /** Both counters are locked and the check comes next. */
  function WithChecking(s: State, id: TxId, a: Attempt): State {
    s.(holders := WithLocks(s.holders, a, id), txs := s.txs[id := Tx(a, Checking, Counted(s.buckets, a))])
  }

  lemma EmailLockIs(s: State, s': State, id: TxId, a: Attempt, pending: map<BucketKey, nat>)
    requires s' == s.(holders := if a.ip.Some? then s.holders[IpKey(a) := id] else s.holders,
                      txs := s.txs[id := Tx(a, WantsEmail, pending)])
    requires pending == if a.ip.Some? then map[IpKey(a) := Hits(s.buckets, IpKey(a)) + 1] else map[]
    requires CountersAreFree(s, a)
    ensures Enabled(s', Lock(id)) && LockStep(s', id) == WithChecking(s, id, a)
  {
    var tx := s'.txs[id];
    assert WantedKey(tx) == EmailKey(a) && AfterLock(tx, Hits(s.buckets, EmailKey(a)) + 1) == Checking;
  }

  lemma ChecksAndInserts(s: State, id: TxId, tx: Tx)
    requires Reachable(s) && id in s.txs && s.txs[id].phase == Checking
    requires tx == s.txs[id].(phase := Committing(Created))
    requires !HasRecentDuplicate(Requests(s.rows), tx.a.email, tx.a.now)
    ensures Reachable(s.(txs := s.txs[id := tx]))
  {
    var checked := Moved(s, id, Inserting);
    StepIsReachable(s, Check(id), checked);
    StepIsReachable(checked, Insert(id), s.(txs := s.txs[id := tx]));
  }

  /** In different clock hours the attempts hold different counters, and neither check can see the other's request. */
  lemma AcrossTheHourBothCreate(a: Attempt, b: Attempt) returns (s: State)
    requires a.email == b.email && StartOfBucket(a.now) != StartOfBucket(b.now)
    ensures Reachable(s) && s.rows == [NewRow(a), NewRow(b)] && s.everRejected == {}
  {
    assert Runs(NOBODY, [], NOBODY);
    AttemptIsReady(NOBODY, 0, a);
    var one := WithReady(NOBODY, 0, a);
    AttemptIsReady(one, 1, b);
    var both := WithReady(one, 1, b);
    s := BothCommit(both, 0, 1);
  }

  lemma BothCommit(s: State, x: TxId, y: TxId) returns (s': State)
    requires Reachable(s) && x != y && x in s.txs && y in s.txs
    requires s.txs[x].phase == Committing(Created) && s.txs[y].phase == Committing(Created)
    ensures Reachable(s') && s'.rows == s.rows + [NewRow(s.txs[x].a)] + [NewRow(s.txs[y].a)]
    ensures s'.everRejected == s.everRejected
  {
    var first := CommitStep(s, x);
    StepIsReachable(s, Commit(x), first);
    s' := CommitStep(first, y);
    StepIsReachable(first, Commit(y), s');
  }

  lemma CommitsAlone(s: State, id: TxId, a: Attempt) returns (s': State)
    requires Reachable(s) && id !in s.txs && s.holders == map[] && CountersAreFree(s, a)
    requires !HasRecentDuplicate(Requests(s.rows), a.email, a.now)
    ensures Reachable(s') && s'.holders == map[] && s'.buckets == s.buckets + Counted(s.buckets, a)
    ensures s'.rows == s.rows + [NewRow(a)] && s'.everRejected == s.everRejected && s'.txs.Keys == s.txs.Keys + {id}
  {
    AttemptIsReady(s, id, a);
    var ready := WithReady(s, id, a);
    s' := CommitStep(ready, id);
    StepIsReachable(ready, Commit(id), s');
  }

  /**
   With the program's clock a day past the database's time, the check overlooks a request that
   has just been created.
   */
  lemma FarClocksBothCreate(a: Attempt, b: Attempt) returns (s: State)
    requires a.email == b.email && a.dbNow < b.now - DUPLICATE_WINDOW
    ensures Reachable(s) && s.rows == [NewRow(a), NewRow(b)] && s.everRejected == {}
  {
    assert Runs(NOBODY, [], NOBODY);
    s := CommitsAlone(NOBODY, 0, a);
    assert s.rows == [NewRow(a)];
    s := CommitsAlone(s, 1, b);
  }

  /**
   For any two attempts for one email: some interleaving lets both create a request, with
   neither ever rejected, exactly when their clock hours differ or the clocks are a day apart.
   */
  lemma BothCanCreateIff(a: Attempt, b: Attempt)
    requires a.email == b.email
    ensures (exists s :: Reachable(s) && BothCreated(s, a, b)) <==> MayBothCreate(a, b)
  {
    forall s | Reachable(s) && BothCreated(s, a, b) ensures MayBothCreate(a, b) {
      BothCreatedOnlyIf(s, a, b);
    }
    if MayBothCreate(a, b) {
      var s := SomeRunCreatesBoth(a, b);
    }
  }

  lemma SomeRunCreatesBoth(a: Attempt, b: Attempt) returns (s: State)
    requires a.email == b.email && MayBothCreate(a, b)
    ensures Reachable(s) && BothCreated(s, a, b)
  {
    if StartOfBucket(a.now) != StartOfBucket(b.now) {
      s := AcrossTheHourBothCreate(a, b);
      assert s.rows[0].a == a && s.rows[1].a == b;
    } else if a.dbNow < b.now - DUPLICATE_WINDOW {
      s := FarClocksBothCreate(a, b);
      assert s.rows[0].a == a && s.rows[1].a == b;
    } else {
      s := FarClocksBothCreate(b, a);
      assert s.rows[0].a == b && s.rows[1].a == a;
    }
  }

  // ----- how far the clocks may be apart

  predicate SkewWithin(a: Attempt, skew: Millis) {
    a.dbNow >= a.now - skew
  }

  /**
   Two attempts for one email in one clock hour, each with the program's clock at most `skew`
   ahead of the database's.
   */
  predicate SameHour(a: Attempt, b: Attempt, skew: Millis) {
    a.email == b.email && StartOfBucket(a.now) == StartOfBucket(b.now) && SkewWithin(a, skew) && SkewWithin(b, skew)
  }

  const MAX_SKEW: Millis := DUPLICATE_WINDOW - HOUR + 1

  /**
   In one clock hour two attempts for one email never both create a request, while neither is
   rejected, exactly when the clocks are at most 23 hours and a millisecond apart.
   */
  lemma NeverBothCreateIff(skew: Millis)
    ensures (forall a, b, s | SameHour(a, b, skew) && Reachable(s) :: !BothCreated(s, a, b)) <==> skew <= MAX_SKEW
  {
    forall a, b, s | SameHour(a, b, skew) && Reachable(s) && skew <= MAX_SKEW ensures !BothCreated(s, a, b) {
      SameHourIsWithinTheWindow(a, b, skew);
      if BothCreated(s, a, b) {
        BothCreatedOnlyIf(s, a, b);
      }
    }
    if skew > MAX_SKEW {
      var a, b := Attempt(0, -skew, None, "a@x"), Attempt(HOUR - 1, HOUR - 1, None, "a@x");
      var s := FarClocksBothCreate(a, b);
      assert s.rows[0].a == a && s.rows[1].a == b;
      assert SameHour(a, b, skew) && BothCreated(s, a, b);
    }
  }

  lemma SameHourIsWithinTheWindow(a: Attempt, b: Attempt, skew: Millis)
    requires SameHour(a, b, skew) && skew <= MAX_SKEW
    ensures !MayBothCreate(a, b)
  {
    assert StartOfBucket(a.now) <= a.now < StartOfBucket(a.now) + HOUR;
    assert StartOfBucket(b.now) <= b.now < StartOfBucket(b.now) + HOUR;
  }
}
