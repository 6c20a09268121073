/**
 Acceptances of invites as interleaved transactions. The claiming update locks the invite row
 and the insert locks the email's index entry, both until the transaction ends; whoever needs
 one that is locked waits. Uncommitted writes are seen by nobody else.
 */
module InviteRaces {
  import opened Options
  import opened Invites

  type TxId = nat

  datatype Phase =
    | Claiming
    | Inserting(invite: InviteId)
    | Marking(invite: InviteId, user: UserId)
    | Committing(invite: InviteId, user: UserId)
    | Ended(outcome: AcceptOutcome)

  datatype Tx = Tx(a: Acceptance, phase: Phase)

  /** `winner` is bookkeeping: which transaction has committed the use of an invite. */
  datatype State = State(
    t: Tables, inviteLocks: map<InviteId, TxId>, emailLocks: map<string, TxId>,
    txs: map<TxId, Tx>, winner: map<InviteId, TxId>)

  datatype Action =
    | Begin(id: TxId, a: Acceptance)
    | Claim(id: TxId)
    | Insert(id: TxId, newUser: UserId)
    | Mark(id: TxId)
    | Commit(id: TxId)
    | Abort(id: TxId)
    | PersistInvite(i: Invitation, newInvite: InviteId)

  /** The row the claiming update finds, or waits for. */
  function FoundInvite(t: Tables, a: Acceptance): Option<InviteId> {
    if a.tokenHash in t.inviteByToken then Some(t.inviteByToken[a.tokenHash]) else None
  }

  predicate HasUser(phase: Phase) {
    phase.Marking? || phase.Committing?
  }

  predicate HasInvite(phase: Phase) {
    phase.Inserting? || HasUser(phase)
  }

  ghost predicate Enabled(s: State, act: Action) {
    match act
    case Begin(id, _) => id !in s.txs
    case Claim(id) =>
      && id in s.txs && s.txs[id].phase.Claiming?
      && var found := FoundInvite(s.t, s.txs[id].a); found.Some? ==> found.value !in s.inviteLocks
    case Insert(id, newUser) =>
      && id in s.txs && s.txs[id].phase.Inserting? && s.txs[id].phase.invite in s.t.invites
      && s.t.invites[s.txs[id].phase.invite].email !in s.emailLocks
      && newUser !in s.t.users
      && forall other | other in s.txs && HasUser(s.txs[other].phase) :: s.txs[other].phase.user != newUser
    case Mark(id) => id in s.txs && s.txs[id].phase.Marking?
    case Commit(id) => id in s.txs && s.txs[id].phase.Committing? && s.txs[id].phase.invite in s.t.invites
    case Abort(id) => id in s.txs && !s.txs[id].phase.Ended?
    case PersistInvite(_, newInvite) => newInvite !in s.t.invites
  }

  function Moved(s: State, id: TxId, phase: Phase): State
    requires id in s.txs
  {
    s.(txs := s.txs[id := s.txs[id].(phase := phase)])
  }

  /** The end of a transaction releases its locks. */
  function Ending(s: State, id: TxId, outcome: AcceptOutcome): State
    requires id in s.txs
  {
    Moved(s, id, Ended(outcome)).(
      inviteLocks := map k | k in s.inviteLocks && s.inviteLocks[k] != id :: s.inviteLocks[k],
      emailLocks := map k | k in s.emailLocks && s.emailLocks[k] != id :: s.emailLocks[k])
  }

  function ClaimStep(s: State, id: TxId): State
    requires id in s.txs
  {
    var a := s.txs[id].a;
    if !Claimable(s.t, a) then Ending(s, id, InvalidOrExpiredToken)
    else
      var invite := s.t.inviteByToken[a.tokenHash];
      if a.now < s.t.invites[invite].createdAt then Ending(s, id, AcceptThrew("invites_used_after_create_chk"))
      else Moved(s, id, Inserting(invite)).(inviteLocks := s.inviteLocks[invite := id])
  }

  function InsertStep(s: State, id: TxId, newUser: UserId): State
    requires id in s.txs && s.txs[id].phase.Inserting? && s.txs[id].phase.invite in s.t.invites
  {
    var invite := s.txs[id].phase.invite;
    var email := s.t.invites[invite].email;
    if email in s.t.userByEmail then Ending(s, id, UserExists)
    else Moved(s, id, Marking(invite, newUser)).(emailLocks := s.emailLocks[email := id])
  }

  function CommitStep(s: State, id: TxId): State
    requires id in s.txs && s.txs[id].phase.Committing? && s.txs[id].phase.invite in s.t.invites
  {
    var tx := s.txs[id];
    Ending(s, id, Accepted(tx.phase.user)).(
      t := Used(s.t, tx.phase.invite, tx.phase.user, tx.a),
      winner := s.winner[tx.phase.invite := id])
  }

  function Apply(s: State, act: Action): State
    requires Enabled(s, act)
  {
    match act
    case Begin(id, a) => s.(txs := s.txs[id := Tx(a, Claiming)])
    case Claim(id) => ClaimStep(s, id)
    case Insert(id, newUser) => InsertStep(s, id, newUser)
    case Mark(id) => Moved(s, id, Committing(s.txs[id].phase.invite, s.txs[id].phase.user))
    case Commit(id) => CommitStep(s, id)
    case Abort(id) => Ending(s, id, AcceptThrew("aborted"))
    case PersistInvite(i, newInvite) => s.(t := InviteTx(s.t, i, newInvite).0)
  }

  ghost predicate Runs(s: State, actions: seq<Action>, last: State)
    decreases |actions|
  {
    if actions == [] then last == s else Enabled(s, actions[0]) && Runs(Apply(s, actions[0]), actions[1..], last)
  }

  ghost predicate Initial(s: State) {
    InvitesOk(s.t) && s.inviteLocks == map[] && s.emailLocks == map[] && s.txs == map[] && s.winner == map[]
  }

  ghost predicate Reachable(s: State) {
    exists first, actions :: Initial(first) && Runs(first, actions, s)
  }

  // ----- the invariant

  /** While a transaction holds its locks, what it has seen stays true of the committed tables. */
  ghost predicate TxOk(s: State, id: TxId)
    requires id in s.txs
  {
    var a, phase := s.txs[id].a, s.txs[id].phase;
    && (HasInvite(phase) ==>
         && Claimable(s.t, a) && phase.invite == s.t.inviteByToken[a.tokenHash]
         && s.t.invites[phase.invite].createdAt <= a.now
         && phase.invite in s.inviteLocks && s.inviteLocks[phase.invite] == id)
    && (HasUser(phase) ==>
         && var email := s.t.invites[phase.invite].email;
            email !in s.t.userByEmail && email in s.emailLocks && s.emailLocks[email] == id && phase.user !in s.t.users)
  }

  ghost predicate TxsOk(s: State) {
    forall id | id in s.txs :: TxOk(s, id)
  }

  /** No generated id is drawn twice. */
  ghost predicate NewUsersDiffer(s: State) {
    forall a, b | a in s.txs && b in s.txs && a != b && HasUser(s.txs[a].phase) && HasUser(s.txs[b].phase) ::
      s.txs[a].phase.user != s.txs[b].phase.user
  }

  /** Who was told `accepted` has used up the invite with the token, and is its one winner. */
  ghost predicate WinnerOk(s: State, id: TxId)
    requires id in s.txs
  {
    s.txs[id].phase.Ended? && s.txs[id].phase.outcome.Accepted? ==>
      && var found := FoundInvite(s.t, s.txs[id].a);
         && found.Some? && found.value in s.t.invites
         && s.t.invites[found.value].usedBy == Some(s.txs[id].phase.outcome.user)
         && s.t.invites[found.value].usedAt == Some(s.txs[id].a.now) && s.t.invites[found.value].revokedAt.None?
         && found.value in s.winner && s.winner[found.value] == id
         && UserOk(s, s.txs[id].a, s.t.invites[found.value].email, s.txs[id].phase.outcome.user)
  }

  /** The user was made from this acceptance. */
  predicate UserOk(s: State, a: Acceptance, email: string, user: UserId) {
    && user in s.t.users && s.t.users[user].email == email
    && s.t.users[user].passwordHash == a.passwordHash && s.t.users[user].createdAt == a.now
  }

  ghost predicate WinnersOk(s: State) {
    forall id | id in s.txs :: WinnerOk(s, id)
  }

  ghost predicate Inv(s: State) {
    InvitesOk(s.t) && TxsOk(s) && NewUsersDiffer(s) && WinnersOk(s)
  }

  // ----- steps

  lemma TablesStep(s: State, act: Action)
    requires InvitesOk(s.t) && TxsOk(s) && Enabled(s, act)
    ensures InvitesOk(Apply(s, act).t)
  {
    match act
    case PersistInvite(i, newInvite) => InviteKeepsInvites(s.t, i, newInvite);
    case Commit(id) =>
      assert TxOk(s, id);
      CommitIsSequential(s, id);
      AcceptKeepsInvites(s.t, s.txs[id].a, s.txs[id].phase.user);
    case _ =>
  }

  lemma CommitIsSequential(s: State, id: TxId)
    requires id in s.txs && TxOk(s, id) && s.txs[id].phase.Committing?
    ensures s.txs[id].phase.invite in s.t.invites
    ensures AcceptTx(s.t, s.txs[id].a, s.txs[id].phase.user) == (CommitStep(s, id).t, Accepted(s.txs[id].phase.user))
  {
  }

  lemma OtherWhenLocked(s: State, s': State, other: TxId)
    requires other in s.txs && TxOk(s, other) && other in s'.txs && s'.txs[other] == s.txs[other] && s'.t == s.t
    requires forall k | k in s.inviteLocks && s.inviteLocks[k] == other ::
             k in s'.inviteLocks && s'.inviteLocks[k] == other
    requires forall k | k in s.emailLocks && s.emailLocks[k] == other :: k in s'.emailLocks && s'.emailLocks[k] == other
    ensures TxOk(s', other)
  {
  }

  lemma OtherWhenCommitted(s: State, id: TxId, other: TxId)
    requires id in s.txs && other in s.txs && other != id
    requires s.txs[id].phase.Committing? && TxOk(s, id) && TxOk(s, other)
    requires NewUsersDiffer(s)
    ensures s.txs[id].phase.invite in s.t.invites && other in CommitStep(s, id).txs && TxOk(CommitStep(s, id), other)
  {
    var s' := CommitStep(s, id);
    if HasInvite(s.txs[other].phase) {
      assert s.txs[other].phase.invite != s.txs[id].phase.invite;
    }
  }

  lemma OtherWhenInvited(s: State, i: Invitation, newInvite: InviteId, id: TxId)
    requires id in s.txs && TxOk(s, id) && newInvite !in s.t.invites
    ensures TxOk(s.(t := InviteTx(s.t, i, newInvite).0), id)
  {
  }

  lemma TxsWhenNotCommitted(s: State, act: Action)
    requires TxsOk(s) && Enabled(s, act) && !act.Commit? && !act.PersistInvite?
    ensures TxsOk(Apply(s, act))
  {
    var s', id := Apply(s, act), act.id;
    forall other | other in s'.txs ensures TxOk(s', other) {
      if other != id {
        OtherWhenLocked(s, s', other);
      } else if id in s.txs {
        OwnStep(s, act, id);
      }
    }
  }

  lemma OwnStep(s: State, act: Action, id: TxId)
    requires id in s.txs && TxOk(s, id) && Enabled(s, act)
    requires act.Claim? || act.Insert? || act.Mark? || act.Abort?
    requires act.id == id
    ensures TxOk(Apply(s, act), id)
  {
  }

  lemma TxsStep(s: State, act: Action)
    requires TxsOk(s) && NewUsersDiffer(s) && Enabled(s, act)
    ensures TxsOk(Apply(s, act))
  {
    match act
    case Commit(id) =>
      var s' := Apply(s, act);
      forall other | other in s'.txs ensures TxOk(s', other) {
        if other != id {
          OtherWhenCommitted(s, id, other);
        }
      }
    case PersistInvite(i, newInvite) =>
      forall id | id in s.txs ensures TxOk(Apply(s, act), id) {
        OtherWhenInvited(s, i, newInvite, id);
      }
    case _ => TxsWhenNotCommitted(s, act);
  }

  lemma NewUsersWhenInserted(s: State, id: TxId, newUser: UserId)
    requires NewUsersDiffer(s) && Enabled(s, Insert(id, newUser))
    ensures NewUsersDiffer(InsertStep(s, id, newUser))
  {
    var s' := InsertStep(s, id, newUser);
    assert forall other | other in s'.txs && other != id :: other in s.txs && s'.txs[other] == s.txs[other];
  }

  predicate KeepsUser(before: Phase, after: Phase) {
    HasUser(after) ==> HasUser(before) && after.user == before.user
  }

  lemma NewUsersWhenMoved(s: State, s': State, id: TxId)
    requires NewUsersDiffer(s) && id in s.txs && id in s'.txs && s'.txs == s.txs[id := s'.txs[id]]
    requires KeepsUser(s.txs[id].phase, s'.txs[id].phase)
    ensures NewUsersDiffer(s')
  {
  }

  lemma NewUsersStep(s: State, act: Action)
    requires NewUsersDiffer(s) && Enabled(s, act)
    ensures NewUsersDiffer(Apply(s, act))
  {
    match act
    case PersistInvite(_, _) =>
    case Begin(_, _) =>
    case Insert(id, newUser) => NewUsersWhenInserted(s, id, newUser);
    case _ => NewUsersWhenMoved(s, Apply(s, act), act.id);
  }

  /** An invite that has been used stays as it is. */
  lemma UsedInvitesStay(s: State, act: Action, i: InviteId)
    requires TxsOk(s) && Enabled(s, act) && i in s.t.invites && s.t.invites[i].usedBy.Some?
    requires InviteOk(s.t.users, s.t.invites[i])
    ensures i in Apply(s, act).t.invites && Apply(s, act).t.invites[i] == s.t.invites[i]
    ensures i in s.winner ==> i in Apply(s, act).winner && Apply(s, act).winner[i] == s.winner[i]
  {
    if act.Commit? {
      assert TxOk(s, act.id);
    }
  }

  /** Acceptances only add users. */
  lemma UsersStay(s: State, act: Action, user: UserId)
    requires TxsOk(s) && Enabled(s, act) && user in s.t.users
    ensures user in Apply(s, act).t.users && Apply(s, act).t.users[user] == s.t.users[user]
  {
    if act.Commit? {
      assert TxOk(s, act.id);
    }
  }

  lemma TokensStay(s: State, act: Action, a: Acceptance)
    requires Enabled(s, act) && FoundInvite(s.t, a).Some?
    ensures FoundInvite(Apply(s, act).t, a) == FoundInvite(s.t, a)
  {
  }

  lemma OnlyCommitsAccept(s: State, s': State, act: Action, id: TxId)
    requires Enabled(s, act) && act != Commit(id) && s' == Apply(s, act) && id in s'.txs
    requires s'.txs[id].phase.Ended? && s'.txs[id].phase.outcome.Accepted?
    ensures id in s.txs && s.txs[id] == s'.txs[id]
  {
    match act
    case Commit(other) => assert other != id;
    case _ =>
  }

  lemma OldWinnerStays(s: State, s': State, id: TxId)
    requires id in s.txs && WinnerOk(s, id) && id in s'.txs && s.txs[id] == s'.txs[id]
    requires s.txs[id].phase.Ended? && s.txs[id].phase.outcome.Accepted?
    requires FoundInvite(s'.t, s.txs[id].a) == FoundInvite(s.t, s.txs[id].a)
    requires var i := FoundInvite(s.t, s.txs[id].a).value;
             i in s'.t.invites && s'.t.invites[i] == s.t.invites[i] && i in s'.winner && s'.winner[i] == s.winner[i]
    requires var user := s.txs[id].phase.outcome.user; user in s'.t.users && s'.t.users[user] == s.t.users[user]
    ensures WinnerOk(s', id)
  {
  }

  lemma NewWinner(s: State, id: TxId)
    requires TxsOk(s) && Enabled(s, Commit(id))
    ensures WinnerOk(CommitStep(s, id), id)
  {
    assert TxOk(s, id);
  }

  lemma WinnerStep(s: State, act: Action, id: TxId)
    requires EachInviteOk(s.t) && TxsOk(s) && WinnersOk(s) && Enabled(s, act) && id in Apply(s, act).txs
    ensures WinnerOk(Apply(s, act), id)
  {
    var s' := Apply(s, act);
    if act == Commit(id) {
      NewWinner(s, id);
    } else if s'.txs[id].phase.Ended? && s'.txs[id].phase.outcome.Accepted? {
      OnlyCommitsAccept(s, s', act, id);
      assert WinnerOk(s, id);
      UsedInvitesStay(s, act, FoundInvite(s.t, s.txs[id].a).value);
      TokensStay(s, act, s.txs[id].a);
      UsersStay(s, act, s.txs[id].phase.outcome.user);
      OldWinnerStays(s, s', id);
    }
  }

  lemma StepKeepsInv(s: State, act: Action)
    requires Inv(s) && Enabled(s, act)
    ensures Inv(Apply(s, act))
  {
    TablesStep(s, act);
    TxsStep(s, act);
    NewUsersStep(s, act);
    forall id | id in Apply(s, act).txs ensures WinnerOk(Apply(s, act), id) {
      WinnerStep(s, act, id);
    }
  }

  lemma {:induction false} RunKeepsInv(s: State, actions: seq<Action>, last: State)
    requires Inv(s) && Runs(s, actions, last)
    ensures Inv(last)
    decreases |actions|
  {
    if actions != [] {
      StepKeepsInv(s, actions[0]);
      RunKeepsInv(Apply(s, actions[0]), actions[1..], last);
    }
  }

  lemma ReachableInv(s: State)
    requires Reachable(s)
    ensures Inv(s)
  {
    var first, actions :| Initial(first) && Runs(first, actions, s);
    RunKeepsInv(first, actions, s);
  }

  // ----- what the races leave of the promises

  /** The step decides an answer as acceptInvite would have, running alone, and changes the tables accordingly. */
  ghost predicate SequentialAnswer(s: State, s': State, id: TxId)
    requires id in s.txs && id in s'.txs
  {
    match s'.txs[id].phase
    case Ended(Accepted(user)) => AcceptTx(s.t, s.txs[id].a, user) == (s'.t, Accepted(user))
    case Ended(outcome) => forall newUser :: AcceptTx(s.t, s.txs[id].a, newUser) == (s'.t, outcome)
    case _ => s'.t == s.t
  }

  lemma ClaimIsSequential(s: State, id: TxId)
    requires Enabled(s, Claim(id))
    ensures SequentialAnswer(s, ClaimStep(s, id), id)
  {
  }

  lemma InsertIsSequential(s: State, id: TxId, newUser: UserId)
    requires Enabled(s, Insert(id, newUser)) && TxOk(s, id)
    ensures SequentialAnswer(s, InsertStep(s, id, newUser), id)
  {
  }

  lemma TxFacts(s: State, id: TxId)
    requires Reachable(s) && id in s.txs
    ensures TxOk(s, id)
  {
    ReachableInv(s);
  }

  /**
   Every step that decides an answer decides it, and changes the tables, as acceptInvite
   would have done running alone at that moment; no other step of an acceptance touches the tables.
   */
  lemma AnswersAreSequential(s: State, act: Action)
    requires Reachable(s) && Enabled(s, act) && (act.Claim? || act.Insert? || act.Mark? || act.Commit?)
    ensures act.id in s.txs && act.id in Apply(s, act).txs && SequentialAnswer(s, Apply(s, act), act.id)
  {
    TxFacts(s, act.id);
    match act
    case Claim(id) => ClaimIsSequential(s, id);
    case Insert(id, newUser) => InsertIsSequential(s, id, newUser);
    case Commit(id) => CommitIsSequential(s, id);
    case Mark(id) =>
  }

  /**
   Who was told `accepted` has an account with the email of the invite and the password of that
   very acceptance, for good; the invite says by whom and when it was used.
   */
  lemma AcceptedUserIsTheApplicant(s: State, id: TxId)
    requires Reachable(s) && id in s.txs && s.txs[id].phase.Ended? && s.txs[id].phase.outcome.Accepted?
    ensures var a, user := s.txs[id].a, s.txs[id].phase.outcome.user;
            && a.tokenHash in s.t.inviteByToken && s.t.inviteByToken[a.tokenHash] in s.t.invites
            && user in s.t.users
            && var invite, account := s.t.invites[s.t.inviteByToken[a.tokenHash]], s.t.users[user];
               && invite.tokenHash == a.tokenHash && invite.usedBy == Some(user) && invite.usedAt == Some(a.now)
               && account.email == invite.email && account.passwordHash == a.passwordHash && account.createdAt == a.now
  {
    ReachableInv(s);
    assert WinnerOk(s, id);
  }

  /** An invite is accepted at most once, whoever races for it. */
  lemma InviteIsAcceptedOnce(s: State, a: TxId, b: TxId)
    requires Reachable(s) && a in s.txs && b in s.txs && s.txs[a].a.tokenHash == s.txs[b].a.tokenHash
    requires s.txs[a].phase.Ended? && s.txs[a].phase.outcome.Accepted?
    requires s.txs[b].phase.Ended? && s.txs[b].phase.outcome.Accepted?
    ensures a == b
  {
    ReachableInv(s);
    assert WinnerOk(s, a) && WinnerOk(s, b);
  }

  /**
   In every committed state `used_at` is set exactly when `used_by` is, before the expiry;
   used invites belong to different users, with their own emails, which are all different.
   */
  lemma UsedInvitesInjectIntoUsers(s: State, i: InviteId, j: InviteId)
    requires Reachable(s) && i in s.t.invites && j in s.t.invites
    ensures var x, y := s.t.invites[i], s.t.invites[j];
            && (x.usedAt.Some? <==> x.usedBy.Some?) && (x.usedAt.Some? ==> x.createdAt <= x.usedAt.value < x.expiresAt)
            && (x.usedBy.Some? ==> x.usedBy.value in s.t.users && s.t.users[x.usedBy.value].email == x.email)
            && (i != j && x.usedBy.Some? && y.usedBy.Some? ==> x.usedBy != y.usedBy && x.email != y.email)
  {
    ReachableInv(s);
    assert InviteOk(s.t.users, s.t.invites[i]) && InviteOk(s.t.users, s.t.invites[j]);
  }

  // ----- no waiting cycle

  /** Who holds a lock is far enough to need it. */
  ghost predicate LockersOk(s: State) {
    && (forall k | k in s.inviteLocks :: s.inviteLocks[k] in s.txs && HasInvite(s.txs[s.inviteLocks[k]].phase))
    && (forall e | e in s.emailLocks :: s.emailLocks[e] in s.txs && HasUser(s.txs[s.emailLocks[e]].phase))
  }

  /** A transaction moves without giving up what its locks need. */
  lemma LockersWhenMoved(s: State, s': State, id: TxId)
    requires LockersOk(s) && id in s'.txs && s'.txs == s.txs[id := s'.txs[id]]
    requires id in s.txs ==> (HasInvite(s.txs[id].phase) ==> HasInvite(s'.txs[id].phase))
    requires id in s.txs ==> (HasUser(s.txs[id].phase) ==> HasUser(s'.txs[id].phase))
    requires forall k | k in s'.inviteLocks ::
               (k in s.inviteLocks && s'.inviteLocks[k] == s.inviteLocks[k])
                   || (s'.inviteLocks[k] == id && HasInvite(s'.txs[id].phase))
    requires forall e | e in s'.emailLocks ::
               (e in s.emailLocks && s'.emailLocks[e] == s.emailLocks[e])
                   || (s'.emailLocks[e] == id && HasUser(s'.txs[id].phase))
    ensures LockersOk(s')
  {
  }

  lemma LockersWhenEnded(s: State, s': State, id: TxId, outcome: AcceptOutcome)
    requires LockersOk(s) && id in s.txs && s'.txs == Ending(s, id, outcome).txs
    requires s'.inviteLocks == Ending(s, id, outcome).inviteLocks && s'.emailLocks == Ending(s, id, outcome).emailLocks
    ensures LockersOk(s')
  {
  }

  lemma LockersStep(s: State, act: Action)
    requires LockersOk(s) && Enabled(s, act)
    ensures LockersOk(Apply(s, act))
  {
    var s' := Apply(s, act);
    match act
    case PersistInvite(_, _) =>
    case Begin(id, _) => LockersWhenMoved(s, s', id);
    case Mark(id) => LockersWhenMoved(s, s', id);
    case Commit(id) => LockersWhenEnded(s, s', id, s'.txs[id].phase.outcome);
    case Abort(id) => LockersWhenEnded(s, s', id, s'.txs[id].phase.outcome);
    case Claim(id) => LockersWhenClaimed(s, s', id);
    case Insert(id, newUser) => LockersWhenInserted(s, s', id, newUser);
  }

  lemma LockersWhenClaimed(s: State, s': State, id: TxId)
    requires LockersOk(s) && id in s.txs && s.txs[id].phase.Claiming? && s' == ClaimStep(s, id)
    ensures LockersOk(s')
  {
    var a := s.txs[id].a;
    if !Claimable(s.t, a) {
      LockersWhenEnded(s, s', id, InvalidOrExpiredToken);
    } else if a.now < s.t.invites[s.t.inviteByToken[a.tokenHash]].createdAt {
      LockersWhenEnded(s, s', id, AcceptThrew("invites_used_after_create_chk"));
    } else {
      LockersWithInvite(s, id, s.t.inviteByToken[a.tokenHash]);
    }
  }

  lemma LockersWithInvite(s: State, id: TxId, invite: InviteId)
    requires LockersOk(s) && id in s.txs && s.txs[id].phase.Claiming?
    ensures LockersOk(Moved(s, id, Inserting(invite)).(inviteLocks := s.inviteLocks[invite := id]))
  {
    LockersWhenMoved(s, Moved(s, id, Inserting(invite)).(inviteLocks := s.inviteLocks[invite := id]), id);
  }

  lemma LockersWhenInserted(s: State, s': State, id: TxId, newUser: UserId)
    requires LockersOk(s) && id in s.txs && s.txs[id].phase.Inserting? && s.txs[id].phase.invite in s.t.invites
    requires s' == InsertStep(s, id, newUser)
    ensures LockersOk(s')
  {
    if s'.txs[id].phase.Ended? {
      LockersWhenEnded(s, s', id, s'.txs[id].phase.outcome);
    } else {
      LockersWhenMoved(s, s', id);
    }
  }

  lemma {:induction false} ReachableLockers(s: State, actions: seq<Action>, last: State)
    requires LockersOk(s) && Runs(s, actions, last)
    ensures LockersOk(last)
    decreases |actions|
  {
    if actions != [] {
      LockersStep(s, actions[0]);
      ReachableLockers(Apply(s, actions[0]), actions[1..], last);
    }
  }

  /** `id` needs an invite row or an email that `other` has locked. */
  predicate WaitsFor(s: State, id: TxId, other: TxId) {
    && id in s.txs
    && match s.txs[id].phase
       case Claiming =>
         var found := FoundInvite(s.t, s.txs[id].a);
         found.Some? && found.value in s.inviteLocks && s.inviteLocks[found.value] == other
       case Inserting(invite) =>
         && invite in s.t.invites && s.t.invites[invite].email in s.emailLocks
         && s.emailLocks[s.t.invites[invite].email] == other
       case _ => false
  }

  ghost predicate WaitingChain(s: State, chain: seq<TxId>) {
    forall i | 0 <= i < |chain| - 1 :: WaitsFor(s, chain[i], chain[i + 1])
  }

  lemma WaitingHasTwoLevels(s: State, a: TxId, b: TxId, c: TxId)
    requires LockersOk(s) && WaitsFor(s, a, b) && WaitsFor(s, b, c)
    ensures s.txs[a].phase.Claiming? && s.txs[b].phase.Inserting? && c in s.txs && HasUser(s.txs[c].phase)
  {
  }

  lemma LockersFacts(s: State)
    requires Reachable(s)
    ensures LockersOk(s)
  {
    var first, actions :| Initial(first) && Runs(first, actions, s);
    ReachableLockers(first, actions, s);
  }

  /** Invites come before emails: no chain of waiting acceptances has more than three members, so none is a cycle. */
  lemma NoWaitingCycle(s: State, chain: seq<TxId>)
    requires Reachable(s) && WaitingChain(s, chain)
    ensures |chain| <= 3
    ensures |chain| >= 2 ==> chain[0] != chain[|chain| - 1]
  {
    LockersFacts(s);
    if |chain| >= 2 {
      assert WaitsFor(s, chain[0], chain[1]);
    }
    if |chain| >= 3 {
      assert WaitsFor(s, chain[1], chain[2]);
      assert |chain| >= 4 ==> WaitsFor(s, chain[2], chain[3]);
      WaitingHasTwoLevels(s, chain[0], chain[1], chain[2]);
    }
  }
}
