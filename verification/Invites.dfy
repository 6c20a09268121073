/**
 One-time invites of infra/invites: the transactions of PostgresInviteRepository, statement
 by statement and as functions from tables to tables, and what every run of them keeps.
 */
module Invites {
  import opened Options

  type UserId = nat
  type InviteId = nat
  type RequestId = nat
  type Millis = int

  datatype User = User(email: string, passwordHash: string, createdAt: Millis)

  datatype Invite = Invite(
    email: string,
    tokenHash: string,
    createdBy: UserId,
    createdAt: Millis,
    expiresAt: Millis,
    usedAt: Option<Millis>,
    usedBy: Option<UserId>,
    revokedAt: Option<Millis>)

  datatype RequestStatus = New | Contacted | Approved | Rejected
  datatype AccessRequest = AccessRequest(status: RequestStatus, handledBy: Option<UserId>, handledAt: Option<Millis>)

  /** `userByEmail` and `inviteByToken` are the unique indexes. */
  datatype Tables = Tables(
    users: map<UserId, User>,
    userByEmail: map<string, UserId>,
    invites: map<InviteId, Invite>,
    inviteByToken: map<string, InviteId>,
    requests: map<RequestId, AccessRequest>)

  // ----- accepting

  datatype Acceptance = Acceptance(tokenHash: string, passwordHash: string, now: Millis)
  datatype AcceptOutcome = Accepted(user: UserId) | InvalidOrExpiredToken | UserExists | AcceptThrew(reason: string)

  /** The condition of the claiming update. */
  predicate Claimable(t: Tables, a: Acceptance) {
    && a.tokenHash in t.inviteByToken && t.inviteByToken[a.tokenHash] in t.invites
    && var invite := t.invites[t.inviteByToken[a.tokenHash]];
       invite.usedAt.None? && invite.revokedAt.None? && invite.expiresAt > a.now
  }

  /** What an accepted invite commits. */
  function Used(t: Tables, id: InviteId, user: UserId, a: Acceptance): Tables
    requires id in t.invites
  {
    var invite := t.invites[id];
    t.(users := t.users[user := User(invite.email, a.passwordHash, a.now)],
       userByEmail := t.userByEmail[invite.email := user],
       invites := t.invites[id := invite.(usedAt := Some(a.now), usedBy := Some(user))])
  }

  /** acceptInvite, run alone; `newUser` is the generated id. */
  function AcceptTx(t: Tables, a: Acceptance, newUser: UserId): (Tables, AcceptOutcome) {
    if !Claimable(t, a) then (t, InvalidOrExpiredToken)
    else
      var id := t.inviteByToken[a.tokenHash];
      if a.now < t.invites[id].createdAt then (t, AcceptThrew("invites_used_after_create_chk"))
      else if t.invites[id].email in t.userByEmail then (t, UserExists)
      else (Used(t, id, newUser, a), Accepted(newUser))
  }

  // ----- inviting

  datatype Invitation = Invitation(
    email: string, tokenHash: string, createdBy: UserId, createdAt: Millis, expiresAt: Millis,
    accessRequestId: Option<RequestId>, handledAt: Millis)

  datatype InviteOutcome = InviteCreated | AccessRequestNotFound | InviteThrew(reason: string)

  /** Approving twice keeps the first handler; an approval without a handler gets one. */
  function ApprovedBy(r: AccessRequest, user: UserId, at: Millis): AccessRequest {
    AccessRequest(Approved,
      if r.status != Approved || r.handledBy.None? then Some(user) else r.handledBy,
      if r.status != Approved || r.handledAt.None? then Some(at) else r.handledAt)
  }

  /** persistInviteForAdmin; `newInvite` is the generated id. */
  function InviteTx(t: Tables, i: Invitation, newInvite: InviteId): (Tables, InviteOutcome) {
    if i.accessRequestId.Some? && i.accessRequestId.value !in t.requests then (t, AccessRequestNotFound)
    else if i.createdBy !in t.users then (t, InviteThrew("23503"))
    else if i.tokenHash in t.inviteByToken then (t, InviteThrew("23505"))
    else if i.expiresAt <= i.createdAt then (t, InviteThrew("invites_expiry_after_create_chk"))
    else
      (t.(invites := t.invites[newInvite :=
            Invite(i.email, i.tokenHash, i.createdBy, i.createdAt, i.expiresAt, None, None, None)],
          inviteByToken := t.inviteByToken[i.tokenHash := newInvite],
          requests := match i.accessRequestId
                      case None => t.requests
                      case Some(r) => t.requests[r := ApprovedBy(t.requests[r], i.createdBy, i.handledAt)]),
       InviteCreated)
  }

  class InviteRepository {
    var users: map<UserId, User>
    var userByEmail: map<string, UserId>
    var invites: map<InviteId, Invite>
    var inviteByToken: map<string, InviteId>
    var requests: map<RequestId, AccessRequest>

    function Snapshot(): Tables
      reads this
    {
      Tables(users, userByEmail, invites, inviteByToken, requests)
    }

    method Rollback(saved: Tables)
      modifies this
      ensures Snapshot() == saved
    {
      users, userByEmail, invites := saved.users, saved.userByEmail, saved.invites;
      inviteByToken, requests := saved.inviteByToken, saved.requests;
    }

    /** `UPDATE invites SET used_at ... RETURNING id, email`; a violated check is the error. */
    method ClaimInvite(a: Acceptance) returns (claimed: Option<InviteId>, violated: bool)
      modifies this`invites
      ensures claimed.Some? <==> Claimable(old(Snapshot()), a)
      ensures claimed.None? ==> invites == old(invites) && !violated
      ensures claimed.Some? ==>
                && claimed.value == inviteByToken[a.tokenHash] && claimed.value in old(invites)
                && invites == old(invites)[claimed.value := old(invites)[claimed.value].(usedAt := Some(a.now))]
                && (violated <==> a.now < old(invites)[claimed.value].createdAt)
    {
      claimed, violated := None, false;
      if a.tokenHash in inviteByToken && inviteByToken[a.tokenHash] in invites {
        var id := inviteByToken[a.tokenHash];
        var invite := invites[id];
        if invite.usedAt.None? && invite.revokedAt.None? && invite.expiresAt > a.now {
          invites := invites[id := invite.(usedAt := Some(a.now))];
          claimed, violated := Some(id), !(a.now >= invite.createdAt);
        }
      }
    }

    method AcceptInvite(a: Acceptance, newUser: UserId) returns (outcome: AcceptOutcome)
      requires newUser !in users
      modifies this
      ensures (Snapshot(), outcome) == AcceptTx(old(Snapshot()), a, newUser)
    {
      var saved := Snapshot();
      var claimedInvite, violated := ClaimInvite(a);
      if claimedInvite.None? {
        Rollback(saved);
        return InvalidOrExpiredToken;
      }
      if violated {
        Rollback(saved);
        return AcceptThrew("invites_used_after_create_chk");
      }
      var id := claimedInvite.value;
      var email := invites[id].email;
      if email in userByEmail {
        Rollback(saved);
        return UserExists;
      }
      users := users[newUser := User(email, a.passwordHash, a.now)];
      userByEmail := userByEmail[email := newUser];
      invites := invites[id := invites[id].(usedBy := Some(newUser))];
      assert invites == saved.invites[id := saved.invites[id].(usedAt := Some(a.now), usedBy := Some(newUser))];
      outcome := Accepted(newUser);
    }

    method PersistInviteForAdmin(i: Invitation, newInvite: InviteId) returns (outcome: InviteOutcome)
      requires newInvite !in invites
      modifies this
      ensures (Snapshot(), outcome) == InviteTx(old(Snapshot()), i, newInvite)
    {
      var saved := Snapshot();
      if i.accessRequestId.Some? {
        var requestId := i.accessRequestId.value;
        if requestId !in requests {
          Rollback(saved);
          return AccessRequestNotFound;
        }
        var r := requests[requestId];
        var handledBy := if r.status != Approved || r.handledBy.None? then Some(i.createdBy) else r.handledBy;
        var handledAt := if r.status != Approved || r.handledAt.None? then Some(i.handledAt) else r.handledAt;
        requests := requests[requestId := AccessRequest(Approved, handledBy, handledAt)];
      }
      if i.createdBy !in users {
        Rollback(saved);
        return InviteThrew("23503");
      }
      if i.tokenHash in inviteByToken {
        Rollback(saved);
        return InviteThrew("23505");
      }
      if i.expiresAt <= i.createdAt {
        Rollback(saved);
        return InviteThrew("invites_expiry_after_create_chk");
      }
      invites := invites[newInvite := Invite(i.email, i.tokenHash, i.createdBy,
          i.createdAt, i.expiresAt, None, None, None)];
      inviteByToken := inviteByToken[i.tokenHash := newInvite];
      outcome := InviteCreated;
    }
  }

  // ----- the answers, from the rows

  /** An invite that can be used now: neither used nor revoked nor expired. */
  predicate Usable(invite: Invite, tokenHash: string, now: Millis) {
    && invite.tokenHash == tokenHash && invite.usedAt == None && invite.revokedAt == None && now < invite.expiresAt
  }

  /**
   The answer to an acceptance: there is a usable invite with the token, it is not from the
   future, and nobody has its email yet; then the user and the use of the invite are written, and
   otherwise nothing is.
   */
  lemma AcceptAnswers(t: Tables, a: Acceptance, newUser: UserId)
    requires IndexesOk(t)
    ensures var (t', outcome) := AcceptTx(t, a, newUser);
            && (outcome == InvalidOrExpiredToken <==>
                 !exists i :: i in t.invites && Usable(t.invites[i], a.tokenHash, a.now))
            && (forall i | i in t.invites && Usable(t.invites[i], a.tokenHash, a.now) ::
                 var taken := exists u :: u in t.users && t.users[u].email == t.invites[i].email;
                 if a.now < t.invites[i].createdAt then outcome.AcceptThrew?
                 else if taken then outcome == UserExists
                 else
                   && outcome == Accepted(newUser)
                   && t'.users == t.users[newUser := User(t.invites[i].email, a.passwordHash, a.now)]
                   && t'.invites == t.invites[i := t.invites[i].(usedAt := Some(a.now), usedBy := Some(newUser))]
                   && t'.requests == t.requests)
            && (!outcome.Accepted? ==> t' == t)
  {
    forall i | i in t.invites && t.invites[i].tokenHash == a.tokenHash ensures t.inviteByToken[a.tokenHash] == i {
    }
    if a.tokenHash in t.inviteByToken {
      assert t.inviteByToken[a.tokenHash] in t.invites;
    }
  }

  /** The answer to an invitation, and what it writes: a fresh invite, and the approval of the access request. */
  lemma InviteAnswers(t: Tables, i: Invitation, newInvite: InviteId)
    requires IndexesOk(t)
    ensures var (t', outcome) := InviteTx(t, i, newInvite);
            && (outcome == AccessRequestNotFound <==>
                 i.accessRequestId.Some? && i.accessRequestId.value !in t.requests)
            && (outcome == InviteCreated <==>
                 && outcome != AccessRequestNotFound && i.createdBy in t.users && i.createdAt < i.expiresAt
                 && !exists other :: other in t.invites && t.invites[other].tokenHash == i.tokenHash)
            && (outcome != InviteCreated ==> t' == t)
            && (outcome == InviteCreated ==>
                 && newInvite in t'.invites && t'.users == t.users
                 && t'.invites[newInvite].email == i.email && t'.invites[newInvite].tokenHash == i.tokenHash
                 && t'.invites[newInvite].createdBy == i.createdBy && t'.invites[newInvite].createdAt == i.createdAt
                 && t'.invites[newInvite].expiresAt == i.expiresAt && t'.invites[newInvite].usedAt == None
                 && t'.invites[newInvite].usedBy == None && t'.invites[newInvite].revokedAt == None
                 && (i.accessRequestId == None ==> t'.requests == t.requests)
                 && forall r | i.accessRequestId == Some(r) ::
                      && t'.requests == t.requests[r := t'.requests[r]] && t'.requests[r].status == Approved
                      && (t.requests[r].status == Approved && t.requests[r].handledBy.Some? ==>
                           t'.requests[r].handledBy == t.requests[r].handledBy)
                      && (t.requests[r].status != Approved || t.requests[r].handledBy == None ==>
                           t'.requests[r].handledBy == Some(i.createdBy))
                      && (t.requests[r].status == Approved && t.requests[r].handledAt.Some? ==>
                           t'.requests[r].handledAt == t.requests[r].handledAt)
                      && (t.requests[r].status != Approved || t.requests[r].handledAt == None ==>
                           t'.requests[r].handledAt == Some(i.handledAt)))
  {
  }

  // ----- what every committed state looks like

  ghost predicate IndexesOk(t: Tables) {
    && (forall u | u in t.users :: t.users[u].email in t.userByEmail && t.userByEmail[t.users[u].email] == u)
    && (forall e | e in t.userByEmail :: t.userByEmail[e] in t.users && t.users[t.userByEmail[e]].email == e)
    && (forall i | i in t.invites ::
         t.invites[i].tokenHash in t.inviteByToken && t.inviteByToken[t.invites[i].tokenHash] == i)
    && (forall h | h in t.inviteByToken ::
         t.inviteByToken[h] in t.invites && t.invites[t.inviteByToken[h]].tokenHash == h)
  }

  /** A used invite names a user with its own email, and was used before it expired. */
  predicate InviteOk(users: map<UserId, User>, invite: Invite) {
    && (invite.usedAt.Some? <==> invite.usedBy.Some?)
    && (invite.usedBy.Some? ==> invite.usedBy.value in users && users[invite.usedBy.value].email == invite.email)
    && (invite.usedAt.Some? ==> invite.createdAt <= invite.usedAt.value < invite.expiresAt)
  }

  ghost predicate EachInviteOk(t: Tables) {
    forall i | i in t.invites :: InviteOk(t.users, t.invites[i])
  }

  ghost predicate UsersDiffer(t: Tables) {
    forall i, j | i in t.invites && j in t.invites && i != j && t.invites[i].usedBy.Some? ::
        t.invites[i].usedBy != t.invites[j].usedBy
  }

  /** Access requests are handled by somebody at some time, or not at all. */
  ghost predicate RequestsOk(t: Tables) {
    forall r | r in t.requests :: t.requests[r].handledBy.Some? <==> t.requests[r].handledAt.Some?
  }

  ghost predicate InvitesOk(t: Tables) {
    IndexesOk(t) && EachInviteOk(t) && UsersDiffer(t) && RequestsOk(t)
  }

  lemma UsedKeepsIndexes(t: Tables, id: InviteId, user: UserId, a: Acceptance)
    requires IndexesOk(t) && id in t.invites && user !in t.users && t.invites[id].email !in t.userByEmail
    ensures IndexesOk(Used(t, id, user, a))
  {
    var t' := Used(t, id, user, a);
    assert t'.inviteByToken == t.inviteByToken;
    assert forall i | i in t'.invites :: t'.invites[i].tokenHash == t.invites[i].tokenHash;
  }

  lemma UsedKeepsInvites(t: Tables, id: InviteId, user: UserId, a: Acceptance)
    requires EachInviteOk(t) && id in t.invites && user !in t.users
    requires t.invites[id].createdAt <= a.now < t.invites[id].expiresAt
    ensures EachInviteOk(Used(t, id, user, a))
  {
    var t' := Used(t, id, user, a);
    forall i | i in t'.invites ensures InviteOk(t'.users, t'.invites[i]) {
      assert i != id ==> InviteOk(t.users, t.invites[i]);
    }
  }

  lemma UsedKeepsUsersApart(t: Tables, id: InviteId, user: UserId, a: Acceptance)
    requires EachInviteOk(t) && UsersDiffer(t) && id in t.invites && user !in t.users
    ensures UsersDiffer(Used(t, id, user, a))
  {
    assert forall i | i in t.invites && t.invites[i].usedBy.Some? :: InviteOk(t.users, t.invites[i]);
  }

  /** Whatever an acceptance answers, it keeps the tables in order. */
  lemma AcceptKeepsInvites(t: Tables, a: Acceptance, newUser: UserId)
    requires InvitesOk(t) && newUser !in t.users
    ensures InvitesOk(AcceptTx(t, a, newUser).0)
  {
    if AcceptTx(t, a, newUser).1.Accepted? {
      var id := t.inviteByToken[a.tokenHash];
      UsedKeepsIndexes(t, id, newUser, a);
      UsedKeepsInvites(t, id, newUser, a);
      UsedKeepsUsersApart(t, id, newUser, a);
    }
  }

  lemma NewInviteKeepsIndexes(t: Tables, t': Tables, i: Invitation, newInvite: InviteId)
    requires IndexesOk(t) && newInvite !in t.invites && InviteTx(t, i, newInvite) == (t', InviteCreated)
    ensures IndexesOk(t')
  {
    assert t'.users == t.users && t'.userByEmail == t.userByEmail;
  }

  lemma NewInviteIsUnused(t: Tables, t': Tables, i: Invitation, newInvite: InviteId)
    requires EachInviteOk(t) && UsersDiffer(t) && newInvite !in t.invites
    requires InviteTx(t, i, newInvite) == (t', InviteCreated)
    ensures EachInviteOk(t') && UsersDiffer(t')
  {
    assert t'.users == t.users;
    assert t'.invites == t.invites[newInvite := t'.invites[newInvite]] && t'.invites[newInvite].usedBy.None?;
    forall j | j in t'.invites ensures InviteOk(t'.users, t'.invites[j]) {
      assert j != newInvite ==> InviteOk(t.users, t.invites[j]);
    }
  }

  lemma InviteKeepsInvites(t: Tables, i: Invitation, newInvite: InviteId)
    requires InvitesOk(t) && newInvite !in t.invites
    ensures InvitesOk(InviteTx(t, i, newInvite).0)
  {
    var (t', outcome) := InviteTx(t, i, newInvite);
    if outcome.InviteCreated? {
      NewInviteKeepsIndexes(t, t', i, newInvite);
      NewInviteIsUnused(t, t', i, newInvite);
      assert RequestsOk(t');
    }
  }
}
