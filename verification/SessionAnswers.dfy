/** What the operations on sessions, codes and logout answer, exactly, in terms of the rows before and
    after. */
module SessionAnswers {
  import opened Prelude
  import opened Policy
  import opened Tables
  import opened Operations
  import opened Steps
  import opened Runs
  import LogoutTransactions

  /** A whole number of seconds, at least one and at most this many. */
  predicate WholeSeconds(lifetime: Lifetime, most: nat) {
    1 <= lifetime.seconds <= most && lifetime.nanos == 0
  }

  /** The metadata lease of a request, if it has one, holds at both instants. */
  predicate HoldsTwice(pending: PendingData, first: Instant, second: Instant) {
    pending.dynamic.Some? ==>
      first < pending.dynamic.value.lease.validUntil && second < pending.dynamic.value.lease.validUntil
  }

  /** A stored session that is open at this time. */
  predicate HasOpenSession(db: Db, s: Id, now: Time) {
    s in db.sessions && OpenAt(db.sessions[s], now)
  }

  // ---- sessions and codes ----

  /** A session is opened exactly for a whole number of seconds up to thirty days, and lives that long. */
  lemma SessionsAreOpenedExactly(db: Db, userId: Id, upstreamAuthTime: Option<Time>, lifetime: Lifetime, env: Env)
    requires Fresh(db, env.drawn)
    ensures var call := CreateSession(userId, upstreamAuthTime, lifetime);
            var outcome, after := Perform(db, call, env).outcome, Step(db, call, env);
            if WholeSeconds(lifetime, 30 * 24 * 60 * 60) then
              && outcome.SessionOpened? && outcome.id !in db.sessions
              && outcome.expiresAt == env.clock.first + lifetime.seconds * 1_000_000
              && after == db.(sessions := db.sessions[outcome.id :=
                   SessionRow(userId, env.clock.first, outcome.expiresAt, None, upstreamAuthTime)])
            else outcome == Rejected(InvalidLifetime) && after == db
  {
  }

  lemma IssueDecides(db: Db, s: Id, pending: Pending, lifetime: Lifetime, env: Env)
    ensures Perform(db, IssueCode(s, pending, lifetime), env) ==
            if !BoundedSeconds(lifetime, CODE_SECONDS) then Reject(InvalidLifetime)
            else if s !in db.sessions then Reject(InvalidGrant)
            else DecideIssueCode(s, db.sessions[s], pending, lifetime, env)
  {
    hide DecideIssueCode;
  }

  /** A code is issued exactly for one to sixty whole seconds, under an open session and a lease that holds
      before and after the insert; it repeats the request and lasts as long as asked, or as the session. */
  lemma CodesAreIssuedExactly(db: Db, s: Id, pending: Pending, lifetime: Lifetime, env: Env)
    requires Fresh(db, env.drawn)
    ensures var call := IssueCode(s, pending, lifetime);
            var outcome, after := Perform(db, call, env).outcome, Step(db, call, env);
            if !WholeSeconds(lifetime, 60) then outcome == Rejected(InvalidLifetime) && after == db
            else if !HasOpenSession(db, s, env.clock.first) then outcome == Rejected(InvalidGrant) && after == db
            else if !HoldsTwice(pending, env.at.a, env.at.b) then outcome == Rejected(MetadataExpired) && after == db
            else
              && outcome.CodeIssued? && outcome.code !in db.codes
              && after == db.(codes := db.codes[outcome.code :=
                   CodeRow(s, Grant(pending.clientId, pending.redirectUri, pending.scopes, pending.resource,
                                    pending.challenge,
                                    if pending.dynamic.Some? then Some(pending.dynamic.value.binding) else None),
                           "offline_access" in pending.scopes, None, db.sessions[s].upstreamAuthTime, env.clock.second,
                           Min(env.clock.second + lifetime.seconds * 1_000_000, db.sessions[s].expiresAt), None)])
  {
    hide Perform;
    IssueDecides(db, s, pending, lifetime, env);
  }

  lemma ReadDecides(db: Db, s: Id, env: Env)
    ensures Perform(db, ReadAuthTime(s), env) ==
            if s in db.sessions then DecideReadAuthTime(db.sessions[s], env) else Reject(BrowserInvalid)
  {
  }

  /** The auth time of exactly the open sessions can be read. */
  lemma AuthTimesAreReadExactly(db: Db, s: Id, env: Env)
    ensures Step(db, ReadAuthTime(s), env) == db
    ensures Perform(db, ReadAuthTime(s), env).outcome ==
            if HasOpenSession(db, s, env.clock.first) then AuthTimeRead(db.sessions[s].upstreamAuthTime)
            else Rejected(BrowserInvalid)
  {
    hide Perform;
    ReadDecides(db, s, env);
  }

  // ---- revocation and logout ----

  /** Revoked now, unless it was before. */
  predicate RevokedBy(before: Option<Time>, after: Option<Time>, now: Time) {
    after == if before.Some? then before else Some(now)
  }

  /** Exactly the families under the session end, each at its own reading of the clock. */
  ghost predicate EndsFamiliesOf(before: Db, after: Db, s: Id, readings: Id -> Time) {
    && after.families.Keys == before.families.Keys
    && forall f | f in before.families ::
         if before.families[f].session == s then
           after.families[f] == before.families[f].(revokedAt := after.families[f].revokedAt)
           && RevokedBy(before.families[f].revokedAt, after.families[f].revokedAt, readings(f))
         else after.families[f] == before.families[f]
  }

  lemma LogoutDecides(db: Db, s: Id, env: Env)
    ensures Perform(db, Logout(s), env) ==
            if s in db.sessions then Decision(EndSession(s, env.clock.first, env.clock.row), Acknowledged)
            else Reject(InvalidGrant)
  {
  }

  /** Logging out ends the session and exactly its families, and changes nothing else. */
  lemma LogoutsEndExactly(db: Db, s: Id, env: Env)
    ensures var outcome, after := Perform(db, Logout(s), env).outcome, Step(db, Logout(s), env);
            if s in db.sessions then
              && outcome == Acknowledged && s in after.sessions
              && RevokedBy(db.sessions[s].revokedAt, after.sessions[s].revokedAt, env.clock.first)
              && EndsFamiliesOf(db, after, s, env.clock.row)
              && after == db.(sessions := db.sessions[s := db.sessions[s].(revokedAt := after.sessions[s].revokedAt)],
                              families := after.families)
            else outcome == Rejected(InvalidGrant) && after == db
  {
    hide Perform;
    LogoutDecides(db, s, env);
  }

  /** The token's family, if the token is stored and of this client. */
  function OwnFamily(db: Db, token: Id, clientId: string): Option<Id> {
    if token in db.members && db.members[token].family in db.families
       && db.families[db.members[token].family].clientId == clientId
    then Some(db.members[token].family) else None
  }

  /** Revocation ends exactly the family of a token of the caller's own, and answers everybody alike. */
  lemma RevocationsEndExactly(db: Db, token: Id, clientId: string, env: Env)
    ensures var call := RevokeRefresh(token, clientId);
            var outcome, after := Perform(db, call, env).outcome, Step(db, call, env);
            var own := OwnFamily(db, token, clientId);
            && outcome == Acknowledged
            && (own.None? ==> after == db)
            && (own.Some? ==>
                  && own.value in after.families
                  && RevokedBy(db.families[own.value].revokedAt, after.families[own.value].revokedAt, env.clock.first)
                  && after == db.(families := db.families[own.value :=
                       db.families[own.value].(revokedAt := after.families[own.value].revokedAt)]))
  {
    hide Perform;
    RevocationPerforms(db, token, clientId, env);
    var own := OwnFamily(db, token, clientId);
    if own.Some? {
      var after := Step(db, RevokeRefresh(token, clientId), env);
      assert after.families == db.families[own.value := after.families[own.value]];
    }
  }

  // ---- logout challenges ----

  /** The redirect is registered for the client after logout. */
  predicate MayReturnTo(reg: RegistryData, clientId: string, uri: string) {
    clientId in reg.clients && uri in reg.clients[clientId].postLogoutRedirects
  }

  /** A challenge is opened exactly under an open session, for a local target or a registered redirect; it
      is stored with the secret that is handed out, unconsumed, for ten minutes. */
  lemma ChallengesAreOpenedExactly(db: Db, s: Id, target: LogoutTarget, env: Env)
    requires Fresh(db, env.drawn)
    ensures var call := BeginLogout(s, target);
            var outcome, after := Perform(db, call, env).outcome, Step(db, call, env);
            if HasOpenSession(db, s, env.clock.first)
               && (target.RegisteredTarget? ==> MayReturnTo(target.registry, target.clientId, target.uri)) then
              && outcome.ChallengeOpened? && outcome.id !in db.challenges && outcome.logoutUri == target.uri
              && after == db.(challenges := db.challenges[outcome.id :=
                   ChallengeRow(outcome.csrf, s, if target.LocalTarget? then "" else target.clientId, target.uri,
                                if target.LocalTarget? then None else target.state,
                                env.clock.second, env.clock.second + 10 * 60 * 1_000_000, None)])
            else outcome == Rejected(InvalidGrant) && after == db
  {
    hide Perform;
    LogoutTransactions.BeginAlone(db, s, target, env);
  }

  /** The challenge is stored, of this session and secret, unconsumed and in time, the session is open, and
      the redirect of a client's challenge is still registered; a local challenge has no client. */
  predicate ChallengeStands(db: Db, q: LogoutRequest, now: Time) {
    && HasOpenSession(db, q.session, now) && q.challenge in db.challenges
    && var row := db.challenges[q.challenge];
       && row.session == q.session && row.csrf == q.csrf && row.consumedAt.None? && now < row.expiresAt
       && (row.clientId == "" || MayReturnTo(q.registry, row.clientId, row.redirectUri))
  }

  /** The hint is addressed to the challenge's client, is well-formed, and is not from the future. */
  predicate HintStands(hint: Hint, row: ChallengeRow, now: Time) {
    hint.audience == row.clientId && hint.issued < hint.expires && hint.issued <= now / 1_000_000 + 30
  }

  /** The client may log out on hints, and the hint is for this user and session, issued since it began. */
  predicate HintSuffices(q: LogoutRequest, hint: Hint, row: ChallengeRow, session: SessionRow) {
    && row.clientId in q.registry.clients && q.registry.clients[row.clientId].logoutFlow == IdTokenHint
    && hint.subject == session.userId && hint.session == Some(q.session)
    && session.authTime / 1_000_000 - 30 <= hint.issued
  }

  /** The session and the challenge end at the same moment, with exactly the session's families. */
  ghost predicate EndsWithChallenge(before: Db, after: Db, q: LogoutRequest, now: Time)
    requires q.challenge in before.challenges && q.session in before.sessions
  {
    && EndsFamiliesOf(before, after, q.session, Always(now))
    && after == before.(challenges := before.challenges[q.challenge :=
                          before.challenges[q.challenge].(consumedAt := Some(now))],
                        sessions := before.sessions[q.session := before.sessions[q.session].(revokedAt := Some(now))],
                        families := after.families)
  }

  lemma FinishEffect(db: Db, q: LogoutRequest, now: Time)
    requires q.challenge in db.challenges && q.session in db.sessions && db.sessions[q.session].revokedAt.None?
    ensures EndsWithChallenge(db, Apply(db, FinishChallenge(q.challenge, q.session, now)), q, now)
  {
  }

  /** A standing challenge logs out without a hint, or with one that stands and suffices; with one that
      stands but does not suffice it asks for confirmation.  Everything else is an invalid grant and
      changes nothing. */
  lemma LogoutsFinishExactly(db: Db, q: LogoutRequest, env: Env)
    ensures var outcome, after := Perform(db, FinishLogout(q), env).outcome, Step(db, FinishLogout(q), env);
            var now := env.clock.first;
            if !ChallengeStands(db, q, now)
               || (q.hint.Some? && !HintStands(q.hint.value, db.challenges[q.challenge], now)) then
              outcome == Rejected(InvalidGrant) && after == db
            else if q.hint.Some?
                    && !HintSuffices(q, q.hint.value, db.challenges[q.challenge], db.sessions[q.session]) then
              outcome == NeedsConfirmation && after == db
            else
              && outcome == LoggedOut(db.challenges[q.challenge].redirectUri, db.challenges[q.challenge].state)
              && EndsWithChallenge(db, after, q, now)
  {
    hide Perform, EndsWithChallenge, Apply;
    LogoutTransactions.FinishAlone(db, q, env);
    NothingHappens(db);
    if ChallengeStands(db, q, env.clock.first) {
      FinishEffect(db, q, env.clock.first);
    }
  }

  lemma NothingHappens(db: Db)
    ensures Apply(db, NoEffect) == db
  {
  }
}
