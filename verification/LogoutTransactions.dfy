/** The logout transactions, statement by statement (src/logout.rs). */
module LogoutTransactions {
  import opened Prelude
  import opened Tables
  import opened Operations
  import opened Database

  class LogoutStore {
    const pool: Pool

    constructor (pool: Pool)
      ensures this.pool == pool
    {
      this.pool := pool;
    }

    method Begin(session: Id, target: LogoutTarget, env: Env) returns (outcome: Outcome)
      modifies pool
      ensures Ran(old(pool.Snapshot()), BeginLogout(session, target), env, pool.Snapshot(), outcome)
    {
      hide Perform, ValidPostLogoutRedirect;
      BeginAlone(pool.Snapshot(), session, target, env);
      match target {
        case RegisteredTarget(clientId, uri, state, registry) =>
          if !ValidPostLogoutRedirect(registry, clientId, uri) {
            return Rejected(InvalidGrant);
          }
          outcome := Insert(session, clientId, uri, state, env);
        case LocalTarget(uri) =>
          outcome := Insert(session, "", uri, None, env);
      }
    }

    method Insert(session: Id, clientId: string, redirectUri: string, state: Option<string>, env: Env)
      returns (outcome: Outcome)
      modifies pool
      ensures var live := session in old(pool.sessions) && SessionLive(old(pool.sessions)[session], env.clock.first);
              var t := env.clock.second;
              var row := ChallengeRow(env.drawn.secret, session, clientId, redirectUri, state, t,
                                      t + CHALLENGE_LIFETIME, None);
              Executed(old(pool.Snapshot()),
                       if live then Decision(AddChallenge(env.drawn.row, row),
                                             ChallengeOpened(env.drawn.row, env.drawn.secret, redirectUri))
                       else Reject(InvalidGrant),
                       pool.Snapshot(), outcome)
    {
      var now := env.clock.first;
      if session !in pool.sessions || pool.sessions[session].revokedAt.Some?
         || pool.sessions[session].expiresAt <= now {
        return Rejected(InvalidGrant);
      }
      var t := env.clock.second;
      pool.challenges := pool.challenges[env.drawn.row :=
        ChallengeRow(env.drawn.secret, session, clientId, redirectUri, state, t, t + CHALLENGE_LIFETIME, None)];
      return ChallengeOpened(env.drawn.row, env.drawn.secret, redirectUri);
    }

    /** Confirmed logout, and logout on an ID token hint. */
    method Finish(q: LogoutRequest, env: Env) returns (outcome: Outcome)
      modifies pool
      ensures Ran(old(pool.Snapshot()), FinishLogout(q), env, pool.Snapshot(), outcome)
    {
      hide Perform, ValidPostLogoutRedirect, AllowsIdTokenLogout;
      FinishAlone(pool.Snapshot(), q, env);
      if q.session !in pool.sessions {
        return Rejected(InvalidGrant);
      }
      var session := pool.sessions[q.session];
      if q.challenge !in pool.challenges
         || pool.challenges[q.challenge].session != q.session || pool.challenges[q.challenge].csrf != q.csrf {
        return Rejected(InvalidGrant);
      }
      var row := pool.challenges[q.challenge];
      var now := env.clock.first;
      if session.revokedAt.Some? || session.expiresAt <= now || row.consumedAt.Some? || row.expiresAt <= now
         || (row.clientId != "" && !ValidPostLogoutRedirect(q.registry, row.clientId, row.redirectUri)) {
        return Rejected(InvalidGrant);
      }
      if q.hint.Some? {
        var hint := q.hint.value;
        if hint.audience != row.clientId || hint.expires <= hint.issued
           || hint.issued > now / SECOND + CLOCK_SKEW_SECONDS {
          return Rejected(InvalidGrant);
        }
        if !AllowsIdTokenLogout(q.registry, row.clientId) || hint.subject != session.userId
           || hint.session != Some(q.session)
           || hint.issued < session.authTime / SECOND - CLOCK_SKEW_SECONDS {
          return NeedsConfirmation;
        }
      }
      pool.challenges := pool.challenges[q.challenge := row.(consumedAt := Some(now))];
      pool.sessions := pool.sessions[q.session := session.(revokedAt := Coalesce(session.revokedAt, now))];
      pool.families := RevokeWhere(pool.families, FamiliesUnder(pool.families, q.session), Always(now));
      return LoggedOut(row.redirectUri, row.state);
    }
  }

  lemma BeginAlone(db: Db, session: Id, target: LogoutTarget, env: Env)
    ensures Perform(db, BeginLogout(session, target), env) ==
            if !TargetAllowed(target) || session !in db.sessions then Reject(InvalidGrant)
            else DecideBeginLogout(session, db.sessions[session], target, env)
  {
  }

  lemma FinishAlone(db: Db, q: LogoutRequest, env: Env)
    ensures Perform(db, FinishLogout(q), env) ==
            if q.session !in db.sessions || q.challenge !in db.challenges
               || db.challenges[q.challenge].session != q.session || db.challenges[q.challenge].csrf != q.csrf
            then Reject(InvalidGrant)
            else DecideFinishLogout(q, db.challenges[q.challenge], db.sessions[q.session], env)
  {
  }
}
