/** The credential transactions, statement by statement (src/credentials.rs). */
module Credentials {
  import opened Prelude
  import opened Policy
  import opened Tables
  import opened Operations
  import opened Database

  class CredentialStore {
    const pool: Pool

    constructor (pool: Pool)
      ensures this.pool == pool
    {
      this.pool := pool;
    }

    method CreateProviderSession(userId: Id, upstreamAuthTime: Option<Time>, lifetime: Lifetime, env: Env)
      returns (outcome: Outcome)
      modifies pool
      ensures Ran(old(pool.Snapshot()), CreateSession(userId, upstreamAuthTime, lifetime), env, pool.Snapshot(),
                  outcome)
    {
      if !BoundedSeconds(lifetime, SESSION_SECONDS) {
        return Rejected(InvalidLifetime);
      }
      var now := env.clock.first;
      var expiresAt := now + lifetime.seconds * SECOND;
      pool.sessions := pool.sessions[env.drawn.row := SessionRow(userId, now, expiresAt, None, upstreamAuthTime)];
      return SessionOpened(env.drawn.row, expiresAt);
    }

    method IssueAuthorizationCode(session: Id, pending: Pending, lifetime: Lifetime, env: Env)
      returns (outcome: Outcome)
      modifies pool
      ensures Ran(old(pool.Snapshot()), IssueCode(session, pending, lifetime), env, pool.Snapshot(), outcome)
    {
      if !BoundedSeconds(lifetime, CODE_SECONDS) {
        return Rejected(InvalidLifetime);
      }
      var saved := pool.Snapshot();
      if session !in pool.sessions {
        return Rejected(InvalidGrant);
      }
      if !SessionLive(pool.sessions[session], env.clock.first) {
        return Rejected(InvalidGrant);
      }
      if !pending.IsFresh(env.at.a) {
        return Rejected(MetadataExpired);
      }
      InsertAuthorizationCode(session, pending.Stored(), OFFLINE_ACCESS in pending.scopes, None, lifetime.seconds, env);
      if !pending.IsFresh(env.at.b) {
        pool.Restore(saved);
        return Rejected(MetadataExpired);
      }
      return CodeIssued(env.drawn.row);
    }

    /** Also used by the browser transactions. */
    method InsertAuthorizationCode(session: Id, grant: Grant, issueRefresh: bool, nonce: Option<string>, seconds: nat,
                                   env: Env)
      requires session in pool.sessions
      modifies pool`codes
      ensures pool.codes ==
              old(pool.codes)[env.drawn.row :=
                              CodeFrom(session, pool.sessions[session], grant, issueRefresh, nonce, seconds,
                                                        env.clock.second)]
    {
      var now := env.clock.second;
      var expiresAt := now + seconds * SECOND;
      if pool.sessions[session].expiresAt < expiresAt {
        expiresAt := pool.sessions[session].expiresAt;
      }
      pool.codes := pool.codes[env.drawn.row :=
                               CodeRow(session, grant, issueRefresh, nonce, pool.sessions[session].upstreamAuthTime,
                                                        now, expiresAt, None)];
    }

    /** The request entry point: checks on an unlocked read, then the bound exchange. */
    method ExchangeCode(q: CodeRequest, env: Env) returns (outcome: Outcome)
      modifies pool
      ensures Ran(old(pool.Snapshot()), Exchange(q), env, pool.Snapshot(), outcome)
    {
      hide ValidatePendingParts, BoundExchange, SameScopes;
      RequestThenBound(pool.Snapshot(), q, env);
      if q.via.Direct? {
        outcome := ExchangeCodeBound(q, q.via.exactResource, env);
        return;
      }
      if q.code !in pool.codes {
        return Rejected(InvalidGrant);
      }
      var row := pool.codes[q.code];
      if row.grant.clientId != q.clientId || row.grant.redirectUri != q.redirectUri {
        return Rejected(InvalidGrant);
      }
      if (q.via.resource.Some? && q.via.resource.value != row.grant.resource)
         || (q.via.scopes.Some? && !SameScopes(q.via.scopes.value, row.grant.scopes)) {
        return Rejected(InvalidGrant);
      }
      var checked := ValidatePendingParts(q.via.registry, q.clientId, q.redirectUri, "code", "S256",
                                          row.grant.challenge,
                                          row.grant.scopes, Some(row.grant.resource), env.at.a);
      if checked.Err? {
        return Rejected(CredentialError(checked.error));
      }
      outcome := ExchangeCodeBound(q, row.grant.resource, env);
    }

    method ExchangeCodeBound(q: CodeRequest, resource: string, env: Env) returns (outcome: Outcome)
      modifies pool
      ensures Executed(old(pool.Snapshot()), BoundExchange(old(pool.Snapshot()), q, resource, env), pool.Snapshot(),
                       outcome)
    {
      hide ValidatePendingParts, VerifyS256, SettleExchange, Apply;
      NothingIsWritten(pool.Snapshot());
      if q.code !in pool.codes {
        return Rejected(InvalidGrant);
      }
      var seen := pool.codes[q.code];
      if !CodeBound(q, resource, seen) {
        return Rejected(InvalidGrant);
      }
      if seen.session !in pool.sessions {
        return Rejected(InvalidGrant);
      }
      var session := pool.sessions[seen.session];
      var code := pool.codes[q.code];
      if code.session != seen.session || !CodeBound(q, resource, code) {
        return Rejected(InvalidGrant);
      }
      var objection := CheckBinding(q.via, q.clientId, code.grant.binding, env.at.b);
      if objection.Some? {
        return Rejected(objection.value);
      }
      if q.via.Checked? {
        var checked := ValidatePendingParts(q.via.registry, q.clientId, q.redirectUri, "code", "S256",
                                            code.grant.challenge,
                                            code.grant.scopes, Some(resource), env.at.c);
        if checked.Err? {
          return Rejected(CredentialError(checked.error));
        }
      }
      objection := CheckBinding(q.via, q.clientId, code.grant.binding, env.at.d);
      if objection.Some? {
        return Rejected(objection.value);
      }
      outcome := Settle(q, code, session, env);
    }

    /** The rest of the exchange, from the clock reading on: replay, liveness, consumption, renewal. */
    method Settle(q: CodeRequest, code: CodeRow, session: SessionRow, env: Env) returns (outcome: Outcome)
      requires q.code in pool.codes && pool.codes[q.code] == code
      modifies pool
      ensures Executed(old(pool.Snapshot()), SettleExchange(q, code, session, env), pool.Snapshot(), outcome)
    {
      var saved := pool.Snapshot();
      var now := env.clock.first;
      if code.consumedAt.Some? {
        pool.families := RevokeWhere(pool.families, FamiliesFrom(pool.families, q.code), Always(now));
        var objection := CheckBinding(q.via, q.clientId, code.grant.binding, env.at.e);
        if objection.Some? {
          pool.Restore(saved);
          return Rejected(objection.value);
        }
        return Rejected(InvalidGrant);
      }
      if code.expiresAt <= now || session.expiresAt <= now || session.revokedAt.Some? {
        return Rejected(InvalidGrant);
      }
      pool.codes := pool.codes[q.code := code.(consumedAt := Some(now))];
      var refreshToken := None;
      if code.issueRefresh {
        pool.families := pool.families[env.drawn.row :=
          FamilyRow(q.code, code.session, session.userId, code.grant.clientId, code.grant.scopes, code.grant.resource,
                    code.grant.binding, code.upstreamAuthTime, now, Min(now + FAMILY_LIFETIME, session.expiresAt),
                      None)];
        InsertRefresh(env.drawn.row, now, env.drawn.token);
        refreshToken := Some(env.drawn.token);
      }
      var objection := CheckBinding(q.via, q.clientId, code.grant.binding, env.at.e);
      if objection.Some? {
        pool.Restore(saved);
        return Rejected(objection.value);
      }
      return Granted(ExchangeResult(code.session, session.userId, code.grant.clientId, code.grant.scopes,
                                    code.grant.resource,
                                    refreshToken, code.nonce, code.upstreamAuthTime));
    }

    /** The request entry point: checks on an unlocked read, then the bound rotation. */
    method RotateRefresh(q: TokenRequest, env: Env) returns (outcome: Outcome)
      modifies pool
      ensures Ran(old(pool.Snapshot()), Rotate(q), env, pool.Snapshot(), outcome)
    {
      hide PermitsRefresh, SameScopes, BoundRotation;
      RequestThenBoundRotation(pool.Snapshot(), q, env);
      if q.via.Direct? {
        outcome := RotateRefreshBound(q, q.via.exactResource, env);
        return;
      }
      if q.token !in pool.members || pool.members[q.token].family !in pool.families {
        return Rejected(InvalidGrant);
      }
      var family := pool.families[pool.members[q.token].family];
      if family.clientId != q.clientId {
        return Rejected(InvalidGrant);
      }
      if (q.via.resource.Some? && q.via.resource.value != family.resource)
         || (q.via.scopes.Some? && !SameScopes(q.via.scopes.value, family.scopes))
         || !PermitsRefresh(q.via.registry, q.clientId, family.scopes, family.resource) {
        return Rejected(InvalidGrant);
      }
      outcome := RotateRefreshBound(q, family.resource, env);
    }

    method RotateRefreshBound(q: TokenRequest, resource: string, env: Env) returns (outcome: Outcome)
      modifies pool
      ensures Executed(old(pool.Snapshot()), BoundRotation(old(pool.Snapshot()), q, resource, env), pool.Snapshot(),
                       outcome)
    {
      var saved := pool.Snapshot();
      if q.token !in pool.members || pool.members[q.token].family !in pool.families {
        return Rejected(InvalidGrant);
      }
      var familyId := pool.members[q.token].family;
      if pool.families[familyId].session !in pool.sessions {
        return Rejected(InvalidGrant);
      }
      var session := pool.sessions[pool.families[familyId].session];
      var family := pool.families[familyId];
      var member := pool.members[q.token];
      if family.clientId != q.clientId || family.resource != resource {
        return Rejected(InvalidGrant);
      }
      var objection := CheckBinding(q.via, q.clientId, family.binding, env.at.a);
      if objection.Some? {
        return Rejected(objection.value);
      }
      if q.via.Checked? && !PermitsRefresh(q.via.registry, q.clientId, family.scopes, family.resource) {
        return Rejected(InvalidGrant);
      }
      var now := env.clock.first;
      objection := CheckBinding(q.via, q.clientId, family.binding, env.at.b);
      if objection.Some? {
        return Rejected(objection.value);
      }
      if member.consumedAt.Some? {
        pool.families := RevokeWhere(pool.families, {familyId}, Always(now));
        objection := CheckBinding(q.via, q.clientId, family.binding, env.at.c);
        if objection.Some? {
          pool.Restore(saved);
          return Rejected(objection.value);
        }
        return Rejected(InvalidGrant);
      }
      if family.revokedAt.Some? || session.revokedAt.Some? || family.expiresAt <= now || session.expiresAt <= now {
        return Rejected(InvalidGrant);
      }
      InsertRefresh(familyId, now, env.drawn.token);
      pool.members := pool.members[q.token := member.(consumedAt := Some(now), successor := Some(env.drawn.token))];
      objection := CheckBinding(q.via, q.clientId, family.binding, env.at.c);
      if objection.Some? {
        pool.Restore(saved);
        return Rejected(objection.value);
      }
      return Granted(ExchangeResult(family.session, session.userId, family.clientId, family.scopes, family.resource,
                                    Some(env.drawn.token), None, family.upstreamAuthTime));
    }

    method RevokeRefreshToken(token: Id, clientId: string, env: Env) returns (outcome: Outcome)
      modifies pool
      ensures Ran(old(pool.Snapshot()), RevokeRefresh(token, clientId), env, pool.Snapshot(), outcome)
    {
      if token in pool.members && pool.members[token].family in pool.families {
        var family := pool.members[token].family;
        if pool.families[family].clientId == clientId {
          pool.families := RevokeWhere(pool.families, {family}, Always(env.clock.first));
        }
      }
      return Acknowledged;
    }

    method LogoutSession(session: Id, env: Env) returns (outcome: Outcome)
      modifies pool
      ensures Ran(old(pool.Snapshot()), Logout(session), env, pool.Snapshot(), outcome)
    {
      if session !in pool.sessions {
        return Rejected(InvalidGrant);
      }
      var row := pool.sessions[session];
      pool.sessions := pool.sessions[session := row.(revokedAt := Coalesce(row.revokedAt, env.clock.first))];
      pool.families := RevokeWhere(pool.families, FamiliesUnder(pool.families, session), env.clock.row);
      return Acknowledged;
    }

    method InsertRefresh(family: Id, now: Time, token: Id)
      modifies pool`members
      ensures pool.members == old(pool.members)[token := MemberRow(family, now, None, None)]
    {
      pool.members := pool.members[token := MemberRow(family, now, None, None)];
    }
  }

  /** The bound exchange, alone on the database. */
  ghost function BoundExchange(db: Db, q: CodeRequest, resource: string, env: Env): Decision {
    if q.code !in db.codes || !CodeBound(q, resource, db.codes[q.code]) || db.codes[q.code].session !in db.sessions
    then Reject(InvalidGrant)
    else DecideExchange(q, db.codes[q.code], db.sessions[db.codes[q.code].session], env)
  }

  /** The bound rotation, alone on the database. */
  ghost function BoundRotation(db: Db, q: TokenRequest, resource: string, env: Env): Decision {
    if q.token !in db.members || db.members[q.token].family !in db.families
       || db.families[db.members[q.token].family].session !in db.sessions
       || db.families[db.members[q.token].family].resource != resource
    then Reject(InvalidGrant)
    else
      var family := db.families[db.members[q.token].family];
      DecideRotate(q.(via := if q.via.Direct? then Direct(resource) else q.via), db.members[q.token], family,
                   db.sessions[family.session], env)
  }

  lemma RequestThenBoundRotation(db: Db, q: TokenRequest, env: Env)
    ensures q.via.Direct? ==> Perform(db, Rotate(q), env) == BoundRotation(db, q, q.via.exactResource, env)
    ensures q.token in db.members && db.members[q.token].family in db.families ==>
              var family := db.families[db.members[q.token].family];
              Perform(db, Rotate(q), env) ==
              if TokenRequestGate(q, family).Some? then Reject(TokenRequestGate(q, family).value)
              else BoundRotation(db, q, BoundResource(q.via, family.resource), env)
    ensures q.token !in db.members || db.members[q.token].family !in db.families ==>
              Perform(db, Rotate(q), env) == Reject(InvalidGrant)
  {
    hide PermitsRefresh, SameScopes, CheckBinding;
  }

  lemma RequestThenBound(db: Db, q: CodeRequest, env: Env)
    ensures q.via.Direct? ==> Perform(db, Exchange(q), env) == BoundExchange(db, q, q.via.exactResource, env)
    ensures Perform(db, Exchange(q), env) ==
            if q.code !in db.codes then Reject(InvalidGrant)
            else if CodeRequestGate(q, db.codes[q.code], env).Some?
            then Reject(CodeRequestGate(q, db.codes[q.code], env).value)
            else BoundExchange(db, q, BoundResource(q.via, db.codes[q.code].grant.resource), env)
  {
    hide DecideExchange, CodeBound, ValidatePendingParts, SameScopes;
  }
}
