/** The browser authorization transactions, statement by statement (src/browser.rs), and the identity
    upsert they contain (src/database.rs). */
module BrowserTransactions {
  import opened Prelude
  import opened Policy
  import opened Tables
  import opened Invariants
  import opened Operations
  import opened Tasks
  import opened Database
  import opened Credentials

  /** How the nested transaction of a callback ends. */
  datatype Staged = Refused(error: Error) | Late | Ready(expiresAt: Time)

  function StagedResult(request: Request, lifetime: Lifetime, optional: Option<Registry>, env: Env): Staged {
    var before := ValidateOptional(optional, request, env.at.c, env.at.d);
    var after := ValidateOptional(optional, request, env.at.e, env.at.f);
    if before.Some? then Refused(before.value)
    else if request.expiresAt <= env.clock.second then Late
    else if after.Some? then Refused(after.value)
    else Ready(env.clock.first + lifetime.seconds * SECOND)
  }

  /** Identity, profile and session written, the browser row not yet moved. */
  function WithLogin(db: Db, identity: Identity, lifetime: Lifetime, env: Env): Db {
    var now := env.clock.first;
    var userId := UserFor(db.identities, identity.subject, env.drawn.user);
    db.(users := db.users + (if identity.subject in db.identities then {} else {userId}),
        identities := db.identities[identity.subject := userId],
        profiles := db.profiles[userId := identity.profile.(updatedAt := now)],
        sessions := db.sessions[env.drawn.row :=
          SessionRow(userId, now, now + lifetime.seconds * SECOND, None, identity.authTime)])
  }

  class BrowserStore {
    const pool: Pool
    const credentials: CredentialStore

    constructor (pool: Pool)
      ensures this.pool == pool && credentials.pool == pool
    {
      this.pool := pool;
      credentials := new CredentialStore(pool);
    }

    predicate Wired() {
      credentials.pool == pool
    }

    method BeginWithGoogle(b: BrowserBegin, env: Env) returns (outcome: Outcome)
      modifies pool
      ensures Ran(old(pool.Snapshot()), BeginGoogle(b), env, pool.Snapshot(), outcome)
    {
      hide Perform;
      BeginAlone(pool.Snapshot(), 0, b, env);
      var saved := pool.Snapshot();
      if !b.pending.IsFresh(env.at.a) {
        return Rejected(MetadataExpired);
      }
      var d := env.drawn;
      pool.browsers := pool.browsers[d.row :=
        BrowserRow(BeginRequest(b, env.clock.first), AwaitingStart, Some(d.state), Some(d.binding), Some(d.nonce),
                   Some(d.verifier),
                   None, None, None)];
      if !b.pending.IsFresh(env.at.b) {
        pool.Restore(saved);
        return Rejected(MetadataExpired);
      }
      return BrowserStarted(d.row, d.state, d.binding);
    }

    method BeginWithSession(session: Id, b: BrowserBegin, env: Env) returns (outcome: Outcome)
      modifies pool
      ensures Ran(old(pool.Snapshot()), BeginAuthenticated(session, b), env, pool.Snapshot(), outcome)
    {
      hide Perform;
      BeginAlone(pool.Snapshot(), session, b, env);
      var saved := pool.Snapshot();
      if session !in pool.sessions || !SessionLive(pool.sessions[session], env.clock.first) {
        return Rejected(BrowserInvalid);
      }
      if !b.pending.IsFresh(env.at.a) {
        return Rejected(MetadataExpired);
      }
      var d := env.drawn;
      pool.browsers := pool.browsers[d.row :=
        BrowserRow(BeginRequest(b, env.clock.second), AwaitingConsent, None, None, None, None, None, Some(d.secret),
                   Some(session))];
      if !b.pending.IsFresh(env.at.b) {
        pool.Restore(saved);
        return Rejected(MetadataExpired);
      }
      return ConsentAsked(d.row, d.secret);
    }

    method Start(q: StartRequest, env: Env) returns (outcome: Outcome)
      modifies pool
      ensures Ran(old(pool.Snapshot()), StartGoogle(q), env, pool.Snapshot(), outcome)
    {
      hide Perform;
      StartAlone(pool.Snapshot(), q, None, env);
      if q.browser !in pool.browsers || !MatchesStart(q, pool.browsers[q.browser], env.clock.first) {
        return Rejected(BrowserInvalid);
      }
      var row := pool.browsers[q.browser];
      pool.browsers := pool.browsers[q.browser := row.(stage := AwaitingGoogle)];
      return UpstreamStarted(row.upstreamNonce, row.upstreamVerifier);
    }

    method Cancel(q: StartRequest, optional: Option<Registry>, env: Env) returns (outcome: Outcome)
      modifies pool
      ensures Ran(old(pool.Snapshot()), CancelGoogle(q, optional), env, pool.Snapshot(), outcome)
    {
      hide Perform, DecideStartGoogle, MatchesStart;
      StartAlone(pool.Snapshot(), q, optional, env);
      hide ValidateOptional;
      var saved := pool.Snapshot();
      if q.browser !in pool.browsers || !MatchesStart(q, pool.browsers[q.browser], env.clock.first) {
        return Rejected(BrowserInvalid);
      }
      var row := pool.browsers[q.browser];
      var objection := ValidateOptional(optional, row.request, env.at.a, env.at.b);
      if objection.Some? {
        return Rejected(objection.value);
      }
      pool.browsers := pool.browsers[q.browser :=
                                     row.(stage := Denied, upstreamVerifier := None, upstreamNonce := None)];
      objection := ValidateOptional(optional, row.request, env.at.c, env.at.d);
      if objection.Some? {
        pool.Restore(saved);
        return Rejected(objection.value);
      }
      return DeniedTo(row.request.grant.redirectUri, row.request.state);
    }

    /** The row that a state and a browser binding select at the callback. */
    method SelectState(state: Id, binding: Id) returns (found: Option<Id>)
      requires BrowsersOk(pool.browsers, pool.sessions)
      ensures found == FindState(pool.Snapshot(), state, binding)
      ensures found.Some? ==> found.value in pool.browsers
    {
      if id :| id in pool.browsers && MatchesState(state, binding, pool.browsers[id]) {
        SecretsSelectOneRow(pool.Snapshot(), id, 0, state, binding);
        return Some(id);
      }
      return None;
    }

    /** The row that a claim selects. */
    method SelectClaim(claim: Id) returns (found: Option<Id>)
      requires BrowsersOk(pool.browsers, pool.sessions)
      ensures found == FindClaim(pool.Snapshot(), claim)
      ensures found.Some? ==> found.value in pool.browsers && pool.browsers[found.value].stage == CallbackClaimed
    {
      if id :| id in pool.browsers && MatchesClaim(claim, pool.browsers[id]) {
        SecretsSelectOneRow(pool.Snapshot(), id, claim, 0, 0);
        return Some(id);
      }
      return None;
    }

    method Claim(state: Id, binding: Id, env: Env) returns (outcome: Outcome)
      requires BrowsersOk(pool.browsers, pool.sessions)
      modifies pool
      ensures Ran(old(pool.Snapshot()), ClaimCallback(state, binding), env, pool.Snapshot(), outcome)
    {
      hide Perform, FindState, BrowsersOk;
      ClaimAlone(pool.Snapshot(), state, binding, env);
      var found := SelectState(state, binding);
      if found.None? {
        return Rejected(BrowserInvalid);
      }
      var id, row := found.value, pool.browsers[found.value];
      if row.request.expiresAt <= env.clock.first {
        pool.browsers := pool.browsers[id := row.(stage := Expired, upstreamVerifier := None)];
        return Rejected(BrowserInvalid);
      }
      pool.browsers := pool.browsers[id :=
                                     row.(stage := CallbackClaimed, claim := Some(env.drawn.secret),
                                          upstreamVerifier := None)];
      return CallbackWon(env.drawn.secret, row.upstreamVerifier, row.upstreamNonce);
    }

    method Fail(claim: Id, env: Env) returns (outcome: Outcome)
      requires BrowsersOk(pool.browsers, pool.sessions)
      modifies pool
      ensures Ran(old(pool.Snapshot()), FailCallback(claim), env, pool.Snapshot(), outcome)
    {
      hide Perform, FindClaim, BrowsersOk, DecideDenyCallback;
      ClaimedAlone(pool.Snapshot(), claim, EMPTY_REGISTRY, env);
      var found := SelectClaim(claim);
      if found.None? {
        return Rejected(BrowserInvalid);
      }
      pool.browsers := pool.browsers[found.value := pool.browsers[found.value].(stage := Failed)];
      return Acknowledged;
    }

    method DenyAtCallback(claim: Id, registry: Registry, env: Env) returns (outcome: Outcome)
      requires BrowsersOk(pool.browsers, pool.sessions)
      modifies pool
      ensures Ran(old(pool.Snapshot()), DenyCallback(claim, registry), env, pool.Snapshot(), outcome)
    {
      hide Perform, FindClaim, BrowsersOk, DecideFail;
      ClaimedAlone(pool.Snapshot(), claim, registry, env);
      hide Revalidate;
      var saved := pool.Snapshot();
      var found := SelectClaim(claim);
      if found.None? {
        return Rejected(BrowserInvalid);
      }
      var id, row := found.value, pool.browsers[found.value];
      if row.request.expiresAt <= env.clock.first {
        return Rejected(BrowserInvalid);
      }
      var checked := Revalidate(registry, row.request, env.at.a, env.at.b);
      if checked.Err? {
        return Rejected(checked.error);
      }
      pool.browsers := pool.browsers[id := row.(stage := Denied, claim := None)];
      checked := Revalidate(registry, row.request, env.at.c, env.at.d);
      if checked.Err? {
        pool.Restore(saved);
        return Rejected(checked.error);
      }
      return DeniedTo(row.request.grant.redirectUri, row.request.state);
    }

    /** The callback: identity, profile and session are written under a savepoint inside the
        transaction that moves the browser row. */
    method Complete(claim: Id, identity: Identity, lifetime: Lifetime, optional: Option<Registry>, env: Env)
      returns (outcome: Outcome)
      requires BrowsersOk(pool.browsers, pool.sessions) && IdentitiesOk(pool.identities, pool.users, pool.profiles)
      modifies pool
      ensures Ran(old(pool.Snapshot()), CompleteCallback(claim, identity, lifetime, optional), env, pool.Snapshot(),
                  outcome)
    {
      hide Perform, FindClaim, BrowsersOk, IdentitiesOk, DecideComplete;
      CompleteAlone(pool.Snapshot(), claim, identity, lifetime, optional, env);
      if !BoundedSeconds(lifetime, SESSION_SECONDS) {
        return Rejected(BrowserInvalid);
      }
      var found := SelectClaim(claim);
      if found.None? {
        return Rejected(BrowserInvalid);
      }
      outcome := CompleteClaimed(found.value, identity, lifetime, optional, env);
    }

    method CompleteClaimed(id: Id, identity: Identity, lifetime: Lifetime, optional: Option<Registry>, env: Env)
      returns (outcome: Outcome)
      requires id in pool.browsers && pool.browsers[id].stage == CallbackClaimed
      requires IdentitiesOk(pool.identities, pool.users, pool.profiles)
      modifies pool
      ensures Executed(old(pool.Snapshot()),
                       DecideComplete(id, old(pool.browsers)[id], identity, lifetime, optional,
                                      UserFor(old(pool.identities), identity.subject, env.drawn.user), env),
                       pool.Snapshot(), outcome)
    {
      hide ValidateOptional, IdentitiesOk, Apply, WithLogin;
      var saved := pool.Snapshot();
      NothingIsWritten(saved);
      CallbackEffects(saved, id, identity, lifetime, env);
      var row := pool.browsers[id];
      var objection := ValidateOptional(optional, row.request, env.at.a, env.at.b);
      if objection.Some? {
        return Rejected(objection.value);
      }
      var staged := StageLogin(row.request, identity, lifetime, optional, env);
      match staged {
        case Refused(error) =>
          pool.Restore(saved);
          return Rejected(error);
        case Late =>
          pool.browsers := pool.browsers[id := row.(stage := Expired)];
          return Rejected(BrowserInvalid);
        case Ready(expiresAt) =>
          // The row is locked, so the guarded update of the source always finds it.
          assert pool.browsers[id].stage == CallbackClaimed;
          pool.browsers := pool.browsers[id :=
                                         pool.browsers[id].(stage := AwaitingConsent, session := Some(env.drawn.row),
                                                                  csrf := Some(env.drawn.secret), claim := None)];
          objection := ValidateOptional(optional, row.request, env.at.g, env.at.h);
          if objection.Some? {
            pool.Restore(saved);
            return Rejected(objection.value);
          }
          return LoggedIn(env.drawn.row, expiresAt, id, env.drawn.secret);
      }
    }

    /** The nested transaction: all of it, or nothing. */
    method StageLogin(request: Request, identity: Identity, lifetime: Lifetime, optional: Option<Registry>, env: Env)
      returns (staged: Staged)
      modifies pool
      ensures staged == StagedResult(request, lifetime, optional, env)
      ensures pool.Snapshot() ==
              if staged.Ready? then WithLogin(old(pool.Snapshot()), identity, lifetime, env) else old(pool.Snapshot())
    {
      hide ValidateOptional;
      var savepoint := pool.Snapshot();
      var objection := ValidateOptional(optional, request, env.at.c, env.at.d);
      if objection.Some? {
        return Refused(objection.value);
      }
      var profileTime := env.clock.first;
      var userId := UpsertIdentity(identity.subject, Some(identity.profile.(updatedAt := profileTime)), env.drawn.user);
      var expiresAt := profileTime + lifetime.seconds * SECOND;
      pool.sessions := pool.sessions[env.drawn.row :=
                                     SessionRow(userId, profileTime, expiresAt, None, identity.authTime)];
      if request.expiresAt <= env.clock.second {
        pool.Restore(savepoint);
        return Late;
      }
      objection := ValidateOptional(optional, request, env.at.e, env.at.f);
      if objection.Some? {
        pool.Restore(savepoint);
        return Refused(objection.value);
      }
      return Ready(expiresAt);
    }

    method ApproveWithConsent(q: ConsentRequest, registry: Registry, env: Env) returns (outcome: Outcome)
      requires Wired()
      modifies pool
      ensures Ran(old(pool.Snapshot()), ApproveConsent(q, registry), env, pool.Snapshot(), outcome)
    {
      hide Perform, Revalidate, CodeFrom;
      ConsentAlone(pool.Snapshot(), q, registry, None, env);
      var saved := pool.Snapshot();
      if q.session !in pool.sessions || q.browser !in pool.browsers || !MatchesConsent(q, pool.browsers[q.browser]) {
        return Rejected(BrowserInvalid);
      }
      var session, row := pool.sessions[q.session], pool.browsers[q.browser];
      if !ConsentLive(row, session, env.clock.first) {
        return Rejected(BrowserInvalid);
      }
      var pending := Revalidate(registry, row.request, env.at.a, env.at.b);
      if pending.Err? {
        return Rejected(pending.error);
      }
      var approved := Approve(pending.value, true, env.at.c);
      if approved.Err? {
        return Rejected(PolicyError(approved.error));
      }
      IssueFor(q, pending.value, approved.value, row, env);
      pending := Revalidate(registry, row.request, env.at.d, env.at.e);
      if pending.Err? {
        pool.Restore(saved);
        return Rejected(pending.error);
      }
      return ConsentGiven(env.drawn.row, row.request.grant.redirectUri, row.request.state);
    }

    method ApprovePreAuthorized(q: ConsentRequest, registry: Registry, env: Env) returns (outcome: Outcome)
      requires Wired()
      modifies pool
      ensures Ran(old(pool.Snapshot()), PreAuthorize(q, registry), env, pool.Snapshot(), outcome)
    {
      hide Perform, Revalidate, CodeFrom, PreAuthorizes;
      ConsentAlone(pool.Snapshot(), q, registry, None, env);
      var saved := pool.Snapshot();
      if q.session !in pool.sessions || q.browser !in pool.browsers || !MatchesConsent(q, pool.browsers[q.browser]) {
        return Rejected(BrowserInvalid);
      }
      var session, row := pool.sessions[q.session], pool.browsers[q.browser];
      if !ConsentLive(row, session, env.clock.first) {
        return Rejected(BrowserInvalid);
      }
      var pending := Revalidate(registry, row.request, env.at.a, env.at.b);
      if pending.Err? {
        return Rejected(pending.error);
      }
      if !row.request.allowPreAuthorization || !PreAuthorizes(registry, pending.value) {
        return NeedsConsent;
      }
      var approved := Approve(pending.value, true, env.at.c);
      if approved.Err? {
        return Rejected(PolicyError(approved.error));
      }
      IssueFor(q, pending.value, approved.value, row, env);
      var current := Revalidate(registry, row.request, env.at.d, env.at.e);
      if current.Err? {
        pool.Restore(saved);
        return Rejected(current.error);
      }
      if !PreAuthorizes(registry, current.value) {
        pool.Restore(saved);
        return Rejected(PolicyChanged);
      }
      if !ConsentLive(row, session, env.clock.third) {
        pool.Restore(saved);
        return Rejected(BrowserInvalid);
      }
      return ConsentGiven(env.drawn.row, row.request.grant.redirectUri, row.request.state);
    }

    /** Insert the code, then close the browser row; `origins` remembers which row it was. */
    method IssueFor(q: ConsentRequest, pending: Pending, issueRefresh: bool, row: BrowserRow, env: Env)
      requires Wired() && q.session in pool.sessions && q.browser in pool.browsers && pool.browsers[q.browser] == row
      modifies pool
      ensures pool.Snapshot() ==
              Apply(old(pool.Snapshot()),
                    ApproveBrowser(q.browser, env.drawn.row,
                                   CodeFrom(q.session, old(pool.sessions)[q.session], pending.Stored(), issueRefresh,
                                            row.request.nonce, CODE_SECONDS, env.clock.second)))
    {
      credentials.InsertAuthorizationCode(q.session, pending.Stored(), issueRefresh, row.request.nonce, CODE_SECONDS,
                                          env);
      pool.browsers := pool.browsers[q.browser := row.(stage := Approved, csrf := None)];
      pool.origins := pool.origins[env.drawn.row := q.browser];
    }

    method DenyByUser(q: ConsentRequest, optional: Option<Registry>, env: Env) returns (outcome: Outcome)
      modifies pool
      ensures Ran(old(pool.Snapshot()), DenyConsent(q, optional), env, pool.Snapshot(), outcome)
    {
      hide Perform, ValidateOptional, DecideApprove, DecidePreAuthorize;
      ConsentAlone(pool.Snapshot(), q, EMPTY_REGISTRY, optional, env);
      var saved := pool.Snapshot();
      if q.session !in pool.sessions || q.browser !in pool.browsers || !MatchesConsent(q, pool.browsers[q.browser]) {
        return Rejected(BrowserInvalid);
      }
      var session, row := pool.sessions[q.session], pool.browsers[q.browser];
      if !ConsentLive(row, session, env.clock.first) {
        return Rejected(BrowserInvalid);
      }
      var objection := ValidateOptional(optional, row.request, env.at.a, env.at.b);
      if objection.Some? {
        return Rejected(objection.value);
      }
      pool.browsers := pool.browsers[q.browser := row.(stage := Denied, csrf := None)];
      objection := ValidateOptional(optional, row.request, env.at.c, env.at.d);
      if objection.Some? {
        pool.Restore(saved);
        return Rejected(objection.value);
      }
      return DeniedTo(row.request.grant.redirectUri, row.request.state);
    }

    /** The consent page: it locks what an approval locks, and changes nothing. */
    method ShowConsent(q: ConsentRequest, registry: Registry, env: Env) returns (outcome: Outcome)
      modifies pool
      ensures Ran(old(pool.Snapshot()), ViewConsent(q, registry), env, pool.Snapshot(), outcome)
    {
      hide Perform, Revalidate;
      ViewAlone(pool.Snapshot(), q, registry, env);
      if q.session !in pool.sessions || q.browser !in pool.browsers
         || !MatchesConsent(q, pool.browsers[q.browser]) {
        return Rejected(BrowserInvalid);
      }
      var session, row := pool.sessions[q.session], pool.browsers[q.browser];
      if !ConsentLive(row, session, env.clock.first) {
        return Rejected(BrowserInvalid);
      }
      var checked := Revalidate(registry, row.request, env.at.a, env.at.b);
      if checked.Err? {
        return Rejected(checked.error);
      }
      checked := Revalidate(registry, row.request, env.at.c, env.at.d);
      if checked.Err? {
        return Rejected(checked.error);
      }
      var g := row.request.grant;
      return ConsentShown(g.clientId, g.scopes, g.resource, g.redirectUri, session.userId);
    }

    method SessionUpstreamAuthTime(session: Id, env: Env) returns (outcome: Outcome)
      modifies pool
      ensures Ran(old(pool.Snapshot()), ReadAuthTime(session), env, pool.Snapshot(), outcome)
    {
      if session !in pool.sessions || !SessionLive(pool.sessions[session], env.clock.first) {
        return Rejected(BrowserInvalid);
      }
      return AuthTimeRead(pool.sessions[session].upstreamAuthTime);
    }

    method FindOrCreateIdentity(subject: string, profile: Option<Profile>, env: Env) returns (outcome: Outcome)
      requires IdentitiesOk(pool.identities, pool.users, pool.profiles)
      modifies pool
      ensures Ran(old(pool.Snapshot()), LinkIdentity(subject, profile), env, pool.Snapshot(), outcome)
    {
      hide Perform, IdentitiesOk, Apply;
      LinkAlone(pool.Snapshot(), subject, profile, env);
      var stamped := if profile.Some? then Some(profile.value.(updatedAt := env.clock.first)) else None;
      var userId := UpsertIdentity(subject, stamped, env.drawn.user);
      return UserLinked(userId);
    }

    /** Look the subject up, or insert a user and link it; then overwrite the profile. */
    method UpsertIdentity(subject: string, profile: Option<Profile>, drawn: Id) returns (userId: Id)
      modifies pool`users, pool`identities, pool`profiles
      ensures userId == UserFor(old(pool.identities), subject, drawn)
      ensures pool.users == old(pool.users) + if subject in old(pool.identities) then {} else {userId}
      ensures pool.identities == old(pool.identities)[subject := userId]
      ensures pool.profiles == if profile.Some? then old(pool.profiles)[userId := profile.value] else old(pool.profiles)
    {
      if subject in pool.identities {
        userId := pool.identities[subject];
      } else {
        userId := drawn;
        pool.users := pool.users + {userId};
        pool.identities := pool.identities[subject := userId];
      }
      if profile.Some? {
        pool.profiles := pool.profiles[userId := profile.value];
      }
    }
  }

  // ---- what each call does alone ----

  lemma BeginAlone(db: Db, session: Id, b: BrowserBegin, env: Env)
    ensures Perform(db, BeginGoogle(b), env) == DecideBeginGoogle(b, env)
    ensures Perform(db, BeginAuthenticated(session, b), env) ==
            if session !in db.sessions then Reject(BrowserInvalid)
            else DecideBeginAuthenticated(session, db.sessions[session], b, env)
  {
  }

  lemma StartAlone(db: Db, q: StartRequest, optional: Option<Registry>, env: Env)
    ensures var matches := q.browser in db.browsers && MatchesStart(q, db.browsers[q.browser], env.clock.first);
            && Perform(db, StartGoogle(q), env) ==
               (if matches then DecideStartGoogle(q.browser, db.browsers[q.browser]) else Reject(BrowserInvalid))
            && Perform(db, CancelGoogle(q, optional), env) ==
               (if matches then DecideCancel(q.browser, db.browsers[q.browser], optional, env)
                else Reject(BrowserInvalid))
  {
  }

  lemma ClaimAlone(db: Db, state: Id, binding: Id, env: Env)
    ensures var found := FindState(db, state, binding);
            Perform(db, ClaimCallback(state, binding), env) ==
            if found.None? then Reject(BrowserInvalid) else DecideClaim(found.value, db.browsers[found.value], env)
  {
  }

  lemma ClaimedAlone(db: Db, claim: Id, registry: Registry, env: Env)
    ensures var found := FindClaim(db, claim);
            && Perform(db, FailCallback(claim), env) ==
               (if found.None? then Reject(BrowserInvalid) else DecideFail(found.value, db.browsers[found.value]))
            && Perform(db, DenyCallback(claim, registry), env) ==
               (if found.None? then Reject(BrowserInvalid)
                else DecideDenyCallback(found.value, db.browsers[found.value], registry, env))
  {
  }

  lemma CompleteAlone(db: Db, claim: Id, identity: Identity, lifetime: Lifetime, optional: Option<Registry>, env: Env)
    ensures var found := FindClaim(db, claim);
            Perform(db, CompleteCallback(claim, identity, lifetime, optional), env) ==
            if !BoundedSeconds(lifetime, SESSION_SECONDS) || found.None? then Reject(BrowserInvalid)
            else DecideComplete(found.value, db.browsers[found.value], identity, lifetime, optional,
                                UserFor(db.identities, identity.subject, env.drawn.user), env)
  {
  }

  /** What the two committing branches of a callback write. */
  lemma CallbackEffects(db: Db, id: Id, identity: Identity, lifetime: Lifetime, env: Env)
    requires id in db.browsers && IdentitiesOk(db.identities, db.users, db.profiles)
    ensures Apply(db, MoveBrowser(id, db.browsers[id].(stage := Expired))) ==
            db.(browsers := db.browsers[id := db.browsers[id].(stage := Expired)])
    ensures var now := env.clock.first;
            var userId := UserFor(db.identities, identity.subject, env.drawn.user);
            Apply(db, LoginBrowser(id, env.drawn.secret, env.drawn.row,
                                   SessionRow(userId, now, now + lifetime.seconds * SECOND, None, identity.authTime),
                                   identity.subject, identity.profile.(updatedAt := now))) ==
            var staged := WithLogin(db, identity, lifetime, env);
            staged.(browsers := db.browsers[id := LoggedInRow(db.browsers[id], env.drawn.row, env.drawn.secret)])
    ensures WithLogin(db, identity, lifetime, env).browsers == db.browsers
  {
  }

  lemma ConsentAlone(db: Db, q: ConsentRequest, registry: Registry, optional: Option<Registry>, env: Env)
    ensures q.session in db.sessions && q.browser in db.browsers && MatchesConsent(q, db.browsers[q.browser]) ==>
              var row, session := db.browsers[q.browser], db.sessions[q.session];
              && Perform(db, ApproveConsent(q, registry), env) == DecideApprove(q, row, session, registry, env)
              && Perform(db, PreAuthorize(q, registry), env) == DecidePreAuthorize(q, row, session, registry, env)
              && Perform(db, DenyConsent(q, optional), env) == DecideDeny(q, row, session, optional, env)
    ensures !(q.session in db.sessions && q.browser in db.browsers && MatchesConsent(q, db.browsers[q.browser])) ==>
              && Perform(db, ApproveConsent(q, registry), env) == Reject(BrowserInvalid)
              && Perform(db, PreAuthorize(q, registry), env) == Reject(BrowserInvalid)
              && Perform(db, DenyConsent(q, optional), env) == Reject(BrowserInvalid)
  {
  }

  lemma ViewAlone(db: Db, q: ConsentRequest, registry: Registry, env: Env)
    ensures Perform(db, ViewConsent(q, registry), env) ==
            if q.session in db.sessions && q.browser in db.browsers && MatchesConsent(q, db.browsers[q.browser])
            then DecideView(q, db.browsers[q.browser], db.sessions[q.session], registry, env)
            else Reject(BrowserInvalid)
  {
    hide DecideView;
  }

  lemma LinkAlone(db: Db, subject: string, profile: Option<Profile>, env: Env)
    requires IdentitiesOk(db.identities, db.users, db.profiles)
    ensures var userId := UserFor(db.identities, subject, env.drawn.user);
            var stamped := if profile.Some? then Some(profile.value.(updatedAt := env.clock.first)) else None;
            && Perform(db, LinkIdentity(subject, profile), env)
               == Decision(LinkUser(subject, userId, stamped), UserLinked(userId))
            && Apply(db, LinkUser(subject, userId, stamped)) ==
               db.(users := db.users + (if subject in db.identities then {} else {userId}),
                   identities := db.identities[subject := userId],
                   profiles := if stamped.Some? then db.profiles[userId := stamped.value] else db.profiles)
  {
  }
}
