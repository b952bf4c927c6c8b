/** The row locks that UPDATE statements take: on every row a statement selects, whether or not the
    stored value changes, and whether or not the transaction is rolled back afterwards. */
module UpdateLocks {
  import opened Prelude
  import opened Tables
  import opened Invariants
  import opened Operations
  import opened Tasks
  import opened Footprints
  import opened Locking

  predicate IsFamilyIn(lock: Lock, families: set<Id>) {
    lock.FamilyLock? && lock.id in families
  }

  /** The stored rows that the statements of a write set select. */
  predicate Touches(db: Db, e: Effect, lock: Lock) {
    match e
    case UseCode(id, _, _) => lock == CodeLock(id)
    case RevokeSource(id, _) => IsFamilyIn(lock, FamiliesFrom(db.families, id))
    case RevokeFamily(id, _) => lock == FamilyLock(id)
    case RotateToken(id, _, _) => lock == MemberLock(id)
    case EndSession(id, _, _) => lock == SessionLock(id) || IsFamilyIn(lock, FamiliesUnder(db.families, id))
    case FinishChallenge(id, s, _) =>
      lock == ChallengeLock(id) || lock == SessionLock(s) || IsFamilyIn(lock, FamiliesUnder(db.families, s))
    case MoveBrowser(id, _) => lock == BrowserLock(id)
    case ApproveBrowser(id, _, _) => lock == BrowserLock(id)
    case LoginBrowser(id, _, _, _, subject, _) => lock == BrowserLock(id) || lock == IdentityLock(subject)
    case LinkUser(subject, _, _) => lock == IdentityLock(subject)
    case _ => false
  }

  /** The stored rows that a request may update once it holds all its locks, on any branch: also on
      those that store what is there already, and on those that a last check of policy or time undoes. */
  predicate Selects(db: Db, call: Call, loc: Locals, lock: Lock) {
    match call
    case Exchange(q) =>
      loc.code.Some? && (lock == CodeLock(q.code) || IsFamilyIn(lock, FamiliesFrom(db.families, q.code)))
    case Rotate(q) =>
      loc.member.Some? && loc.family.Some?
      && (lock == MemberLock(q.token) || lock == FamilyLock(loc.family.value.id))
    case RevokeRefresh(_, _) => loc.family.Some? && lock == FamilyLock(loc.family.value.id)
    case Logout(s) => loc.session.Some? && (lock == SessionLock(s) || IsFamilyIn(lock, FamiliesUnder(db.families, s)))
    case FinishLogout(q) =>
      loc.challenge.Some?
      && (lock == ChallengeLock(q.challenge) || lock == SessionLock(q.session)
          || IsFamilyIn(lock, FamiliesUnder(db.families, q.session)))
    case LinkIdentity(subject, _) => loc.subject.Some? && lock == IdentityLock(subject)
    case CompleteCallback(_, identity, _, _) =>
      loc.browser.Some?
      && (lock == BrowserLock(loc.browser.value.id) || (loc.subject.Some? && lock == IdentityLock(identity.subject)))
    case _ => (IsConsentCall(call) || IsRowCall(call)) && loc.browser.Some? && lock == BrowserLock(loc.browser.value.id)
  }

  // ---- nothing is left out ----

  /** The commit changes the stored row that this lock stands for. */
  ghost predicate RowChanges(db: Db, out: Db, lock: Lock) {
    match lock
    case SessionLock(id) => id in db.sessions && id in out.sessions && out.sessions[id] != db.sessions[id]
    case CodeLock(id) => id in db.codes && id in out.codes && out.codes[id] != db.codes[id]
    case ChallengeLock(id) => id in db.challenges && id in out.challenges && out.challenges[id] != db.challenges[id]
    case BrowserLock(id) => id in db.browsers && id in out.browsers && out.browsers[id] != db.browsers[id]
    case FamilyLock(id) => id in db.families && id in out.families && out.families[id] != db.families[id]
    case MemberLock(id) => id in db.members && id in out.members && out.members[id] != db.members[id]
    case IdentityLock(subject) =>
      subject in out.identities && !(subject in db.identities && out.identities[subject] == db.identities[subject])
  }

  lemma CredentialChangesAreTouched(db: Db, e: Effect, lock: Lock)
    requires e.UseCode? || e.RevokeSource? || e.RevokeFamily? || e.RotateToken? || e.EndSession? || e.FinishChallenge?
    requires Guarded(db, e) && RowChanges(db, Apply(db, e), lock)
    ensures Touches(db, e, lock)
  {
    hide FamilyOk;
  }

  lemma OtherChangesAreTouched(db: Db, e: Effect, lock: Lock)
    requires e.MoveBrowser? || e.ApproveBrowser? || e.LoginBrowser? || e.LinkUser? || e.AddSession? || e.AddCode?
             || e.AddChallenge? || e.AddBrowser? || e.NoEffect?
    requires Guarded(db, e) && RowChanges(db, Apply(db, e), lock)
    ensures Touches(db, e, lock)
  {
    hide BrowserOk, CodeOk, OriginOk, SessionOk;
  }

  /** A row that a commit changes is a row that its statements select. */
  lemma ChangesAreTouched(db: Db, e: Effect, lock: Lock)
    requires Guarded(db, e) && RowChanges(db, Apply(db, e), lock)
    ensures Touches(db, e, lock)
  {
    hide Guarded, RowChanges, Apply, Touches;
    if e.UseCode? || e.RevokeSource? || e.RevokeFamily? || e.RotateToken? || e.EndSession? || e.FinishChallenge? {
      CredentialChangesAreTouched(db, e, lock);
    } else {
      OtherChangesAreTouched(db, e, lock);
    }
  }

  lemma CredentialTouchesAreSelected(db: Db, call: Call, env: Env, loc: Locals, lock: Lock)
    requires call.Exchange? || call.Rotate? || call.RevokeRefresh?
    requires Accurate(db, call, loc) && Fits(call, env, loc) && Next(call, loc, env).Conclude?
    requires Touches(db, Next(call, loc, env).decision.effect, lock)
    ensures Selects(db, call, loc, lock)
  {
    hide CodeRequestGate, CodeBound, TokenRequestGate, DecideExchange, DecideRotate, CodeKept, FamilyKept;
    if call.Exchange? && loc.code.Some? {
      ExchangeEffects(call.code, loc.code.value.row, loc.session.value.row, env);
    } else if call.Rotate? && loc.member.Some? {
      RotateEffects(call.token, loc.member.value.row, loc.family.value.row, loc.session.value.row, env);
    }
  }

  lemma SessionTouchesAreSelected(db: Db, call: Call, env: Env, loc: Locals, lock: Lock)
    requires IsSessionCall(call) && NextUnderSession(call, loc, env).Conclude?
    requires Touches(db, NextUnderSession(call, loc, env).decision.effect, lock)
    ensures Selects(db, call, loc, lock)
  {
    hide NextUnderSession;
    SessionEffects(call, env, loc);
  }

  lemma BrowserTouchesAreSelected(db: Db, call: Call, env: Env, loc: Locals, lock: Lock)
    requires IsConsentCall(call) || IsRowCall(call)
    requires Fits(call, env, loc) && Next(call, loc, env).Conclude?
    requires Touches(db, Next(call, loc, env).decision.effect, lock)
    ensures Selects(db, call, loc, lock)
  {
    hide DecideConsent, DecideStartGoogle, DecideCancel, DecideClaim, DecideFail, DecideDenyCallback, MatchesStart,
         MatchesState, MatchesClaim, MatchesConsent;
    if IsConsentCall(call) {
      ConsentEffects(call, loc.browser.value.row, loc.session.value.row, env);
    } else {
      RowEffects(call, loc.browser.value.id, loc.browser.value.row, env);
    }
  }

  lemma OtherTouchesAreSelected(db: Db, call: Call, env: Env, loc: Locals, lock: Lock)
    requires call.CompleteCallback? || call.LinkIdentity? || call.CreateSession? || call.BeginGoogle?
    requires Fits(call, env, loc) && Next(call, loc, env).Conclude?
    requires Touches(db, Next(call, loc, env).decision.effect, lock)
    ensures Selects(db, call, loc, lock)
  {
    hide DecideComplete, ValidateOptional, MatchesClaim;
    if call.CompleteCallback? && loc.browser.Some? && loc.subject.Some? {
      CompleteEffects(loc.browser.value.id, loc.browser.value.row, call,
                      loc.subject.value.user.GetOr(env.drawn.user), env);
    }
  }

  /** What a concluding request writes, it may write. */
  lemma TouchesAreSelected(db: Db, call: Call, env: Env, loc: Locals, lock: Lock)
    requires Accurate(db, call, loc) && Fits(call, env, loc) && Next(call, loc, env).Conclude?
    requires Touches(db, Next(call, loc, env).decision.effect, lock)
    ensures Selects(db, call, loc, lock)
  {
    hide Accurate, Fits, Touches, Selects, NextForExchange, NextForRotate, NextForRevoke, NextForConsent,
         NextForComplete, NextUnderSession, NextOnRow, DecideLink, DecideCreateSession, DecideBeginGoogle;
    if call.Exchange? || call.Rotate? || call.RevokeRefresh? {
      CredentialTouchesAreSelected(db, call, env, loc, lock);
    } else if IsSessionCall(call) {
      SessionTouchesAreSelected(db, call, env, loc, lock);
    } else if IsConsentCall(call) || IsRowCall(call) {
      BrowserTouchesAreSelected(db, call, env, loc, lock);
    } else {
      OtherTouchesAreSelected(db, call, env, loc, lock);
    }
  }

  // ---- and everything lies under a lock ----

  /** A row that a request may update is locked by it, or belongs to the session it has locked. */
  lemma SelectionsAreGuarded(db: Db, call: Call, env: Env, loc: Locals, lock: Lock)
    requires FamiliesOk(db.families, db.codes, db.sessions)
    requires Accurate(db, call, loc) && Fits(call, env, loc) && Selects(db, call, loc, lock)
    ensures Holds(loc, lock)
            || (Nested(lock) && SessionOfRow(db, lock).Some? && Holds(loc, SessionLock(SessionOfRow(db, lock).value)))
  {
    LockedRowsBelong(db, call, env, loc);
    hide CodeKept, FamilyKept, MatchesStart, MatchesState, MatchesClaim, MatchesConsent;
    if lock.FamilyLock? && call.Exchange? {
      assert FamilyOk(db.families[lock.id], db.codes[call.code.code], db.sessions[db.families[lock.id].session]);
    }
  }
}
