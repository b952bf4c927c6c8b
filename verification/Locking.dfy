/** What one small step of a request does to what it knows and holds. */
module Locking {
  import opened Prelude
  import opened Tables
  import opened Operations
  import opened Tasks
  import opened Footprints

  lemma NothingReadFits(db: Db, call: Call, env: Env)
    ensures Accurate(db, call, NOTHING_READ) && Fits(call, env, NOTHING_READ)
    ensures forall l :: !Holds(NOTHING_READ, l)
  {
  }

  lemma ReadsStayAccurate(db: Db, call: Call, env: Env, loc: Locals, outside: bool)
    requires Accurate(db, call, loc) && Fits(call, env, loc) && RowToRead(db, call)
    requires Next(call, loc, env) == (if outside then ReadOutside else ReadUnlocked)
    ensures var read := AfterRead(db, call, loc, outside);
            && Accurate(db, call, read) && Fits(call, env, read)
            && (forall l :: Holds(read, l) <==> Holds(loc, l))
  {
  }

  /** The slot of this kind of lock is still empty. */
  predicate Unused(loc: Locals, lock: Lock) {
    match lock
    case SessionLock(_) => loc.session.None?
    case CodeLock(_) => loc.code.None?
    case ChallengeLock(_) => loc.challenge.None?
    case BrowserLock(_) => loc.browser.None?
    case IdentityLock(_) => loc.subject.None?
    case FamilyLock(_) => loc.family.None?
    case MemberLock(_) => loc.member.None?
  }

  predicate Stored(db: Db, lock: Lock) {
    match lock
    case SessionLock(id) => id in db.sessions
    case CodeLock(id) => id in db.codes
    case ChallengeLock(id) => id in db.challenges
    case BrowserLock(id) => id in db.browsers
    case IdentityLock(_) => true
    case FamilyLock(id) => id in db.families
    case MemberLock(id) => id in db.members
  }

  lemma LockedRowIsRead(db: Db, call: Call, loc: Locals, lock: Lock)
    requires Accurate(db, call, loc) && Stored(db, lock)
    ensures Accurate(db, call, AfterLock(db, lock, loc))
  {
    hide CodeKept, FamilyKept, TokenStored;
  }

  lemma OneMoreLock(db: Db, loc: Locals, lock: Lock)
    requires Unused(loc, lock) && Stored(db, lock)
    ensures forall l :: Holds(AfterLock(db, lock, loc), l) <==> Holds(loc, l) || l == lock
  {
  }

  /** The located lock is stored, new to the request, above all its locks in rank, and the row it
      guards is the one the request asked for. */
  ghost predicate LocksWell(db: Db, call: Call, env: Env, loc: Locals, lock: Lock) {
    && Stored(db, lock) && Unused(loc, lock)
    && Fits(call, env, AfterLock(db, lock, loc))
    && (forall l | Holds(loc, l) :: LockRank(l) < LockRank(lock))
  }

  lemma CredentialsLockWell(db: Db, call: Call, env: Env, loc: Locals, target: Target)
    requires call.Exchange? || call.Rotate? || call.RevokeRefresh?
    requires Accurate(db, call, loc) && Fits(call, env, loc)
    requires Next(call, loc, env) == Take(target) && Locate(db, target).Some?
    ensures LocksWell(db, call, env, loc, Locate(db, target).value)
  {
    hide CodeRequestGate, CodeBound, DecideExchange, TokenRequestGate, DecideRotate, CodeKept, FamilyKept, TokenStored;
  }

  lemma SessionsLockWell(db: Db, call: Call, env: Env, loc: Locals, target: Target)
    requires IsSessionCall(call)
    requires Accurate(db, call, loc) && Fits(call, env, loc)
    requires Next(call, loc, env) == Take(target) && Locate(db, target).Some?
    ensures LocksWell(db, call, env, loc, Locate(db, target).value)
  {
    hide DecideIssueCode, DecideBeginLogout, DecideFinishLogout, DecideBeginAuthenticated, Accurate;
  }

  lemma ConsentsLockWell(db: Db, call: Call, env: Env, loc: Locals, target: Target)
    requires IsConsentCall(call)
    requires Accurate(db, call, loc) && Fits(call, env, loc)
    requires Next(call, loc, env) == Take(target) && Locate(db, target).Some?
    ensures LocksWell(db, call, env, loc, Locate(db, target).value)
  {
    hide DecideConsent, MatchesConsent, Accurate;
  }

  lemma CallbacksLockWell(db: Db, call: Call, env: Env, loc: Locals, target: Target)
    requires IsRowCall(call)
    requires Accurate(db, call, loc) && Fits(call, env, loc)
    requires Next(call, loc, env) == Take(target) && Locate(db, target).Some?
    ensures LocksWell(db, call, env, loc, Locate(db, target).value)
  {
    hide DecideStartGoogle, DecideCancel, DecideClaim, DecideFail, DecideDenyCallback, MatchesStart, MatchesState,
         MatchesClaim, Accurate;
  }

  lemma IdentitiesLockWell(db: Db, call: Call, env: Env, loc: Locals, target: Target)
    requires call.CompleteCallback? || call.LinkIdentity?
    requires Accurate(db, call, loc) && Fits(call, env, loc)
    requires Next(call, loc, env) == Take(target) && Locate(db, target).Some?
    ensures LocksWell(db, call, env, loc, Locate(db, target).value)
  {
    hide DecideComplete, DecideLink, ValidateOptional, MatchesClaim, Accurate;
  }

  /** A request locks in rank order, reads the committed row, and gains exactly that lock. */
  lemma LocksStayAccurate(db: Db, call: Call, env: Env, loc: Locals, target: Target)
    requires Accurate(db, call, loc) && Fits(call, env, loc)
    requires Next(call, loc, env) == Take(target) && Locate(db, target).Some?
    ensures var lock := Locate(db, target).value;
            && LocksWell(db, call, env, loc, lock)
            && Accurate(db, call, AfterLock(db, lock, loc))
            && (forall l :: Holds(AfterLock(db, lock, loc), l) <==> Holds(loc, l) || l == lock)
  {
    hide Accurate, AfterLock, Holds, Stored, Unused, Locate, NextForExchange, NextForRotate, NextForRevoke,
         NextForConsent, NextForComplete, NextUnderSession, NextOnRow;
    if call.Exchange? || call.Rotate? || call.RevokeRefresh? {
      CredentialsLockWell(db, call, env, loc, target);
    } else if IsRowCall(call) {
      CallbacksLockWell(db, call, env, loc, target);
    } else if call.CompleteCallback? || call.LinkIdentity? {
      IdentitiesLockWell(db, call, env, loc, target);
    } else if IsConsentCall(call) {
      ConsentsLockWell(db, call, env, loc, target);
    } else {
      SessionsLockWell(db, call, env, loc, target);
    }
    LockedRowIsRead(db, call, loc, Locate(db, target).value);
    OneMoreLock(db, loc, Locate(db, target).value);
  }

  function Filled<T>(slot: Option<T>): nat {
    if slot.Some? then 1 else 0
  }

  function Slots(loc: Locals): (n: nat)
    ensures n <= 11
  {
    Filled(loc.outsideCode) + Filled(loc.outsideFamily) + Filled(loc.seenCode) + Filled(loc.seenFamily)
    + Filled(loc.session) + Filled(loc.code) + Filled(loc.challenge) + Filled(loc.browser)
    + Filled(loc.subject) + Filled(loc.family) + Filled(loc.member)
  }

  lemma LocksFillASlot(db: Db, loc: Locals, lock: Lock)
    requires Unused(loc, lock) && Stored(db, lock)
    ensures Slots(AfterLock(db, lock, loc)) == Slots(loc) + 1
  {
  }

  lemma ReadsFillASlot(db: Db, call: Call, env: Env, loc: Locals, outside: bool)
    requires RowToRead(db, call) && Next(call, loc, env) == (if outside then ReadOutside else ReadUnlocked)
    ensures Slots(AfterRead(db, call, loc, outside)) == Slots(loc) + 1
  {
    hide CodeRequestGate, CodeBound, DecideExchange, TokenRequestGate, DecideRotate, DecideConsent, ValidateOptional,
         DecideComplete, DecideIssueCode, DecideBeginLogout, DecideFinishLogout, DecideBeginAuthenticated,
         DecideStartGoogle, DecideCancel, DecideClaim, DecideFail, DecideDenyCallback, DecideLink;
  }

  predicate Nested(lock: Lock) {
    lock.CodeLock? || lock.ChallengeLock? || lock.FamilyLock? || lock.MemberLock?
  }

  /** The session a credential row belongs to. */
  function SessionOfRow(db: Db, lock: Lock): Option<Id> {
    match lock
    case CodeLock(c) => if c in db.codes then Some(db.codes[c].session) else None
    case ChallengeLock(c) => if c in db.challenges then Some(db.challenges[c].session) else None
    case FamilyLock(f) => if f in db.families then Some(db.families[f].session) else None
    case MemberLock(m) =>
      if m in db.members && db.members[m].family in db.families then Some(db.families[db.members[m].family].session)
      else None
    case _ => None
  }

  lemma HeldUnderItsSession(db: Db, call: Call, env: Env, loc: Locals, lock: Lock)
    requires Accurate(db, call, loc) && Fits(call, env, loc) && Nested(lock) && Holds(loc, lock)
    ensures SessionOfRow(db, lock).Some? && Holds(loc, SessionLock(SessionOfRow(db, lock).value))
  {
    hide Fits;
    LockedRowsBelong(db, call, env, loc);
  }

  /** A credential row is asked for only under the lock of its own session. */
  lemma WantedUnderItsSession(db: Db, call: Call, env: Env, loc: Locals, target: Target)
    requires Accurate(db, call, loc) && Fits(call, env, loc)
    requires Next(call, loc, env) == Take(target) && Locate(db, target).Some? && Nested(Locate(db, target).value)
    ensures var lock := Locate(db, target).value;
            SessionOfRow(db, lock).Some? && Holds(loc, SessionLock(SessionOfRow(db, lock).value))
  {
    hide Accurate, Fits, Next, Locate, Stored, Unused, Holds, AfterLock, SessionOfRow;
    var lock := Locate(db, target).value;
    LocksStayAccurate(db, call, env, loc, target);
    HeldUnderItsSession(db, call, env, AfterLock(db, lock, loc), lock);
  }
}
