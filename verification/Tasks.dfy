/** One request as a sequence of small steps: unlocked reads, row locks in a fixed order, and a
    decision from the rows it holds. */
module Tasks {
  import opened Prelude
  import opened Policy
  import opened Tables
  import opened Invariants
  import opened Operations

  datatype Lock =
    | SessionLock(id: Id)
    | CodeLock(id: Id)
    | ChallengeLock(id: Id)
    | BrowserLock(id: Id)
    | IdentityLock(subject: string)
    | FamilyLock(id: Id)
    | MemberLock(id: Id)

  /** The order in which locks are taken. */
  function LockRank(l: Lock): nat {
    match l
    case SessionLock(_) => 0
    case CodeLock(_) => 1
    case ChallengeLock(_) => 1
    case BrowserLock(_) => 1
    case IdentityLock(_) => 2
    case FamilyLock(_) => 3
    case MemberLock(_) => 4
  }

  datatype Held<T> = Held(id: Id, row: T)

  datatype HeldSubject = HeldSubject(subject: string, user: Option<Id>)

  /** What a request has read so far: without a lock (the first three) or under one (the others). */
  datatype Locals = Locals(
    outsideCode: Option<CodeRow>,
    outsideFamily: Option<FamilyRow>,
    seenCode: Option<CodeRow>,
    seenFamily: Option<Held<FamilyRow>>,
    session: Option<Held<SessionRow>>,
    code: Option<Held<CodeRow>>,
    challenge: Option<Held<ChallengeRow>>,
    browser: Option<Held<BrowserRow>>,
    subject: Option<HeldSubject>,
    family: Option<Held<FamilyRow>>,
    member: Option<Held<MemberRow>>)

  const NOTHING_READ := Locals(None, None, None, None, None, None, None, None, None, None, None)

  /** The row a `SELECT ... FOR UPDATE` asks for. */
  datatype Target =
    | TheSession(id: Id)
    | TheCode(id: Id)
    | TheFamily(id: Id)
    | TheMember(id: Id)
    | TheChallenge(logout: LogoutRequest)
    | TheConsent(consent: ConsentRequest)
    | TheStart(start: StartRequest, now: Time)
    | TheState(state: Id, binding: Id)
    | TheClaim(claim: Id)
    | TheSubject(subject: string)

  datatype Action =
    | ReadOutside                 // on another connection, before the transaction
    | ReadUnlocked                // in the transaction, without a lock
    | Take(target: Target)
    | Conclude(decision: Decision)

  // ---- the programs ----

  function NextForExchange(q: CodeRequest, loc: Locals, env: Env): Action {
    if q.via.Checked? && loc.outsideCode.None? then ReadOutside
    else if q.via.Checked? && CodeRequestGate(q, loc.outsideCode.value, env).Some? then
      Conclude(Reject(CodeRequestGate(q, loc.outsideCode.value, env).value))
    else if loc.seenCode.None? then ReadUnlocked
    else
      var resource := if q.via.Checked? then loc.outsideCode.value.grant.resource else q.via.exactResource;
      if !CodeBound(q, resource, loc.seenCode.value) then Conclude(Reject(InvalidGrant))
      else if loc.session.None? then Take(TheSession(loc.seenCode.value.session))
      else if loc.code.None? then Take(TheCode(q.code))
      else if loc.code.value.row.session != loc.seenCode.value.session
              || !CodeBound(q, resource, loc.code.value.row) then
        Conclude(Reject(InvalidGrant))
      else Conclude(DecideExchange(q, loc.code.value.row, loc.session.value.row, env))
  }

  function NextForRotate(q: TokenRequest, loc: Locals, env: Env): Action {
    if q.via.Checked? && loc.outsideFamily.None? then ReadOutside
    else if q.via.Checked? && TokenRequestGate(q, loc.outsideFamily.value).Some? then
      Conclude(Reject(TokenRequestGate(q, loc.outsideFamily.value).value))
    else if loc.seenFamily.None? then ReadUnlocked
    else if loc.session.None? then Take(TheSession(loc.seenFamily.value.row.session))
    else if loc.family.None? then Take(TheFamily(loc.seenFamily.value.id))
    else if loc.member.None? then Take(TheMember(q.token))
    else if q.via.Checked? && loc.family.value.row.resource != loc.outsideFamily.value.resource then
      Conclude(Reject(InvalidGrant))
    else Conclude(DecideRotate(q, loc.member.value.row, loc.family.value.row, loc.session.value.row, env))
  }

  function NextForRevoke(clientId: string, loc: Locals, env: Env): Action {
    if loc.seenFamily.None? then ReadUnlocked
    else if loc.seenFamily.value.row.clientId != clientId then Conclude(Decision(NoEffect, Acknowledged))
    else if loc.session.None? then Take(TheSession(loc.seenFamily.value.row.session))
    else if loc.family.None? then Take(TheFamily(loc.seenFamily.value.id))
    else Conclude(Decision(RevokeFamily(loc.family.value.id, env.clock.first), Acknowledged))
  }

  function NextForConsent(call: Call, loc: Locals, env: Env): Action
    requires IsConsentCall(call)
  {
    var q := call.consentRequest;
    if loc.session.None? then Take(TheSession(q.session))
    else if loc.browser.None? then Take(TheConsent(q))
    else
      Conclude(DecideConsent(call, loc.browser.value.row, loc.session.value.row, env))
  }

  function NextForComplete(claim: Id, identity: Identity, lifetime: Lifetime, optional: Option<Registry>, loc: Locals,
                           env: Env)
    : Action
  {
    if !BoundedSeconds(lifetime, SESSION_SECONDS) then Conclude(Reject(BrowserInvalid))
    else if loc.browser.None? then Take(TheClaim(claim))
    else
      var first := ValidateOptional(optional, loc.browser.value.row.request, env.at.a, env.at.b);
      if first.Some? then Conclude(Reject(first.value))
      else if loc.subject.None? then Take(TheSubject(identity.subject))
      else Conclude(DecideComplete(loc.browser.value.id, loc.browser.value.row, identity, lifetime, optional,
                                   loc.subject.value.user.GetOr(env.drawn.user), env))
  }

  /** Requests that lock one session and perhaps one challenge. */
  function NextUnderSession(call: Call, loc: Locals, env: Env): Action
    requires IsSessionCall(call)
  {
    match call
    case IssueCode(s, pending, lifetime) =>
      if !BoundedSeconds(lifetime, CODE_SECONDS) then Conclude(Reject(InvalidLifetime))
      else if loc.session.None? then Take(TheSession(s))
      else Conclude(DecideIssueCode(s, loc.session.value.row, pending, lifetime, env))
    case Logout(s) =>
      if loc.session.None? then Take(TheSession(s))
      else Conclude(Decision(EndSession(s, env.clock.first, env.clock.row), Acknowledged))
    case BeginLogout(s, target) =>
      if !TargetAllowed(target) then Conclude(Reject(InvalidGrant))
      else if loc.session.None? then Take(TheSession(s))
      else Conclude(DecideBeginLogout(s, loc.session.value.row, target, env))
    case FinishLogout(q) =>
      if loc.session.None? then Take(TheSession(q.session))
      else if loc.challenge.None? then Take(TheChallenge(q))
      else Conclude(DecideFinishLogout(q, loc.challenge.value.row, loc.session.value.row, env))
    case BeginAuthenticated(s, b) =>
      if loc.session.None? then Take(TheSession(s))
      else Conclude(DecideBeginAuthenticated(s, loc.session.value.row, b, env))
    case ReadAuthTime(s) =>
      if loc.session.None? then Take(TheSession(s))
      else Conclude(DecideReadAuthTime(loc.session.value.row, env))
  }

  /** Requests that lock one browser row and nothing else. */
  function NextOnRow(call: Call, loc: Locals, env: Env): Action
    requires IsRowCall(call)
  {
    if loc.browser.None? then
      match call
      case StartGoogle(q) => Take(TheStart(q, env.clock.first))
      case CancelGoogle(q, _) => Take(TheStart(q, env.clock.first))
      case ClaimCallback(state, binding) => Take(TheState(state, binding))
      case FailCallback(claim) => Take(TheClaim(claim))
      case DenyCallback(claim, _) => Take(TheClaim(claim))
    else
      var id, row := loc.browser.value.id, loc.browser.value.row;
      match call
      case StartGoogle(_) => Conclude(DecideStartGoogle(id, row))
      case CancelGoogle(_, optional) => Conclude(DecideCancel(id, row, optional, env))
      case ClaimCallback(_, _) => Conclude(DecideClaim(id, row, env))
      case FailCallback(_) => Conclude(DecideFail(id, row))
      case DenyCallback(_, reg) => Conclude(DecideDenyCallback(id, row, reg, env))
  }

  /** The next small step of a request. */
  function Next(call: Call, loc: Locals, env: Env): Action {
    match call
    case Exchange(q) => NextForExchange(q, loc, env)
    case Rotate(q) => NextForRotate(q, loc, env)
    case RevokeRefresh(_, clientId) => NextForRevoke(clientId, loc, env)
    case CompleteCallback(claim, identity, lifetime, optional) =>
      NextForComplete(claim, identity, lifetime, optional, loc, env)
    case ApproveConsent(_, _) => NextForConsent(call, loc, env)
    case PreAuthorize(_, _) => NextForConsent(call, loc, env)
    case DenyConsent(_, _) => NextForConsent(call, loc, env)
    case ViewConsent(_, _) => NextForConsent(call, loc, env)
    case CreateSession(userId, upstream, lifetime) => Conclude(DecideCreateSession(userId, upstream, lifetime, env))
    case BeginGoogle(b) => Conclude(DecideBeginGoogle(b, env))
    case LinkIdentity(subject, profile) =>
      if loc.subject.None? then Take(TheSubject(subject))
      else Conclude(DecideLink(subject, profile, loc.subject.value.user.GetOr(env.drawn.user), env))
    case IssueCode(_, _, _) => NextUnderSession(call, loc, env)
    case Logout(_) => NextUnderSession(call, loc, env)
    case BeginLogout(_, _) => NextUnderSession(call, loc, env)
    case FinishLogout(_) => NextUnderSession(call, loc, env)
    case BeginAuthenticated(_, _) => NextUnderSession(call, loc, env)
    case ReadAuthTime(_) => NextUnderSession(call, loc, env)
    case StartGoogle(_) => NextOnRow(call, loc, env)
    case CancelGoogle(_, _) => NextOnRow(call, loc, env)
    case ClaimCallback(_, _) => NextOnRow(call, loc, env)
    case FailCallback(_) => NextOnRow(call, loc, env)
    case DenyCallback(_, _) => NextOnRow(call, loc, env)
  }

  /** The result when a read or a lock finds no row. */
  function Miss(call: Call): Outcome {
    match call
    case RevokeRefresh(_, _) => Acknowledged
    case CreateSession(_, _, _) => Rejected(InvalidGrant)
    case IssueCode(_, _, _) => Rejected(InvalidGrant)
    case Exchange(_) => Rejected(InvalidGrant)
    case Rotate(_) => Rejected(InvalidGrant)
    case Logout(_) => Rejected(InvalidGrant)
    case BeginLogout(_, _) => Rejected(InvalidGrant)
    case FinishLogout(_) => Rejected(InvalidGrant)
    case _ => Rejected(BrowserInvalid)
  }

  // ---- reading and locking on the committed database ----

  function TokenOf(call: Call): Id
    requires call.Rotate? || call.RevokeRefresh?
  {
    if call.Rotate? then call.token.token else call.tokenId
  }

  /** The join of a refresh token with its family. */
  predicate TokenStored(db: Db, token: Id) {
    token in db.members && db.members[token].family in db.families
  }

  predicate RowToRead(db: Db, call: Call) {
    if call.Exchange? then call.code.code in db.codes
    else (call.Rotate? || call.RevokeRefresh?) && TokenStored(db, TokenOf(call))
  }

  function AfterRead(db: Db, call: Call, loc: Locals, outside: bool): Locals
    requires RowToRead(db, call)
  {
    if call.Exchange? then
      if outside then loc.(outsideCode := Some(db.codes[call.code.code]))
      else loc.(seenCode := Some(db.codes[call.code.code]))
    else
      var f := db.members[TokenOf(call)].family;
      if outside then loc.(outsideFamily := Some(db.families[f])) else loc.(seenFamily := Some(Held(f, db.families[f])))
  }

  /** The lock that a target stands for at this moment, if its row exists and matches. */
  ghost function Locate(db: Db, target: Target): Option<Lock> {
    match target
    case TheSession(id) => if id in db.sessions then Some(SessionLock(id)) else None
    case TheCode(id) => if id in db.codes then Some(CodeLock(id)) else None
    case TheFamily(id) => if id in db.families then Some(FamilyLock(id)) else None
    case TheMember(id) => if id in db.members then Some(MemberLock(id)) else None
    case TheChallenge(q) =>
      if q.challenge in db.challenges && db.challenges[q.challenge].session == q.session
         && db.challenges[q.challenge].csrf == q.csrf
      then Some(ChallengeLock(q.challenge)) else None
    case TheConsent(q) =>
      if q.browser in db.browsers && MatchesConsent(q, db.browsers[q.browser]) then Some(BrowserLock(q.browser))
      else None
    case TheStart(q, now) =>
      if q.browser in db.browsers && MatchesStart(q, db.browsers[q.browser], now) then Some(BrowserLock(q.browser))
      else None
    case TheState(state, binding) =>
      var found := FindState(db, state, binding);
      if found.Some? then Some(BrowserLock(found.value)) else None
    case TheClaim(claim) =>
      var found := FindClaim(db, claim);
      if found.Some? then Some(BrowserLock(found.value)) else None
    case TheSubject(subject) => Some(IdentityLock(subject))
  }

  /** The row under a fresh lock, as last committed. */
  function AfterLock(db: Db, lock: Lock, loc: Locals): Locals {
    match lock
    case SessionLock(id) => if id in db.sessions then loc.(session := Some(Held(id, db.sessions[id]))) else loc
    case CodeLock(id) => if id in db.codes then loc.(code := Some(Held(id, db.codes[id]))) else loc
    case ChallengeLock(id) => if id in db.challenges then loc.(challenge := Some(Held(id, db.challenges[id]))) else loc
    case BrowserLock(id) => if id in db.browsers then loc.(browser := Some(Held(id, db.browsers[id]))) else loc
    case FamilyLock(id) => if id in db.families then loc.(family := Some(Held(id, db.families[id]))) else loc
    case MemberLock(id) => if id in db.members then loc.(member := Some(Held(id, db.members[id]))) else loc
    case IdentityLock(subject) =>
      loc.(subject := Some(HeldSubject(subject, if subject in db.identities then Some(db.identities[subject])
                                       else None)))
  }

  predicate Holds(loc: Locals, lock: Lock) {
    match lock
    case SessionLock(id) => loc.session.Some? && loc.session.value.id == id
    case CodeLock(id) => loc.code.Some? && loc.code.value.id == id
    case ChallengeLock(id) => loc.challenge.Some? && loc.challenge.value.id == id
    case BrowserLock(id) => loc.browser.Some? && loc.browser.value.id == id
    case IdentityLock(subject) => loc.subject.Some? && loc.subject.value.subject == subject
    case FamilyLock(id) => loc.family.Some? && loc.family.value.id == id
    case MemberLock(id) => loc.member.Some? && loc.member.value.id == id
  }

  // ---- what the locals are worth ----

  /** Locked rows are the committed rows; unlocked reads agree with them in everything immutable. */
  ghost predicate Accurate(db: Db, call: Call, loc: Locals) {
    && (loc.outsideCode.Some? ==>
          call.Exchange? && call.code.code in db.codes && CodeKept(loc.outsideCode.value, db.codes[call.code.code]))
    && (loc.seenCode.Some? ==>
          call.Exchange? && call.code.code in db.codes && CodeKept(loc.seenCode.value, db.codes[call.code.code]))
    && (loc.outsideFamily.Some? ==>
          call.Rotate? && TokenStored(db, TokenOf(call))
          && FamilyKept(loc.outsideFamily.value, db.families[db.members[TokenOf(call)].family]))
    && (loc.seenFamily.Some? ==>
          (call.Rotate? || call.RevokeRefresh?) && TokenStored(db, TokenOf(call))
          && loc.seenFamily.value.id == db.members[TokenOf(call)].family
          && FamilyKept(loc.seenFamily.value.row, db.families[loc.seenFamily.value.id]))
    && (loc.session.Some? ==>
          loc.session.value.id in db.sessions && db.sessions[loc.session.value.id] == loc.session.value.row)
    && (loc.code.Some? ==> loc.code.value.id in db.codes && db.codes[loc.code.value.id] == loc.code.value.row)
    && (loc.challenge.Some? ==>
          loc.challenge.value.id in db.challenges && db.challenges[loc.challenge.value.id] == loc.challenge.value.row)
    && (loc.browser.Some? ==>
          loc.browser.value.id in db.browsers && db.browsers[loc.browser.value.id] == loc.browser.value.row)
    && (loc.family.Some? ==>
          loc.family.value.id in db.families && db.families[loc.family.value.id] == loc.family.value.row)
    && (loc.member.Some? ==>
          loc.member.value.id in db.members && db.members[loc.member.value.id] == loc.member.value.row)
    && (loc.subject.Some? ==>
          loc.subject.value.user ==
          if loc.subject.value.subject in db.identities then Some(db.identities[loc.subject.value.subject]) else None)
  }

  /** The locals hold the rows this request asks for, and locks are nested: code, challenge, family
      and member rows are only locked under the lock of their session. */
  predicate Fits(call: Call, env: Env, loc: Locals) {
    match call
    case Exchange(q) =>
      && loc.challenge.None? && loc.browser.None? && loc.subject.None? && loc.family.None? && loc.member.None?
      && (loc.session.Some? ==> loc.seenCode.Some? && loc.session.value.id == loc.seenCode.value.session)
      && (loc.code.Some? ==> loc.session.Some? && loc.code.value.id == q.code)
    case Rotate(q) =>
      && loc.code.None? && loc.challenge.None? && loc.browser.None? && loc.subject.None?
      && (loc.session.Some? ==> loc.seenFamily.Some? && loc.session.value.id == loc.seenFamily.value.row.session)
      && (loc.family.Some? ==> loc.session.Some? && loc.family.value.id == loc.seenFamily.value.id)
      && (loc.member.Some? ==> loc.family.Some? && loc.member.value.id == q.token)
    case RevokeRefresh(_, _) =>
      && loc.code.None? && loc.challenge.None? && loc.browser.None? && loc.subject.None? && loc.member.None?
      && (loc.session.Some? ==> loc.seenFamily.Some? && loc.session.value.id == loc.seenFamily.value.row.session)
      && (loc.family.Some? ==> loc.session.Some? && loc.family.value.id == loc.seenFamily.value.id)
    case FinishLogout(q) =>
      && loc.code.None? && loc.browser.None? && loc.subject.None? && loc.family.None? && loc.member.None?
      && (loc.session.Some? ==> loc.session.value.id == q.session)
      && (loc.challenge.Some? ==>
            loc.session.Some? && loc.challenge.value.id == q.challenge
            && loc.challenge.value.row.session == q.session && loc.challenge.value.row.csrf == q.csrf)
    case ApproveConsent(q, _) => FitsConsent(q, loc)
    case PreAuthorize(q, _) => FitsConsent(q, loc)
    case DenyConsent(q, _) => FitsConsent(q, loc)
    case ViewConsent(q, _) => FitsConsent(q, loc)
    case IssueCode(s, _, _) => FitsSession(s, loc)
    case Logout(s) => FitsSession(s, loc)
    case BeginLogout(s, _) => FitsSession(s, loc)
    case BeginAuthenticated(s, _) => FitsSession(s, loc)
    case ReadAuthTime(s) => FitsSession(s, loc)
    case StartGoogle(q) =>
      FitsRow(loc) && (loc.browser.Some? ==>
                         loc.browser.value.id == q.browser && MatchesStart(q, loc.browser.value.row, env.clock.first))
    case CancelGoogle(q, _) =>
      FitsRow(loc) && (loc.browser.Some? ==>
                         loc.browser.value.id == q.browser && MatchesStart(q, loc.browser.value.row, env.clock.first))
    case ClaimCallback(state, binding) =>
      FitsRow(loc) && (loc.browser.Some? ==> MatchesState(state, binding, loc.browser.value.row))
    case FailCallback(claim) => FitsRow(loc) && (loc.browser.Some? ==> MatchesClaim(claim, loc.browser.value.row))
    case DenyCallback(claim, _) => FitsRow(loc) && (loc.browser.Some? ==> MatchesClaim(claim, loc.browser.value.row))
    case CompleteCallback(claim, identity, _, _) =>
      && loc.session.None? && loc.code.None? && loc.challenge.None? && loc.family.None? && loc.member.None?
      && (loc.browser.Some? ==> MatchesClaim(claim, loc.browser.value.row))
      && (loc.subject.Some? ==> loc.browser.Some? && loc.subject.value.subject == identity.subject)
    case LinkIdentity(subject, _) =>
      && loc.session.None? && loc.code.None? && loc.challenge.None? && loc.browser.None? && loc.family.None?
         && loc.member.None?
      && (loc.subject.Some? ==> loc.subject.value.subject == subject)
    case _ => loc == NOTHING_READ
  }

  predicate FitsConsent(q: ConsentRequest, loc: Locals) {
    && loc.code.None? && loc.challenge.None? && loc.subject.None? && loc.family.None? && loc.member.None?
    && (loc.session.Some? ==> loc.session.value.id == q.session)
    && (loc.browser.Some? ==>
          loc.session.Some? && loc.browser.value.id == q.browser && MatchesConsent(q, loc.browser.value.row))
  }

  predicate FitsSession(s: Id, loc: Locals) {
    && loc.code.None? && loc.challenge.None? && loc.browser.None? && loc.subject.None? && loc.family.None?
       && loc.member.None?
    && (loc.session.Some? ==> loc.session.value.id == s)
  }

  predicate FitsRow(loc: Locals) {
    loc.session.None? && loc.code.None? && loc.challenge.None? && loc.subject.None? && loc.family.None?
      && loc.member.None?
  }

  // ---- a request that concludes has decided what it would decide alone ----

  /** Gates look only at what never changes. */
  lemma GatesIgnoreUse(q: CodeRequest, resource: string, a: CodeRow, b: CodeRow, env: Env)
    requires CodeKept(a, b)
    ensures CodeRequestGate(q, a, env) == CodeRequestGate(q, b, env)
    ensures CodeBound(q, resource, a) == CodeBound(q, resource, b)
    ensures a.session == b.session && a.grant == b.grant
  {
    hide CheckBinding;
    assert a.grant == b.grant;
  }

  lemma FamilyGateIgnoresRevocation(q: TokenRequest, a: FamilyRow, b: FamilyRow)
    requires FamilyKept(a, b)
    ensures TokenRequestGate(q, a) == TokenRequestGate(q, b)
    ensures a.session == b.session && a.clientId == b.clientId && a.resource == b.resource
  {
  }

  lemma ExchangeConcludesAlone(db: Db, q: CodeRequest, env: Env, loc: Locals)
    requires Accurate(db, Exchange(q), loc) && Fits(Exchange(q), env, loc) && CodesOk(db.codes, db.sessions)
    requires NextForExchange(q, loc, env).Conclude?
    ensures NextForExchange(q, loc, env).decision == PerformExchange(db, q, env)
  {
    hide CodeRequestGate, CodeBound, DecideExchange, CodeOk;
    var row := db.codes[q.code];
    if loc.outsideCode.Some? {
      GatesIgnoreUse(q, row.grant.resource, loc.outsideCode.value, row, env);
    }
    if loc.seenCode.Some? {
      GatesIgnoreUse(q, BoundResource(q.via, row.grant.resource), loc.seenCode.value, row, env);
    }
    if q.via.Direct? {
      DirectHasNoGate(q, row, env);
    }
  }

  lemma DirectHasNoGate(q: CodeRequest, row: CodeRow, env: Env)
    requires q.via.Direct?
    ensures CodeRequestGate(q, row, env).None?
  {
  }

  lemma RotateConcludesAlone(db: Db, q: TokenRequest, env: Env, loc: Locals)
    requires Accurate(db, Rotate(q), loc) && Fits(Rotate(q), env, loc) && FamiliesOk(db.families, db.codes, db.sessions)
    requires NextForRotate(q, loc, env).Conclude?
    ensures NextForRotate(q, loc, env).decision == PerformRotate(db, q, env)
  {
    hide TokenRequestGate, DecideRotate, FamilyOk;
    var row := db.families[db.members[q.token].family];
    if loc.outsideFamily.Some? {
      FamilyGateIgnoresRevocation(q, loc.outsideFamily.value, row);
    }
    if loc.seenFamily.Some? {
      FamilyGateIgnoresRevocation(q, loc.seenFamily.value.row, row);
    }
    if q.via.Direct? {
      DirectTokenHasNoGate(q, row);
    }
  }

  lemma DirectTokenHasNoGate(q: TokenRequest, row: FamilyRow)
    requires q.via.Direct?
    ensures TokenRequestGate(q, row).None?
  {
  }

  lemma RevokeConcludesAlone(db: Db, token: Id, clientId: string, env: Env, loc: Locals)
    requires Accurate(db, RevokeRefresh(token, clientId), loc) && Fits(RevokeRefresh(token, clientId), env, loc)
    requires NextForRevoke(clientId, loc, env).Conclude?
    ensures NextForRevoke(clientId, loc, env).decision == PerformRevoke(db, token, clientId, env)
  {
  }

  lemma ConsentConcludesAlone(db: Db, call: Call, env: Env, loc: Locals)
    requires IsConsentCall(call)
    requires Accurate(db, call, loc) && Fits(call, env, loc) && NextForConsent(call, loc, env).Conclude?
    ensures NextForConsent(call, loc, env).decision == PerformConsent(db, call, env)
  {
    hide DecideConsent;
  }

  lemma SessionConcludesAlone(db: Db, call: Call, env: Env, loc: Locals)
    requires IsSessionCall(call)
    requires Accurate(db, call, loc) && Fits(call, env, loc) && NextUnderSession(call, loc, env).Conclude?
    ensures NextUnderSession(call, loc, env).decision == Perform(db, call, env)
  {
    hide DecideIssueCode, DecideBeginLogout, DecideFinishLogout, DecideBeginAuthenticated;
  }

  /** A secret selects one row only. */
  lemma SecretsSelectOneRow(db: Db, id: Id, claim: Id, state: Id, binding: Id)
    requires BrowsersOk(db.browsers, db.sessions) && id in db.browsers
    ensures MatchesClaim(claim, db.browsers[id]) ==> FindClaim(db, claim) == Some(id)
    ensures MatchesState(state, binding, db.browsers[id]) ==> FindState(db, state, binding) == Some(id)
  {
  }

  lemma RowConcludesAlone(db: Db, call: Call, env: Env, loc: Locals)
    requires IsRowCall(call)
    requires BrowsersOk(db.browsers, db.sessions)
    requires Accurate(db, call, loc) && Fits(call, env, loc) && NextOnRow(call, loc, env).Conclude?
    ensures NextOnRow(call, loc, env).decision == Perform(db, call, env)
  {
    hide DecideStartGoogle, DecideCancel, DecideClaim, DecideFail, DecideDenyCallback, BrowsersOk, FindClaim, FindState;
    var id := loc.browser.value.id;
    match call
    case ClaimCallback(state, binding) => SecretsSelectOneRow(db, id, 0, state, binding);
    case FailCallback(claim) => SecretsSelectOneRow(db, id, claim, 0, 0);
    case DenyCallback(claim, _) => SecretsSelectOneRow(db, id, claim, 0, 0);
    case _ =>
  }

  lemma CompleteConcludesAlone(db: Db, call: Call, env: Env, loc: Locals)
    requires call.CompleteCallback?
    requires BrowsersOk(db.browsers, db.sessions)
    requires Accurate(db, call, loc) && Fits(call, env, loc)
    requires NextForComplete(call.claim, call.identity, call.lifetime, call.optional, loc, env).Conclude?
    ensures NextForComplete(call.claim, call.identity, call.lifetime, call.optional, loc, env).decision
            == Perform(db, call, env)
  {
    hide BrowsersOk, FindClaim, FindState, ValidateOptional;
    if loc.browser.Some? {
      SecretsSelectOneRow(db, loc.browser.value.id, call.claim, 0, 0);
    }
  }

  /** From accurate locals, a request concludes exactly as it would running alone. */
  lemma ConclusionsAreAtomic(db: Db, call: Call, env: Env, loc: Locals)
    requires Valid(db) && Accurate(db, call, loc) && Fits(call, env, loc)
    requires Next(call, loc, env).Conclude?
    ensures Next(call, loc, env).decision == Perform(db, call, env)
  {
    hide CodesOk, FamiliesOk, SourcesOk, MembersOk, ChainsOk, ChallengesOk, BrowsersOk, OriginsOk, IdentitiesOk,
         SessionsOk, PerformExchange, PerformRotate, PerformRevoke, PerformConsent, NextForExchange, NextForRotate,
         NextForRevoke, NextForConsent, NextForComplete, NextUnderSession, NextOnRow, Fits;
    match call
    case Exchange(q) => ExchangeConcludesAlone(db, q, env, loc);
    case Rotate(q) => RotateConcludesAlone(db, q, env, loc);
    case RevokeRefresh(token, clientId) => RevokeConcludesAlone(db, token, clientId, env, loc);
    case CompleteCallback(_, _, _, _) => CompleteConcludesAlone(db, call, env, loc);
    case ApproveConsent(_, _) => ConsentConcludesAlone(db, call, env, loc);
    case PreAuthorize(_, _) => ConsentConcludesAlone(db, call, env, loc);
    case DenyConsent(_, _) => ConsentConcludesAlone(db, call, env, loc);
    case ViewConsent(_, _) => ConsentConcludesAlone(db, call, env, loc);
    case IssueCode(_, _, _) => SessionConcludesAlone(db, call, env, loc);
    case Logout(_) => SessionConcludesAlone(db, call, env, loc);
    case BeginLogout(_, _) => SessionConcludesAlone(db, call, env, loc);
    case FinishLogout(_) => SessionConcludesAlone(db, call, env, loc);
    case BeginAuthenticated(_, _) => SessionConcludesAlone(db, call, env, loc);
    case ReadAuthTime(_) => SessionConcludesAlone(db, call, env, loc);
    case StartGoogle(_) => RowConcludesAlone(db, call, env, loc);
    case CancelGoogle(_, _) => RowConcludesAlone(db, call, env, loc);
    case ClaimCallback(_, _) => RowConcludesAlone(db, call, env, loc);
    case FailCallback(_) => RowConcludesAlone(db, call, env, loc);
    case DenyCallback(_, _) => RowConcludesAlone(db, call, env, loc);
    case LinkIdentity(_, _) => LinkConcludesAlone(db, call, env, loc);
    case CreateSession(_, _, _) =>
    case BeginGoogle(_) =>
  }

  lemma LinkConcludesAlone(db: Db, call: Call, env: Env, loc: Locals)
    requires call.LinkIdentity? && Accurate(db, call, loc) && Fits(call, env, loc) && Next(call, loc, env).Conclude?
    ensures Next(call, loc, env).decision == Perform(db, call, env)
  {
  }

  // ---- and so has one that finds no row ----

  /** The row the step looks for is not there. */
  ghost predicate Misses(db: Db, call: Call, action: Action) {
    match action
    case ReadOutside => !RowToRead(db, call)
    case ReadUnlocked => !RowToRead(db, call)
    case Take(target) => Locate(db, target).None?
    case Conclude(_) => false
  }

  function Missed(call: Call): Decision {
    Decision(NoEffect, Miss(call))
  }

  lemma ExchangeMissesAlone(db: Db, q: CodeRequest, env: Env, loc: Locals)
    requires Accurate(db, Exchange(q), loc) && Fits(Exchange(q), env, loc) && CodesOk(db.codes, db.sessions)
    requires Misses(db, Exchange(q), NextForExchange(q, loc, env))
    ensures PerformExchange(db, q, env) == Missed(Exchange(q))
  {
    hide CodeRequestGate, CodeBound, DecideExchange, CodeOk;
  }

  lemma TokenMissesAlone(db: Db, call: Call, env: Env, loc: Locals)
    requires call.Rotate? || call.RevokeRefresh?
    requires Accurate(db, call, loc) && Fits(call, env, loc)
    requires MembersOk(db.members, db.families) && FamiliesOk(db.families, db.codes, db.sessions)
    requires Misses(db, call, if call.Rotate? then NextForRotate(call.token, loc, env)
                    else NextForRevoke(call.clientId, loc, env))
    ensures (if call.Rotate? then PerformRotate(db, call.token, env)
             else PerformRevoke(db, call.tokenId, call.clientId, env))
            == Missed(call)
  {
    hide TokenRequestGate, DecideRotate, FamilyOk;
  }

  lemma OtherMissesAlone(db: Db, call: Call, env: Env, loc: Locals)
    requires !call.Exchange? && !call.Rotate? && !call.RevokeRefresh?
    requires Misses(db, call, Next(call, loc, env))
    ensures Perform(db, call, env) == Missed(call)
  {
    hide DecideConsent, DecideIssueCode, DecideBeginLogout, DecideFinishLogout, DecideBeginAuthenticated,
         DecideStartGoogle, DecideCancel, DecideClaim, DecideFail, DecideDenyCallback, DecideComplete, DecideLink,
         FindClaim, FindState, MatchesConsent, MatchesStart, ValidateOptional;
  }

  /** A request that finds no row ends exactly as it would running alone. */
  lemma MissesAreAtomic(db: Db, call: Call, env: Env, loc: Locals)
    requires Valid(db) && Accurate(db, call, loc) && Fits(call, env, loc)
    requires Misses(db, call, Next(call, loc, env))
    ensures Perform(db, call, env) == Missed(call)
  {
    hide CodesOk, FamiliesOk, SourcesOk, MembersOk, ChainsOk, ChallengesOk, BrowsersOk, OriginsOk, IdentitiesOk,
         SessionsOk, PerformExchange, PerformRotate, PerformRevoke, PerformConsent, NextForExchange, NextForRotate,
         NextForRevoke, NextForConsent, NextForComplete, NextUnderSession, NextOnRow, Fits, Misses, Accurate;
    match call
    case Exchange(q) => ExchangeMissesAlone(db, q, env, loc);
    case Rotate(_) => TokenMissesAlone(db, call, env, loc);
    case RevokeRefresh(_, _) => TokenMissesAlone(db, call, env, loc);
    case _ => OtherMissesAlone(db, call, env, loc);
  }
}
