/** Every store operation as a decision: from the rows it has locked and the clock readings it has
    taken to a write set and a result.  `Perform` runs one operation alone on a database. */
module Operations {
  import opened Prelude
  import opened Ordering
  import opened Policy
  import opened Tables

  datatype Error = InvalidGrant | MetadataExpired | InvalidLifetime | BrowserInvalid | PolicyChanged

  datatype ExchangeResult = ExchangeResult(
    session: Id,
    userId: Id,
    clientId: string,
    scopes: seq<string>,
    resource: string,
    refreshToken: Option<Id>,
    nonce: Option<string>,
    upstreamAuthTime: Option<Time>)

  datatype Outcome =
    | SessionOpened(id: Id, expiresAt: Time)
    | CodeIssued(code: Id)
    | Granted(result: ExchangeResult)
    | Acknowledged
    | ChallengeOpened(id: Id, csrf: Id, logoutUri: string)
    | LoggedOut(logoutUri: string, state: Option<string>)
    | NeedsConfirmation
    | BrowserStarted(id: Id, upstreamState: Id, browserBinding: Id)
    | ConsentAsked(id: Id, csrf: Id)
    | UpstreamStarted(nonce: Option<Id>, verifier: Option<Id>)
    | CallbackWon(claim: Id, verifier: Option<Id>, nonce: Option<Id>)
    | DeniedTo(redirectUri: string, state: Option<string>)
    | LoggedIn(id: Id, expiresAt: Time, browser: Id, csrf: Id)
    | ConsentGiven(code: Id, redirectUri: string, state: Option<string>)
    | NeedsConsent
    | ConsentShown(clientId: string, scopes: seq<string>, resource: string, redirectUri: string, account: Id)
    | AuthTimeRead(upstreamAuthTime: Option<Time>)
    | UserLinked(userId: Id)
    | Rejected(error: Error)

  datatype Decision = Decision(effect: Effect, outcome: Outcome)

  function Reject(error: Error): Decision {
    Decision(NoEffect, Rejected(error))
  }

  /** Readings of `clock_timestamp()` in the order the operation takes them; `row` gives the readings
      of a statement that takes one for each row it writes. */
  datatype Clock = Clock(first: Time, second: Time, third: Time, row: Id -> Time)

  /** Readings of the monotonic clock, one for each lease check of the operation. */
  datatype Ticks = Ticks(a: Instant, b: Instant, c: Instant, d: Instant, e: Instant, f: Instant, g: Instant, h: Instant)

  /** The random UUIDs and secrets the operation draws. */
  datatype Drawn = Drawn(row: Id, token: Id, user: Id, secret: Id, state: Id, binding: Id, verifier: Id, nonce: Id)

  datatype Env = Env(clock: Clock, at: Ticks, drawn: Drawn)

  datatype Lifetime = Lifetime(seconds: nat, nanos: nat)

  /** Which entry point presented a code or a refresh token: the bound one, without a registry, or
      the request one, with optional parameters and a resolved registry. */
  datatype Via =
    | Direct(exactResource: string)
    | Checked(resource: Option<string>, scopes: Option<seq<string>>, registry: Registry)

  datatype CodeRequest = CodeRequest(code: Id, clientId: string, redirectUri: string, verifier: string, via: Via)

  datatype TokenRequest = TokenRequest(token: Id, clientId: string, via: Via)

  datatype LogoutTarget =
    | RegisteredTarget(clientId: string, uri: string, state: Option<string>, registry: Registry)
    | LocalTarget(uri: string)

  /** A verified ID token hint; times in whole seconds. */
  datatype Hint = Hint(audience: string, expires: int, issued: int, subject: Id, session: Option<Id>)

  datatype LogoutRequest = LogoutRequest(session: Id, challenge: Id, csrf: Id, registry: Registry, hint: Option<Hint>)

  datatype ConsentRequest = ConsentRequest(session: Id, browser: Id, csrf: Id)

  datatype Identity = Identity(subject: string, authTime: Option<Time>, profile: Profile)

  datatype BrowserBegin = BrowserBegin(pending: Pending, state: Option<string>, nonce: Option<string>,
                                       allowPreAuthorization: bool)

  datatype StartRequest = StartRequest(browser: Id, state: Id, binding: Id)

  datatype Call =
    | CreateSession(userId: Id, upstreamAuthTime: Option<Time>, lifetime: Lifetime)
    | IssueCode(session: Id, pending: Pending, lifetime: Lifetime)
    | Exchange(code: CodeRequest)
    | Rotate(token: TokenRequest)
    | RevokeRefresh(tokenId: Id, clientId: string)
    | Logout(session: Id)
    | BeginLogout(session: Id, target: LogoutTarget)
    | FinishLogout(logout: LogoutRequest)
    | BeginGoogle(begin: BrowserBegin)
    | BeginAuthenticated(session: Id, begin: BrowserBegin)
    | ReadAuthTime(session: Id)
    | StartGoogle(start: StartRequest)
    | CancelGoogle(start: StartRequest, optional: Option<Registry>)
    | ClaimCallback(state: Id, binding: Id)
    | FailCallback(claim: Id)
    | DenyCallback(claim: Id, registry: Registry)
    | CompleteCallback(claim: Id, identity: Identity, lifetime: Lifetime, optional: Option<Registry>)
    | ApproveConsent(consentRequest: ConsentRequest, registry: Registry)
    | PreAuthorize(consentRequest: ConsentRequest, registry: Registry)
    | DenyConsent(consentRequest: ConsentRequest, optional: Option<Registry>)
    | ViewConsent(consentRequest: ConsentRequest, registry: Registry)
    | LinkIdentity(subject: string, newProfile: Option<Profile>)

  /** Calls that lock a session and perhaps a challenge. */
  predicate IsSessionCall(call: Call) {
    call.IssueCode? || call.Logout? || call.BeginLogout? || call.FinishLogout? || call.BeginAuthenticated?
    || call.ReadAuthTime?
  }

  /** Calls that lock a session and the browser row that waits for its consent. */
  predicate IsConsentCall(call: Call) {
    call.ApproveConsent? || call.PreAuthorize? || call.DenyConsent? || call.ViewConsent?
  }

  /** Calls that lock one browser row and nothing else. */
  predicate IsRowCall(call: Call) {
    call.StartGoogle? || call.CancelGoogle? || call.ClaimCallback? || call.FailCallback? || call.DenyCallback?
  }

  const CLOCK_SKEW_SECONDS := 30

  // ---- small guards ----

  /** A whole, non-zero number of seconds up to the maximum. */
  predicate BoundedSeconds(lifetime: Lifetime, maximum: nat) {
    0 < lifetime.seconds <= maximum && lifetime.nanos == 0
  }

  predicate SameScopes(left: seq<string>, right: seq<string>) {
    |Elements(left)| == |left| && Elements(left) == Elements(right)
  }

  function CredentialError(e: OAuthError): Error {
    if e == LeaseExpired then MetadataExpired else InvalidGrant
  }

  function PolicyError(e: OAuthError): Error {
    if e == LeaseExpired then MetadataExpired else PolicyChanged
  }

  function CheckBinding(via: Via, clientId: string, stored: Option<Binding>, at: Instant): Option<Error> {
    match via
    case Checked(_, _, registry) =>
      var objection := ValidateBinding(registry, clientId, stored, at);
      if objection.Some? then Some(CredentialError(objection.value)) else None
    case Direct(_) => if stored.Some? then Some(InvalidGrant) else None
  }

  predicate SessionLive(session: SessionRow, now: Time) {
    session.revokedAt.None? && now < session.expiresAt
  }

  function CodeFrom(sessionId: Id, session: SessionRow, grant: Grant, issueRefresh: bool, nonce: Option<string>,
                    seconds: nat, now: Time): CodeRow
  {
    CodeRow(sessionId, grant, issueRefresh, nonce, session.upstreamAuthTime, now,
            Min(now + seconds * SECOND, session.expiresAt), None)
  }

  // ---- sessions and codes (src/credentials.rs) ----

  function DecideCreateSession(userId: Id, upstreamAuthTime: Option<Time>, lifetime: Lifetime, env: Env): Decision {
    if !BoundedSeconds(lifetime, SESSION_SECONDS) then Reject(InvalidLifetime)
    else
      var row := SessionRow(userId, env.clock.first, env.clock.first + lifetime.seconds * SECOND, None,
                            upstreamAuthTime);
      Decision(AddSession(env.drawn.row, row), SessionOpened(env.drawn.row, row.expiresAt))
  }

  /** `pending` has been approved: it renews exactly if it asked for offline access. */
  function DecideIssueCode(sessionId: Id, session: SessionRow, pending: Pending, lifetime: Lifetime,
                           env: Env): Decision {
    if !SessionLive(session, env.clock.first) then Reject(InvalidGrant)
    else if !pending.IsFresh(env.at.a) then Reject(MetadataExpired)
    else if !pending.IsFresh(env.at.b) then Reject(MetadataExpired)
    else
      var row := CodeFrom(sessionId, session, pending.Stored(), OFFLINE_ACCESS in pending.scopes, None,
                          lifetime.seconds, env.clock.second);
      Decision(AddCode(env.drawn.row, row), CodeIssued(env.drawn.row))
  }

  /** The checks of the request entry point, on an unlocked read. */
  function CodeRequestGate(q: CodeRequest, row: CodeRow, env: Env): Option<Error> {
    match q.via
    case Direct(_) => None
    case Checked(resource, scopes, registry) =>
      if row.grant.clientId != q.clientId || row.grant.redirectUri != q.redirectUri then Some(InvalidGrant)
      else if resource.Some? && resource.value != row.grant.resource then Some(InvalidGrant)
      else if scopes.Some? && !SameScopes(scopes.value, row.grant.scopes) then Some(InvalidGrant)
      else
        var checked := ValidatePendingParts(registry, q.clientId, q.redirectUri, "code", "S256", row.grant.challenge,
                                            row.grant.scopes, Some(row.grant.resource), env.at.a);
        if checked.Err? then Some(CredentialError(checked.error)) else None
  }

  /** The resource the bound exchange is called with. */
  function BoundResource(via: Via, stored: string): string {
    if via.Direct? then via.exactResource else stored
  }

  /** Client, redirect, resource and proof key, compared before and after the lock. */
  predicate CodeBound(q: CodeRequest, resource: string, row: CodeRow) {
    && row.grant.clientId == q.clientId
    && row.grant.redirectUri == q.redirectUri
    && row.grant.resource == resource
    && VerifyS256(q.verifier, row.grant.challenge)
  }

  function CodePolicy(q: CodeRequest, row: CodeRow, env: Env): Option<Error> {
    var first := CheckBinding(q.via, q.clientId, row.grant.binding, env.at.b);
    if first.Some? then first
    else if q.via.Checked? then
      var checked := ValidatePendingParts(q.via.registry, q.clientId, q.redirectUri, "code", "S256",
                                          row.grant.challenge,
                                          row.grant.scopes, Some(row.grant.resource), env.at.c);
      if checked.Err? then Some(CredentialError(checked.error))
      else CheckBinding(q.via, q.clientId, row.grant.binding, env.at.d)
    else CheckBinding(q.via, q.clientId, row.grant.binding, env.at.d)
  }

  function NewFamily(codeId: Id, row: CodeRow, session: SessionRow, now: Time): FamilyRow {
    FamilyRow(codeId, row.session, session.userId, row.grant.clientId, row.grant.scopes, row.grant.resource,
              row.grant.binding, row.upstreamAuthTime, now, Min(now + FAMILY_LIFETIME, session.expiresAt), None)
  }

  /** The exchange once session and code are locked and every binding and policy check has passed.  A
      proven replay revokes the code's family and still fails; it is looked for before liveness. */
  function SettleExchange(q: CodeRequest, row: CodeRow, session: SessionRow, env: Env): Decision {
    var now := env.clock.first;
    var last := CheckBinding(q.via, q.clientId, row.grant.binding, env.at.e);
    if row.consumedAt.Some? then
      if last.Some? then Reject(last.value)
      else Decision(RevokeSource(q.code, now), Rejected(InvalidGrant))
    else if row.expiresAt <= now || session.expiresAt <= now || session.revokedAt.Some? then Reject(InvalidGrant)
    else if last.Some? then Reject(last.value)
    else
      var renewal :=
        if row.issueRefresh then Some(Renewal(env.drawn.row, NewFamily(q.code, row, session, now), env.drawn.token))
        else None;
      Decision(UseCode(q.code, now, renewal),
               Granted(ExchangeResult(row.session, session.userId, row.grant.clientId, row.grant.scopes,
                                      row.grant.resource,
                                      if row.issueRefresh then Some(env.drawn.token) else None,
                                      row.nonce, row.upstreamAuthTime)))
  }

  function DecideExchange(q: CodeRequest, row: CodeRow, session: SessionRow, env: Env): Decision {
    var policy := CodePolicy(q, row, env);
    if policy.Some? then Reject(policy.value) else SettleExchange(q, row, session, env)
  }

  // ---- refresh tokens (src/credentials.rs) ----

  function TokenRequestGate(q: TokenRequest, family: FamilyRow): Option<Error> {
    match q.via
    case Direct(_) => None
    case Checked(resource, scopes, registry) =>
      if family.clientId != q.clientId
         || (resource.Some? && resource.value != family.resource)
         || (scopes.Some? && !SameScopes(scopes.value, family.scopes))
         || !PermitsRefresh(registry, q.clientId, family.scopes, family.resource) then Some(InvalidGrant)
      else None
  }

  predicate TokenBound(q: TokenRequest, family: FamilyRow) {
    family.clientId == q.clientId && family.resource == BoundResource(q.via, family.resource)
  }

  function TokenPolicy(q: TokenRequest, family: FamilyRow, env: Env): Option<Error> {
    var first := CheckBinding(q.via, q.clientId, family.binding, env.at.a);
    if first.Some? then first
    else if q.via.Checked? && !PermitsRefresh(q.via.registry, q.clientId, family.scopes, family.resource) then
      Some(InvalidGrant)
    else CheckBinding(q.via, q.clientId, family.binding, env.at.b)
  }

  /** The rotation once session, family and member are locked. */
  function DecideRotate(q: TokenRequest, member: MemberRow, family: FamilyRow, session: SessionRow,
                        env: Env): Decision {
    var now := env.clock.first;
    if !TokenBound(q, family) then Reject(InvalidGrant)
    else
      var policy := TokenPolicy(q, family, env);
      if policy.Some? then Reject(policy.value)
      else
        var last := CheckBinding(q.via, q.clientId, family.binding, env.at.c);
        if member.consumedAt.Some? then
          if last.Some? then Reject(last.value)
          else Decision(RevokeFamily(member.family, now), Rejected(InvalidGrant))
        else if family.revokedAt.Some? || session.revokedAt.Some? || family.expiresAt <= now
                || session.expiresAt <= now then
          Reject(InvalidGrant)
        else if last.Some? then Reject(last.value)
        else
          Decision(RotateToken(q.token, env.drawn.token, now),
                   Granted(ExchangeResult(family.session, session.userId, family.clientId, family.scopes,
                                          family.resource,
                                          Some(env.drawn.token), None, family.upstreamAuthTime)))
  }

  // ---- logout (src/credentials.rs, src/logout.rs) ----

  predicate ValidPostLogoutRedirect(reg: Registry, clientId: string, uri: string) {
    clientId in reg.clients && uri in reg.clients[clientId].postLogoutRedirects
  }

  predicate AllowsIdTokenLogout(reg: Registry, clientId: string) {
    clientId in reg.clients && reg.clients[clientId].logoutFlow == IdTokenHint
  }

  predicate TargetAllowed(target: LogoutTarget) {
    target.RegisteredTarget? ==> ValidPostLogoutRedirect(target.registry, target.clientId, target.uri)
  }

  function DecideBeginLogout(sessionId: Id, session: SessionRow, target: LogoutTarget, env: Env): Decision {
    if !SessionLive(session, env.clock.first) then Reject(InvalidGrant)
    else
      var t := env.clock.second;
      var row := ChallengeRow(env.drawn.secret, sessionId,
                              if target.RegisteredTarget? then target.clientId else "", target.uri,
                              if target.RegisteredTarget? then target.state else None,
                              t, t + CHALLENGE_LIFETIME, None);
      Decision(AddChallenge(env.drawn.row, row), ChallengeOpened(env.drawn.row, env.drawn.secret, target.uri))
  }

  function DecideFinishLogout(q: LogoutRequest, challenge: ChallengeRow, session: SessionRow, env: Env): Decision {
    var now := env.clock.first;
    if session.revokedAt.Some? || session.expiresAt <= now
       || challenge.consumedAt.Some? || challenge.expiresAt <= now
       || (challenge.clientId != ""
           && !ValidPostLogoutRedirect(q.registry, challenge.clientId, challenge.redirectUri)) then
      Reject(InvalidGrant)
    else if q.hint.Some?
            && (q.hint.value.audience != challenge.clientId
                || q.hint.value.expires <= q.hint.value.issued
                || q.hint.value.issued > now / SECOND + CLOCK_SKEW_SECONDS) then
      Reject(InvalidGrant)
    else if q.hint.Some?
            && (!AllowsIdTokenLogout(q.registry, challenge.clientId)
                || q.hint.value.subject != session.userId
                || q.hint.value.session != Some(q.session)
                || q.hint.value.issued < session.authTime / SECOND - CLOCK_SKEW_SECONDS) then
      Decision(NoEffect, NeedsConfirmation)
    else
      Decision(FinishChallenge(q.challenge, q.session, now), LoggedOut(challenge.redirectUri, challenge.state))
  }

  // ---- browser transactions (src/browser.rs) ----

  /** Binding and full revalidation of a stored request, at two instants. */
  function Revalidate(reg: Registry, request: Request, first: Instant, second: Instant): Result<Pending, Error> {
    var g := request.grant;
    var objection := ValidateBinding(reg, g.clientId, g.binding, first);
    if objection.Some? then Err(PolicyError(objection.value))
    else
      var checked := ValidatePendingParts(reg, g.clientId, g.redirectUri, "code", "S256", g.challenge, g.scopes,
                                          Some(g.resource), second);
      if checked.Err? then Err(PolicyError(checked.error)) else Ok(checked.value)
  }

  function ValidateOptional(optional: Option<Registry>, request: Request, first: Instant,
                            second: Instant): Option<Error> {
    match optional
    case Some(reg) =>
      var checked := Revalidate(reg, request, first, second);
      if checked.Err? then Some(checked.error) else None
    case None => if request.grant.binding.Some? then Some(PolicyChanged) else None
  }

  function BeginRequest(b: BrowserBegin, now: Time): Request {
    Request(b.pending.Stored(), b.state, b.nonce, b.allowPreAuthorization, now, now + BROWSER_LIFETIME)
  }

  function DecideBeginGoogle(b: BrowserBegin, env: Env): Decision {
    var d := env.drawn;
    if !b.pending.IsFresh(env.at.a) || !b.pending.IsFresh(env.at.b) then Reject(MetadataExpired)
    else
      Decision(AddBrowser(d.row,
                          BrowserRow(BeginRequest(b, env.clock.first), AwaitingStart, Some(d.state), Some(d.binding),
                                            Some(d.nonce), Some(d.verifier), None, None, None)),
               BrowserStarted(d.row, d.state, d.binding))
  }

  function DecideBeginAuthenticated(sessionId: Id, session: SessionRow, b: BrowserBegin, env: Env): Decision {
    var d := env.drawn;
    if !SessionLive(session, env.clock.first) then Reject(BrowserInvalid)
    else if !b.pending.IsFresh(env.at.a) || !b.pending.IsFresh(env.at.b) then Reject(MetadataExpired)
    else
      Decision(AddBrowser(d.row, BrowserRow(BeginRequest(b, env.clock.second), AwaitingConsent, None, None, None, None,
                                            None, Some(d.secret), Some(sessionId))),
               ConsentAsked(d.row, d.secret))
  }

  predicate MatchesStart(q: StartRequest, row: BrowserRow, now: Time) {
    row.upstreamState == Some(q.state) && row.browserBinding == Some(q.binding)
    && row.stage == AwaitingStart && now < row.request.expiresAt
  }

  predicate MatchesState(state: Id, binding: Id, row: BrowserRow) {
    row.upstreamState == Some(state) && row.browserBinding == Some(binding) && row.stage == AwaitingGoogle
  }

  predicate MatchesClaim(claim: Id, row: BrowserRow) {
    row.claim == Some(claim) && row.stage == CallbackClaimed
  }

  predicate MatchesConsent(q: ConsentRequest, row: BrowserRow) {
    row.session == Some(q.session) && row.csrf == Some(q.csrf) && row.stage == AwaitingConsent
  }

  function DecideStartGoogle(id: Id, row: BrowserRow): Decision {
    Decision(MoveBrowser(id, row.(stage := AwaitingGoogle)), UpstreamStarted(row.upstreamNonce, row.upstreamVerifier))
  }

  function DecideCancel(id: Id, row: BrowserRow, optional: Option<Registry>, env: Env): Decision {
    var before := ValidateOptional(optional, row.request, env.at.a, env.at.b);
    if before.Some? then Reject(before.value)
    else
      var after := ValidateOptional(optional, row.request, env.at.c, env.at.d);
      if after.Some? then Reject(after.value)
      else
        Decision(MoveBrowser(id, row.(stage := Denied, upstreamVerifier := None, upstreamNonce := None)),
                 DeniedTo(row.request.grant.redirectUri, row.request.state))
  }

  function DecideClaim(id: Id, row: BrowserRow, env: Env): Decision {
    if row.request.expiresAt <= env.clock.first then
      Decision(MoveBrowser(id, row.(stage := Expired, upstreamVerifier := None)), Rejected(BrowserInvalid))
    else
      Decision(MoveBrowser(id,
                           row.(stage := CallbackClaimed, claim := Some(env.drawn.secret), upstreamVerifier := None)),
               CallbackWon(env.drawn.secret, row.upstreamVerifier, row.upstreamNonce))
  }

  function DecideFail(id: Id, row: BrowserRow): Decision {
    Decision(MoveBrowser(id, row.(stage := Failed)), Acknowledged)
  }

  function DecideDenyCallback(id: Id, row: BrowserRow, reg: Registry, env: Env): Decision {
    if row.request.expiresAt <= env.clock.first then Reject(BrowserInvalid)
    else
      var before := Revalidate(reg, row.request, env.at.a, env.at.b);
      if before.Err? then Reject(before.error)
      else
        var after := Revalidate(reg, row.request, env.at.c, env.at.d);
        if after.Err? then Reject(after.error)
        else Decision(MoveBrowser(id, row.(stage := Denied, claim := None)),
                      DeniedTo(row.request.grant.redirectUri, row.request.state))
  }

  /** The user of a subject: the linked one, or a new one. */
  function UserFor(identities: map<string, Id>, subject: string, drawn: Id): Id {
    if subject in identities then identities[subject] else drawn
  }

  /** The callback once row and identity are locked; `userId` is the linked or newly drawn user. */
  function DecideComplete(id: Id, row: BrowserRow, identity: Identity, lifetime: Lifetime, optional: Option<Registry>,
                          userId: Id, env: Env): Decision
  {
    var d := env.drawn;
    var first := ValidateOptional(optional, row.request, env.at.a, env.at.b);
    if first.Some? then Reject(first.value)
    else
      var second := ValidateOptional(optional, row.request, env.at.c, env.at.d);
      if second.Some? then Reject(second.value)
      else if row.request.expiresAt <= env.clock.second then
        Decision(MoveBrowser(id, row.(stage := Expired)), Rejected(BrowserInvalid))
      else
        var third := ValidateOptional(optional, row.request, env.at.e, env.at.f);
        if third.Some? then Reject(third.value)
        else
          var fourth := ValidateOptional(optional, row.request, env.at.g, env.at.h);
          if fourth.Some? then Reject(fourth.value)
          else
            var session := SessionRow(userId, env.clock.first, env.clock.first + lifetime.seconds * SECOND, None,
                                      identity.authTime);
            Decision(LoginBrowser(id, d.secret, d.row, session, identity.subject,
                                  identity.profile.(updatedAt := env.clock.first)),
                     LoggedIn(d.row, session.expiresAt, id, d.secret))
  }

  predicate ConsentLive(row: BrowserRow, session: SessionRow, now: Time) {
    SessionLive(session, now) && now < row.request.expiresAt
  }

  function DecideApprove(q: ConsentRequest, row: BrowserRow, session: SessionRow, reg: Registry, env: Env): Decision {
    if !ConsentLive(row, session, env.clock.first) then Reject(BrowserInvalid)
    else
      var pending := Revalidate(reg, row.request, env.at.a, env.at.b);
      if pending.Err? then Reject(pending.error)
      else
        var approved := Approve(pending.value, true, env.at.c);
        if approved.Err? then Reject(PolicyError(approved.error))
        else
          var again := Revalidate(reg, row.request, env.at.d, env.at.e);
          if again.Err? then Reject(again.error)
          else
            Decision(ApproveBrowser(q.browser, env.drawn.row,
                                    CodeFrom(q.session, session, pending.value.Stored(), approved.value,
                                             row.request.nonce,
                                             CODE_SECONDS, env.clock.second)),
                     ConsentGiven(env.drawn.row, row.request.grant.redirectUri, row.request.state))
  }

  function DecidePreAuthorize(q: ConsentRequest, row: BrowserRow, session: SessionRow, reg: Registry,
                              env: Env): Decision {
    if !ConsentLive(row, session, env.clock.first) then Reject(BrowserInvalid)
    else
      var pending := Revalidate(reg, row.request, env.at.a, env.at.b);
      if pending.Err? then Reject(pending.error)
      else if !row.request.allowPreAuthorization || !PreAuthorizes(reg, pending.value) then
        Decision(NoEffect, NeedsConsent)
      else
        var approved := Approve(pending.value, true, env.at.c);
        if approved.Err? then Reject(PolicyError(approved.error))
        else
          var current := Revalidate(reg, row.request, env.at.d, env.at.e);
          if current.Err? then Reject(current.error)
          else if !PreAuthorizes(reg, current.value) then Reject(PolicyChanged)
          else if !ConsentLive(row, session, env.clock.third) then Reject(BrowserInvalid)
          else
            Decision(ApproveBrowser(q.browser, env.drawn.row,
                                    CodeFrom(q.session, session, pending.value.Stored(), approved.value,
                                             row.request.nonce,
                                             CODE_SECONDS, env.clock.second)),
                     ConsentGiven(env.drawn.row, row.request.grant.redirectUri, row.request.state))
  }

  function DecideDeny(q: ConsentRequest, row: BrowserRow, session: SessionRow, optional: Option<Registry>,
                      env: Env): Decision {
    if !ConsentLive(row, session, env.clock.first) then Reject(BrowserInvalid)
    else
      var before := ValidateOptional(optional, row.request, env.at.a, env.at.b);
      if before.Some? then Reject(before.value)
      else
        var after := ValidateOptional(optional, row.request, env.at.c, env.at.d);
        if after.Some? then Reject(after.value)
        else Decision(MoveBrowser(q.browser, row.(stage := Denied, csrf := None)),
                      DeniedTo(row.request.grant.redirectUri, row.request.state))
  }

  /** The consent page: policy is checked on both sides of reading the profile. */
  function DecideView(q: ConsentRequest, row: BrowserRow, session: SessionRow, reg: Registry, env: Env): Decision {
    if !ConsentLive(row, session, env.clock.first) then Reject(BrowserInvalid)
    else
      var before := Revalidate(reg, row.request, env.at.a, env.at.b);
      if before.Err? then Reject(before.error)
      else
        var after := Revalidate(reg, row.request, env.at.c, env.at.d);
        if after.Err? then Reject(after.error)
        else
          var g := row.request.grant;
          Decision(NoEffect, ConsentShown(g.clientId, g.scopes, g.resource, g.redirectUri, session.userId))
  }

  /** Any of the four, once session and browser row are locked. */
  function DecideConsent(call: Call, row: BrowserRow, session: SessionRow, env: Env): Decision
    requires IsConsentCall(call)
  {
    var q := call.consentRequest;
    match call
    case ApproveConsent(_, reg) => DecideApprove(q, row, session, reg, env)
    case PreAuthorize(_, reg) => DecidePreAuthorize(q, row, session, reg, env)
    case DenyConsent(_, optional) => DecideDeny(q, row, session, optional, env)
    case ViewConsent(_, reg) => DecideView(q, row, session, reg, env)
  }

  function DecideReadAuthTime(session: SessionRow, env: Env): Decision {
    if !SessionLive(session, env.clock.first) then Reject(BrowserInvalid)
    else Decision(NoEffect, AuthTimeRead(session.upstreamAuthTime))
  }

  function DecideLink(subject: string, profile: Option<Profile>, userId: Id, env: Env): Decision {
    Decision(LinkUser(subject, userId, if profile.Some? then Some(profile.value.(updatedAt := env.clock.first))
                      else None),
             UserLinked(userId))
  }

  // ---- one operation alone on the database ----

  /** The row a unique secret selects, if any. */
  ghost function FindClaim(db: Db, claim: Id): Option<Id> {
    if exists id :: id in db.browsers && MatchesClaim(claim, db.browsers[id])
    then var id :| id in db.browsers && MatchesClaim(claim, db.browsers[id]); Some(id)
    else None
  }

  ghost function FindState(db: Db, state: Id, binding: Id): Option<Id> {
    if exists id :: id in db.browsers && MatchesState(state, binding, db.browsers[id])
    then var id :| id in db.browsers && MatchesState(state, binding, db.browsers[id]); Some(id)
    else None
  }

  ghost function PerformExchange(db: Db, q: CodeRequest, env: Env): Decision {
    if q.code !in db.codes then Reject(InvalidGrant)
    else
      var row := db.codes[q.code];
      var gate := CodeRequestGate(q, row, env);
      if gate.Some? then Reject(gate.value)
      else if !CodeBound(q, BoundResource(q.via, row.grant.resource), row) then Reject(InvalidGrant)
      else if row.session !in db.sessions then Reject(InvalidGrant)
      else DecideExchange(q, row, db.sessions[row.session], env)
  }

  ghost function PerformRotate(db: Db, q: TokenRequest, env: Env): Decision {
    if q.token !in db.members || db.members[q.token].family !in db.families then Reject(InvalidGrant)
    else
      var member := db.members[q.token];
      var family := db.families[member.family];
      var gate := TokenRequestGate(q, family);
      if gate.Some? then Reject(gate.value)
      else if family.session !in db.sessions then Reject(InvalidGrant)
      else DecideRotate(q, member, family, db.sessions[family.session], env)
  }

  ghost function PerformRevoke(db: Db, token: Id, clientId: string, env: Env): Decision {
    if token in db.members && db.members[token].family in db.families
       && db.families[db.members[token].family].clientId == clientId
    then Decision(RevokeFamily(db.members[token].family, env.clock.first), Acknowledged)
    else Decision(NoEffect, Acknowledged)
  }

  ghost function PerformConsent(db: Db, call: Call, env: Env): Decision
    requires IsConsentCall(call)
  {
    var q := call.consentRequest;
    if q.session !in db.sessions then Reject(BrowserInvalid)
    else if q.browser !in db.browsers || !MatchesConsent(q, db.browsers[q.browser]) then Reject(BrowserInvalid)
    else
      DecideConsent(call, db.browsers[q.browser], db.sessions[q.session], env)
  }

  ghost function Perform(db: Db, call: Call, env: Env): Decision {
    match call
    case CreateSession(userId, upstream, lifetime) => DecideCreateSession(userId, upstream, lifetime, env)
    case IssueCode(s, pending, lifetime) =>
      if !BoundedSeconds(lifetime, CODE_SECONDS) then Reject(InvalidLifetime)
      else if s !in db.sessions then Reject(InvalidGrant)
      else DecideIssueCode(s, db.sessions[s], pending, lifetime, env)
    case Exchange(q) => PerformExchange(db, q, env)
    case Rotate(q) => PerformRotate(db, q, env)
    case RevokeRefresh(token, clientId) => PerformRevoke(db, token, clientId, env)
    case Logout(s) =>
      if s !in db.sessions then Reject(InvalidGrant)
      else Decision(EndSession(s, env.clock.first, env.clock.row), Acknowledged)
    case BeginLogout(s, target) =>
      if !TargetAllowed(target) || s !in db.sessions then Reject(InvalidGrant)
      else DecideBeginLogout(s, db.sessions[s], target, env)
    case FinishLogout(q) =>
      if q.session !in db.sessions || q.challenge !in db.challenges
         || db.challenges[q.challenge].session != q.session || db.challenges[q.challenge].csrf != q.csrf then
           Reject(InvalidGrant)
      else DecideFinishLogout(q, db.challenges[q.challenge], db.sessions[q.session], env)
    case BeginGoogle(b) => DecideBeginGoogle(b, env)
    case BeginAuthenticated(s, b) =>
      if s !in db.sessions then Reject(BrowserInvalid)
      else DecideBeginAuthenticated(s, db.sessions[s], b, env)
    case ReadAuthTime(s) =>
      if s !in db.sessions then Reject(BrowserInvalid) else DecideReadAuthTime(db.sessions[s], env)
    case StartGoogle(q) =>
      if q.browser !in db.browsers || !MatchesStart(q, db.browsers[q.browser], env.clock.first) then
        Reject(BrowserInvalid)
      else DecideStartGoogle(q.browser, db.browsers[q.browser])
    case CancelGoogle(q, optional) =>
      if q.browser !in db.browsers || !MatchesStart(q, db.browsers[q.browser], env.clock.first) then
        Reject(BrowserInvalid)
      else DecideCancel(q.browser, db.browsers[q.browser], optional, env)
    case ClaimCallback(state, binding) =>
      var found := FindState(db, state, binding);
      if found.None? then Reject(BrowserInvalid) else DecideClaim(found.value, db.browsers[found.value], env)
    case FailCallback(claim) =>
      var found := FindClaim(db, claim);
      if found.None? then Reject(BrowserInvalid) else DecideFail(found.value, db.browsers[found.value])
    case DenyCallback(claim, reg) =>
      var found := FindClaim(db, claim);
      if found.None? then Reject(BrowserInvalid)
      else DecideDenyCallback(found.value, db.browsers[found.value], reg, env)
    case CompleteCallback(claim, identity, lifetime, optional) =>
      var found := FindClaim(db, claim);
      if !BoundedSeconds(lifetime, SESSION_SECONDS) then Reject(BrowserInvalid)
      else if found.None? then Reject(BrowserInvalid)
      else DecideComplete(found.value, db.browsers[found.value], identity, lifetime, optional,
                          UserFor(db.identities, identity.subject, env.drawn.user), env)
    case ApproveConsent(_, _) => PerformConsent(db, call, env)
    case PreAuthorize(_, _) => PerformConsent(db, call, env)
    case DenyConsent(_, _) => PerformConsent(db, call, env)
    case ViewConsent(_, _) => PerformConsent(db, call, env)
    case LinkIdentity(subject, profile) =>
      DecideLink(subject, profile, UserFor(db.identities, subject, env.drawn.user), env)
  }
}
