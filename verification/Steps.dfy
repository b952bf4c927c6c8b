/** One operation as a step: its write set is guarded, so it keeps every invariant; and what a
    failing operation may still change. */
module Steps {
  import opened Prelude
  import opened Ordering
  import opened Policy
  import opened Tables
  import opened Invariants
  import opened Operations
  import Preservation

  /** Random draws never collide with what is stored. */
  ghost predicate Fresh(db: Db, d: Drawn) {
    && d.row !in db.sessions && d.row !in db.codes && d.row !in db.families && d.row !in db.challenges
    && d.row !in db.browsers && d.row !in db.origins
    && d.token !in db.members
    && d.user !in db.users
    && (forall b | b in db.browsers :: db.browsers[b].claim != Some(d.secret))
    && (forall b | b in db.browsers :: db.browsers[b].upstreamState != Some(d.state))
  }

  /** Fresh draws, and a provider session is created for a user the database knows. */
  ghost predicate Admissible(db: Db, call: Call, env: Env) {
    Fresh(db, env.drawn) && (call.CreateSession? ==> call.userId in db.users)
  }

  ghost function Step(db: Db, call: Call, env: Env): Db {
    Apply(db, Perform(db, call, env).effect)
  }

  // ---- credentials ----

  lemma ExchangeIsGuarded(db: Db, q: CodeRequest, env: Env)
    requires CodesOk(db.codes, db.sessions) && Fresh(db, env.drawn)
    ensures Guarded(db, PerformExchange(db, q, env).effect)
  {
    if q.code in db.codes {
      assert CodeOk(db.codes[q.code], db.sessions[db.codes[q.code].session]);
    }
  }

  lemma RotateIsGuarded(db: Db, q: TokenRequest, env: Env)
    requires Fresh(db, env.drawn)
    ensures Guarded(db, PerformRotate(db, q, env).effect)
  {
  }

  lemma IssueIsGuarded(db: Db, s: Id, pending: Pending, lifetime: Lifetime, env: Env)
    requires Fresh(db, env.drawn)
    ensures Guarded(db, Perform(db, IssueCode(s, pending, lifetime), env).effect)
  {
  }

  // ---- browser transactions ----

  /** Revalidation, under any registry, gives back the request as it was stored. */
  lemma RevalidationReproduces(reg: Registry, request: Request, first: Instant, second: Instant)
    requires Sorted(request.grant.scopes) && Revalidate(reg, request, first, second).Ok?
    ensures Revalidate(reg, request, first, second).value.Stored() == request.grant
  {
    AcceptedRowsAreReproduced(reg, request.grant, first, second);
  }

  /** The code of an approved row repeats the row's request and belongs to the row's session. */
  lemma ApprovalIsGuarded(db: Db, q: ConsentRequest, pending: Pending, issueRefresh: bool, env: Env)
    requires q.browser in db.browsers && q.session in db.sessions && Fresh(db, env.drawn)
    requires MatchesConsent(q, db.browsers[q.browser])
    requires pending.Stored() == db.browsers[q.browser].request.grant
    requires issueRefresh == (OFFLINE_ACCESS in pending.scopes)
    ensures var row := db.browsers[q.browser];
            Guarded(db, ApproveBrowser(q.browser, env.drawn.row,
                                       CodeFrom(q.session, db.sessions[q.session], pending.Stored(), issueRefresh,
                                                row.request.nonce, CODE_SECONDS, env.clock.second)))
  {
  }

  lemma ApproveIsGuarded(db: Db, q: ConsentRequest, reg: Registry, env: Env)
    requires q.browser in db.browsers && q.session in db.sessions && Fresh(db, env.drawn)
    requires MatchesConsent(q, db.browsers[q.browser]) && Sorted(db.browsers[q.browser].request.grant.scopes)
    ensures Guarded(db, DecideApprove(q, db.browsers[q.browser], db.sessions[q.session], reg, env).effect)
  {
    hide Guarded, CodeFrom, Fresh, MatchesConsent, Revalidate;
    var row := db.browsers[q.browser];
    var pending := Revalidate(reg, row.request, env.at.a, env.at.b);
    if pending.Ok? {
      RevalidationReproduces(reg, row.request, env.at.a, env.at.b);
      ApprovalIsGuarded(db, q, pending.value, OFFLINE_ACCESS in pending.value.scopes, env);
    }
    NothingIsGuarded(db);
  }

  lemma PreAuthorizeIsGuarded(db: Db, q: ConsentRequest, reg: Registry, env: Env)
    requires q.browser in db.browsers && q.session in db.sessions && Fresh(db, env.drawn)
    requires MatchesConsent(q, db.browsers[q.browser]) && Sorted(db.browsers[q.browser].request.grant.scopes)
    ensures Guarded(db, DecidePreAuthorize(q, db.browsers[q.browser], db.sessions[q.session], reg, env).effect)
  {
    hide Guarded, CodeFrom, Fresh, MatchesConsent, Revalidate, PreAuthorizes;
    var row := db.browsers[q.browser];
    var pending := Revalidate(reg, row.request, env.at.a, env.at.b);
    if pending.Ok? {
      RevalidationReproduces(reg, row.request, env.at.a, env.at.b);
      ApprovalIsGuarded(db, q, pending.value, OFFLINE_ACCESS in pending.value.scopes, env);
    }
    NothingIsGuarded(db);
  }

  lemma NothingIsGuarded(db: Db)
    ensures Guarded(db, NoEffect)
  {
  }

  lemma DenyIsGuarded(db: Db, q: ConsentRequest, optional: Option<Registry>, env: Env)
    requires q.browser in db.browsers && q.session in db.sessions && BrowserOk(db.browsers[q.browser])
    requires MatchesConsent(q, db.browsers[q.browser])
    ensures Guarded(db, DecideDeny(q, db.browsers[q.browser], db.sessions[q.session], optional, env).effect)
  {
  }

  lemma ViewWritesNothing(q: ConsentRequest, row: BrowserRow, session: SessionRow, reg: Registry, env: Env)
    ensures DecideView(q, row, session, reg, env).effect == NoEffect
  {
    hide Revalidate;
  }

  lemma DecidedConsentIsGuarded(db: Db, call: Call, env: Env)
    requires IsConsentCall(call) && Fresh(db, env.drawn)
    requires var q := call.consentRequest;
             && q.session in db.sessions && q.browser in db.browsers
             && MatchesConsent(q, db.browsers[q.browser]) && BrowserOk(db.browsers[q.browser])
    ensures var q := call.consentRequest;
            Guarded(db, DecideConsent(call, db.browsers[q.browser], db.sessions[q.session], env).effect)
  {
    hide Guarded, Fresh, MatchesConsent, DecideApprove, DecidePreAuthorize, DecideDeny, DecideView;
    var q := call.consentRequest;
    NothingIsGuarded(db);
    match call
    case ApproveConsent(_, reg) => ApproveIsGuarded(db, q, reg, env);
    case PreAuthorize(_, reg) => PreAuthorizeIsGuarded(db, q, reg, env);
    case DenyConsent(_, optional) => DenyIsGuarded(db, q, optional, env);
    case ViewConsent(_, reg) => ViewWritesNothing(q, db.browsers[q.browser], db.sessions[q.session], reg, env);
  }

  lemma ConsentIsGuarded(db: Db, call: Call, env: Env)
    requires IsConsentCall(call)
    requires BrowsersOk(db.browsers, db.sessions) && Fresh(db, env.drawn)
    ensures Guarded(db, PerformConsent(db, call, env).effect)
  {
    hide Guarded, Fresh, MatchesConsent, DecideConsent, BrowserOk;
    var q := call.consentRequest;
    NothingIsGuarded(db);
    if q.session in db.sessions && q.browser in db.browsers && MatchesConsent(q, db.browsers[q.browser]) {
      DecidedConsentIsGuarded(db, call, env);
    }
  }

  lemma StartIsGuarded(db: Db, id: Id, optional: Option<Registry>, env: Env)
    requires id in db.browsers && BrowserOk(db.browsers[id]) && db.browsers[id].stage == AwaitingStart
    ensures Guarded(db, DecideStartGoogle(id, db.browsers[id]).effect)
    ensures Guarded(db, DecideCancel(id, db.browsers[id], optional, env).effect)
  {
  }

  lemma ClaimIsGuarded(db: Db, id: Id, env: Env)
    requires id in db.browsers && BrowserOk(db.browsers[id]) && db.browsers[id].stage == AwaitingGoogle
             && Fresh(db, env.drawn)
    ensures Guarded(db, DecideClaim(id, db.browsers[id], env).effect)
  {
  }

  lemma ClaimedIsGuarded(db: Db, id: Id, reg: Registry, env: Env)
    requires id in db.browsers && BrowserOk(db.browsers[id]) && db.browsers[id].stage == CallbackClaimed
    ensures Guarded(db, DecideFail(id, db.browsers[id]).effect)
    ensures Guarded(db, DecideDenyCallback(id, db.browsers[id], reg, env).effect)
  {
  }

  lemma StartingIsGuarded(db: Db, call: Call, env: Env)
    requires call.StartGoogle? || call.CancelGoogle?
    requires BrowsersOk(db.browsers, db.sessions)
    ensures Guarded(db, Perform(db, call, env).effect)
  {
    hide Guarded, DecideStartGoogle, DecideCancel;
    NothingIsGuarded(db);
    if call.start.browser in db.browsers && MatchesStart(call.start, db.browsers[call.start.browser], env.clock.first) {
      assert BrowserOk(db.browsers[call.start.browser]);
      StartIsGuarded(db, call.start.browser, if call.CancelGoogle? then call.optional else None, env);
    }
  }

  lemma ClaimingIsGuarded(db: Db, call: Call, env: Env)
    requires call.ClaimCallback?
    requires BrowsersOk(db.browsers, db.sessions) && Fresh(db, env.drawn)
    ensures Guarded(db, Perform(db, call, env).effect)
  {
    hide Guarded, Fresh, DecideClaim;
    NothingIsGuarded(db);
    var found := FindState(db, call.state, call.binding);
    if found.Some? {
      ClaimIsGuarded(db, found.value, env);
    }
  }

  lemma FailingIsGuarded(db: Db, call: Call, env: Env)
    requires call.FailCallback? && BrowsersOk(db.browsers, db.sessions)
    ensures Guarded(db, Perform(db, call, env).effect)
  {
    hide Guarded, DecideFail;
    NothingIsGuarded(db);
    var found := FindClaim(db, call.claim);
    if found.Some? {
      ClaimedIsGuarded(db, found.value, EMPTY_REGISTRY, env);
    }
  }

  lemma DenyingIsGuarded(db: Db, call: Call, env: Env)
    requires call.DenyCallback? && BrowsersOk(db.browsers, db.sessions)
    ensures Guarded(db, Perform(db, call, env).effect)
  {
    hide Guarded, DecideDenyCallback;
    NothingIsGuarded(db);
    var found := FindClaim(db, call.claim);
    if found.Some? {
      ClaimedIsGuarded(db, found.value, call.registry, env);
    }
  }

  lemma DecidedCompletionIsGuarded(db: Db, id: Id, call: Call, env: Env)
    requires call.CompleteCallback? && BoundedSeconds(call.lifetime, SESSION_SECONDS) && Fresh(db, env.drawn)
    requires id in db.browsers && BrowserOk(db.browsers[id]) && db.browsers[id].stage == CallbackClaimed
    ensures Guarded(db, DecideComplete(id, db.browsers[id], call.identity, call.lifetime, call.optional,
                                       UserFor(db.identities, call.identity.subject, env.drawn.user), env).effect)
  {
    hide ValidateOptional;
  }

  lemma CompleteIsGuarded(db: Db, call: Call, env: Env)
    requires call.CompleteCallback?
    requires BrowsersOk(db.browsers, db.sessions) && Fresh(db, env.drawn)
    ensures Guarded(db, Perform(db, call, env).effect)
  {
    hide Guarded, Fresh, DecideComplete, BrowserOk;
    NothingIsGuarded(db);
    var found := FindClaim(db, call.claim);
    if found.Some? && BoundedSeconds(call.lifetime, SESSION_SECONDS) {
      DecidedCompletionIsGuarded(db, found.value, call, env);
    }
  }

  lemma BeginIsGuarded(db: Db, call: Call, env: Env)
    requires call.BeginGoogle? || call.BeginAuthenticated?
    requires Fresh(db, env.drawn)
    ensures Guarded(db, Perform(db, call, env).effect)
  {
  }

  lemma OtherIsGuarded(db: Db, call: Call, env: Env)
    requires call.CreateSession? || call.RevokeRefresh? || call.Logout? || call.BeginLogout? || call.FinishLogout?
             || call.LinkIdentity? || call.ReadAuthTime?
    requires Admissible(db, call, env)
    ensures Guarded(db, Perform(db, call, env).effect)
  {
  }

  /** Whatever an operation decides on a valid database may be committed. */
  lemma PerformIsGuarded(db: Db, call: Call, env: Env)
    requires Valid(db) && Admissible(db, call, env)
    ensures Guarded(db, Perform(db, call, env).effect)
  {
    hide SessionsOk, CodesOk, FamiliesOk, SourcesOk, MembersOk, ChainsOk, ChallengesOk, BrowsersOk, OriginsOk,
         IdentitiesOk, Guarded, Fresh, PerformConsent, PerformExchange, PerformRotate;
    match call
    case Exchange(q) => ExchangeIsGuarded(db, q, env);
    case Rotate(q) => RotateIsGuarded(db, q, env);
    case IssueCode(s, pending, lifetime) => IssueIsGuarded(db, s, pending, lifetime, env);
    case BeginGoogle(_) => BeginIsGuarded(db, call, env);
    case BeginAuthenticated(_, _) => BeginIsGuarded(db, call, env);
    case StartGoogle(_) => StartingIsGuarded(db, call, env);
    case CancelGoogle(_, _) => StartingIsGuarded(db, call, env);
    case ClaimCallback(_, _) => ClaimingIsGuarded(db, call, env);
    case FailCallback(_) => FailingIsGuarded(db, call, env);
    case DenyCallback(_, _) => DenyingIsGuarded(db, call, env);
    case CompleteCallback(_, _, _, _) => CompleteIsGuarded(db, call, env);
    case ApproveConsent(_, _) => ConsentIsGuarded(db, call, env);
    case PreAuthorize(_, _) => ConsentIsGuarded(db, call, env);
    case DenyConsent(_, _) => ConsentIsGuarded(db, call, env);
    case ViewConsent(_, _) => ConsentIsGuarded(db, call, env);
    case _ => OtherIsGuarded(db, call, env);
  }

  /** Every operation, on every valid database, with any clock readings, keeps every invariant
      and loses nothing. */
  lemma StepKeepsEverything(db: Db, call: Call, env: Env)
    requires Valid(db) && Admissible(db, call, env)
    ensures Valid(Step(db, call, env)) && Kept(db, Step(db, call, env))
  {
    hide Valid, Kept, Guarded, Perform, Apply;
    PerformIsGuarded(db, call, env);
    Preservation.GuardedPreservesValid(db, Perform(db, call, env).effect);
  }

  // ---- failures ----

  /** A replayed code or token: the presented credential was already consumed, and only the families
      that descend from it are revoked. */
  ghost predicate RevokesOnlyItsFamily(db: Db, call: Call, at: Time, out: Db) {
    || (call.Exchange? && call.code.code in db.codes && db.codes[call.code.code].consumedAt.Some?
        && out == db.(families := RevokeWhere(db.families, FamiliesFrom(db.families, call.code.code), Always(at))))
    || (call.Rotate? && call.token.token in db.members && db.members[call.token.token].consumedAt.Some?
        && out == db.(families := RevokeWhere(db.families, {db.members[call.token.token].family}, Always(at))))
  }

  /** An expired callback: only its own row moves, to Expired. */
  ghost predicate ExpiresOnlyItsRow(db: Db, call: Call, clock: Clock, out: Db) {
    (call.ClaimCallback? || call.CompleteCallback?)
    && exists id :: id in db.browsers
        && (call.ClaimCallback? ==> MatchesState(call.state, call.binding, db.browsers[id]))
        && (call.CompleteCallback? ==> MatchesClaim(call.claim, db.browsers[id]))
        && db.browsers[id].request.expiresAt <= (if call.ClaimCallback? then clock.first else clock.second)
        && out == db.(browsers := db.browsers[id := db.browsers[id].(stage := Expired, upstreamVerifier := None)])
  }

  lemma ExpiredClaimMovesOnlyItsRow(db: Db, call: Call, env: Env)
    requires call.ClaimCallback?
    requires Perform(db, call, env).outcome.Rejected? && Perform(db, call, env).effect != NoEffect
    ensures ExpiresOnlyItsRow(db, call, env.clock, Step(db, call, env))
    ensures Perform(db, call, env).outcome.error == BrowserInvalid
  {
    var id := FindState(db, call.state, call.binding).value;
    assert Step(db, call, env) ==
           db.(browsers := db.browsers[id := db.browsers[id].(stage := Expired, upstreamVerifier := None)]);
  }

  lemma ExpiredCompletionDecides(db: Db, call: Call, env: Env)
    requires call.CompleteCallback?
    requires Perform(db, call, env).outcome.Rejected? && Perform(db, call, env).effect != NoEffect
    ensures FindClaim(db, call.claim).Some?
    ensures var id := FindClaim(db, call.claim).value;
            && id in db.browsers && MatchesClaim(call.claim, db.browsers[id])
            && db.browsers[id].request.expiresAt <= env.clock.second
            && Perform(db, call, env) ==
               Decision(MoveBrowser(id, db.browsers[id].(stage := Expired)), Rejected(BrowserInvalid))
  {
    hide ValidateOptional;
  }

  lemma ExpiredCompletionMovesOnlyItsRow(db: Db, call: Call, env: Env)
    requires BrowsersOk(db.browsers, db.sessions)
    requires call.CompleteCallback?
    requires Perform(db, call, env).outcome.Rejected? && Perform(db, call, env).effect != NoEffect
    ensures ExpiresOnlyItsRow(db, call, env.clock, Step(db, call, env))
    ensures Perform(db, call, env).outcome.error == BrowserInvalid
  {
    hide Perform, FindClaim;
    ExpiredCompletionDecides(db, call, env);
    var id := FindClaim(db, call.claim).value;
    assert BrowserOk(db.browsers[id]);
    assert db.browsers[id].upstreamVerifier.None?;
    assert db.browsers[id].(stage := Expired) == db.browsers[id].(stage := Expired, upstreamVerifier := None);
  }

  lemma ReplayRevokesOnlyItsFamily(db: Db, call: Call, env: Env)
    requires call.Exchange? || call.Rotate?
    requires Perform(db, call, env).outcome.Rejected? && Perform(db, call, env).effect != NoEffect
    ensures RevokesOnlyItsFamily(db, call, env.clock.first, Step(db, call, env))
    ensures Perform(db, call, env).outcome.error == InvalidGrant
  {
  }

  lemma OtherFailuresWriteNothing(db: Db, call: Call, env: Env)
    requires !call.Exchange? && !call.Rotate? && !call.ClaimCallback? && !call.CompleteCallback?
    requires Perform(db, call, env).outcome.Rejected?
    ensures Perform(db, call, env).effect == NoEffect
  {
    hide Revalidate, ValidateOptional, PreAuthorizes, Approve, ConsentLive, CodeFrom, SessionLive, BeginRequest;
  }

  /** A failing operation leaves the whole database as it was, with two exceptions: a proven replay
      and an expired callback.  An expired metadata lease is never an exception. */
  lemma FailuresLeaveNoTrace(db: Db, call: Call, env: Env)
    requires Valid(db) && Perform(db, call, env).outcome.Rejected?
    ensures var out := Step(db, call, env);
            || out == db
            || RevokesOnlyItsFamily(db, call, env.clock.first, out)
            || ExpiresOnlyItsRow(db, call, env.clock, out)
    ensures Perform(db, call, env).outcome.error == MetadataExpired ==> Step(db, call, env) == db
  {
    hide SessionsOk, CodesOk, FamiliesOk, SourcesOk, MembersOk, ChainsOk, ChallengesOk, BrowsersOk, OriginsOk,
         IdentitiesOk, Perform, RevokesOnlyItsFamily, ExpiresOnlyItsRow;
    if Perform(db, call, env).effect != NoEffect {
      if call.Exchange? || call.Rotate? {
        ReplayRevokesOnlyItsFamily(db, call, env);
      } else if call.ClaimCallback? {
        ExpiredClaimMovesOnlyItsRow(db, call, env);
      } else if call.CompleteCallback? {
        ExpiredCompletionMovesOnlyItsRow(db, call, env);
      } else {
        OtherFailuresWriteNothing(db, call, env);
      }
    }
  }
}
