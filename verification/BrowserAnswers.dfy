/** What the operations on browser transactions answer, exactly, in terms of the rows before and after:
    who gets which secret, when policy or time refuses, and what is handed on to the client. */
module BrowserAnswers {
  import opened Prelude
  import opened Ordering
  import opened Policy
  import opened Tables
  import opened Invariants
  import opened Operations
  import opened Steps
  import opened Runs
  import opened Tasks
  import opened SessionAnswers
  import BrowserTransactions

  // ---- policy ----

  /** The stored grant is still acceptable, under the very policy it was stored with; without a registry
      only static grants are. */
  ghost predicate PolicyAccepts(optional: Option<Registry>, g: Grant) {
    match optional
    case None => g.binding.None?
    case Some(reg) =>
      && Distinct(g.scopes) && SamePolicy(reg, g.clientId, g.binding)
      && Acceptable(reg, g.clientId, g.redirectUri, g.challenge, g.scopes, g.resource)
  }

  /** The metadata lease of the registry, if any, holds at each of these instants. */
  predicate HoldsFor(optional: Option<Registry>, instants: set<Instant>) {
    optional.Some? ==> forall t | t in instants :: LeaseHolds(optional.value, t)
  }

  /** A refusal for a reason of policy names the right one: the lease if it has run out, the policy if it
      does not accept. */
  predicate RefusedByPolicy(outcome: Outcome, accepts: bool, holds: bool) {
    || (outcome == Rejected(MetadataExpired) && !holds)
    || (outcome == Rejected(PolicyChanged) && !accepts)
  }

  lemma RevalidationAnswers(reg: Registry, request: Request, first: Instant, second: Instant)
    requires Sorted(request.grant.scopes)
    ensures var checked := Revalidate(reg, request, first, second);
            var accepts, holds := PolicyAccepts(Some(reg), request.grant), HoldsFor(Some(reg), {first, second});
            && (checked.Ok? <==> accepts && holds)
            && (checked.Err? ==> RefusedByPolicy(Rejected(checked.error), accepts, holds))
            && (checked.Ok? ==>
                  && checked.value.Stored() == request.grant
                  && checked.value.dynamic == if IsDocumentClient(reg, request.grant.clientId) then reg.dynamic
                    else None)
  {
    hide ValidatePendingParts, ValidateBinding, LeaseHolds, MayRedirect, MayUse, Sort, Sorted, Distinct;
    var g := request.grant;
    BindingsAreNeverConfused(reg, g.clientId, g.binding, first);
    ValidationIsExact(reg, g.clientId, g.redirectUri, g.challenge, g.scopes, g.resource, second);
    SortIsIdempotent(g.scopes);
  }

  lemma ValidationAnswers(optional: Option<Registry>, request: Request, first: Instant, second: Instant)
    requires Sorted(request.grant.scopes)
    ensures var objection := ValidateOptional(optional, request, first, second);
            var accepts, holds := PolicyAccepts(optional, request.grant), HoldsFor(optional, {first, second});
            && (objection.None? <==> accepts && holds)
            && (objection.Some? ==> RefusedByPolicy(Rejected(objection.value), accepts, holds))
  {
    hide Revalidate, LeaseHolds, Sorted;
    if optional.Some? {
      RevalidationAnswers(optional.value, request, first, second);
    }
  }

  lemma HoldsForBoth(optional: Option<Registry>, a: Instant, b: Instant, c: Instant, d: Instant)
    ensures HoldsFor(optional, {a, b, c, d}) <==> HoldsFor(optional, {a, b}) && HoldsFor(optional, {c, d})
  {
    hide LeaseHolds;
  }

  // ---- beginning ----

  /** What a new transaction records: the request as validated, for ten minutes. */
  function Recorded(b: BrowserBegin, now: Time): Request {
    Request(Grant(b.pending.clientId, b.pending.redirectUri, b.pending.scopes, b.pending.resource, b.pending.challenge,
                  if b.pending.dynamic.Some? then Some(b.pending.dynamic.value.binding) else None),
            b.state, b.nonce, b.allowPreAuthorization, now, now + 10 * 60 * 1_000_000)
  }

  /** The row waits for the consent of this session, on this secret. */
  predicate WaitsForConsent(db: Db, s: Id, id: Id, csrf: Id) {
    && id in db.browsers && db.browsers[id].stage == AwaitingConsent
    && db.browsers[id].session == Some(s) && db.browsers[id].csrf == Some(csrf)
  }

  /** Begun exactly under a lease that holds before and after the insert; the state and the binding handed
      out are the stored ones. */
  lemma TransactionsBeginExactly(db: Db, b: BrowserBegin, env: Env)
    requires Fresh(db, env.drawn)
    ensures var outcome, after := Perform(db, BeginGoogle(b), env).outcome, Step(db, BeginGoogle(b), env);
            if HoldsTwice(b.pending, env.at.a, env.at.b) then
              && outcome.BrowserStarted? && outcome.id !in db.browsers
              && after == db.(browsers := db.browsers[outcome.id :=
                   BrowserRow(Recorded(b, env.clock.first), AwaitingStart, Some(outcome.upstreamState),
                              Some(outcome.browserBinding), Some(env.drawn.nonce), Some(env.drawn.verifier), None, None,
                              None)])
            else outcome == Rejected(MetadataExpired) && after == db
  {
    hide Perform;
    BrowserTransactions.BeginAlone(db, 0, b, env);
  }

  /** Under an open session the transaction goes straight to consent; the handle handed out is the one the
      row waits for. */
  lemma ConsentsAreAskedExactly(db: Db, s: Id, b: BrowserBegin, env: Env)
    requires Fresh(db, env.drawn)
    ensures var call := BeginAuthenticated(s, b);
            var outcome, after := Perform(db, call, env).outcome, Step(db, call, env);
            if !HasOpenSession(db, s, env.clock.first) then outcome == Rejected(BrowserInvalid) && after == db
            else if !HoldsTwice(b.pending, env.at.a, env.at.b) then outcome == Rejected(MetadataExpired) && after == db
            else
              && outcome.ConsentAsked? && outcome.id !in db.browsers
              && WaitsForConsent(after, s, outcome.id, outcome.csrf)
              && after == db.(browsers := db.browsers[outcome.id :=
                   BrowserRow(Recorded(b, env.clock.second), AwaitingConsent, None, None, None, None, None,
                              Some(outcome.csrf), Some(s))])
  {
    hide Perform;
    BrowserTransactions.BeginAlone(db, s, b, env);
  }

  // ---- upstream ----

  /** The row waits to be started with this state and binding, and is in time. */
  predicate AwaitsStart(db: Db, q: StartRequest, now: Time) {
    q.browser in db.browsers
    && var row := db.browsers[q.browser];
       && row.stage == AwaitingStart && row.upstreamState == Some(q.state) && row.browserBinding == Some(q.binding)
       && now < row.request.expiresAt
  }

  /** Exactly a waiting row is started; its own nonce and verifier are handed out. */
  lemma StartsExactly(db: Db, q: StartRequest, env: Env)
    ensures var outcome, after := Perform(db, StartGoogle(q), env).outcome, Step(db, StartGoogle(q), env);
            if AwaitsStart(db, q, env.clock.first) then
              var row := db.browsers[q.browser];
              && outcome == UpstreamStarted(row.upstreamNonce, row.upstreamVerifier)
              && after == db.(browsers := db.browsers[q.browser := row.(stage := AwaitingGoogle)])
            else outcome == Rejected(BrowserInvalid) && after == db
  {
    hide Perform;
    BrowserTransactions.StartAlone(db, q, None, env);
  }

  /** Exactly a waiting row is cancelled, under a policy that accepts it and a lease that holds on both
      sides; the client is told at the redirect and with the state it sent. */
  lemma CancelsExactly(db: Db, q: StartRequest, optional: Option<Registry>, env: Env)
    requires BrowsersOk(db.browsers, db.sessions)
    ensures var call := CancelGoogle(q, optional);
            var outcome, after := Perform(db, call, env).outcome, Step(db, call, env);
            if !AwaitsStart(db, q, env.clock.first) then outcome == Rejected(BrowserInvalid) && after == db
            else
              var row := db.browsers[q.browser];
              var accepts := PolicyAccepts(optional, row.request.grant);
              var holds := HoldsFor(optional, {env.at.a, env.at.b, env.at.c, env.at.d});
              if accepts && holds then
                && outcome == DeniedTo(row.request.grant.redirectUri, row.request.state)
                && after == db.(browsers := db.browsers[q.browser :=
                     row.(stage := Denied, upstreamVerifier := None, upstreamNonce := None)])
              else RefusedByPolicy(outcome, accepts, holds) && after == db
  {
    hide Perform, ValidateOptional, PolicyAccepts, HoldsFor;
    BrowserTransactions.StartAlone(db, q, optional, env);
    if q.browser in db.browsers {
      var request := db.browsers[q.browser].request;
      assert BrowserOk(db.browsers[q.browser]);
      ValidationAnswers(optional, request, env.at.a, env.at.b);
      ValidationAnswers(optional, request, env.at.c, env.at.d);
      HoldsForBoth(optional, env.at.a, env.at.b, env.at.c, env.at.d);
    }
  }

  predicate AwaitsCallback(row: BrowserRow, state: Id, binding: Id) {
    row.stage == AwaitingGoogle && row.upstreamState == Some(state) && row.browserBinding == Some(binding)
  }

  /** The row that waits for this callback is claimed under a new secret while it is in time, and its own
      verifier and nonce are handed out; otherwise it expires. */
  lemma ClaimsExactly(db: Db, id: Id, state: Id, binding: Id, env: Env)
    requires BrowsersOk(db.browsers, db.sessions) && Fresh(db, env.drawn)
    requires id in db.browsers && AwaitsCallback(db.browsers[id], state, binding)
    ensures var call := ClaimCallback(state, binding);
            var outcome, after := Perform(db, call, env).outcome, Step(db, call, env);
            var row := db.browsers[id];
            if env.clock.first < row.request.expiresAt then
              && outcome.CallbackWon? && outcome.verifier == row.upstreamVerifier && outcome.nonce == row.upstreamNonce
              && (forall b | b in db.browsers :: db.browsers[b].claim != Some(outcome.claim))
              && after == db.(browsers := db.browsers[id :=
                   row.(stage := CallbackClaimed, claim := Some(outcome.claim), upstreamVerifier := None)])
            else
              && outcome == Rejected(BrowserInvalid)
              && after == db.(browsers := db.browsers[id := row.(stage := Expired, upstreamVerifier := None)])
  {
    hide Perform, FindState, BrowsersOk;
    BrowserTransactions.ClaimAlone(db, state, binding, env);
    SecretsSelectOneRow(db, id, 0, state, binding);
  }

  /** A callback that no row waits for changes nothing. */
  lemma StrayCallbacksFail(db: Db, state: Id, binding: Id, env: Env)
    requires forall id | id in db.browsers :: !AwaitsCallback(db.browsers[id], state, binding)
    ensures Perform(db, ClaimCallback(state, binding), env) == Decision(NoEffect, Rejected(BrowserInvalid))
  {
    hide Perform;
    BrowserTransactions.ClaimAlone(db, state, binding, env);
  }

  predicate IsClaimed(row: BrowserRow, claim: Id) {
    row.stage == CallbackClaimed && row.claim == Some(claim)
  }

  /** A claim that no row is under changes nothing, whatever is asked on it. */
  lemma StrayClaimsFail(db: Db, call: Call, env: Env)
    requires call.FailCallback? || call.DenyCallback? || call.CompleteCallback?
    requires forall id | id in db.browsers :: !IsClaimed(db.browsers[id], call.claim)
    ensures Perform(db, call, env) == Decision(NoEffect, Rejected(BrowserInvalid))
  {
    hide Perform;
    if call.CompleteCallback? {
      BrowserTransactions.CompleteAlone(db, call.claim, call.identity, call.lifetime, call.optional, env);
    } else {
      BrowserTransactions.ClaimedAlone(db, call.claim, if call.DenyCallback? then call.registry
                                       else EMPTY_REGISTRY, env);
    }
  }

  lemma FailuresAreRecordedExactly(db: Db, id: Id, claim: Id, env: Env)
    requires BrowsersOk(db.browsers, db.sessions) && id in db.browsers && IsClaimed(db.browsers[id], claim)
    ensures Perform(db, FailCallback(claim), env).outcome == Acknowledged
    ensures Step(db, FailCallback(claim), env) == db.(browsers := db.browsers[id := db.browsers[id].(stage := Failed)])
  {
    hide Perform, FindClaim, BrowsersOk;
    BrowserTransactions.ClaimedAlone(db, claim, EMPTY_REGISTRY, env);
    SecretsSelectOneRow(db, id, claim, 0, 0);
  }

  /** A claimed row in time is denied under a policy that accepts it and a lease that holds on both sides;
      the client is told at the redirect and with the state it sent. */
  lemma CallbackDenialsExactly(db: Db, id: Id, claim: Id, reg: Registry, env: Env)
    requires BrowsersOk(db.browsers, db.sessions) && id in db.browsers && IsClaimed(db.browsers[id], claim)
    ensures var call := DenyCallback(claim, reg);
            var outcome, after := Perform(db, call, env).outcome, Step(db, call, env);
            var row := db.browsers[id];
            var accepts := PolicyAccepts(Some(reg), row.request.grant);
            var holds := HoldsFor(Some(reg), {env.at.a, env.at.b, env.at.c, env.at.d});
            if row.request.expiresAt <= env.clock.first then outcome == Rejected(BrowserInvalid) && after == db
            else if accepts && holds then
              && outcome == DeniedTo(row.request.grant.redirectUri, row.request.state)
              && after == db.(browsers := db.browsers[id := row.(stage := Denied, claim := None)])
            else RefusedByPolicy(outcome, accepts, holds) && after == db
  {
    hide Perform, FindClaim, Revalidate, PolicyAccepts, HoldsFor;
    assert BrowserOk(db.browsers[id]);
    BrowserTransactions.ClaimedAlone(db, claim, reg, env);
    SecretsSelectOneRow(db, id, claim, 0, 0);
    RevalidationAnswers(reg, db.browsers[id].request, env.at.a, env.at.b);
    RevalidationAnswers(reg, db.browsers[id].request, env.at.c, env.at.d);
    HoldsForBoth(Some(reg), env.at.a, env.at.b, env.at.c, env.at.d);
  }
}
