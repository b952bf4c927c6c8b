/** Client resolution and the two-attempt loops around the stores (src/web.rs). */
module Provider {
  import opened Prelude
  import opened Policy
  import opened Tables
  import opened Invariants
  import opened Operations
  import opened Steps
  import opened Runs
  import opened Database
  import opened Credentials
  import opened BrowserTransactions

  /** The operator's limits for metadata-document clients. */
  datatype DocumentPolicy = DocumentPolicy(scopes: seq<string>, resources: seq<string>, allowRefresh: bool)

  /** A static client always gets the shared registry; any other one a projection of its freshly
      fetched document, if documents are enabled at all. */
  function ResolveClient(
      shared: Registry, policy: Option<DocumentPolicy>, fetched: Option<Lease>, clientId: string, at: Instant)
    : Option<Registry>
  {
    if clientId in shared.clients then Some(shared)
    else if policy.None? || fetched.None? then None
    else
      match ProjectCimd(shared, fetched.value, policy.value.scopes, policy.value.resources, policy.value.allowRefresh,
                        at)
      case Ok(registry) => Some(registry)
      case Err(_) => None
  }

  /** A static client is always resolved, to the shared registry; any other one exactly if documents are
      enabled, its own was fetched, and it may be projected. */
  lemma ClientsAreResolvedExactly(
      shared: Registry, policy: Option<DocumentPolicy>, fetched: Option<Lease>, clientId: string, at: Instant)
    ensures var resolved := ResolveClient(shared, policy, fetched, clientId, at);
            if clientId in shared.clients then resolved == Some(shared)
            else
              && (resolved.Some? <==>
                    policy.Some? && fetched.Some?
                    && MayProject(shared, fetched.value, policy.value.scopes, policy.value.resources,
                                  policy.value.allowRefresh, at))
              && (resolved.Some? ==>
                    var id := fetched.value.document.clientId;
                    && id in resolved.value.clients
                    && IsProjectionOf(resolved.value.clients[id], fetched.value, policy.value.scopes,
                                      policy.value.resources, policy.value.allowRefresh)
                    && resolved.value.clients == shared.clients[id := resolved.value.clients[id]])
  {
    hide ProjectCimd, MayProject, IsProjectionOf;
    if policy.Some? && fetched.Some? {
      ProjectionIsExact(shared, fetched.value, policy.value.scopes, policy.value.resources, policy.value.allowRefresh,
                        at);
    }
  }

  /** A document can only speak for its own client id, and never for a static client: everybody else
      is resolved exactly as in the shared registry. */
  lemma DocumentsSpeakForThemselves(
      shared: Registry, policy: Option<DocumentPolicy>, fetched: Option<Lease>, clientId: string, at: Instant,
        other: string)
    requires shared.dynamic.None?
    requires fetched.Some? ==> fetched.value.document.clientId == clientId
    requires ResolveClient(shared, policy, fetched, clientId, at).Some?
    ensures var out := ResolveClient(shared, policy, fetched, clientId, at).value;
            && clientId in out.clients
            && (clientId in shared.clients ==> out == shared)
            && (clientId !in shared.clients ==>
                  fetched.Some? && fetched.value.IsFresh(at) && DynamicOf(out, clientId).Some?)
            && (other != clientId ==>
                  && (other in out.clients <==> other in shared.clients)
                  && (other in shared.clients ==> out.clients[other] == shared.clients[other])
                  && DynamicOf(out, other).None?)
  {
    if clientId !in shared.clients {
      ProjectionIsLocal(shared, fetched.value, policy.value.scopes, policy.value.resources, policy.value.allowRefresh,
                        at,
                        SAMPLE_PENDING);
    }
  }

  // ---- the retry loops ----

  /** A request that is submitted again if its metadata lease ran out under it. */
  datatype Intent =
    | RedeemCode(code: Id, clientId: string, redirectUri: string, verifier: string, resource: Option<string>,
                 scopes: Option<seq<string>>)
    | Refresh(token: Id, clientId: string, resource: Option<string>, scopes: Option<seq<string>>)
    | CancelLogin(start: StartRequest)
    | RefuseLogin(claim: Id)
    | FinishLogin(claim: Id, identity: Identity)
    | SkipConsent(consent: ConsentRequest)
    | GiveConsent(consent: ConsentRequest)
    | RefuseConsent(consent: ConsentRequest)
    | AskConsent(consent: ConsentRequest)

  const LOGIN_LIFETIME := Lifetime(SESSION_SECONDS, 0)

  function CallFor(intent: Intent, registry: Registry): Call {
    match intent
    case RedeemCode(code, clientId, redirectUri, verifier, resource, scopes) =>
      Exchange(CodeRequest(code, clientId, redirectUri, verifier, Checked(resource, scopes, registry)))
    case Refresh(token, clientId, resource, scopes) =>
      Rotate(TokenRequest(token, clientId, Checked(resource, scopes, registry)))
    case CancelLogin(start) => CancelGoogle(start, Some(registry))
    case RefuseLogin(claim) => DenyCallback(claim, registry)
    case FinishLogin(claim, identity) => CompleteCallback(claim, identity, LOGIN_LIFETIME, Some(registry))
    case SkipConsent(consent) => PreAuthorize(consent, registry)
    case GiveConsent(consent) => ApproveConsent(consent, registry)
    case RefuseConsent(consent) => DenyConsent(consent, Some(registry))
    case AskConsent(consent) => ViewConsent(consent, registry)
  }

  /** Whatever is submitted is asked of the store as it was submitted, under the resolved registry; a login
      lasts thirty days. */
  lemma IntentsAreCarriedOut(intent: Intent, registry: Registry)
    ensures var call := CallFor(intent, registry);
            match intent
            case RedeemCode(code, clientId, redirectUri, verifier, resource, scopes) =>
              && call.Exchange? && call.code.via.Checked? && call.code.via.registry == registry
              && call.code.code == code && call.code.clientId == clientId && call.code.redirectUri == redirectUri
              && call.code.verifier == verifier && call.code.via.resource == resource && call.code.via.scopes == scopes
            case Refresh(token, clientId, resource, scopes) =>
              && call.Rotate? && call.token.via.Checked? && call.token.via.registry == registry
              && call.token.token == token && call.token.clientId == clientId
              && call.token.via.resource == resource && call.token.via.scopes == scopes
            case CancelLogin(start) => call.CancelGoogle? && call.start == start && call.optional == Some(registry)
            case RefuseLogin(claim) => call.DenyCallback? && call.claim == claim && call.registry == registry
            case FinishLogin(claim, identity) =>
              && call.CompleteCallback? && call.claim == claim && call.identity == identity
              && call.optional == Some(registry)
              && call.lifetime.seconds == 30 * 24 * 60 * 60 && call.lifetime.nanos == 0
            case SkipConsent(consent) =>
              call.PreAuthorize? && call.consentRequest == consent && call.registry == registry
            case GiveConsent(consent) =>
              call.ApproveConsent? && call.consentRequest == consent && call.registry == registry
            case RefuseConsent(consent) =>
              call.DenyConsent? && call.consentRequest == consent && call.optional == Some(registry)
            case AskConsent(consent) => call.ViewConsent? && call.consentRequest == consent && call.registry == registry
  {
  }

  /** One try: the registry resolved for it, if any, and its clock readings and draws. */
  datatype Try = Try(resolved: Option<Registry>, env: Env)

  const LEASE_RAN_OUT := Rejected(MetadataExpired)

  /** The database one try leaves, and its result. */
  ghost function Tried(db: Db, intent: Intent, t: Try): (Db, Option<Outcome>) {
    if t.resolved.None? then (db, None)
    else (Step(db, CallFor(intent, t.resolved.value), t.env),
          Some(OutcomeOf(db, Event(CallFor(intent, t.resolved.value), t.env))))
  }

  class Endpoint {
    const pool: Pool
    const credentials: CredentialStore
    const browser: BrowserStore

    constructor (pool: Pool)
      ensures this.pool == pool && Wired()
    {
      this.pool := pool;
      credentials := new CredentialStore(pool);
      browser := new BrowserStore(pool);
    }

    ghost predicate Wired() {
      credentials.pool == pool && browser.pool == pool && browser.Wired()
    }

    method Submit(intent: Intent, registry: Registry, env: Env) returns (outcome: Outcome)
      requires Wired() && Valid(pool.Snapshot())
      modifies pool
      ensures Ran(old(pool.Snapshot()), CallFor(intent, registry), env, pool.Snapshot(), outcome)
    {
      hide SessionsOk, CodesOk, FamiliesOk, SourcesOk, MembersOk, ChainsOk, ChallengesOk, BrowsersOk, OriginsOk,
           IdentitiesOk, Ran;
      match intent {
        case RedeemCode(code, clientId, redirectUri, verifier, resource, scopes) =>
          outcome := credentials.ExchangeCode(
            CodeRequest(code, clientId, redirectUri, verifier, Checked(resource, scopes, registry)), env);
        case Refresh(token, clientId, resource, scopes) =>
          outcome := credentials.RotateRefresh(TokenRequest(token, clientId, Checked(resource, scopes, registry)), env);
        case CancelLogin(start) => outcome := browser.Cancel(start, Some(registry), env);
        case RefuseLogin(claim) => outcome := browser.DenyAtCallback(claim, registry, env);
        case FinishLogin(claim, identity) =>
          outcome := browser.Complete(claim, identity, LOGIN_LIFETIME, Some(registry), env);
        case SkipConsent(consent) => outcome := browser.ApprovePreAuthorized(consent, registry, env);
        case GiveConsent(consent) => outcome := browser.ApproveWithConsent(consent, registry, env);
        case RefuseConsent(consent) => outcome := browser.DenyByUser(consent, Some(registry), env);
        case AskConsent(consent) => outcome := browser.ShowConsent(consent, registry, env);
      }
    }

    /** At most two tries.  `meanwhile` is what other requests make of the database between them.
        A second try happens only if the first left the database exactly as it was; so at most one
        try ever takes effect. */
    method SubmitTwice(intent: Intent, first: Try, meanwhile: Db, second: Try) returns (result: Option<Outcome>)
      requires Wired() && Valid(pool.Snapshot()) && Valid(meanwhile)
      modifies pool
      ensures var before := old(pool.Snapshot());
              if Tried(before, intent, first).1 == Some(LEASE_RAN_OUT)
              then Tried(before, intent, first).0 == before
                   && (pool.Snapshot(), result) == Tried(meanwhile, intent, second)
              else (pool.Snapshot(), result) == Tried(before, intent, first)
    {
      hide Valid, Step, OutcomeOf, CallFor;
      var attempt := 0;
      while true
        invariant attempt <= 1
        invariant Valid(pool.Snapshot())
        invariant attempt == 0 ==> pool.Snapshot() == old(pool.Snapshot())
        invariant attempt == 1 ==>
                    && pool.Snapshot() == meanwhile
                    && Tried(old(pool.Snapshot()), intent, first) == (old(pool.Snapshot()), Some(LEASE_RAN_OUT))
        decreases 1 - attempt
      {
        var try := if attempt == 0 then first else second;
        if try.resolved.None? {
          return None;
        }
        ghost var before := pool.Snapshot();
        var outcome := Submit(intent, try.resolved.value, try.env);
        RanMeansTried(before, intent, try, pool.Snapshot(), outcome);
        if outcome == LEASE_RAN_OUT && attempt == 0 {
          attempt := 1;
          pool.Restore(meanwhile);
          continue;
        }
        return Some(outcome);
      }
    }
  }

  lemma RanMeansTried(before: Db, intent: Intent, t: Try, after: Db, outcome: Outcome)
    requires t.resolved.Some? && Valid(before)
    requires Ran(before, CallFor(intent, t.resolved.value), t.env, after, outcome)
    ensures Tried(before, intent, t) == (after, Some(outcome))
    ensures outcome == LEASE_RAN_OUT ==> after == before
  {
    hide Valid, Perform, Apply;
    if outcome == LEASE_RAN_OUT {
      FailuresLeaveNoTrace(before, CallFor(intent, t.resolved.value), t.env);
    }
  }
}
