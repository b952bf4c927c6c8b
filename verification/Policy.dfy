/** Client registries, request validation, and the security bindings of metadata documents. */
module Policy {
  import opened Prelude
  import opened Ordering
  import opened Redirects

  datatype AuthorizationFlow = Interactive | GooglePreauthorized

  datatype LogoutFlow = ConfirmedLogout | IdTokenHint

  datatype Client = Client(
    id: string,
    redirects: seq<RegisteredRedirect>,
    scopes: set<string>,
    resources: set<string>,
    defaultResource: Option<string>,
    postLogoutRedirects: set<string>,
    authorizationFlow: AuthorizationFlow,
    logoutFlow: LogoutFlow)

  /** A validated client metadata document; the display name is cosmetic. */
  datatype Document = Document(clientId: string, clientName: string, redirectUris: seq<string>, refreshAllowed: bool)

  datatype BoundRedirect = BoundRedirect(uri: string, kind: RedirectKind)

  /** The durable security identity of a metadata document. */
  datatype Binding = Binding(version: nat, clientId: string, redirects: seq<BoundRedirect>, refreshAllowed: bool)

  /** An operation snapshot with its monotonic deadline. */
  datatype Lease = Lease(document: Document, validUntil: Instant) {
    predicate IsFresh(at: Instant) {
      at < validUntil
    }
  }

  datatype Dynamic = Dynamic(lease: Lease, binding: Binding)

  /** Verdicts of the URL parser on redirect URIs and on resource identifiers. */
  datatype Urls = Urls(redirect: string -> bool, identifier: string -> bool)

  datatype RegistryData = RegistryData(
    clients: map<string, Client>,
    userinfo: Option<string>,
    dynamic: Option<Dynamic>,
    urls: Urls)

  datatype OAuthError =
    | LeaseExpired | InvalidClientDeclaration | UnknownClient | UnsupportedResponseType
    | UnsupportedPkceMethod | InvalidPkce | InvalidRedirect | InvalidScope | InvalidResource | ConsentRequired

  /** An S256 challenge: the digest of a verifier, a digest of nothing known, or not a digest at all. */
  datatype Challenge = Digest(verifier: string) | Foreign(text: string) | Malformed(text: string)

  /** The security-relevant part of an authorization request. */
  datatype Grant = Grant(
    clientId: string,
    redirectUri: string,
    scopes: seq<string>,
    resource: string,
    challenge: Challenge,
    binding: Option<Binding>)

  /** A validated request, still waiting for consent. */
  datatype PendingData = PendingData(
    clientId: string,
    redirectUri: string,
    scopes: seq<string>,
    resource: string,
    challenge: Challenge,
    dynamic: Option<Dynamic>)
  {
    function Stored(): Grant {
      Grant(clientId, redirectUri, scopes, resource, challenge,
            if dynamic.Some? then Some(dynamic.value.binding) else None)
    }

    predicate IsFresh(at: Instant) {
      dynamic.Some? ==> dynamic.value.lease.IsFresh(at)
    }
  }

  const OFFLINE_ACCESS := "offline_access"
  const OPENID := "openid"

  // ---- PKCE and scope tokens ----

  predicate IsVerifierChar(c: char) {
    'a' <= c <= 'z' || 'A' <= c <= 'Z' || '0' <= c <= '9' || c == '-' || c == '.' || c == '_' || c == '~'
  }

  predicate ValidVerifier(verifier: string) {
    43 <= |verifier| <= 128 && forall c | c in verifier :: IsVerifierChar(c)
  }

  predicate VerifyS256(verifier: string, expected: Challenge) {
    ValidVerifier(verifier) && expected == Digest(verifier)
  }

  predicate IsScopeChar(c: char) {
    c == '!' || '#' <= c <= '[' || ']' <= c <= '~'
  }

  predicate ValidScopeToken(scope: string) {
    scope != [] && forall c | c in scope :: IsScopeChar(c)
  }

  predicate IsNativeUri(uri: string) {
    SCHEME <= uri
  }

  // ---- metadata documents ----

  function Bind(uri: string): BoundRedirect {
    BoundRedirect(uri, if IsNativeUri(uri) then NativeLoopback else Exact)
  }

  function BindAll(uris: seq<string>): (r: seq<BoundRedirect>)
    ensures |r| == |uris| && forall i :: 0 <= i < |uris| ==> r[i] == Bind(uris[i])
  {
    if uris == [] then [] else [Bind(uris[0])] + BindAll(uris[1..])
  }

  const BINDING_VERSION: nat := 1

  function SecurityBinding(document: Document, serverAllowsRefresh: bool): Binding {
    Binding(BINDING_VERSION, document.clientId, BindAll(Sort(document.redirectUris)),
            document.refreshAllowed && serverAllowsRefresh)
  }

  // ---- registries ----

  /** What client construction and registry construction establish. */
  predicate WellFormed(reg: RegistryData) {
    && (forall id | id in reg.clients ::
          && reg.clients[id].id == id
          && (forall s | s in reg.clients[id].scopes :: ValidScopeToken(s)))
    && (reg.dynamic.Some? ==>
          && reg.dynamic.value.lease.document.clientId in reg.clients
          && reg.dynamic.value.binding.clientId == reg.dynamic.value.lease.document.clientId
          && reg.dynamic.value.binding.version == BINDING_VERSION)
  }

  const EMPTY_REGISTRY := RegistryData(map[], None, None, Urls(s => false, s => false))

  type Registry = reg: RegistryData | WellFormed(reg) witness EMPTY_REGISTRY

  /** A stored binding is one of the stored client, in the current version. */
  predicate BindingOfItsClient(binding: Option<Binding>, clientId: string) {
    binding.Some? ==> binding.value.clientId == clientId && binding.value.version == BINDING_VERSION
  }

  predicate BoundToItsClient(g: Grant) {
    BindingOfItsClient(g.binding, g.clientId)
  }

  /** What validation establishes of every pending request. */
  predicate Canonical(p: PendingData) {
    Sorted(p.scopes) && Distinct(p.scopes) && p.scopes != [] && BoundToItsClient(p.Stored())
  }

  const SAMPLE_PENDING := PendingData("", "", [OPENID], "", Malformed(""), None)

  type Pending = p: PendingData | Canonical(p) witness SAMPLE_PENDING

  predicate IsFresh(reg: Registry, at: Instant) {
    reg.dynamic.Some? ==> reg.dynamic.value.lease.IsFresh(at)
  }

  /** The metadata policy, if it is the one of this client. */
  function DynamicOf(reg: Registry, clientId: string): (d: Option<Dynamic>)
    ensures d.Some? ==> reg.dynamic == d && d.value.lease.document.clientId == clientId
  {
    if reg.dynamic.Some? && reg.dynamic.value.lease.document.clientId == clientId then reg.dynamic else None
  }

  /** Whether a stored binding still names the client's present policy; None means it does. */
  function ValidateBinding(reg: Registry, clientId: string, stored: Option<Binding>, at: Instant): Option<OAuthError> {
    if !IsFresh(reg, at) then Some(LeaseExpired)
    else if clientId !in reg.clients then Some(UnknownClient)
    else
      match (DynamicOf(reg, clientId), stored)
      case (None, None) => None
      case (Some(current), Some(binding)) =>
        if binding == current.binding then None else Some(InvalidClientDeclaration)
      case (None, Some(_)) => Some(InvalidClientDeclaration)
      case (Some(_), None) => Some(InvalidClientDeclaration)
  }

  predicate TrustedRedirect(reg: Registry, client: Client, uri: string) {
    exists r | r in client.redirects :: RedirectMatches(r, uri, reg.urls.redirect(uri))
  }

  predicate ResourceAllowed(reg: Registry, client: Client, scopes: set<string>, resource: string) {
    resource in client.resources || (OPENID in scopes && reg.userinfo == Some(resource))
  }

  function EffectiveResource(reg: Registry, client: Client, scopes: set<string>,
                             resource: Option<string>): Option<string> {
    if resource.Some? then resource
    else if client.defaultResource.Some? then client.defaultResource
    else if OPENID in scopes then reg.userinfo
    else None
  }

  function ValidatePendingParts(
      reg: Registry, clientId: string, redirectUri: string, responseType: string, challengeMethod: string,
      challenge: Challenge, scopes: seq<string>, resource: Option<string>, at: Instant)
    : Result<Pending, OAuthError>
  {
    if !IsFresh(reg, at) then Err(LeaseExpired)
    else if DynamicOf(reg, clientId).Some? && resource.None? then Err(InvalidResource)
    else if clientId !in reg.clients then Err(UnknownClient)
    else
      var client := reg.clients[clientId];
      var requested := Elements(scopes);
      if responseType != "code" then Err(UnsupportedResponseType)
      else if challengeMethod != "S256" then Err(UnsupportedPkceMethod)
      else if challenge.Malformed? then Err(InvalidPkce)
      else if !TrustedRedirect(reg, client, redirectUri) then Err(InvalidRedirect)
      else if |requested| != |scopes| || requested == {} || (exists s | s in requested :: !ValidScopeToken(s))
              || !(requested <= client.scopes) then Err(InvalidScope)
      else
        var chosen := EffectiveResource(reg, client, requested, resource);
        if chosen.None? then Err(InvalidResource)
        else if DynamicOf(reg, clientId).Some? && chosen.value !in client.resources then Err(InvalidResource)
        else if !ResourceAllowed(reg, client, requested, chosen.value) then Err(InvalidResource)
        else
          SortedScopesAreCanonical(scopes);
          Ok(PendingData(client.id, redirectUri, Sort(scopes), chosen.value, challenge, DynamicOf(reg, clientId)))
  }

  lemma SortedScopesAreCanonical(scopes: seq<string>)
    requires |Elements(scopes)| == |scopes| && Elements(scopes) != {}
    ensures Sorted(Sort(scopes)) && Distinct(Sort(scopes)) && Sort(scopes) != []
  {
    SortSorts(scopes);
    CountingElements(scopes);
    SortKeepsElements(scopes);
  }

  function RevalidatePending(reg: Registry, p: Pending, at: Instant): Result<Pending, OAuthError> {
    ValidatePendingParts(reg, p.clientId, p.redirectUri, "code", "S256", p.challenge, p.scopes, Some(p.resource), at)
  }

  predicate PermitsRefresh(reg: Registry, clientId: string, scopes: seq<string>, resource: string) {
    clientId in reg.clients
    && var client := reg.clients[clientId];
       var requested := Elements(scopes);
       && (DynamicOf(reg, clientId).Some? ==> resource in client.resources)
       && |requested| == |scopes|
       && requested <= client.scopes
       && ResourceAllowed(reg, client, requested, resource)
  }

  predicate PreAuthorizes(reg: Registry, p: Pending) {
    p.dynamic.None? && reg.dynamic.None? && p.clientId in reg.clients
    && var client := reg.clients[p.clientId];
       && client.authorizationFlow == GooglePreauthorized
       && (exists r | r in client.redirects :: r.kind == AppClaimedHttps && r.uri == p.redirectUri)
       && p.resource in client.resources
       && (forall s | s in p.scopes :: s in client.scopes)
  }

  function Approve(p: Pending, consent: bool, at: Instant): Result<bool, OAuthError> {
    if !p.IsFresh(at) then Err(LeaseExpired)
    else if OFFLINE_ACCESS in p.scopes && !consent then Err(ConsentRequired)
    else Ok(OFFLINE_ACCESS in p.scopes)
  }

  /** What the construction of a client establishes of its scopes. */
  predicate Declared(client: Client) {
    forall s | s in client.scopes :: ValidScopeToken(s)
  }

  /** The shared registry: refused if two clients share an id, and otherwise each client under its own. */
  method BuildRegistry(clients: seq<Client>, userinfo: Option<string>, urls: Urls) returns (built: Option<RegistryData>)
    ensures built.Some? <==> forall i, j | 0 <= i < j < |clients| :: clients[i].id != clients[j].id
    ensures built.Some? ==>
              && built.value.dynamic.None? && built.value.userinfo == userinfo
              && (forall i | 0 <= i < |clients| ::
                    clients[i].id in built.value.clients && built.value.clients[clients[i].id] == clients[i])
              && (forall id | id in built.value.clients :: built.value.clients[id] in clients)
              && ((forall c | c in clients :: Declared(c)) ==> WellFormed(built.value))
  {
    var filled: map<string, Client> := map[];
    for k := 0 to |clients|
      invariant forall i, j | 0 <= i < j < k :: clients[i].id != clients[j].id
      invariant forall i | 0 <= i < k :: clients[i].id in filled && filled[clients[i].id] == clients[i]
      invariant forall id | id in filled :: filled[id].id == id && filled[id] in clients[..k]
    {
      if clients[k].id in filled {
        var i :| 0 <= i < k && clients[i] == filled[clients[k].id];
        assert clients[i].id == clients[k].id;
        return None;
      }
      filled := filled[clients[k].id := clients[k]];
    }
    assert clients[..|clients|] == clients;
    return Some(RegistryData(filled, userinfo, None, urls));
  }

  // ---- request-local projection of a metadata client ----

  function WithoutOffline(scopes: seq<string>, keep: bool): seq<string> {
    if scopes == [] then []
    else if keep || scopes[0] != OFFLINE_ACCESS then [scopes[0]] + WithoutOffline(scopes[1..], keep)
    else WithoutOffline(scopes[1..], keep)
  }

  predicate AcceptableRedirect(urls: Urls, uri: string) {
    urls.redirect(uri) && (IsNativeUri(uri) ==> SplitLoopback(uri).Some?)
  }

  function Register(uri: string): RegisteredRedirect {
    RegisteredRedirect(uri, if IsNativeUri(uri) then NativeLoopback else Exact)
  }

  function RegisterAll(uris: seq<string>): seq<RegisteredRedirect> {
    if uris == [] then [] else [Register(uris[0])] + RegisterAll(uris[1..])
  }

  function ProjectCimd(
      reg: Registry, lease: Lease, scopes: seq<string>, resources: seq<string>, allowRefresh: bool, at: Instant)
    : Result<Registry, OAuthError>
  {
    var document := lease.document;
    if document.clientId in reg.clients || !lease.IsFresh(at) || scopes == [] || resources == [] then
      Err(InvalidClientDeclaration)
    else
      var kept := WithoutOffline(scopes, allowRefresh && document.refreshAllowed);
      if (exists uri | uri in document.redirectUris :: !AcceptableRedirect(reg.urls, uri))
         || document.clientId == [] || document.redirectUris == [] || kept == []
         || (exists s | s in kept :: !ValidScopeToken(s))
         || (exists r | r in resources :: !reg.urls.identifier(r)) then
        Err(InvalidClientDeclaration)
      else
        var client := Client(document.clientId, RegisterAll(document.redirectUris), Elements(kept),
                             Elements(resources), None, {}, Interactive, ConfirmedLogout);
        Ok(reg.(clients := reg.clients[document.clientId := client],
                dynamic := Some(Dynamic(lease, SecurityBinding(document, allowRefresh)))))
  }

  // ---- theorems about validation ----

  /** At this instant no metadata lease of the registry has run out. */
  predicate LeaseHolds(reg: RegistryData, at: Instant) {
    reg.dynamic.Some? ==> at < reg.dynamic.value.lease.validUntil
  }

  /** The registry knows this client from its metadata document. */
  predicate IsDocumentClient(reg: RegistryData, clientId: string) {
    reg.dynamic.Some? && reg.dynamic.value.lease.document.clientId == clientId
  }

  /** The binding the registry now gives the client; static clients have none. */
  function PresentBinding(reg: RegistryData, clientId: string): Option<Binding> {
    if IsDocumentClient(reg, clientId) then Some(reg.dynamic.value.binding) else None
  }

  /** Equal to the registered redirect or, for native loopback, differing in the port only. */
  ghost predicate MayRedirect(reg: RegistryData, client: Client, uri: string) {
    reg.urls.redirect(uri)
    && exists r | r in client.redirects ::
         r.uri == uri || (r.kind == NativeLoopback && DifferAtMostInPort(r.uri, uri))
  }

  /** A resource of the client's own or, for a static client that asks for OpenID, the issuer's. */
  predicate MayUse(reg: RegistryData, client: Client, scopes: seq<string>, resource: string) {
    || resource in client.resources
    || (OPENID in scopes && reg.userinfo == Some(resource) && !IsDocumentClient(reg, client.id))
  }

  /** The policy part of validation, with the defaults resolved and the clock left out. */
  ghost predicate Acceptable(reg: RegistryData, clientId: string, redirectUri: string, challenge: Challenge,
                             scopes: seq<string>, resource: string)
  {
    clientId in reg.clients
    && var client := reg.clients[clientId];
       && !challenge.Malformed?
       && MayRedirect(reg, client, redirectUri)
       && scopes != [] && (forall s | s in scopes :: s in client.scopes)
       && MayUse(reg, client, scopes, resource)
  }

  /** The resource a request means: the one it names; otherwise the client's default, then, with
      OpenID, the issuer's.  A document client has to name one. */
  function MeantResource(reg: RegistryData, clientId: string, scopes: seq<string>, resource: Option<string>)
    : Option<string>
  {
    if resource.Some? then resource
    else if IsDocumentClient(reg, clientId) || clientId !in reg.clients then None
    else if reg.clients[clientId].defaultResource.Some? then reg.clients[clientId].defaultResource
    else if OPENID in scopes then reg.userinfo
    else None
  }

  lemma TrustIsExact(reg: Registry, client: Client, uri: string)
    ensures TrustedRedirect(reg, client, uri) <==> MayRedirect(reg, client, uri)
  {
    hide RedirectMatches, DifferAtMostInPort;
    forall r | r in client.redirects
      ensures RedirectMatches(r, uri, reg.urls.redirect(uri)) <==>
              reg.urls.redirect(uri)
              && (r.uri == uri || (r.kind == NativeLoopback && DifferAtMostInPort(r.uri, uri)))
    {
      OnlyTheLoopbackPortMayVary(r, uri, reg.urls.redirect(uri));
    }
  }

  /** Validation with defaults succeeds exactly on code requests with S256 under a fresh lease that are
      duplicate-free and acceptable for the resource they mean; it keeps every field, sorts the scopes
      and fills in that resource.  It speaks of the lease exactly if the lease has run out. */
  lemma ValidationWithDefaultsIsExact(reg: Registry, clientId: string, redirectUri: string, responseType: string,
                                      challengeMethod: string, challenge: Challenge, scopes: seq<string>,
                                      resource: Option<string>, at: Instant)
    ensures var r := ValidatePendingParts(reg, clientId, redirectUri, responseType, challengeMethod, challenge, scopes,
                                          resource, at);
            var meant := MeantResource(reg, clientId, scopes, resource);
            && (r.Ok? <==>
                  && LeaseHolds(reg, at) && responseType == "code" && challengeMethod == "S256"
                  && Distinct(scopes) && meant.Some?
                  && Acceptable(reg, clientId, redirectUri, challenge, scopes, meant.value))
            && (r.Ok? ==>
                  r.value == PendingData(clientId, redirectUri, Sort(scopes), meant.value, challenge,
                                         if IsDocumentClient(reg, clientId) then reg.dynamic else None))
            && (r == Err(LeaseExpired) <==> !LeaseHolds(reg, at))
  {
    hide TrustedRedirect, MayRedirect, Sorted, ValidScopeToken;
    CountingElements(scopes);
    if clientId in reg.clients {
      TrustIsExact(reg, reg.clients[clientId], redirectUri);
    }
    assert scopes != [] ==> scopes[0] in Elements(scopes);
  }

  /** A refusal names a condition that is really violated. */
  lemma RefusalsNameTheirCause(reg: Registry, clientId: string, redirectUri: string, responseType: string,
                               challengeMethod: string, challenge: Challenge, scopes: seq<string>,
                               resource: Option<string>, at: Instant)
    ensures var r := ValidatePendingParts(reg, clientId, redirectUri, responseType, challengeMethod, challenge, scopes,
                                          resource, at);
            r.Err? ==>
              match r.error
              case LeaseExpired => !LeaseHolds(reg, at)
              case UnknownClient => clientId !in reg.clients
              case UnsupportedResponseType => responseType != "code"
              case UnsupportedPkceMethod => challengeMethod != "S256"
              case InvalidPkce => challenge.Malformed?
              case InvalidRedirect => clientId in reg.clients && !MayRedirect(reg, reg.clients[clientId], redirectUri)
              case InvalidScope =>
                clientId in reg.clients
                && (scopes == [] || !Distinct(scopes) || exists s :: s in scopes && s !in reg.clients[clientId].scopes)
              case InvalidResource =>
                MeantResource(reg, clientId, scopes, resource).None?
                || (clientId in reg.clients
                    && !MayUse(reg, reg.clients[clientId], scopes,
                               MeantResource(reg, clientId, scopes, resource).value))
              case _ => false
  {
    hide TrustedRedirect, MayRedirect, Sorted, ValidScopeToken;
    CountingElements(scopes);
    if clientId in reg.clients {
      TrustIsExact(reg, reg.clients[clientId], redirectUri);
      ScopeTokensAreValid(reg, clientId);
    }
    assert scopes != [] ==> scopes[0] in Elements(scopes);
  }

  lemma ScopeTokensAreValid(reg: Registry, clientId: string)
    requires clientId in reg.clients
    ensures forall s | s in reg.clients[clientId].scopes :: ValidScopeToken(s)
  {
  }

  /** The same for a request that names its resource. */
  lemma ValidationIsExact(reg: Registry, clientId: string, redirectUri: string, challenge: Challenge,
                          scopes: seq<string>, resource: string, at: Instant)
    ensures var r := ValidatePendingParts(reg, clientId, redirectUri, "code", "S256", challenge, scopes, Some(resource),
                                          at);
            && (r.Ok? <==> LeaseHolds(reg, at) && Distinct(scopes)
                           && Acceptable(reg, clientId, redirectUri, challenge, scopes, resource))
            && (r.Ok? ==> r.value == PendingData(clientId, redirectUri, Sort(scopes), resource, challenge,
                                                 if IsDocumentClient(reg, clientId) then reg.dynamic else None))
            && (r == Err(LeaseExpired) <==> !LeaseHolds(reg, at))
  {
    hide ValidatePendingParts, Acceptable, Sort;
    ValidationWithDefaultsIsExact(reg, clientId, redirectUri, "code", "S256", challenge, scopes, Some(resource), at);
  }

  /** Validation is a fixpoint: once defaults are resolved, revalidating under the same registry,
      at any instant at which it is fresh, returns the very same pending request. */
  lemma ValidationIsAFixpoint(reg: Registry, clientId: string, redirectUri: string, responseType: string,
                              challengeMethod: string, challenge: Challenge, scopes: seq<string>,
                              resource: Option<string>, at: Instant, later: Instant)
    requires ValidatePendingParts(reg, clientId, redirectUri, responseType, challengeMethod, challenge, scopes,
                                  resource, at).Ok?
    requires LeaseHolds(reg, later)
    ensures var p := ValidatePendingParts(reg, clientId, redirectUri, responseType, challengeMethod, challenge, scopes,
                                          resource, at).value;
            RevalidatePending(reg, p, later) == Ok(p) && Sorted(p.scopes) && Distinct(p.scopes)
  {
    hide ValidatePendingParts, Acceptable, IsDocumentClient, LeaseHolds, MeantResource;
    var p := ValidatePendingParts(reg, clientId, redirectUri, responseType, challengeMethod, challenge, scopes,
                                  resource, at).value;
    ValidationWithDefaultsIsExact(reg, clientId, redirectUri, responseType, challengeMethod, challenge, scopes,
                                  resource,
                                  at);
    SortKeepsElements(scopes);
    SortIsIdempotent(p.scopes);
    SameScopesAreAcceptable(reg, clientId, redirectUri, challenge, scopes, p.scopes, p.resource);
    ValidationIsExact(reg, clientId, redirectUri, challenge, p.scopes, p.resource, later);
  }

  lemma SameScopesAreAcceptable(reg: Registry, clientId: string, redirectUri: string, challenge: Challenge,
                                a: seq<string>, b: seq<string>, resource: string)
    requires Elements(a) == Elements(b) && Acceptable(reg, clientId, redirectUri, challenge, a, resource)
    ensures Acceptable(reg, clientId, redirectUri, challenge, b, resource)
  {
    hide MayRedirect;
    assert a[0] in Elements(b);
    assert forall s | s in b :: s in Elements(a);
    assert OPENID in a ==> OPENID in Elements(b);
  }

  /** Any registry, however different from the one that first accepted a stored request, either
      rejects it or reproduces its fields exactly. */
  lemma AcceptedRowsAreReproduced(reg: Registry, grant: Grant, at: Instant, later: Instant)
    requires Sorted(grant.scopes)
    requires ValidateBinding(reg, grant.clientId, grant.binding, at).None?
    requires ValidatePendingParts(reg, grant.clientId, grant.redirectUri, "code", "S256", grant.challenge,
                                  grant.scopes, Some(grant.resource), later).Ok?
    ensures ValidatePendingParts(reg, grant.clientId, grant.redirectUri, "code", "S256", grant.challenge,
                                 grant.scopes, Some(grant.resource), later).value.Stored() == grant
  {
    hide ValidatePendingParts, ValidateBinding, Acceptable, Sort, Sorted;
    BindingsAreNeverConfused(reg, grant.clientId, grant.binding, at);
    ValidationIsExact(reg, grant.clientId, grant.redirectUri, grant.challenge, grant.scopes, grant.resource, later);
    SortIsIdempotent(grant.scopes);
  }

  /** What a refresh may still use. */
  predicate MayRefresh(reg: RegistryData, clientId: string, scopes: seq<string>, resource: string) {
    clientId in reg.clients
    && var client := reg.clients[clientId];
       Distinct(scopes) && (forall s | s in scopes :: s in client.scopes) && MayUse(reg, client, scopes, resource)
  }

  lemma RefreshCheckIsExact(reg: Registry, clientId: string, scopes: seq<string>, resource: string)
    ensures PermitsRefresh(reg, clientId, scopes, resource) <==> MayRefresh(reg, clientId, scopes, resource)
  {
    CountingElements(scopes);
  }

  /** The refresh check agrees with full validation on every non-empty scope list, given a trusted
      redirect, a well-formed challenge and a fresh lease. */
  lemma RefreshCheckAgreesWithValidation(reg: Registry, clientId: string, redirectUri: string, challenge: Challenge,
                                         scopes: seq<string>, resource: string, at: Instant)
    requires scopes != [] && !challenge.Malformed? && LeaseHolds(reg, at)
    requires clientId in reg.clients ==> MayRedirect(reg, reg.clients[clientId], redirectUri)
    ensures PermitsRefresh(reg, clientId, scopes, resource) <==>
            ValidatePendingParts(reg, clientId, redirectUri, "code", "S256", challenge, scopes, Some(resource), at).Ok?
  {
    hide PermitsRefresh, ValidatePendingParts, MayRedirect;
    ValidationIsExact(reg, clientId, redirectUri, challenge, scopes, resource, at);
    RefreshCheckIsExact(reg, clientId, scopes, resource);
  }

  /** A stored binding passes exactly if the lease holds, the client is known, and the binding is the
      one the registry now gives it: static and document grants are never accepted as each other. */
  lemma BindingsAreNeverConfused(reg: Registry, clientId: string, stored: Option<Binding>, at: Instant)
    ensures ValidateBinding(reg, clientId, stored, at).None? <==>
            LeaseHolds(reg, at) && clientId in reg.clients && stored == PresentBinding(reg, clientId)
    ensures ValidateBinding(reg, clientId, stored, at) == Some(LeaseExpired) <==> !LeaseHolds(reg, at)
  {
  }

  /** Approval takes a fresh lease, and consent for offline access; it renews exactly with the latter. */
  lemma ApprovalIsExact(p: Pending, consent: bool, at: Instant)
    ensures var holds := p.dynamic.Some? ==> at < p.dynamic.value.lease.validUntil;
            && (!holds ==> Approve(p, consent, at) == Err(LeaseExpired))
            && (holds && "offline_access" in p.scopes && !consent ==> Approve(p, consent, at) == Err(ConsentRequired))
            && (holds && (consent || "offline_access" !in p.scopes) ==>
                  Approve(p, consent, at) == Ok("offline_access" in p.scopes))
  {
  }

  // ---- theorems about projection ----

  lemma {:induction false} WithoutOfflineKeeps(scopes: seq<string>, keep: bool)
    ensures Elements(WithoutOffline(scopes, keep)) ==
            if keep then Elements(scopes) else Elements(scopes) - {OFFLINE_ACCESS}
  {
    if scopes != [] {
      WithoutOfflineKeeps(scopes[1..], keep);
      assert Elements(scopes) == {scopes[0]} + Elements(scopes[1..]);
      var rest := WithoutOffline(scopes[1..], keep);
      assert Elements([scopes[0]] + rest) == {scopes[0]} + Elements(rest);
    }
  }

  /** A scope token of appendix A.4 of RFC 6749. */
  predicate IsScopeToken(scope: string) {
    scope != "" && forall c | c in scope :: c == '!' || '#' <= c <= '[' || ']' <= c <= '~'
  }

  /** The scopes a document client is given: the operator's, without offline access unless both sides
      allow refreshing. */
  predicate GivesScope(lease: Lease, allowRefresh: bool, scopes: seq<string>, s: string) {
    s in scopes && (s == "offline_access" ==> allowRefresh && lease.document.refreshAllowed)
  }

  /** A redirect that the URL parser accepts and that, if it is plain HTTP, is a loopback one. */
  ghost predicate MayRegister(urls: Urls, uri: string) {
    urls.redirect(uri) && ("http://" <= uri ==> DifferAtMostInPort(uri, uri))
  }

  /** The document may become a client: its id is not taken, its lease holds, and its redirects and the
      operator's scopes and resources are in order. */
  ghost predicate MayProject(reg: RegistryData, lease: Lease, scopes: seq<string>, resources: seq<string>,
                             allowRefresh: bool, at: Instant)
  {
    && lease.document.clientId != "" && lease.document.clientId !in reg.clients && at < lease.validUntil
    && lease.document.redirectUris != []
       && (forall uri | uri in lease.document.redirectUris :: MayRegister(reg.urls, uri))
    && (exists s :: GivesScope(lease, allowRefresh, scopes, s))
    && (forall s | GivesScope(lease, allowRefresh, scopes, s) :: IsScopeToken(s))
    && resources != [] && (forall r | r in resources :: reg.urls.identifier(r))
  }

  lemma RegistrationIsExact(urls: Urls, uri: string)
    ensures AcceptableRedirect(urls, uri) <==> MayRegister(urls, uri)
  {
    hide SplitLoopback, DifferAtMostInPort;
    OnlyTheLoopbackPortMayVary(RegisteredRedirect(uri, NativeLoopback), uri, true);
    LoopbackIsSelfSimilar(uri);
  }

  lemma LoopbackIsSelfSimilar(uri: string)
    ensures SplitLoopback(uri).Some? <==> DifferAtMostInPort(uri, uri)
  {
    hide SplitLoopback, LoopbackUri, IsLoopbackHost, IsSuffix, IsPortText;
    if SplitLoopback(uri).Some? {
      var parts := SplitLoopback(uri).value;
      var port := SplitUriIsBuilt(uri, parts);
      assert LoopbackPair(uri, uri, parts, port, port);
    }
    if DifferAtMostInPort(uri, uri) {
      var parts, p, q :| LoopbackPair(uri, uri, parts, p, q);
      SplitOfLoopbackUri(parts, p);
    }
  }

  lemma {:induction false} WithoutOfflineIsExact(lease: Lease, allowRefresh: bool, scopes: seq<string>)
    ensures var kept := WithoutOffline(scopes, allowRefresh && lease.document.refreshAllowed);
            forall s :: s in kept <==> GivesScope(lease, allowRefresh, scopes, s)
  {
    var keep := allowRefresh && lease.document.refreshAllowed;
    WithoutOfflineKeeps(scopes, keep);
    assert forall s :: s in scopes <==> s in Elements(scopes);
    var kept := WithoutOffline(scopes, keep);
    assert forall s :: s in kept <==> s in Elements(kept);
  }

  lemma {:induction false} RegistrationKeepsUris(uris: seq<string>, k: nat)
    requires k < |uris|
    ensures |RegisterAll(uris)| == |uris|
    ensures RegisterAll(uris)[k] ==
            RegisteredRedirect(uris[k], if "http://" <= uris[k] then NativeLoopback else Exact)
  {
    if |uris| == 1 {
      assert RegisterAll(uris[1..]) == [];
    } else {
      RegistrationKeepsUris(uris[1..], if k == 0 then 0 else k - 1);
    }
  }

  /** The client a document becomes, and nothing else of it. */
  ghost predicate IsProjectionOf(client: Client, lease: Lease, scopes: seq<string>, resources: seq<string>,
                                 allowRefresh: bool)
  {
    && client.id == lease.document.clientId
    && |client.redirects| == |lease.document.redirectUris|
    && (forall k | 0 <= k < |client.redirects| ::
          var uri := lease.document.redirectUris[k];
          client.redirects[k] == RegisteredRedirect(uri, if "http://" <= uri then NativeLoopback else Exact))
    && (forall s :: s in client.scopes <==> GivesScope(lease, allowRefresh, scopes, s))
    && (forall r :: r in client.resources <==> r in resources)
    && client.defaultResource.None? && client.postLogoutRedirects == {}
    && client.authorizationFlow == Interactive && client.logoutFlow == ConfirmedLogout
  }

  /** A document is projected exactly if it may be, to exactly its client, under its own lease and binding;
      nothing else of the registry changes. */
  lemma ProjectionIsExact(reg: Registry, lease: Lease, scopes: seq<string>, resources: seq<string>, allowRefresh: bool,
                          at: Instant)
    ensures var r := ProjectCimd(reg, lease, scopes, resources, allowRefresh, at);
            var id := lease.document.clientId;
            && (r.Ok? <==> MayProject(reg, lease, scopes, resources, allowRefresh, at))
            && (r.Ok? ==>
                  && id in r.value.clients
                  && IsProjectionOf(r.value.clients[id], lease, scopes, resources, allowRefresh)
                  && r.value.clients == reg.clients[id := r.value.clients[id]]
                  && r.value.dynamic == Some(Dynamic(lease, SecurityBinding(lease.document, allowRefresh)))
                  && r.value.userinfo == reg.userinfo && r.value.urls == reg.urls)
            && (r.Err? ==> r.error == InvalidClientDeclaration)
  {
    hide AcceptableRedirect, MayRegister, RegisterAll, WithoutOffline, GivesScope, SecurityBinding, ValidScopeToken,
         IsScopeToken;
    var uris := lease.document.redirectUris;
    var kept := WithoutOffline(scopes, allowRefresh && lease.document.refreshAllowed);
    forall uri ensures AcceptableRedirect(reg.urls, uri) <==> MayRegister(reg.urls, uri) {
      RegistrationIsExact(reg.urls, uri);
    }
    forall s ensures ValidScopeToken(s) <==> IsScopeToken(s) {
      ScopeTokensAgree(s);
    }
    forall k | 0 <= k < |uris|
      ensures |RegisterAll(uris)| == |uris|
      ensures RegisterAll(uris)[k]
              == RegisteredRedirect(uris[k], if "http://" <= uris[k] then NativeLoopback else Exact)
    {
      RegistrationKeepsUris(uris, k);
    }
    if uris != [] {
      RegistrationKeepsUris(uris, 0);
    }
    WithoutOfflineIsExact(lease, allowRefresh, scopes);
    GivenScopesAreNamed(lease, allowRefresh, scopes);
    if kept != [] {
      assert kept[0] in kept && GivesScope(lease, allowRefresh, scopes, kept[0]);
    }
    assert forall s :: s in Elements(kept) <==> s in kept;
    assert forall r :: r in Elements(resources) <==> r in resources;
  }

  lemma ScopeTokensAgree(s: string)
    ensures ValidScopeToken(s) <==> IsScopeToken(s)
  {
  }

  lemma GivenScopesAreNamed(lease: Lease, allowRefresh: bool, scopes: seq<string>)
    ensures (exists s :: GivesScope(lease, allowRefresh, scopes, s)) ==> scopes != []
  {
  }

  /** A projection adds one interactive client within local scopes and resources, keeps every other
      client as it was, and never enables pre-authorization or hinted logout. */
  lemma ProjectionIsLocal(reg: Registry, lease: Lease, scopes: seq<string>, resources: seq<string>,
                          allowRefresh: bool, at: Instant, p: Pending)
    requires ProjectCimd(reg, lease, scopes, resources, allowRefresh, at).Ok?
    ensures var out := ProjectCimd(reg, lease, scopes, resources, allowRefresh, at).value;
            var id := lease.document.clientId;
            && id !in reg.clients
            && out.clients.Keys == reg.clients.Keys + {id}
            && (forall other | other in reg.clients :: out.clients[other] == reg.clients[other])
            && out.clients[id].scopes <= Elements(scopes)
            && (OFFLINE_ACCESS in out.clients[id].scopes ==> allowRefresh && lease.document.refreshAllowed)
            && out.clients[id].resources == Elements(resources)
            && out.clients[id].logoutFlow == ConfirmedLogout
            && !PreAuthorizes(out, p)
  {
    WithoutOfflineKeeps(scopes, allowRefresh && lease.document.refreshAllowed);
  }

  // ---- theorems about security bindings ----

  lemma BindAllIsInjective(a: seq<string>, b: seq<string>)
    requires BindAll(a) == BindAll(b)
    ensures a == b
  {
    assert |a| == |b|;
    forall i | 0 <= i < |a| ensures a[i] == b[i] {
      assert BindAll(a)[i] == Bind(a[i]) && BindAll(b)[i] == Bind(b[i]);
    }
  }

  /** A binding lists the document's redirects in order, each as native loopback exactly if it is plain
      HTTP, and allows refreshing exactly if both sides do. */
  lemma BindingLists(document: Document, allowRefresh: bool)
    ensures var binding := SecurityBinding(document, allowRefresh);
            && binding.version == 1 && binding.clientId == document.clientId
            && (binding.refreshAllowed <==> document.refreshAllowed && allowRefresh)
            && |binding.redirects| == |document.redirectUris|
            && (forall k | 0 <= k < |binding.redirects| ::
                  binding.redirects[k].kind == if "http://" <= binding.redirects[k].uri then NativeLoopback else Exact)
            && (forall k, m | 0 <= k < m < |binding.redirects| && m == k + 1 ::
                  Below(binding.redirects[k].uri, binding.redirects[m].uri))
            && (forall uri :: uri in document.redirectUris <==>
                  exists k :: 0 <= k < |binding.redirects| && binding.redirects[k].uri == uri)
  {
    var uris := Sort(document.redirectUris);
    SortSorts(document.redirectUris);
    SortKeepsElements(document.redirectUris);
    var bound := BindAll(uris);
    forall uri ensures uri in document.redirectUris <==> exists k :: 0 <= k < |bound| && bound[k].uri == uri {
      assert uri in document.redirectUris <==> uri in Elements(uris);
      if uri in uris {
        var k :| 0 <= k < |uris| && uris[k] == uri;
        assert bound[k].uri == uri;
      }
      if k :| 0 <= k < |bound| && bound[k].uri == uri {
        assert uris[k] in uris;
      }
    }
  }

  /** Equal bindings mean the same client, the same set of redirects and the same effective refresh
      permission; the order of redirects and the display name are immaterial. */
  lemma BindingIdentity(a: Document, b: Document, allowA: bool, allowB: bool)
    requires Distinct(a.redirectUris) && Distinct(b.redirectUris)
    ensures SecurityBinding(a, allowA) == SecurityBinding(b, allowB) <==>
            && a.clientId == b.clientId
            && Elements(a.redirectUris) == Elements(b.redirectUris)
            && (a.refreshAllowed && allowA) == (b.refreshAllowed && allowB)
  {
    SortOfDistinct(a.redirectUris, b.redirectUris);
    if SecurityBinding(a, allowA) == SecurityBinding(b, allowB) {
      BindAllIsInjective(Sort(a.redirectUris), Sort(b.redirectUris));
    }
  }
}
