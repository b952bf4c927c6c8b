/** Whole runs: any number of operations, by anybody, in any order, with any clock readings. */
module Runs {
  import opened Prelude
  import opened Ordering
  import opened Policy
  import opened Tables
  import opened Invariants
  import opened Operations
  import opened Steps

  datatype Event = Event(call: Call, env: Env)

  ghost function OutcomeOf(db: Db, ev: Event): Outcome {
    Perform(db, ev.call, ev.env).outcome
  }

  ghost predicate Advances(before: Db, ev: Event, after: Db) {
    Admissible(before, ev.call, ev.env) && after == Step(before, ev.call, ev.env)
  }

  /** `dbs[i]` is the database before operation `i`; the run starts in any valid database. */
  ghost predicate Run(dbs: seq<Db>, evs: seq<Event>) {
    && |dbs| == |evs| + 1
    && Valid(dbs[0])
    && forall i, j | 0 <= i < |evs| && j == i + 1 :: Advances(dbs[i], evs[i], dbs[j])
  }

  /** Every state of every run satisfies every invariant. */
  lemma {:induction false} RunStaysValid(dbs: seq<Db>, evs: seq<Event>, n: nat)
    requires Run(dbs, evs) && n < |dbs|
    ensures Valid(dbs[n])
  {
    hide Valid, Kept, Admissible, Step;
    if n > 0 {
      RunStaysValid(dbs, evs, n - 1);
      assert Advances(dbs[n - 1], evs[n - 1], dbs[n]);
      StepKeepsEverything(dbs[n - 1], evs[n - 1].call, evs[n - 1].env);
    }
  }

  /** Nothing recorded in a run is ever lost or rewritten later in it. */
  lemma {:induction false} RunLosesNothing(dbs: seq<Db>, evs: seq<Event>, i: nat, j: nat)
    requires Run(dbs, evs) && i <= j < |dbs|
    ensures Kept(dbs[i], dbs[j])
    decreases j
  {
    hide Valid, Kept, Admissible, Step;
    if i == j {
      KeptIsReflexive(dbs[i]);
    } else {
      RunLosesNothing(dbs, evs, i, j - 1);
      RunStaysValid(dbs, evs, j - 1);
      assert Advances(dbs[j - 1], evs[j - 1], dbs[j]);
      StepKeepsEverything(dbs[j - 1], evs[j - 1].call, evs[j - 1].env);
      KeptIsTransitive(dbs[i], dbs[j - 1], dbs[j]);
    }
  }

  // ---- what a success and a replay mean on one database ----

  /** The result a code entitles to. */
  predicate CodeResult(r: ExchangeResult, row: CodeRow, session: SessionRow) {
    && r.session == row.session && r.userId == session.userId
    && r.clientId == row.grant.clientId && r.scopes == row.grant.scopes && r.resource == row.grant.resource
    && r.nonce == row.nonce && r.upstreamAuthTime == row.upstreamAuthTime
    && (r.refreshToken.Some? <==> row.issueRefresh)
  }

  lemma GrantedExchange(db: Db, q: CodeRequest, env: Env)
    requires PerformExchange(db, q, env).outcome.Granted?
    ensures q.code in db.codes && db.codes[q.code].consumedAt.None?
    ensures db.codes[q.code].session in db.sessions
    ensures var row := db.codes[q.code];
            var session := db.sessions[row.session];
            && env.clock.first < row.expiresAt
            && SessionLive(session, env.clock.first)
            && CodeResult(PerformExchange(db, q, env).outcome.result, row, session)
            && Apply(db, PerformExchange(db, q, env).effect).codes
               == db.codes[q.code := row.(consumedAt := Some(env.clock.first))]
  {
    hide CodeRequestGate, CodeBound, CodePolicy, CheckBinding, BoundResource;
  }

  predicate TokenResult(r: ExchangeResult, family: FamilyRow, session: SessionRow) {
    && r.session == family.session && r.userId == session.userId
    && r.clientId == family.clientId && r.scopes == family.scopes && r.resource == family.resource
    && r.nonce.None? && r.upstreamAuthTime == family.upstreamAuthTime
    && r.refreshToken.Some?
  }

  lemma GrantedRotation(db: Db, q: TokenRequest, env: Env)
    requires PerformRotate(db, q, env).outcome.Granted?
    ensures q.token in db.members && db.members[q.token].consumedAt.None? && db.members[q.token].family in db.families
    ensures db.families[db.members[q.token].family].session in db.sessions
    ensures var family := db.families[db.members[q.token].family];
            var session := db.sessions[family.session];
            && env.clock.first < family.expiresAt && family.revokedAt.None?
            && SessionLive(session, env.clock.first)
            && TokenResult(PerformRotate(db, q, env).outcome.result, family, session)
            && PerformRotate(db, q, env).effect == RotateToken(q.token, env.drawn.token, env.clock.first)
            && PerformRotate(db, q, env).outcome.result.refreshToken == Some(env.drawn.token)
  {
  }

  /** The presentation passes every binding and policy check the exchange makes before it looks
      whether the code was used. */
  predicate CodeChecksPass(q: CodeRequest, row: CodeRow, env: Env) {
    && CodeRequestGate(q, row, env).None?
    && CodeBound(q, BoundResource(q.via, row.grant.resource), row)
    && CodePolicy(q, row, env).None?
    && CheckBinding(q.via, q.clientId, row.grant.binding, env.at.e).None?
  }

  predicate TokenChecksPass(q: TokenRequest, family: FamilyRow, env: Env) {
    && TokenRequestGate(q, family).None?
    && TokenBound(q, family)
    && TokenPolicy(q, family, env).None?
    && CheckBinding(q.via, q.clientId, family.binding, env.at.c).None?
  }

  /** The session is neither revoked nor over. */
  predicate OpenAt(session: SessionRow, now: Time) {
    now < session.expiresAt && session.revokedAt.None?
  }

  // ---- what a presentation must satisfy ----

  /** A stored binding and the policy a registry now gives the client: equal, or both absent. */
  predicate SamePolicy(reg: Registry, clientId: string, stored: Option<Binding>) {
    stored == PresentBinding(reg, clientId)
  }

  /** An unreserved character of section 4.1 of RFC 7636. */
  predicate Unreserved(c: char) {
    'A' <= c <= 'Z' || 'a' <= c <= 'z' || '0' <= c <= '9' || c in "-._~"
  }

  /** A well-formed verifier whose digest is the challenge. */
  predicate ProvesKey(verifier: string, challenge: Challenge) {
    43 <= |verifier| <= 128 && (forall c | c in verifier :: Unreserved(c)) && challenge == Digest(verifier)
  }

  /** The same scopes, in any order, none of them named twice. */
  ghost predicate NamesTheScopes(named: seq<string>, scopes: seq<string>) {
    Distinct(named) && forall s :: s in named <==> s in scopes
  }

  /** Everything the presenter of a code must get right. */
  ghost predicate RightlyPresentedCode(q: CodeRequest, g: Grant) {
    && q.clientId == g.clientId
    && q.redirectUri == g.redirectUri
    && ProvesKey(q.verifier, g.challenge)
    && match q.via
       case Direct(resource) => resource == g.resource && g.binding.None?
       case Checked(resource, scopes, registry) =>
         && (resource.Some? ==> resource.value == g.resource)
         && (scopes.Some? ==> NamesTheScopes(scopes.value, g.scopes))
         && Distinct(g.scopes)
         && Acceptable(registry, g.clientId, g.redirectUri, g.challenge, g.scopes, g.resource)
  }

  /** The metadata lease of the request's registry, if it has one, holds at each of these instants. */
  predicate HoldsAt(via: Via, instants: set<Instant>) {
    via.Checked? ==> forall t | t in instants :: LeaseHolds(via.registry, t)
  }

  /** At the request entry point, the policy a grant was stored with is the present one. */
  predicate KeepsPolicy(via: Via, clientId: string, stored: Option<Binding>) {
    via.Checked? ==> SamePolicy(via.registry, clientId, stored)
  }

  /** A code is permitted: rightly presented, under the very policy it was stored with, and under a lease
      that holds at each of the five checks. */
  ghost predicate CodePermitted(q: CodeRequest, row: CodeRow, env: Env) {
    && RightlyPresentedCode(q, row.grant)
    && KeepsPolicy(q.via, row.grant.clientId, row.grant.binding)
    && HoldsAt(q.via, {env.at.a, env.at.b, env.at.c, env.at.d, env.at.e})
  }

  ghost predicate RightlyPresentedToken(q: TokenRequest, family: FamilyRow) {
    && q.clientId == family.clientId
    && match q.via
       case Direct(resource) => resource == family.resource && family.binding.None?
       case Checked(resource, scopes, registry) =>
         && (resource.Some? ==> resource.value == family.resource)
         && (scopes.Some? ==> NamesTheScopes(scopes.value, family.scopes))
         && MayRefresh(registry, family.clientId, family.scopes, family.resource)
  }

  ghost predicate TokenPermitted(q: TokenRequest, family: FamilyRow, env: Env) {
    && RightlyPresentedToken(q, family)
    && KeepsPolicy(q.via, family.clientId, family.binding)
    && HoldsAt(q.via, {env.at.a, env.at.b, env.at.c})
  }

  /** A binding check passes exactly if the lease holds and the binding is the present one; it speaks of
      the lease exactly if the lease has run out. */
  lemma BindingCheckIsExact(via: Via, clientId: string, stored: Option<Binding>, at: Instant)
    ensures CheckBinding(via, clientId, stored, at).None? <==>
            match via
            case Direct(_) => stored.None?
            case Checked(_, _, registry) =>
              LeaseHolds(registry, at) && clientId in registry.clients && SamePolicy(registry, clientId, stored)
    ensures CheckBinding(via, clientId, stored, at) == Some(MetadataExpired) <==>
            via.Checked? && !LeaseHolds(via.registry, at)
    ensures CheckBinding(via, clientId, stored, at) in {None, Some(MetadataExpired), Some(InvalidGrant)}
  {
    if via.Checked? {
      BindingsAreNeverConfused(via.registry, clientId, stored, at);
    }
  }

  lemma KeyCheckIsExact(verifier: string, challenge: Challenge)
    ensures VerifyS256(verifier, challenge) <==> ProvesKey(verifier, challenge)
  {
  }

  lemma ScopeCheckIsExact(named: seq<string>, scopes: seq<string>)
    ensures SameScopes(named, scopes) <==> NamesTheScopes(named, scopes)
  {
    CountingElements(named);
    assert forall s :: s in named <==> s in Elements(named);
    assert forall s :: s in scopes <==> s in Elements(scopes);
  }

  /** The checks an exchange makes, one after another and some of them twice, amount to this. */
  lemma CodeChecksAreExact(q: CodeRequest, row: CodeRow, env: Env)
    ensures CodeChecksPass(q, row, env) <==> CodePermitted(q, row, env)
  {
    hide ValidatePendingParts, CheckBinding, SamePolicy, VerifyS256, ProvesKey, SameScopes, NamesTheScopes, LeaseHolds,
         Distinct;
    var g := row.grant;
    KeyCheckIsExact(q.verifier, g.challenge);
    BindingCheckIsExact(q.via, q.clientId, g.binding, env.at.b);
    BindingCheckIsExact(q.via, q.clientId, g.binding, env.at.d);
    BindingCheckIsExact(q.via, q.clientId, g.binding, env.at.e);
    if q.via.Checked? {
      if q.via.scopes.Some? {
        ScopeCheckIsExact(q.via.scopes.value, g.scopes);
      }
      ValidationIsExact(q.via.registry, q.clientId, q.redirectUri, g.challenge, g.scopes, g.resource, env.at.a);
      ValidationIsExact(q.via.registry, q.clientId, q.redirectUri, g.challenge, g.scopes, g.resource, env.at.c);
    }
  }

  lemma TokenChecksAreExact(q: TokenRequest, family: FamilyRow, env: Env)
    ensures TokenChecksPass(q, family, env) <==> TokenPermitted(q, family, env)
  {
    hide CheckBinding, SamePolicy, SameScopes, NamesTheScopes, PermitsRefresh, MayRefresh, LeaseHolds;
    BindingCheckIsExact(q.via, q.clientId, family.binding, env.at.a);
    BindingCheckIsExact(q.via, q.clientId, family.binding, env.at.b);
    BindingCheckIsExact(q.via, q.clientId, family.binding, env.at.c);
    if q.via.Checked? {
      if q.via.scopes.Some? {
        ScopeCheckIsExact(q.via.scopes.value, family.scopes);
      }
      RefreshCheckIsExact(q.via.registry, q.clientId, family.scopes, family.resource);
      if MayRefresh(q.via.registry, q.clientId, family.scopes, family.resource) {
        MayRefreshKnows(q.via.registry, q.clientId, family.scopes, family.resource);
      }
    }
  }

  lemma MayRefreshKnows(reg: Registry, clientId: string, scopes: seq<string>, resource: string)
    requires MayRefresh(reg, clientId, scopes, resource)
    ensures clientId in reg.clients
  {
  }

  lemma ReplayedCode(db: Db, q: CodeRequest, env: Env)
    requires q.code in db.codes && db.codes[q.code].session in db.sessions && db.codes[q.code].consumedAt.Some?
    requires CodeChecksPass(q, db.codes[q.code], env)
    ensures PerformExchange(db, q, env) == Decision(RevokeSource(q.code, env.clock.first), Rejected(InvalidGrant))
  {
  }

  lemma ReplayedToken(db: Db, q: TokenRequest, env: Env)
    requires q.token in db.members && db.members[q.token].family in db.families
    requires db.families[db.members[q.token].family].session in db.sessions && db.members[q.token].consumedAt.Some?
    requires TokenChecksPass(q, db.families[db.members[q.token].family], env)
    ensures PerformRotate(db, q, env) ==
            Decision(RevokeFamily(db.members[q.token].family, env.clock.first), Rejected(InvalidGrant))
  {
  }

  /** A presented code obtains tokens exactly if it is stored, passes every binding and policy check,
      is unused, and it and its session are live; it ends its descendants exactly if it passes the
      same checks and was used, live or not.  Anything else fails and writes nothing. */
  lemma ExchangeIsDecidedExactly(db: Db, q: CodeRequest, env: Env)
    ensures var d := PerformExchange(db, q, env);
            var now := env.clock.first;
            var checked := q.code in db.codes && db.codes[q.code].session in db.sessions
              && CodePermitted(q, db.codes[q.code], env);
            && (d.outcome.Granted? <==>
                  checked && db.codes[q.code].consumedAt.None? && now < db.codes[q.code].expiresAt
                  && OpenAt(db.sessions[db.codes[q.code].session], now))
            && (d.effect.RevokeSource? <==> checked && db.codes[q.code].consumedAt.Some?)
            && (!d.outcome.Granted? ==> d.outcome.Rejected?)
            && (d.effect == NoEffect <==> !d.outcome.Granted? && !d.effect.RevokeSource?)
  {
    hide CodeRequestGate, CodeBound, CodePolicy, CheckBinding, BoundResource, CodePermitted;
    if q.code in db.codes {
      CodeChecksAreExact(q, db.codes[q.code], env);
    }
  }

  /** The same for a presented refresh token and its family. */
  lemma RotationIsDecidedExactly(db: Db, q: TokenRequest, env: Env)
    ensures var d := PerformRotate(db, q, env);
            var now := env.clock.first;
            var checked := && q.token in db.members && db.members[q.token].family in db.families
                           && db.families[db.members[q.token].family].session in db.sessions
                           && TokenPermitted(q, db.families[db.members[q.token].family], env);
            && (d.outcome.Granted? <==>
                  checked && db.members[q.token].consumedAt.None?
                  && var family := db.families[db.members[q.token].family];
                     family.revokedAt.None? && now < family.expiresAt && OpenAt(db.sessions[family.session], now))
            && (d.effect.RevokeFamily? <==> checked && db.members[q.token].consumedAt.Some?)
            && (!d.outcome.Granted? ==> d.outcome.Rejected?)
            && (d.effect == NoEffect <==> !d.outcome.Granted? && !d.effect.RevokeFamily?)
  {
    hide TokenRequestGate, TokenBound, TokenPolicy, CheckBinding, BoundResource, TokenPermitted;
    if q.token in db.members && db.members[q.token].family in db.families {
      TokenChecksAreExact(q, db.families[db.members[q.token].family], env);
    }
  }

  lemma EventExchange(db: Db, ev: Event, after: Db)
    requires ev.call.Exchange? && Advances(db, ev, after)
    ensures Perform(db, ev.call, ev.env) == PerformExchange(db, ev.call.code, ev.env)
    ensures OutcomeOf(db, ev) == PerformExchange(db, ev.call.code, ev.env).outcome
    ensures after == Apply(db, PerformExchange(db, ev.call.code, ev.env).effect)
  {
    hide PerformExchange, Apply;
  }

  lemma EventRotate(db: Db, ev: Event, after: Db)
    requires ev.call.Rotate? && Advances(db, ev, after)
    ensures Perform(db, ev.call, ev.env) == PerformRotate(db, ev.call.token, ev.env)
    ensures OutcomeOf(db, ev) == PerformRotate(db, ev.call.token, ev.env).outcome
    ensures after == Apply(db, PerformRotate(db, ev.call.token, ev.env).effect)
  {
    hide PerformRotate, Apply;
  }

  // ---- authorization codes are used once ----

  ghost predicate ExchangesCode(db: Db, ev: Event, code: Id) {
    ev.call.Exchange? && ev.call.code.code == code && OutcomeOf(db, ev).Granted?
  }

  /** In any run, a code is exchanged successfully at most once. */
  lemma CodeIsExchangedAtMostOnce(dbs: seq<Db>, evs: seq<Event>, code: Id, i: nat, j: nat)
    requires Run(dbs, evs) && i < |evs| && j < |evs|
    requires ExchangesCode(dbs[i], evs[i], code) && ExchangesCode(dbs[j], evs[j], code)
    ensures i == j
  {
    hide Valid, Admissible, Step, Perform, PerformExchange, Apply;
    if i < j {
      CodeStaysConsumed(dbs, evs, code, i, j);
      EventExchange(dbs[j], evs[j], dbs[j + 1]);
      GrantedExchange(dbs[j], evs[j].call.code, evs[j].env);
    } else if j < i {
      CodeStaysConsumed(dbs, evs, code, j, i);
      EventExchange(dbs[i], evs[i], dbs[i + 1]);
      GrantedExchange(dbs[i], evs[i].call.code, evs[i].env);
    }
  }

  lemma CodeStaysConsumed(dbs: seq<Db>, evs: seq<Event>, code: Id, i: nat, j: nat)
    requires Run(dbs, evs) && i < j < |dbs| && ExchangesCode(dbs[i], evs[i], code)
    ensures code in dbs[j].codes && dbs[j].codes[code].consumedAt == Some(evs[i].env.clock.first)
  {
    hide Valid, Admissible, Step, Perform, PerformExchange, Apply;
    assert Advances(dbs[i], evs[i], dbs[i + 1]);
    EventExchange(dbs[i], evs[i], dbs[i + 1]);
    GrantedExchange(dbs[i], evs[i].call.code, evs[i].env);
    RunLosesNothing(dbs, evs, i + 1, j);
  }

  /** Every family that descends from the code is revoked. */
  ghost predicate DescendantsRevoked(db: Db, code: Id) {
    forall f | f in db.families && db.families[f].sourceCode == code :: db.families[f].revokedAt.Some?
  }

  lemma RevokeSourceRevokesDescendants(db: Db, code: Id, at: Time)
    ensures DescendantsRevoked(Apply(db, RevokeSource(code, at)), code)
    ensures Apply(db, RevokeSource(code, at)).codes == db.codes
  {
  }

  lemma RevokedDescendantsStayRevoked(a: Db, b: Db, code: Id)
    requires SourcesOk(a.families, a.codes) && SourcesOk(b.families, b.codes)
    requires FamiliesOk(b.families, b.codes, b.sessions)
    requires FamiliesKept(a.families, b.families) && CodesKept(a.codes, b.codes)
    requires code in a.codes && a.codes[code].consumedAt.Some? && DescendantsRevoked(a, code)
    ensures DescendantsRevoked(b, code)
  {
    forall g | g in b.families && b.families[g].sourceCode == code ensures b.families[g].revokedAt.Some? {
      assert FamilyOk(b.families[g], b.codes[code], b.sessions[b.families[g].session]);
      assert CodeKept(a.codes[code], b.codes[code]);
      var f :| f in a.families && a.families[f].sourceCode == code;
      assert FamilyKept(a.families[f], b.families[f]);
      assert f == g;
    }
  }

  /** Presenting a used code again, with the right client, redirect, resource, proof key and policy,
      fails and makes every refresh token that descends from the code unusable for ever: in all later
      states every descending family is revoked, so none of its members is ever rotated. */
  lemma CodeReplayEndsItsDescendants(dbs: seq<Db>, evs: seq<Event>, code: Id, i: nat, k: nat)
    requires Run(dbs, evs) && i < |evs| && i < k < |dbs|
    requires evs[i].call.Exchange? && evs[i].call.code.code == code
    requires code in dbs[i].codes && dbs[i].codes[code].consumedAt.Some?
    requires CodePermitted(evs[i].call.code, dbs[i].codes[code], evs[i].env)
    ensures OutcomeOf(dbs[i], evs[i]) == Rejected(InvalidGrant)
    ensures DescendantsRevoked(dbs[k], code)
    ensures k < |evs| ==> forall f | f in dbs[k].families && dbs[k].families[f].sourceCode == code ::
                            !RotatesIn(dbs[k], evs[k], f)
  {
    hide Admissible, Step, Apply, Perform, PerformExchange, PerformRotate, CodeChecksPass, CodePermitted,
         DescendantsRevoked, SessionsOk, SourcesOk, FamiliesOk, ChainsOk, BrowsersOk, OriginsOk, ChallengesOk,
         MembersOk, IdentitiesOk, RotatesIn, Kept;
    RunStaysValid(dbs, evs, i);
    RunStaysValid(dbs, evs, i + 1);
    RunStaysValid(dbs, evs, k);
    assert Advances(dbs[i], evs[i], dbs[i + 1]);
    EventExchange(dbs[i], evs[i], dbs[i + 1]);
    CodeChecksAreExact(evs[i].call.code, dbs[i].codes[code], evs[i].env);
    ReplayedCode(dbs[i], evs[i].call.code, evs[i].env);
    RevokeSourceRevokesDescendants(dbs[i], code, evs[i].env.clock.first);
    RunLosesNothing(dbs, evs, i + 1, k);
    RevokedDescendantsLater(dbs[i + 1], dbs[k], code);
    forall f | k < |evs| && f in dbs[k].families && dbs[k].families[f].sourceCode == code
      ensures !RotatesIn(dbs[k], evs[k], f)
    {
      RevokedDescendantIsRevoked(dbs[k], code, f);
      RevokedFamilyIsNotRotated(dbs, evs, f, k);
    }
  }

  lemma RevokedDescendantIsRevoked(db: Db, code: Id, f: Id)
    requires DescendantsRevoked(db, code) && f in db.families && db.families[f].sourceCode == code
    ensures db.families[f].revokedAt.Some?
  {
  }

  lemma RevokedDescendantsLater(a: Db, b: Db, code: Id)
    requires Valid(a) && Valid(b) && Kept(a, b)
    requires code in a.codes && a.codes[code].consumedAt.Some? && DescendantsRevoked(a, code)
    ensures DescendantsRevoked(b, code)
  {
    hide SourcesOk, FamiliesOk, ChainsOk, BrowsersOk, OriginsOk, ChallengesOk, MembersOk, IdentitiesOk, SessionsOk,
         CodesOk, FamiliesKept, CodesKept, DescendantsRevoked;
    RevokedDescendantsStayRevoked(a, b, code);
  }

  // ---- refresh tokens are used once ----

  ghost predicate RotatesToken(db: Db, ev: Event, token: Id) {
    ev.call.Rotate? && ev.call.token.token == token && OutcomeOf(db, ev).Granted?
  }

  /** The event rotates some member of the family. */
  ghost predicate RotatesIn(db: Db, ev: Event, family: Id) {
    ev.call.Rotate? && OutcomeOf(db, ev).Granted?
    && ev.call.token.token in db.members && db.members[ev.call.token.token].family == family
  }

  lemma RevokedFamilyIsNotRotated(dbs: seq<Db>, evs: seq<Event>, family: Id, k: nat)
    requires Run(dbs, evs) && k < |evs|
    requires family in dbs[k].families && dbs[k].families[family].revokedAt.Some?
    ensures !RotatesIn(dbs[k], evs[k], family)
  {
    hide Valid, Admissible, Step, Perform, PerformRotate, Apply;
    if RotatesIn(dbs[k], evs[k], family) {
      assert Advances(dbs[k], evs[k], dbs[k + 1]);
      EventRotate(dbs[k], evs[k], dbs[k + 1]);
      GrantedRotation(dbs[k], evs[k].call.token, evs[k].env);
    }
  }

  lemma TokenStaysConsumed(dbs: seq<Db>, evs: seq<Event>, token: Id, i: nat, j: nat)
    requires Run(dbs, evs) && i < j < |dbs| && RotatesToken(dbs[i], evs[i], token)
    ensures token in dbs[i].members
    ensures token in dbs[j].members && dbs[j].members[token].consumedAt == Some(evs[i].env.clock.first)
    ensures dbs[j].members[token].successor == Some(evs[i].env.drawn.token)
    ensures dbs[j].members[token].family == dbs[i].members[token].family
  {
    hide Valid, Admissible, Step, Perform, PerformRotate;
    assert Advances(dbs[i], evs[i], dbs[i + 1]);
    EventRotate(dbs[i], evs[i], dbs[i + 1]);
    GrantedRotation(dbs[i], evs[i].call.token, evs[i].env);
    RunLosesNothing(dbs, evs, i, i + 1);
    RunLosesNothing(dbs, evs, i + 1, j);
    assert MemberKept(dbs[i].members[token], dbs[i + 1].members[token]);
    assert MemberKept(dbs[i + 1].members[token], dbs[j].members[token]);
  }

  /** In any run, a refresh token is rotated successfully at most once. */
  lemma TokenIsRotatedAtMostOnce(dbs: seq<Db>, evs: seq<Event>, token: Id, i: nat, j: nat)
    requires Run(dbs, evs) && i < |evs| && j < |evs|
    requires RotatesToken(dbs[i], evs[i], token) && RotatesToken(dbs[j], evs[j], token)
    ensures i == j
  {
    hide Valid, Admissible, Step, Perform, PerformRotate, Apply;
    if i < j {
      TokenStaysConsumed(dbs, evs, token, i, j);
      EventRotate(dbs[j], evs[j], dbs[j + 1]);
      GrantedRotation(dbs[j], evs[j].call.token, evs[j].env);
    } else if j < i {
      TokenStaysConsumed(dbs, evs, token, j, i);
      EventRotate(dbs[i], evs[i], dbs[i + 1]);
      GrantedRotation(dbs[i], evs[i].call.token, evs[i].env);
    }
  }

  /** Once a token has been rotated, any later presentation of it that passes the binding and policy
      checks fails and revokes the family, and then no member of that family, existing or future, is
      ever rotated again. */
  lemma TokenReplayEndsTheFamily(dbs: seq<Db>, evs: seq<Event>, token: Id, i: nat, j: nat, k: nat)
    requires Run(dbs, evs) && i < j < |evs| && j < k < |dbs|
    requires RotatesToken(dbs[i], evs[i], token)
    requires evs[j].call.Rotate? && evs[j].call.token.token == token
    requires token in dbs[j].members && dbs[j].members[token].family in dbs[j].families
    requires TokenPermitted(evs[j].call.token, dbs[j].families[dbs[j].members[token].family], evs[j].env)
    ensures var family := dbs[j].members[token].family;
            && OutcomeOf(dbs[j], evs[j]) == Rejected(InvalidGrant)
            && family in dbs[k].families && dbs[k].families[family].revokedAt.Some?
            && (k < |evs| ==> !RotatesIn(dbs[k], evs[k], family))
  {
    hide Admissible, Step, Perform, PerformRotate, TokenChecksPass, TokenPermitted, ChainsOk, BrowsersOk, OriginsOk,
         ChallengesOk, MembersOk, IdentitiesOk, SessionsOk, SourcesOk, CodesOk;
    var family := dbs[j].members[token].family;
    TokenStaysConsumed(dbs, evs, token, i, j);
    RunStaysValid(dbs, evs, j);
    assert FamilyOk(dbs[j].families[family], dbs[j].codes[dbs[j].families[family].sourceCode],
                    dbs[j].sessions[dbs[j].families[family].session]);
    assert Advances(dbs[j], evs[j], dbs[j + 1]);
    EventRotate(dbs[j], evs[j], dbs[j + 1]);
    TokenChecksAreExact(evs[j].call.token, dbs[j].families[family], evs[j].env);
    ReplayedToken(dbs[j], evs[j].call.token, evs[j].env);
    assert dbs[j + 1].families[family].revokedAt.Some?;
    RunLosesNothing(dbs, evs, j + 1, k);
    assert FamilyKept(dbs[j + 1].families[family], dbs[k].families[family]);
    if k < |evs| {
      RevokedFamilyIsNotRotated(dbs, evs, family, k);
    }
  }

  // ---- bindings ----

  /** A code presented with a wrong client, redirect, resource, scope list or proof key, or against
      the present policy, obtains nothing and changes nothing: it is not replay evidence. */
  lemma WronglyPresentedCodesChangeNothing(db: Db, q: CodeRequest, env: Env)
    requires q.code in db.codes && !RightlyPresentedCode(q, db.codes[q.code].grant)
    ensures PerformExchange(db, q, env).effect == NoEffect && PerformExchange(db, q, env).outcome.Rejected?
  {
    hide PerformExchange, RightlyPresentedCode, OpenAt;
    ExchangeIsDecidedExactly(db, q, env);
  }

  /** The same for a refresh token: a wrong presentation never revokes anybody's family. */
  lemma WronglyPresentedTokensChangeNothing(db: Db, q: TokenRequest, env: Env)
    requires q.token in db.members && db.members[q.token].family in db.families
    requires !RightlyPresentedToken(q, db.families[db.members[q.token].family])
    ensures PerformRotate(db, q, env).effect == NoEffect && PerformRotate(db, q, env).outcome.Rejected?
  {
    hide PerformRotate, RightlyPresentedToken, OpenAt;
    RotationIsDecidedExactly(db, q, env);
  }

  lemma RevocationPerforms(db: Db, token: Id, clientId: string, env: Env)
    ensures Perform(db, RevokeRefresh(token, clientId), env) == PerformRevoke(db, token, clientId, env)
  {
    hide PerformRevoke;
  }

  lemma RevocationDecides(db: Db, token: Id, clientId: string, env: Env)
    requires token in db.members && db.members[token].family in db.families
    ensures var family := db.members[token].family;
            var out := Step(db, RevokeRefresh(token, clientId), env);
            && family in out.families
            && (if db.families[family].clientId == clientId then out.families[family].revokedAt.Some? else out == db)
            && (forall other | other in db.families && other != family ::
                  other in out.families && out.families[other] == db.families[other])
  {
    hide Perform;
    RevocationPerforms(db, token, clientId, env);
  }

  /** Revocation by the token's own client ends its family for ever; by any other client it changes
      nothing.  Both are acknowledged alike. */
  lemma RevocationIsFinal(dbs: seq<Db>, evs: seq<Event>, i: nat, k: nat)
    requires Run(dbs, evs) && i < |evs| && i < k < |dbs| && evs[i].call.RevokeRefresh?
    requires evs[i].call.tokenId in dbs[i].members && dbs[i].members[evs[i].call.tokenId].family in dbs[i].families
    ensures var family := dbs[i].members[evs[i].call.tokenId].family;
            && OutcomeOf(dbs[i], evs[i]) == Acknowledged
            && (if dbs[i].families[family].clientId == evs[i].call.clientId
                then family in dbs[k].families && dbs[k].families[family].revokedAt.Some?
                     && (k < |evs| ==> !RotatesIn(dbs[k], evs[k], family))
                else dbs[i + 1] == dbs[i])
  {
    hide Valid, Admissible, Step, RotatesIn, SessionsKept, CodesKept, MembersKept, ChallengesKept, BrowsersKept,
         IdentitiesKept, OriginsKept;
    var call := evs[i].call;
    var family := dbs[i].members[call.tokenId].family;
    RevocationIsAcknowledged(dbs[i], evs[i]);
    assert Advances(dbs[i], evs[i], dbs[i + 1]);
    RevocationDecides(dbs[i], call.tokenId, call.clientId, evs[i].env);
    if dbs[i].families[family].clientId == call.clientId {
      RunLosesNothing(dbs, evs, i + 1, k);
      assert FamilyKept(dbs[i + 1].families[family], dbs[k].families[family]);
      if k < |evs| {
        RevokedFamilyIsNotRotated(dbs, evs, family, k);
      }
    }
  }

  lemma RevocationIsAcknowledged(db: Db, ev: Event)
    requires ev.call.RevokeRefresh?
    ensures OutcomeOf(db, ev) == Acknowledged
  {
  }
}
