/** What completed callbacks and consent answer, exactly: the handle a browser gets opens the row that waits
    for it, a code is issued when and only when it may be, and the client hears what the request recorded. */
module ConsentAnswers {
  import opened Prelude
  import opened Ordering
  import opened Redirects
  import opened Policy
  import opened Tables
  import opened Invariants
  import opened Operations
  import opened Steps
  import opened Runs
  import opened Tasks
  import opened SessionAnswers
  import opened BrowserAnswers
  import BrowserTransactions

  // ---- completion ----

  /** The user is the one linked to the subject, or a new one. */
  predicate IsUserOf(db: Db, subject: string, user: Id) {
    if subject in db.identities then db.identities[subject] == user else user !in db.users
  }

  /** Identity, profile and session written, and the row left waiting for consent on `csrf`. */
  ghost predicate CompletesLogin(before: Db, after: Db, call: Call, id: Id, now: Time, s: Id, expiresAt: Time, csrf: Id)
    requires call.CompleteCallback? && id in before.browsers
  {
    && s !in before.sessions && s in after.sessions
    && var user := after.sessions[s].userId;
       && IsUserOf(before, call.identity.subject, user)
       && expiresAt == now + call.lifetime.seconds * 1_000_000
       && after == before.(
            sessions := before.sessions[s := SessionRow(user, now, expiresAt, None, call.identity.authTime)],
            users := before.users + {user},
            identities := before.identities[call.identity.subject := user],
            profiles := before.profiles[user := call.identity.profile.(updatedAt := now)],
            browsers := before.browsers[id :=
              before.browsers[id].(stage := AwaitingConsent, session := Some(s), csrf := Some(csrf), claim := None)])
  }

  /** A callback, once its row and its user are known. */
  lemma CompletionDecides(id: Id, row: BrowserRow, call: Call, user: Id, env: Env)
    requires call.CompleteCallback? && Sorted(row.request.grant.scopes)
    ensures var d := DecideComplete(id, row, call.identity, call.lifetime, call.optional, user, env);
            var accepts := PolicyAccepts(call.optional, row.request.grant);
            var early := HoldsFor(call.optional, {env.at.a, env.at.b, env.at.c, env.at.d});
            var late := HoldsFor(call.optional, {env.at.e, env.at.f, env.at.g, env.at.h});
            if !(accepts && early) then d.effect == NoEffect && RefusedByPolicy(d.outcome, accepts, early)
            else if row.request.expiresAt <= env.clock.second then
              d == Decision(MoveBrowser(id, row.(stage := Expired)), Rejected(BrowserInvalid))
            else if !late then d == Decision(NoEffect, Rejected(MetadataExpired))
            else
              && d.outcome == LoggedIn(env.drawn.row, env.clock.first + call.lifetime.seconds * 1_000_000, id,
                                       env.drawn.secret)
              && d.effect == LoginBrowser(id, env.drawn.secret, env.drawn.row,
                   SessionRow(user, env.clock.first, env.clock.first + call.lifetime.seconds * 1_000_000, None,
                              call.identity.authTime),
                   call.identity.subject, call.identity.profile.(updatedAt := env.clock.first))
  {
    hide ValidateOptional, PolicyAccepts, HoldsFor;
    ValidationAnswers(call.optional, row.request, env.at.a, env.at.b);
    ValidationAnswers(call.optional, row.request, env.at.c, env.at.d);
    ValidationAnswers(call.optional, row.request, env.at.e, env.at.f);
    ValidationAnswers(call.optional, row.request, env.at.g, env.at.h);
    HoldsForBoth(call.optional, env.at.a, env.at.b, env.at.c, env.at.d);
    HoldsForBoth(call.optional, env.at.e, env.at.f, env.at.g, env.at.h);
  }

  lemma LoginApplies(db: Db, call: Call, id: Id, env: Env)
    requires call.CompleteCallback? && id in db.browsers && Fresh(db, env.drawn)
    ensures var user := UserFor(db.identities, call.identity.subject, env.drawn.user);
            var expiresAt := env.clock.first + call.lifetime.seconds * 1_000_000;
            var after := Apply(db, LoginBrowser(id, env.drawn.secret, env.drawn.row,
                                     SessionRow(user, env.clock.first, expiresAt, None, call.identity.authTime),
                                     call.identity.subject, call.identity.profile.(updatedAt := env.clock.first)));
            && CompletesLogin(db, after, call, id, env.clock.first, env.drawn.row, expiresAt, env.drawn.secret)
            && WaitsForConsent(after, env.drawn.row, id, env.drawn.secret)
  {
  }

  lemma CompletionRefuses(db: Db, call: Call, env: Env)
    requires call.CompleteCallback? && !WholeSeconds(call.lifetime, 30 * 24 * 60 * 60)
    ensures Perform(db, call, env) == Decision(NoEffect, Rejected(BrowserInvalid))
  {
    hide Perform;
    BrowserTransactions.CompleteAlone(db, call.claim, call.identity, call.lifetime, call.optional, env);
  }

  lemma CompletionPerforms(db: Db, call: Call, id: Id, env: Env)
    requires BrowsersOk(db.browsers, db.sessions)
    requires call.CompleteCallback? && id in db.browsers && IsClaimed(db.browsers[id], call.claim)
    requires WholeSeconds(call.lifetime, 30 * 24 * 60 * 60)
    ensures Perform(db, call, env) ==
            DecideComplete(id, db.browsers[id], call.identity, call.lifetime, call.optional,
                           UserFor(db.identities, call.identity.subject, env.drawn.user), env)
  {
    hide Perform, FindClaim, BrowsersOk, DecideComplete;
    BrowserTransactions.CompleteAlone(db, call.claim, call.identity, call.lifetime, call.optional, env);
    SecretsSelectOneRow(db, id, call.claim, 0, 0);
  }

  /** The row under a claim logs its user in exactly in time, under a policy that accepts it and a lease that
      holds at all eight checks.  The session, its end and the consent handle that are handed out are those
      of the new session and of this row, which waits for exactly that handle.  If policy refuses, nothing is
      written; if only time has run out, the row expires. */
  lemma CallbacksCompleteExactly(db: Db, call: Call, id: Id, env: Env)
    requires BrowsersOk(db.browsers, db.sessions) && Fresh(db, env.drawn)
    requires call.CompleteCallback? && id in db.browsers && IsClaimed(db.browsers[id], call.claim)
    ensures var outcome, after := Perform(db, call, env).outcome, Step(db, call, env);
            var row := db.browsers[id];
            var accepts := PolicyAccepts(call.optional, row.request.grant);
            var early := HoldsFor(call.optional, {env.at.a, env.at.b, env.at.c, env.at.d});
            var late := HoldsFor(call.optional, {env.at.e, env.at.f, env.at.g, env.at.h});
            if !WholeSeconds(call.lifetime, 30 * 24 * 60 * 60) then outcome == Rejected(BrowserInvalid) && after == db
            else if !(accepts && early) then RefusedByPolicy(outcome, accepts, early) && after == db
            else if row.request.expiresAt <= env.clock.second then
              outcome == Rejected(BrowserInvalid) && after == db.(browsers := db.browsers[id := row.(stage := Expired)])
            else if !late then outcome == Rejected(MetadataExpired) && after == db
            else
              && outcome.LoggedIn? && outcome.browser == id
              && WaitsForConsent(after, outcome.id, outcome.browser, outcome.csrf)
              && CompletesLogin(db, after, call, id, env.clock.first, outcome.id, outcome.expiresAt, outcome.csrf)
  {
    hide Perform, Apply, PolicyAccepts, HoldsFor, DecideComplete, CompletesLogin, WaitsForConsent, Fresh;
    NothingHappens(db);
    ExpiryApplies(db, id);
    assert Sorted(db.browsers[id].request.grant.scopes) by {
      assert BrowserOk(db.browsers[id]);
    }
    if WholeSeconds(call.lifetime, 30 * 24 * 60 * 60) {
      CompletionPerforms(db, call, id, env);
      CompletionDecides(id, db.browsers[id], call, UserFor(db.identities, call.identity.subject, env.drawn.user), env);
      LoginApplies(db, call, id, env);
    } else {
      CompletionRefuses(db, call, env);
    }
  }

  lemma ExpiryApplies(db: Db, id: Id)
    requires id in db.browsers
    ensures Apply(db, MoveBrowser(id, db.browsers[id].(stage := Expired))) ==
            db.(browsers := db.browsers[id := db.browsers[id].(stage := Expired)])
  {
  }

  /** A subject keeps its user and a new one gets a new user; a profile, if there is one, is stored. */
  lemma SubjectsAreLinkedExactly(db: Db, subject: string, profile: Option<Profile>, env: Env)
    requires Fresh(db, env.drawn)
    ensures var outcome := Perform(db, LinkIdentity(subject, profile), env).outcome;
            && outcome.UserLinked? && IsUserOf(db, subject, outcome.userId)
            && Step(db, LinkIdentity(subject, profile), env) == db.(
                 users := db.users + {outcome.userId},
                 identities := db.identities[subject := outcome.userId],
                 profiles := if profile.None? then db.profiles
                             else db.profiles[outcome.userId := profile.value.(updatedAt := env.clock.first)])
  {
  }

  // ---- consent ----

  /** The row waits for this session and secret, it is in time, and the session is open. */
  predicate ConsentStands(db: Db, q: ConsentRequest, now: Time) {
    HasOpenSession(db, q.session, now) && WaitsForConsent(db, q.session, q.browser, q.csrf)
    && now < db.browsers[q.browser].request.expiresAt
  }

  /** The code is new and is all that is issued: it repeats the request, belongs to the session, lasts a
      minute or as long as the session, and its row is closed. */
  ghost predicate IssuesCode(before: Db, after: Db, q: ConsentRequest, code: Id, at: Time)
    requires q.browser in before.browsers && q.session in before.sessions
  {
    var row, session := before.browsers[q.browser], before.sessions[q.session];
    && code !in before.codes
    && after == before.(
         browsers := before.browsers[q.browser := row.(stage := Approved, csrf := None)],
         codes := before.codes[code :=
           CodeRow(q.session, row.request.grant, "offline_access" in row.request.grant.scopes, row.request.nonce,
                   session.upstreamAuthTime, at, Min(at + 60 * 1_000_000, session.expiresAt), None)],
         origins := before.origins[code := q.browser])
  }

  lemma ConsentPerforms(db: Db, call: Call, env: Env)
    requires IsConsentCall(call)
    ensures var q := call.consentRequest;
            Perform(db, call, env) ==
            if q.session in db.sessions && WaitsForConsent(db, q.session, q.browser, q.csrf)
            then DecideConsent(call, db.browsers[q.browser], db.sessions[q.session], env)
            else Reject(BrowserInvalid)
  {
    hide DecideConsent;
  }

  lemma ApprovalApplies(db: Db, q: ConsentRequest, pending: Pending, issueRefresh: bool, env: Env)
    requires Fresh(db, env.drawn) && q.session in db.sessions && q.browser in db.browsers
    requires pending.Stored() == db.browsers[q.browser].request.grant
    requires issueRefresh == ("offline_access" in pending.scopes)
    ensures var row, session := db.browsers[q.browser], db.sessions[q.session];
            IssuesCode(db,
                       Apply(db, ApproveBrowser(q.browser, env.drawn.row,
                                   CodeFrom(q.session, session, pending.Stored(), issueRefresh, row.request.nonce,
                                            CODE_SECONDS, env.clock.second))),
                       q, env.drawn.row, env.clock.second)
  {
  }

  /** The lease holds at all checks of an approval; the middle one concerns the request's own document. */
  predicate HoldsForApproval(reg: Registry, clientId: string, at: Ticks) {
    HoldsFor(Some(reg), {at.a, at.b, at.d, at.e}) && (IsDocumentClient(reg, clientId) ==> LeaseHolds(reg, at.c))
  }

  lemma ApprovalDecides(db: Db, q: ConsentRequest, reg: Registry, env: Env)
    requires Fresh(db, env.drawn) && q.session in db.sessions && q.browser in db.browsers
    requires Sorted(db.browsers[q.browser].request.grant.scopes)
    ensures var row, session := db.browsers[q.browser], db.sessions[q.session];
            var d := DecideApprove(q, row, session, reg, env);
            var accepts := PolicyAccepts(Some(reg), row.request.grant);
            var holds := HoldsForApproval(reg, row.request.grant.clientId, env.at);
            if !(env.clock.first < row.request.expiresAt && OpenAt(session, env.clock.first)) then
              d == Decision(NoEffect, Rejected(BrowserInvalid))
            else if accepts && holds then
              && d.outcome.ConsentGiven? && d.outcome.redirectUri == row.request.grant.redirectUri
              && d.outcome.state == row.request.state
              && IssuesCode(db, Apply(db, d.effect), q, d.outcome.code, env.clock.second)
            else d.effect == NoEffect && RefusedByPolicy(d.outcome, accepts, holds)
  {
    hide Revalidate, PolicyAccepts, HoldsFor, LeaseHolds, Apply, IssuesCode, CodeFrom, Fresh, Approve;
    var row := db.browsers[q.browser];
    RevalidationAnswers(reg, row.request, env.at.a, env.at.b);
    RevalidationAnswers(reg, row.request, env.at.d, env.at.e);
    HoldsForBoth(Some(reg), env.at.a, env.at.b, env.at.d, env.at.e);
    var pending := Revalidate(reg, row.request, env.at.a, env.at.b);
    if pending.Ok? {
      ApprovalIsExact(pending.value, true, env.at.c);
      DocumentLease(reg, row.request.grant.clientId, env.at.c);
      ApprovalApplies(db, q, pending.value, "offline_access" in pending.value.scopes, env);
    }
  }

  lemma DocumentLease(reg: Registry, clientId: string, at: Instant)
    ensures IsDocumentClient(reg, clientId) ==> (LeaseHolds(reg, at) <==> at < reg.dynamic.value.lease.validUntil)
  {
  }

  /** With consent, a code is issued exactly to the session and secret the row waits for, in time, under a
      policy that accepts it and a lease that holds throughout; the client hears of it at the redirect and
      with the state it sent. */
  lemma ApprovalsExactly(db: Db, q: ConsentRequest, reg: Registry, env: Env)
    requires BrowsersOk(db.browsers, db.sessions) && Fresh(db, env.drawn)
    ensures var call := ApproveConsent(q, reg);
            var outcome, after := Perform(db, call, env).outcome, Step(db, call, env);
            if !ConsentStands(db, q, env.clock.first) then outcome == Rejected(BrowserInvalid) && after == db
            else
              var row := db.browsers[q.browser];
              var accepts := PolicyAccepts(Some(reg), row.request.grant);
              var holds := HoldsForApproval(reg, row.request.grant.clientId, env.at);
              if accepts && holds then
                && outcome.ConsentGiven? && outcome.redirectUri == row.request.grant.redirectUri
                && outcome.state == row.request.state
                && IssuesCode(db, after, q, outcome.code, env.clock.second)
              else RefusedByPolicy(outcome, accepts, holds) && after == db
  {
    hide Perform, Apply, PolicyAccepts, HoldsForApproval, DecideApprove, IssuesCode, Fresh;
    NothingHappens(db);
    ConsentPerforms(db, ApproveConsent(q, reg), env);
    if q.session in db.sessions && q.browser in db.browsers {
      assert BrowserOk(db.browsers[q.browser]);
      ApprovalDecides(db, q, reg, env);
    }
  }

  /** The transaction may do without consent: it says so itself, and a registry without any document client
      has its client pre-authorized, with this very redirect claimed by the app, and with the resource and
      the scopes among the client's own. */
  predicate MaySkipConsent(reg: RegistryData, request: Request) {
    && request.allowPreAuthorization
    && reg.dynamic.None?
    && request.grant.clientId in reg.clients
    && var client := reg.clients[request.grant.clientId];
       && client.authorizationFlow == GooglePreauthorized
       && (exists r | r in client.redirects :: r.kind == AppClaimedHttps && r.uri == request.grant.redirectUri)
       && request.grant.resource in client.resources
       && (forall s | s in request.grant.scopes :: s in client.scopes)
  }

  lemma SkippingIsExact(reg: Registry, request: Request, p: Pending)
    requires p.Stored() == request.grant
    requires p.dynamic == if IsDocumentClient(reg, request.grant.clientId) then reg.dynamic else None
    ensures request.allowPreAuthorization && PreAuthorizes(reg, p) <==> MaySkipConsent(reg, request)
  {
  }

  lemma StaticLeasesHold(reg: Registry, instants: set<Instant>)
    requires reg.dynamic.None?
    ensures HoldsFor(Some(reg), instants)
  {
  }

  lemma PreAuthorizationDecides(db: Db, q: ConsentRequest, reg: Registry, env: Env)
    requires Fresh(db, env.drawn) && q.session in db.sessions && q.browser in db.browsers
    requires Sorted(db.browsers[q.browser].request.grant.scopes)
    ensures var row, session := db.browsers[q.browser], db.sessions[q.session];
            var d := DecidePreAuthorize(q, row, session, reg, env);
            var accepts := PolicyAccepts(Some(reg), row.request.grant);
            var holds := HoldsFor(Some(reg), {env.at.a, env.at.b});
            if !(env.clock.first < row.request.expiresAt && OpenAt(session, env.clock.first)) then
              d == Decision(NoEffect, Rejected(BrowserInvalid))
            else if !(accepts && holds) then d.effect == NoEffect && RefusedByPolicy(d.outcome, accepts, holds)
            else if !MaySkipConsent(reg, row.request) then d == Decision(NoEffect, NeedsConsent)
            else if !(env.clock.third < row.request.expiresAt && OpenAt(session, env.clock.third)) then
              d == Decision(NoEffect, Rejected(BrowserInvalid))
            else
              && d.outcome.ConsentGiven? && d.outcome.redirectUri == row.request.grant.redirectUri
              && d.outcome.state == row.request.state
              && IssuesCode(db, Apply(db, d.effect), q, d.outcome.code, env.clock.second)
  {
    hide Revalidate, PolicyAccepts, HoldsFor, LeaseHolds, Apply, IssuesCode, CodeFrom, Fresh, Approve, PreAuthorizes;
    var row := db.browsers[q.browser];
    RevalidationAnswers(reg, row.request, env.at.a, env.at.b);
    RevalidationAnswers(reg, row.request, env.at.d, env.at.e);
    var pending := Revalidate(reg, row.request, env.at.a, env.at.b);
    if pending.Ok? {
      SkippingIsExact(reg, row.request, pending.value);
      if MaySkipConsent(reg, row.request) {
        StaticLeasesHold(reg, {env.at.d, env.at.e});
        ApprovalIsExact(pending.value, true, env.at.c);
        SkippingIsExact(reg, row.request, Revalidate(reg, row.request, env.at.d, env.at.e).value);
        ApprovalApplies(db, q, pending.value, "offline_access" in pending.value.scopes, env);
      }
    }
  }

  /** Without interaction, a code is issued exactly where consent may be skipped, and otherwise under the
      conditions of an approval, still in time and under an open session after the insert.  Where consent may
      not be skipped it is asked for, and nothing is written. */
  lemma PreAuthorizationsExactly(db: Db, q: ConsentRequest, reg: Registry, env: Env)
    requires BrowsersOk(db.browsers, db.sessions) && Fresh(db, env.drawn)
    ensures var call := PreAuthorize(q, reg);
            var outcome, after := Perform(db, call, env).outcome, Step(db, call, env);
            if !ConsentStands(db, q, env.clock.first) then outcome == Rejected(BrowserInvalid) && after == db
            else
              var row := db.browsers[q.browser];
              var accepts := PolicyAccepts(Some(reg), row.request.grant);
              var holds := HoldsFor(Some(reg), {env.at.a, env.at.b});
              if !(accepts && holds) then RefusedByPolicy(outcome, accepts, holds) && after == db
              else if !MaySkipConsent(reg, row.request) then outcome == NeedsConsent && after == db
              else if !ConsentStands(db, q, env.clock.third) then outcome == Rejected(BrowserInvalid) && after == db
              else
                && outcome.ConsentGiven? && outcome.redirectUri == row.request.grant.redirectUri
                && outcome.state == row.request.state
                && IssuesCode(db, after, q, outcome.code, env.clock.second)
  {
    hide Perform, Apply, PolicyAccepts, HoldsFor, MaySkipConsent, DecidePreAuthorize, IssuesCode, Fresh;
    NothingHappens(db);
    ConsentPerforms(db, PreAuthorize(q, reg), env);
    if q.session in db.sessions && q.browser in db.browsers {
      assert BrowserOk(db.browsers[q.browser]);
      PreAuthorizationDecides(db, q, reg, env);
    }
  }

  lemma DenialDecides(q: ConsentRequest, row: BrowserRow, session: SessionRow, optional: Option<Registry>, env: Env)
    requires Sorted(row.request.grant.scopes)
    ensures var d := DecideDeny(q, row, session, optional, env);
            var accepts := PolicyAccepts(optional, row.request.grant);
            var holds := HoldsFor(optional, {env.at.a, env.at.b, env.at.c, env.at.d});
            if !(env.clock.first < row.request.expiresAt && OpenAt(session, env.clock.first)) then
              d == Decision(NoEffect, Rejected(BrowserInvalid))
            else if accepts && holds then
              d == Decision(MoveBrowser(q.browser, row.(stage := Denied, csrf := None)),
                            DeniedTo(row.request.grant.redirectUri, row.request.state))
            else d.effect == NoEffect && RefusedByPolicy(d.outcome, accepts, holds)
  {
    hide ValidateOptional, PolicyAccepts, HoldsFor;
    ValidationAnswers(optional, row.request, env.at.a, env.at.b);
    ValidationAnswers(optional, row.request, env.at.c, env.at.d);
    HoldsForBoth(optional, env.at.a, env.at.b, env.at.c, env.at.d);
  }

  /** Denied under the same conditions; the row is closed without a code. */
  lemma DenialsExactly(db: Db, q: ConsentRequest, optional: Option<Registry>, env: Env)
    requires BrowsersOk(db.browsers, db.sessions)
    ensures var call := DenyConsent(q, optional);
            var outcome, after := Perform(db, call, env).outcome, Step(db, call, env);
            if !ConsentStands(db, q, env.clock.first) then outcome == Rejected(BrowserInvalid) && after == db
            else
              var row := db.browsers[q.browser];
              var accepts := PolicyAccepts(optional, row.request.grant);
              var holds := HoldsFor(optional, {env.at.a, env.at.b, env.at.c, env.at.d});
              if accepts && holds then
                && outcome == DeniedTo(row.request.grant.redirectUri, row.request.state)
                && after == db.(browsers := db.browsers[q.browser := row.(stage := Denied, csrf := None)])
              else RefusedByPolicy(outcome, accepts, holds) && after == db
  {
    hide Perform, PolicyAccepts, HoldsFor, DecideDeny;
    ConsentPerforms(db, DenyConsent(q, optional), env);
    if q.session in db.sessions && q.browser in db.browsers {
      assert BrowserOk(db.browsers[q.browser]);
      DenialDecides(q, db.browsers[q.browser], db.sessions[q.session], optional, env);
    }
  }

  lemma ViewDecides(q: ConsentRequest, row: BrowserRow, session: SessionRow, reg: Registry, env: Env)
    requires Sorted(row.request.grant.scopes)
    ensures var d := DecideView(q, row, session, reg, env);
            var g := row.request.grant;
            var accepts := PolicyAccepts(Some(reg), g);
            var holds := HoldsFor(Some(reg), {env.at.a, env.at.b, env.at.c, env.at.d});
            && d.effect == NoEffect
            && if !(env.clock.first < row.request.expiresAt && OpenAt(session, env.clock.first)) then
                 d.outcome == Rejected(BrowserInvalid)
               else if accepts && holds then
                 d.outcome == ConsentShown(g.clientId, g.scopes, g.resource, g.redirectUri, session.userId)
               else RefusedByPolicy(d.outcome, accepts, holds)
  {
    hide Revalidate, PolicyAccepts, HoldsFor;
    RevalidationAnswers(reg, row.request, env.at.a, env.at.b);
    RevalidationAnswers(reg, row.request, env.at.c, env.at.d);
    HoldsForBoth(Some(reg), env.at.a, env.at.b, env.at.c, env.at.d);
  }

  /** Under the same conditions the consent page shows what the row asks for and whose account it is. */
  lemma ViewsExactly(db: Db, q: ConsentRequest, reg: Registry, env: Env)
    requires BrowsersOk(db.browsers, db.sessions)
    ensures Step(db, ViewConsent(q, reg), env) == db
    ensures var outcome := Perform(db, ViewConsent(q, reg), env).outcome;
            if !ConsentStands(db, q, env.clock.first) then outcome == Rejected(BrowserInvalid)
            else
              var g := db.browsers[q.browser].request.grant;
              var accepts := PolicyAccepts(Some(reg), g);
              var holds := HoldsFor(Some(reg), {env.at.a, env.at.b, env.at.c, env.at.d});
              if accepts && holds then
                outcome == ConsentShown(g.clientId, g.scopes, g.resource, g.redirectUri, db.sessions[q.session].userId)
              else RefusedByPolicy(outcome, accepts, holds)
  {
    hide Perform, PolicyAccepts, HoldsFor, DecideView;
    ConsentPerforms(db, ViewConsent(q, reg), env);
    if q.session in db.sessions && q.browser in db.browsers {
      assert BrowserOk(db.browsers[q.browser]);
      ViewDecides(q, db.browsers[q.browser], db.sessions[q.session], reg, env);
    }
  }
}
