/** Logout is final, lifetimes are nested, and rotations are counted: more theorems over runs. */
module LogoutRuns {
  import opened Prelude
  import opened Policy
  import opened Tables
  import opened Invariants
  import opened Operations
  import opened Steps
  import opened Runs

  // ---- the end of a session ----

  ghost predicate SessionEnded(db: Db, s: Id) {
    s in db.sessions && db.sessions[s].revokedAt.Some?
  }

  /** The result obtains something under the session: tokens, a code, a consent, a challenge, or a view
      of them. */
  predicate Obtains(call: Call, outcome: Outcome, s: Id) {
    match outcome
    case Granted(result) => result.session == s
    case CodeIssued(_) => call.IssueCode? && call.session == s
    case ConsentGiven(_, _, _) => (call.ApproveConsent? || call.PreAuthorize?) && call.consentRequest.session == s
    case DeniedTo(_, _) => call.DenyConsent? && call.consentRequest.session == s
    case ConsentAsked(_, _) => call.BeginAuthenticated? && call.session == s
    case ConsentShown(_, _, _, _, _) => call.ViewConsent? && call.consentRequest.session == s
    case AuthTimeRead(_) => call.ReadAuthTime? && call.session == s
    case ChallengeOpened(_, _, _) => call.BeginLogout? && call.session == s
    case LoggedOut(_, _) => call.FinishLogout? && call.logout.session == s
    case _ => false
  }

  ghost predicate SucceedsUnder(db: Db, ev: Event, s: Id) {
    Obtains(ev.call, OutcomeOf(db, ev), s)
  }

  lemma NoGrantUnderEnded(db: Db, ev: Event, s: Id)
    requires SessionEnded(db, s) && (ev.call.Exchange? || ev.call.Rotate?)
    ensures !SucceedsUnder(db, ev, s)
  {
    hide CodeRequestGate, CodeBound, CodePolicy, CheckBinding, BoundResource, TokenRequestGate, TokenBound, TokenPolicy;
  }

  lemma NoConsentUnderEnded(db: Db, ev: Event, s: Id)
    requires SessionEnded(db, s) && IsConsentCall(ev.call)
    ensures !SucceedsUnder(db, ev, s)
  {
    hide Revalidate, ValidateOptional, PreAuthorizes, Approve;
  }

  lemma NothingElseUnderEnded(db: Db, ev: Event, s: Id)
    requires SessionEnded(db, s)
    requires !ev.call.Exchange? && !ev.call.Rotate? && !IsConsentCall(ev.call)
    ensures !SucceedsUnder(db, ev, s)
  {
  }

  lemma NothingSucceedsUnderEnded(db: Db, ev: Event, s: Id)
    requires SessionEnded(db, s)
    ensures !SucceedsUnder(db, ev, s)
  {
    hide SucceedsUnder, SessionEnded;
    if ev.call.Exchange? || ev.call.Rotate? {
      NoGrantUnderEnded(db, ev, s);
    } else if IsConsentCall(ev.call) {
      NoConsentUnderEnded(db, ev, s);
    } else {
      NothingElseUnderEnded(db, ev, s);
    }
  }

  /** Once a session is revoked, then in all later states it is, so is every family under it, and no
      operation ever again succeeds under it. */
  lemma EndedSessionsStayEnded(dbs: seq<Db>, evs: seq<Event>, s: Id, i: nat, k: nat)
    requires Run(dbs, evs) && i <= k < |dbs| && SessionEnded(dbs[i], s)
    ensures SessionEnded(dbs[k], s)
    ensures forall f | f in dbs[k].families && dbs[k].families[f].session == s :: dbs[k].families[f].revokedAt.Some?
    ensures k < |evs| ==> !SucceedsUnder(dbs[k], evs[k], s)
  {
    hide SucceedsUnder, Advances;
    RunLosesNothing(dbs, evs, i, k);
    RunStaysValid(dbs, evs, k);
    assert SessionKept(dbs[i].sessions[s], dbs[k].sessions[s]);
    FamiliesUnderEnded(dbs[k], s);
    if k < |evs| {
      NothingSucceedsUnderEnded(dbs[k], evs[k], s);
    }
  }

  lemma FamiliesUnderEnded(db: Db, s: Id)
    requires FamiliesOk(db.families, db.codes, db.sessions) && SessionEnded(db, s)
    ensures forall f | f in db.families && db.families[f].session == s :: db.families[f].revokedAt.Some?
  {
  }

  /** The session that a completed logout ends. */
  function LogoutSession(call: Call): Id
    requires call.Logout? || call.FinishLogout?
  {
    if call.Logout? then call.session else call.logout.session
  }

  lemma LogoutEndsItsSession(db: Db, ev: Event, after: Db)
    requires Advances(db, ev, after)
    requires (ev.call.Logout? && OutcomeOf(db, ev).Acknowledged?)
             || (ev.call.FinishLogout? && OutcomeOf(db, ev).LoggedOut?)
    ensures SessionEnded(after, LogoutSession(ev.call))
  {
  }

  /** After a logout or a finished challenge commits, nothing under the session survives or succeeds
      in any later state of the run. */
  lemma LogoutIsFinal(dbs: seq<Db>, evs: seq<Event>, i: nat, k: nat)
    requires Run(dbs, evs) && i < |evs| && i < k < |dbs|
    requires (evs[i].call.Logout? && OutcomeOf(dbs[i], evs[i]).Acknowledged?)
             || (evs[i].call.FinishLogout? && OutcomeOf(dbs[i], evs[i]).LoggedOut?)
    ensures var s := LogoutSession(evs[i].call);
            && SessionEnded(dbs[k], s)
            && (forall f | f in dbs[k].families && dbs[k].families[f].session == s ::
                  dbs[k].families[f].revokedAt.Some?)
            && (k < |evs| ==> !SucceedsUnder(dbs[k], evs[k], s))
  {
    hide SucceedsUnder, Valid, SessionEnded, Admissible, Step, Perform;
    assert Advances(dbs[i], evs[i], dbs[i + 1]);
    LogoutEndsItsSession(dbs[i], evs[i], dbs[i + 1]);
    EndedSessionsStayEnded(dbs, evs, LogoutSession(evs[i].call), i + 1, k);
  }

  /** In every state of every run at most one challenge of a session is consumed, at the moment the
      session was revoked. */
  lemma OneChallengePerSession(dbs: seq<Db>, evs: seq<Event>, n: nat, c: Id, d: Id)
    requires Run(dbs, evs) && n < |dbs|
    requires c in dbs[n].challenges && dbs[n].challenges[c].consumedAt.Some?
    ensures dbs[n].challenges[c].session in dbs[n].sessions
    ensures dbs[n].challenges[c].consumedAt == dbs[n].sessions[dbs[n].challenges[c].session].revokedAt
    ensures (d in dbs[n].challenges && dbs[n].challenges[d].consumedAt.Some?
             && dbs[n].challenges[d].session == dbs[n].challenges[c].session) ==> c == d
  {
    hide SessionsOk, CodesOk, FamiliesOk, SourcesOk, MembersOk, ChainsOk, BrowsersOk, OriginsOk, IdentitiesOk, Advances;
    RunStaysValid(dbs, evs, n);
  }

  // ---- lifetimes ----

  /** In every state: a code lives at most 60 seconds, a family at most 30 days, a session at most
      30 days from its authentication, each within the session it hangs from. */
  lemma LifetimesAreNested(dbs: seq<Db>, evs: seq<Event>, n: nat)
    requires Run(dbs, evs) && n < |dbs|
    ensures forall s | s in dbs[n].sessions ::
              dbs[n].sessions[s].expiresAt <= dbs[n].sessions[s].authTime + SESSION_LIFETIME
    ensures forall c | c in dbs[n].codes ::
              dbs[n].codes[c].session in dbs[n].sessions
              && dbs[n].codes[c].expiresAt <= Min(dbs[n].codes[c].issuedAt + CODE_LIFETIME,
                                                  dbs[n].sessions[dbs[n].codes[c].session].expiresAt)
    ensures forall f | f in dbs[n].families ::
              dbs[n].families[f].session in dbs[n].sessions
              && dbs[n].families[f].expiresAt <= Min(dbs[n].families[f].issuedAt + FAMILY_LIFETIME,
                                                     dbs[n].sessions[dbs[n].families[f].session].expiresAt)
  {
    hide MembersOk, SourcesOk, ChainsOk, ChallengesOk, BrowsersOk, OriginsOk, IdentitiesOk, Advances;
    RunStaysValid(dbs, evs, n);
    assert forall f | f in dbs[n].families ::
        FamilyOk(dbs[n].families[f], dbs[n].codes[dbs[n].families[f].sourceCode],
                 dbs[n].sessions[dbs[n].families[f].session]);
  }

  /** However long the chain of rotations, nothing is granted from a session at or after 30 days
      past its authentication. */
  lemma NoGrantOutlivesItsSession(dbs: seq<Db>, evs: seq<Event>, k: nat)
    requires Run(dbs, evs) && k < |evs|
    requires (evs[k].call.Exchange? || evs[k].call.Rotate?) && OutcomeOf(dbs[k], evs[k]).Granted?
    ensures var s := OutcomeOf(dbs[k], evs[k]).result.session;
            && s in dbs[k].sessions
            && evs[k].env.clock.first < dbs[k].sessions[s].expiresAt
            && evs[k].env.clock.first < dbs[k].sessions[s].authTime + SESSION_LIFETIME
  {
    hide Perform, PerformExchange, PerformRotate, Step, Admissible, Apply, Valid;
    LifetimesAreNested(dbs, evs, k);
    assert Advances(dbs[k], evs[k], dbs[k + 1]);
    if evs[k].call.Exchange? {
      EventExchange(dbs[k], evs[k], dbs[k + 1]);
      GrantedExchange(dbs[k], evs[k].call.code, evs[k].env);
    } else {
      EventRotate(dbs[k], evs[k], dbs[k + 1]);
      GrantedRotation(dbs[k], evs[k].call.token, evs[k].env);
    }
  }

  // ---- chains and the number of rotations ----

  /** In every state the members of a family form one successor chain with one unconsumed tail. */
  lemma FamiliesAreChains(dbs: seq<Db>, evs: seq<Event>, n: nat, f: Id)
    requires Run(dbs, evs) && n < |dbs| && f in dbs[n].families
    ensures exists chain :: IsChain(dbs[n].members, f, dbs[n].families[f].issuedAt, chain)
  {
    hide SessionsOk, CodesOk, FamiliesOk, SourcesOk, MembersOk, ChallengesOk, BrowsersOk, OriginsOk, IdentitiesOk,
         Advances;
    RunStaysValid(dbs, evs, n);
  }

  function MembersOf(members: map<Id, MemberRow>, f: Id): set<Id> {
    set m | m in members && members[m].family == f
  }

  /** Successful rotations within the family among the first `n` operations. */
  ghost function Rotations(dbs: seq<Db>, evs: seq<Event>, f: Id, n: nat): nat
    requires n <= |evs| && |dbs| == |evs| + 1
  {
    if n == 0 then 0 else Rotations(dbs, evs, f, n - 1) + (if RotatesIn(dbs[n - 1], evs[n - 1], f) then 1 else 0)
  }

  /** What one operation does to the members of a family. */
  lemma MembersAfterStep(db: Db, ev: Event, after: Db, f: Id)
    requires Valid(db) && Advances(db, ev, after)
    ensures f in db.families ==>
              f in after.families
              && |MembersOf(after.members, f)| == |MembersOf(db.members, f)| + (if RotatesIn(db, ev, f) then 1 else 0)
    ensures f !in db.families ==> !RotatesIn(db, ev, f) && (f in after.families ==> |MembersOf(after.members, f)| == 1)
  {
    hide Perform, PerformExchange, PerformRotate, Admissible, SessionsOk, CodesOk, FamiliesOk, SourcesOk, ChainsOk,
         ChallengesOk, BrowsersOk, OriginsOk, IdentitiesOk, Kept, Guarded;
    var e := Perform(db, ev.call, ev.env).effect;
    PerformIsGuarded(db, ev.call, ev.env);
    if ev.call.Rotate? {
      EventRotate(db, ev, after);
      MembersAfterRotate(db, ev, after, f);
    } else {
      NoRotationElsewhere(db, ev.call, ev.env);
      MembersAfterOther(db, e, f);
    }
  }

  lemma NoRotationElsewhere(db: Db, call: Call, env: Env)
    requires !call.Rotate?
    ensures !Perform(db, call, env).effect.RotateToken?
  {
    hide CodeRequestGate, CodeBound, CodePolicy, CheckBinding, ValidateOptional, Revalidate, PreAuthorizes, Approve,
         ConsentLive, CodeFrom, SessionLive, BeginRequest, NewFamily, ValidPostLogoutRedirect, AllowsIdTokenLogout;
  }

  lemma RotateEffects(db: Db, ev: Event)
    requires ev.call.Rotate?
    ensures var e := PerformRotate(db, ev.call.token, ev.env).effect;
            && (e.RotateToken? <==> PerformRotate(db, ev.call.token, ev.env).outcome.Granted?)
            && (e.RotateToken? ==> e.id == ev.call.token.token)
            && (e.RotateToken? || e.RevokeFamily? || e.NoEffect?)
  {
    hide TokenRequestGate, TokenBound, TokenPolicy, CheckBinding;
  }

  lemma MembersAfterRotate(db: Db, ev: Event, after: Db, f: Id)
    requires MembersOk(db.members, db.families) && ev.call.Rotate?
    requires OutcomeOf(db, ev) == PerformRotate(db, ev.call.token, ev.env).outcome
    requires after == Apply(db, PerformRotate(db, ev.call.token, ev.env).effect)
    requires Guarded(db, PerformRotate(db, ev.call.token, ev.env).effect)
    ensures f in db.families ==>
              f in after.families
              && |MembersOf(after.members, f)| == |MembersOf(db.members, f)| + (if RotatesIn(db, ev, f) then 1 else 0)
    ensures f !in db.families ==> !RotatesIn(db, ev, f) && f !in after.families
  {
    hide Perform, PerformRotate;
    var e := PerformRotate(db, ev.call.token, ev.env).effect;
    RotateEffects(db, ev);
    if e.RotateToken? {
      RotationAddsAMember(db, e.id, e.next, e.at, f);
      hide Apply, MembersOf;
    } else {
      assert after.members == db.members;
    }
  }

  lemma RotationAddsAMember(db: Db, m: Id, next: Id, at: Time, f: Id)
    requires m in db.members && next !in db.members
    ensures var out := Apply(db, RotateToken(m, next, at));
            && out.families == db.families
            && |MembersOf(out.members, f)| == |MembersOf(db.members, f)| + (if db.members[m].family == f then 1 else 0)
  {
    var out := Apply(db, RotateToken(m, next, at));
    if db.members[m].family == f {
      assert MembersOf(out.members, f) == MembersOf(db.members, f) + {next};
    } else {
      assert MembersOf(out.members, f) == MembersOf(db.members, f);
    }
  }

  lemma MembersAfterUse(db: Db, e: Effect, f: Id)
    requires MembersOk(db.members, db.families) && Guarded(db, e) && e.UseCode?
    ensures f in db.families ==>
              f in Apply(db, e).families && MembersOf(Apply(db, e).members, f) == MembersOf(db.members, f)
    ensures f !in db.families && f in Apply(db, e).families ==> |MembersOf(Apply(db, e).members, f)| == 1
  {
    var out := Apply(db, e);
    if e.renewal.Some? && f == e.renewal.value.id {
      assert MembersOf(out.members, f) == {e.renewal.value.token};
    } else {
      assert MembersOf(out.members, f) == MembersOf(db.members, f);
    }
  }

  lemma MembersAfterOther(db: Db, e: Effect, f: Id)
    requires MembersOk(db.members, db.families) && Guarded(db, e) && !e.RotateToken?
    ensures f in db.families ==>
              f in Apply(db, e).families && MembersOf(Apply(db, e).members, f) == MembersOf(db.members, f)
    ensures f !in db.families && f in Apply(db, e).families ==> |MembersOf(Apply(db, e).members, f)| == 1
  {
    hide MembersOk, Guarded, MembersOf;
    if e.UseCode? {
      MembersAfterUse(db, e, f);
    } else {
      assert Apply(db, e).members == db.members;
    }
  }

  /** A family has one member more than it has seen successful rotations. */
  lemma {:induction false} MembersCountRotations(dbs: seq<Db>, evs: seq<Event>, f: Id, n: nat)
    requires Run(dbs, evs) && n < |dbs| && f !in dbs[0].families
    ensures f in dbs[n].families ==> |MembersOf(dbs[n].members, f)| == 1 + Rotations(dbs, evs, f, n)
    ensures f !in dbs[n].families ==> Rotations(dbs, evs, f, n) == 0
  {
    hide Valid, Admissible, Step, RotatesIn;
    if n > 0 {
      MembersCountRotations(dbs, evs, f, n - 1);
      RunStaysValid(dbs, evs, n - 1);
      assert Advances(dbs[n - 1], evs[n - 1], dbs[n]);
      MembersAfterStep(dbs[n - 1], evs[n - 1], dbs[n], f);
    }
  }

  /** In every state every refresh family was asked for: its scopes contain offline access, and it
      repeats the client, resource and binding of the one code it came from. */
  lemma FamiliesRepeatTheirCode(dbs: seq<Db>, evs: seq<Event>, n: nat, f: Id)
    requires Run(dbs, evs) && n < |dbs| && f in dbs[n].families
    ensures dbs[n].families[f].sourceCode in dbs[n].codes
    ensures var row, code := dbs[n].families[f], dbs[n].codes[dbs[n].families[f].sourceCode];
            && OFFLINE_ACCESS in row.scopes
            && row.session == code.session && row.clientId == code.grant.clientId && row.scopes == code.grant.scopes
            && row.resource == code.grant.resource && row.binding == code.grant.binding
            && BindingOfItsClient(row.binding, row.clientId)
            && code.consumedAt == Some(row.issuedAt)
    ensures forall g | g in dbs[n].families && dbs[n].families[g].sourceCode == dbs[n].families[f].sourceCode :: g == f
  {
    hide SessionsOk, MembersOk, ChainsOk, ChallengesOk, BrowsersOk, OriginsOk, IdentitiesOk;
    RunStaysValid(dbs, evs, n);
    var row := dbs[n].families[f];
    assert FamilyOk(row, dbs[n].codes[row.sourceCode], dbs[n].sessions[row.session]);
    assert CodeOk(dbs[n].codes[row.sourceCode], dbs[n].sessions[row.session]);
  }

  /** The schema's checks on uniqueness, on lifetimes and on the client and version of a binding hold
      in every reachable state; they never have to fire. */
  lemma UniquenessAndLifetimeChecksHold(dbs: seq<Db>, evs: seq<Event>, n: nat)
    requires Run(dbs, evs) && n < |dbs|
    ensures forall s | s in dbs[n].sessions ::
              dbs[n].sessions[s].expiresAt <= dbs[n].sessions[s].authTime + SESSION_LIFETIME
    ensures forall c | c in dbs[n].codes ::
              dbs[n].codes[c].expiresAt <= dbs[n].codes[c].issuedAt + CODE_LIFETIME
                && BoundToItsClient(dbs[n].codes[c].grant)
    ensures forall f | f in dbs[n].families ::
              dbs[n].families[f].expiresAt <= dbs[n].families[f].issuedAt + FAMILY_LIFETIME
              && BindingOfItsClient(dbs[n].families[f].binding, dbs[n].families[f].clientId)
    ensures forall f, g | f in dbs[n].families && g in dbs[n].families
                          && dbs[n].families[f].sourceCode == dbs[n].families[g].sourceCode :: f == g
    ensures forall b | b in dbs[n].browsers ::
              dbs[n].browsers[b].request.expiresAt <= dbs[n].browsers[b].request.createdAt + BROWSER_LIFETIME
              && BoundToItsClient(dbs[n].browsers[b].request.grant)
    ensures forall a, b | a in dbs[n].browsers && b in dbs[n].browsers && dbs[n].browsers[a].claim.Some?
                          && dbs[n].browsers[a].claim == dbs[n].browsers[b].claim :: a == b
    ensures forall a, b | a in dbs[n].browsers && b in dbs[n].browsers && dbs[n].browsers[a].upstreamState.Some?
                          && dbs[n].browsers[a].upstreamState == dbs[n].browsers[b].upstreamState :: a == b
    ensures forall c | c in dbs[n].challenges ::
              dbs[n].challenges[c].expiresAt <= dbs[n].challenges[c].createdAt + CHALLENGE_LIFETIME
    ensures forall u, v | u in dbs[n].identities && v in dbs[n].identities
                          && dbs[n].identities[u] == dbs[n].identities[v] :: u == v
  {
    hide MembersOk, ChainsOk, OriginsOk;
    RunStaysValid(dbs, evs, n);
  }

  /** A challenge ends a session only for that session and its CSRF secret, once, in time, and to a
      redirect that is still registered; a hint ends it without confirmation only if it was issued to
      that client for that user and that session, and the client may. */
  lemma LogoutsAreBound(db: Db, q: LogoutRequest, env: Env)
    requires Perform(db, FinishLogout(q), env).outcome.LoggedOut?
    ensures q.challenge in db.challenges && q.session in db.sessions
    ensures var row, session, now := db.challenges[q.challenge], db.sessions[q.session], env.clock.first;
            && row.session == q.session && row.csrf == q.csrf && row.consumedAt.None? && now < row.expiresAt
            && SessionLive(session, now)
            && Perform(db, FinishLogout(q), env).outcome == LoggedOut(row.redirectUri, row.state)
            && (row.clientId != "" ==> ValidPostLogoutRedirect(q.registry, row.clientId, row.redirectUri))
            && (q.hint.Some? ==>
                  && q.hint.value.audience == row.clientId && AllowsIdTokenLogout(q.registry, row.clientId)
                  && q.hint.value.subject == session.userId && q.hint.value.session == Some(q.session)
                  && session.authTime / SECOND - CLOCK_SKEW_SECONDS <= q.hint.value.issued <= now / SECOND
                     + CLOCK_SKEW_SECONDS)
  {
    hide ValidPostLogoutRedirect, AllowsIdTokenLogout;
  }
}
