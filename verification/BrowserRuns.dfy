/** Browser transactions over whole runs: the stage graph, the callback, identities, and the
    provenance of every token result. */
module BrowserRuns {
  import opened Prelude
  import opened Policy
  import opened Tables
  import opened Invariants
  import opened Operations
  import opened Steps
  import opened Runs

  // ---- the stage graph ----

  lemma OtherEffectsLeaveBrowsers(db: Db, e: Effect)
    requires !e.AddBrowser? && !e.MoveBrowser? && !e.ApproveBrowser? && !e.LoginBrowser?
    ensures Apply(db, e).browsers == db.browsers
  {
    hide RevokeWhere, FamiliesFrom, FamiliesUnder, Coalesce, ApprovedRow, LoggedInRow;
    match e
    case NoEffect =>
    case AddSession(_, _) =>
    case AddCode(_, _) =>
    case UseCode(_, _, _) =>
    case RevokeSource(_, _) =>
    case RevokeFamily(_, _) =>
    case RotateToken(_, _, _) =>
    case EndSession(_, _, _) =>
    case AddChallenge(_, _) =>
    case FinishChallenge(_, _, _) =>
    case LinkUser(_, _, _) =>
  }

  lemma BrowserEffectsFollowEdges(db: Db, e: Effect, id: Id)
    requires e.AddBrowser? || e.MoveBrowser? || e.ApproveBrowser? || e.LoginBrowser?
    requires Guarded(db, e) && id in db.browsers
    ensures id in Apply(db, e).browsers
    ensures var before, after := db.browsers[id], Apply(db, e).browsers[id];
            before == after || Edge(before.stage, after.stage)
  {
    hide NewCodeOk, OriginOk, LinkOk, SessionOk, BrowserOk;
  }

  lemma EffectsFollowEdges(db: Db, e: Effect, id: Id)
    requires Guarded(db, e) && id in db.browsers
    ensures id in Apply(db, e).browsers
    ensures var before, after := db.browsers[id], Apply(db, e).browsers[id];
            before == after || Edge(before.stage, after.stage)
  {
    hide Guarded, Apply;
    if e.AddBrowser? || e.MoveBrowser? || e.ApproveBrowser? || e.LoginBrowser? {
      BrowserEffectsFollowEdges(db, e, id);
    } else {
      OtherEffectsLeaveBrowsers(db, e);
    }
  }

  /** One operation leaves a browser transaction as it was or moves it along one edge. */
  lemma StepsFollowEdges(db: Db, ev: Event, after: Db, id: Id)
    requires Valid(db) && Advances(db, ev, after) && id in db.browsers
    ensures id in after.browsers
    ensures db.browsers[id] == after.browsers[id] || Edge(db.browsers[id].stage, after.browsers[id].stage)
  {
    hide Valid, Guarded, Perform, Apply;
    PerformIsGuarded(db, ev.call, ev.env);
    EffectsFollowEdges(db, Perform(db, ev.call, ev.env).effect, id);
  }

  lemma EdgesLowerTheRank(a: Stage, b: Stage)
    requires Edge(a, b)
    ensures Rank(b) < Rank(a) <= 4
  {
  }

  /** Changes of the row among the first `n` operations of the run. */
  ghost function Changes(dbs: seq<Db>, id: Id, n: nat): nat
    requires n < |dbs|
  {
    if n == 0 then 0
    else Changes(dbs, id, n - 1)
         + (if id in dbs[n - 1].browsers && id in dbs[n].browsers && dbs[n - 1].browsers[id] != dbs[n].browsers[id] then
            1 else 0)
  }

  /** Whatever happens, a browser transaction changes at most four times. */
  lemma {:induction false} AtMostFourChanges(dbs: seq<Db>, evs: seq<Event>, id: Id, n: nat)
    requires Run(dbs, evs) && n < |dbs|
    ensures id in dbs[n].browsers ==> Changes(dbs, id, n) + Rank(dbs[n].browsers[id].stage) <= 4
    ensures id !in dbs[n].browsers ==> Changes(dbs, id, n) == 0
  {
    hide Valid, Advances, Edge, Rank;
    if n == 0 {
      RankIsAtMostFour(dbs[0], id);
    } else {
      AtMostFourChanges(dbs, evs, id, n - 1);
      RunStaysValid(dbs, evs, n - 1);
      assert Advances(dbs[n - 1], evs[n - 1], dbs[n]);
      RankIsAtMostFour(dbs[n], id);
      if id in dbs[n - 1].browsers {
        StepsFollowEdges(dbs[n - 1], evs[n - 1], dbs[n], id);
        if dbs[n - 1].browsers[id] != dbs[n].browsers[id] {
          EdgesLowerTheRank(dbs[n - 1].browsers[id].stage, dbs[n].browsers[id].stage);
        }
      }
    }
  }

  lemma RankIsAtMostFour(db: Db, id: Id)
    ensures id in db.browsers ==> Rank(db.browsers[id].stage) <= 4
  {
  }

  /** A terminal stage is never left: the row is the same in all later states. */
  lemma TerminalRowsAreFinal(dbs: seq<Db>, evs: seq<Event>, id: Id, i: nat, k: nat)
    requires Run(dbs, evs) && i <= k < |dbs|
    requires id in dbs[i].browsers && dbs[i].browsers[id].stage in {Approved, Denied, Failed, Expired}
    ensures id in dbs[k].browsers && dbs[k].browsers[id] == dbs[i].browsers[id]
  {
    hide Valid, Advances;
    RunLosesNothing(dbs, evs, i, k);
    assert BrowserKept(dbs[i].browsers[id], dbs[k].browsers[id]);
  }

  /** The operation claims the callback of this browser transaction and is handed its verifier. */
  ghost predicate WinsCallback(db: Db, ev: Event, id: Id) {
    ev.call.ClaimCallback? && OutcomeOf(db, ev).CallbackWon?
      && FindState(db, ev.call.state, ev.call.binding) == Some(id)
  }

  lemma WinningClaims(db: Db, ev: Event, after: Db, id: Id)
    requires Advances(db, ev, after) && WinsCallback(db, ev, id)
    ensures id in db.browsers && db.browsers[id].stage == AwaitingGoogle
    ensures id in after.browsers && after.browsers[id].stage == CallbackClaimed
    ensures OutcomeOf(db, ev).verifier == db.browsers[id].upstreamVerifier && after.browsers[id].upstreamVerifier.None?
  {
    hide Perform, FindState, Admissible;
    ClaimPerforms(db, ev.call, ev.env);
  }

  lemma ClaimPerforms(db: Db, call: Call, env: Env)
    requires call.ClaimCallback?
    ensures var found := FindState(db, call.state, call.binding);
            && (found.Some? ==>
                  found.value in db.browsers && MatchesState(call.state, call.binding, db.browsers[found.value]))
            && Perform(db, call, env) ==
               if found.None? then Reject(BrowserInvalid) else DecideClaim(found.value, db.browsers[found.value], env)
  {
  }

  /** In any run, the callback of a browser transaction is won at most once. */
  lemma CallbackIsWonAtMostOnce(dbs: seq<Db>, evs: seq<Event>, id: Id, i: nat, j: nat)
    requires Run(dbs, evs) && i <= j < |evs|
    requires WinsCallback(dbs[i], evs[i], id) && WinsCallback(dbs[j], evs[j], id)
    ensures i == j
  {
    hide Valid, WinsCallback, Advances;
    assert Advances(dbs[i], evs[i], dbs[i + 1]) && Advances(dbs[j], evs[j], dbs[j + 1]);
    WinningClaims(dbs[i], evs[i], dbs[i + 1], id);
    WinningClaims(dbs[j], evs[j], dbs[j + 1], id);
    if i < j {
      RanksNeverRise(dbs, evs, id, i + 1, j);
    }
  }

  lemma RanksNeverRise(dbs: seq<Db>, evs: seq<Event>, id: Id, i: nat, k: nat)
    requires Run(dbs, evs) && i <= k < |dbs| && id in dbs[i].browsers
    ensures id in dbs[k].browsers && Rank(dbs[k].browsers[id].stage) <= Rank(dbs[i].browsers[id].stage)
  {
    hide Valid, Advances;
    RunLosesNothing(dbs, evs, i, k);
    assert BrowserKept(dbs[i].browsers[id], dbs[k].browsers[id]);
  }

  /** In every state the upstream verifier is held exactly while it can still be needed, the CSRF
      secret exactly while consent is awaited, and a transaction is approved exactly if one code,
      and only one, was issued from it. */
  lemma BrowserSecretsAndCodes(dbs: seq<Db>, evs: seq<Event>, n: nat, id: Id)
    requires Run(dbs, evs) && n < |dbs| && id in dbs[n].browsers
    ensures var row := dbs[n].browsers[id];
            && (row.upstreamVerifier.Some? <==> row.stage == AwaitingStart || row.stage == AwaitingGoogle)
            && (row.csrf.Some? <==> row.stage == AwaitingConsent)
    ensures dbs[n].browsers[id].stage == Approved <==> exists c :: c in dbs[n].origins && dbs[n].origins[c] == id
    ensures forall c, d | c in dbs[n].origins && d in dbs[n].origins && dbs[n].origins[c] == id
            && dbs[n].origins[d] == id :: c == d
  {
    hide SessionsOk, CodesOk, FamiliesOk, SourcesOk, MembersOk, ChainsOk, ChallengesOk, IdentitiesOk, Advances;
    RunStaysValid(dbs, evs, n);
    assert BrowserOk(dbs[n].browsers[id]);
  }

  // ---- the callback and the identities ----

  /** A completed login: the transaction awaits consent under a new session of the subject's user,
      the subject is linked to that user, and the profile is replaced. */
  ghost predicate LogsIn(db: Db, call: Call, env: Env, out: Db)
    requires call.CompleteCallback?
  {
    var user := UserFor(db.identities, call.identity.subject, env.drawn.user);
    exists id :: id in db.browsers && MatchesClaim(call.claim, db.browsers[id])
      && out == db.(
           browsers := db.browsers[id := db.browsers[id].(stage := AwaitingConsent, session := Some(env.drawn.row),
                                                          csrf := Some(env.drawn.secret), claim := None)],
           sessions := db.sessions[env.drawn.row :=
             SessionRow(user, env.clock.first, env.clock.first + call.lifetime.seconds * SECOND, None,
                        call.identity.authTime)],
           users := db.users + {user},
           identities := db.identities[call.identity.subject := user],
           profiles := db.profiles[user := call.identity.profile.(updatedAt := env.clock.first)])
  }

  lemma CompletionDecisions(db: Db, call: Call, env: Env)
    requires call.CompleteCallback?
    ensures var d := Perform(db, call, env);
            || (d.effect == NoEffect && d.outcome.Rejected?)
            || (d.effect.MoveBrowser? && d.outcome == Rejected(BrowserInvalid))
            || (d.effect.LoginBrowser? && d.outcome.LoggedIn?)
  {
    hide ValidateOptional;
  }

  lemma LoginWritesEverything(db: Db, call: Call, env: Env)
    requires call.CompleteCallback? && Perform(db, call, env).effect.LoginBrowser?
    ensures LogsIn(db, call, env, Step(db, call, env))
  {
    hide ValidateOptional;
    var id := FindClaim(db, call.claim).value;
    assert id in db.browsers && MatchesClaim(call.claim, db.browsers[id]);
  }

  /** Completing a callback, across its savepoint, has exactly three possible effects: nothing, the
      transaction's own expiry, or everything at once; only the last is reported as a login. */
  lemma CallbackHasThreeEffects(db: Db, call: Call, env: Env)
    requires Valid(db) && call.CompleteCallback?
    ensures var out := Step(db, call, env);
            var outcome := Perform(db, call, env).outcome;
            || (out == db && outcome.Rejected?)
            || (ExpiresOnlyItsRow(db, call, env.clock, out) && outcome == Rejected(BrowserInvalid))
            || (LogsIn(db, call, env, out) && outcome.LoggedIn?)
  {
    hide Perform, SessionsOk, CodesOk, FamiliesOk, SourcesOk, MembersOk, ChainsOk, ChallengesOk, BrowsersOk, OriginsOk,
         IdentitiesOk, ExpiresOnlyItsRow, LogsIn;
    CompletionDecisions(db, call, env);
    if Perform(db, call, env).effect.MoveBrowser? {
      ExpiredCompletionMovesOnlyItsRow(db, call, env);
    } else if Perform(db, call, env).effect.LoginBrowser? {
      LoginWritesEverything(db, call, env);
    }
  }

  /** The operation established which user the subject is. */
  ghost predicate Identifies(db: Db, ev: Event, subject: string, user: Id) {
    || (ev.call.CompleteCallback? && ev.call.identity.subject == subject
        && Perform(db, ev.call, ev.env).effect.LoginBrowser?
        && Perform(db, ev.call, ev.env).effect.session.userId == user)
    || (ev.call.LinkIdentity? && ev.call.subject == subject && OutcomeOf(db, ev) == UserLinked(user))
  }

  lemma LoginLinks(db: Db, ev: Event)
    requires ev.call.CompleteCallback? && Perform(db, ev.call, ev.env).effect.LoginBrowser?
    ensures var e := Perform(db, ev.call, ev.env).effect;
            && e.subject == ev.call.identity.subject
            && e.session.userId == UserFor(db.identities, e.subject, ev.env.drawn.user)
            && e.id in db.browsers
  {
    hide ValidateOptional;
  }

  lemma LinkLinks(db: Db, ev: Event)
    requires ev.call.LinkIdentity?
    ensures var d := Perform(db, ev.call, ev.env);
            && d.effect.LinkUser? && d.effect.subject == ev.call.subject
            && d.effect.userId == UserFor(db.identities, ev.call.subject, ev.env.drawn.user)
            && d.outcome == UserLinked(d.effect.userId)
  {
  }

  lemma IdentifiedIsLinked(db: Db, ev: Event, after: Db, subject: string, user: Id)
    requires Advances(db, ev, after) && Identifies(db, ev, subject, user)
    ensures subject in after.identities && after.identities[subject] == user
    ensures subject in db.identities ==> db.identities[subject] == user
  {
    hide Perform, Admissible;
    if ev.call.CompleteCallback? {
      LoginLinks(db, ev);
    } else {
      LinkLinks(db, ev);
    }
  }

  /** Over all runs, logins of one subject agree on the user, and different subjects never share one. */
  lemma SubjectsAndUsersCorrespond(dbs: seq<Db>, evs: seq<Event>, i: nat, j: nat, s: string, t: string, u: Id, v: Id)
    requires Run(dbs, evs) && i <= j < |evs|
    requires Identifies(dbs[i], evs[i], s, u) && Identifies(dbs[j], evs[j], t, v)
    ensures s == t <==> u == v
  {
    hide Perform, Identifies, Advances, SessionsOk, CodesOk, FamiliesOk, SourcesOk, MembersOk, ChainsOk, ChallengesOk,
         BrowsersOk, OriginsOk;
    assert Advances(dbs[i], evs[i], dbs[i + 1]) && Advances(dbs[j], evs[j], dbs[j + 1]);
    IdentifiedIsLinked(dbs[i], evs[i], dbs[i + 1], s, u);
    IdentifiedIsLinked(dbs[j], evs[j], dbs[j + 1], t, v);
    RunLosesNothing(dbs, evs, i + 1, j + 1);
    RunStaysValid(dbs, evs, j + 1);
  }

  // ---- provenance ----

  /** The operation begins the browser transaction `id` with the request `begin`. */
  ghost predicate Begins(db: Db, ev: Event, id: Id) {
    (ev.call.BeginGoogle? || ev.call.BeginAuthenticated?)
    && ev.env.drawn.row == id
    && (OutcomeOf(db, ev).BrowserStarted? || OutcomeOf(db, ev).ConsentAsked?)
  }

  lemma BeginningAddsTheRow(db: Db, ev: Event, id: Id)
    requires Begins(db, ev, id)
    ensures var e := Perform(db, ev.call, ev.env).effect;
            && e.AddBrowser? && e.id == id
            && e.browser.request.grant == ev.call.begin.pending.Stored()
            && e.browser.request.nonce == ev.call.begin.nonce
  {
  }

  lemma BegunRowsRecordTheRequest(db: Db, ev: Event, after: Db, id: Id)
    requires Advances(db, ev, after) && Begins(db, ev, id)
    ensures id in after.browsers
    ensures after.browsers[id].request.grant == ev.call.begin.pending.Stored()
    ensures after.browsers[id].request.nonce == ev.call.begin.nonce
  {
    hide Perform, Admissible;
    BeginningAddsTheRow(db, ev, id);
  }

  /** The code a successful token request descends from. */
  ghost function SourceOf(db: Db, ev: Event): Option<Id> {
    if ev.call.Exchange? then Some(ev.call.code.code)
    else if ev.call.Rotate? && ev.call.token.token in db.members
            && db.members[ev.call.token.token].family in db.families
    then Some(db.families[db.members[ev.call.token.token].family].sourceCode)
    else None
  }

  /** What the token endpoint answers, against a stored code and its session. */
  predicate Descends(result: ExchangeResult, code: CodeRow, session: SessionRow) {
    && result.session == code.session
    && result.userId == session.userId
    && result.clientId == code.grant.clientId
    && result.scopes == code.grant.scopes
    && result.resource == code.grant.resource
    && result.upstreamAuthTime == session.upstreamAuthTime
    && (result.refreshToken.Some? <==> OFFLINE_ACCESS in code.grant.scopes)
  }

  lemma ExchangeDescends(db: Db, ev: Event, after: Db)
    requires CodesOk(db.codes, db.sessions) && Advances(db, ev, after)
    requires ev.call.Exchange? && OutcomeOf(db, ev).Granted?
    ensures var c := ev.call.code.code;
            && c in db.codes && db.codes[c].session in db.sessions
            && Descends(OutcomeOf(db, ev).result, db.codes[c], db.sessions[db.codes[c].session])
            && OutcomeOf(db, ev).result.nonce == db.codes[c].nonce
  {
    hide Perform, PerformExchange, Apply, CodesOk;
    EventExchange(db, ev, after);
    GrantedExchange(db, ev.call.code, ev.env);
    CodeIsOk(db, ev.call.code.code);
  }

  lemma CodeIsOk(db: Db, c: Id)
    requires CodesOk(db.codes, db.sessions) && c in db.codes
    ensures db.codes[c].session in db.sessions && CodeOk(db.codes[c], db.sessions[db.codes[c].session])
  {
  }

  lemma FamilyIsOk(db: Db, f: Id)
    requires FamiliesOk(db.families, db.codes, db.sessions) && f in db.families
    ensures db.families[f].sourceCode in db.codes && db.families[f].session in db.sessions
    ensures FamilyOk(db.families[f], db.codes[db.families[f].sourceCode], db.sessions[db.families[f].session])
  {
  }

  lemma RotationDescends(db: Db, ev: Event, after: Db)
    requires CodesOk(db.codes, db.sessions) && FamiliesOk(db.families, db.codes, db.sessions) && Advances(db, ev, after)
    requires ev.call.Rotate? && OutcomeOf(db, ev).Granted?
    ensures SourceOf(db, ev).Some? && SourceOf(db, ev).value in db.codes
    ensures var code := db.codes[SourceOf(db, ev).value];
            var family := db.families[db.members[ev.call.token.token].family];
            && code.session in db.sessions
            && Descends(OutcomeOf(db, ev).result, code, db.sessions[code.session])
            && OFFLINE_ACCESS in code.grant.scopes
            && family.binding == code.grant.binding
  {
    hide Perform, PerformRotate, Apply, CodesOk, FamiliesOk;
    EventRotate(db, ev, after);
    GrantedRotation(db, ev.call.token, ev.env);
    var f := db.members[ev.call.token.token].family;
    FamilyIsOk(db, f);
    CodeIsOk(db, db.families[f].sourceCode);
  }

  lemma OriginIsOk(db: Db, c: Id)
    requires OriginsOk(db.origins, db.codes, db.browsers) && c in db.origins
    ensures c in db.codes && db.origins[c] in db.browsers && OriginOk(db.codes[c], db.browsers[db.origins[c]])
  {
  }

  lemma AddedRowsAreDrawn(db: Db, call: Call, env: Env)
    requires Perform(db, call, env).effect.AddBrowser?
    ensures call.BeginGoogle? || call.BeginAuthenticated?
    ensures Perform(db, call, env).effect.id == env.drawn.row
    ensures Perform(db, call, env).outcome.BrowserStarted? || Perform(db, call, env).outcome.ConsentAsked?
  {
    hide Revalidate, ValidateOptional, PreAuthorizes, Approve, CodePolicy, CodeBound, CodeRequestGate, CheckBinding,
         TokenRequestGate, TokenBound, TokenPolicy, ConsentLive, CodeFrom;
  }

  lemma OnlyAdditionsAdd(db: Db, e: Effect, id: Id)
    requires Guarded(db, e) && id in Apply(db, e).browsers && id !in db.browsers
    ensures e.AddBrowser? && e.id == id
  {
    hide BrowserOk, NewCodeOk, OriginOk, LinkOk, SessionOk;
    if !e.AddBrowser? && !e.MoveBrowser? && !e.ApproveBrowser? && !e.LoginBrowser? {
      OtherEffectsLeaveBrowsers(db, e);
    }
  }

  lemma NewRowsBegin(db: Db, ev: Event, after: Db, id: Id)
    requires Valid(db) && Advances(db, ev, after) && id in after.browsers && id !in db.browsers
    ensures Begins(db, ev, id)
  {
    hide Valid, Guarded, Perform, Apply;
    PerformIsGuarded(db, ev.call, ev.env);
    OnlyAdditionsAdd(db, Perform(db, ev.call, ev.env).effect, id);
    AddedRowsAreDrawn(db, ev.call, ev.env);
  }

  /** Every browser transaction that appears in a run was begun in it, by operation `m`. */
  lemma {:induction false} BrowserRowsWereBegun(dbs: seq<Db>, evs: seq<Event>, id: Id, k: nat) returns (m: nat)
    requires Run(dbs, evs) && k < |dbs| && id in dbs[k].browsers && id !in dbs[0].browsers
    ensures m < k && Begins(dbs[m], evs[m], id)
  {
    hide Valid, Advances, Begins;
    m := k - 1;
    if id in dbs[m].browsers {
      m := BrowserRowsWereBegun(dbs, evs, id, m);
    } else {
      RunStaysValid(dbs, evs, m);
      assert Advances(dbs[m], evs[m], dbs[k]);
      NewRowsBegin(dbs[m], evs[m], dbs[k], id);
    }
  }

  /** What the token endpoint answers in operation `k` repeats the request of operation `m`, which began
      the browser transaction `id`, and the session that approved it. */
  ghost predicate RepeatsTheRequest(dbs: seq<Db>, evs: seq<Event>, m: nat, k: nat, id: Id)
    requires m < |evs| && k < |evs| && |dbs| == |evs| + 1
    requires Begins(dbs[m], evs[m], id)
    requires (evs[k].call.Exchange? || evs[k].call.Rotate?) && OutcomeOf(dbs[k], evs[k]).Granted?
  {
    var request := evs[m].call.begin.pending;
    var result := OutcomeOf(dbs[k], evs[k]).result;
    && result.clientId == request.clientId
    && result.scopes == request.scopes
    && result.resource == request.resource
    && id in dbs[k].browsers && dbs[k].browsers[id].session == Some(result.session)
    && result.session in dbs[k].sessions
    && result.userId == dbs[k].sessions[result.session].userId
    && result.upstreamAuthTime == dbs[k].sessions[result.session].upstreamAuthTime
    && (result.refreshToken.Some? <==> OFFLINE_ACCESS in request.scopes)
    && (evs[k].call.Exchange? ==>
          && result.nonce == evs[m].call.begin.nonce
          && evs[k].call.code.code in dbs[k].codes
          && dbs[k].codes[evs[k].call.code.code].grant.binding == request.Stored().binding)
    && (evs[k].call.Rotate? ==>
          && OFFLINE_ACCESS in request.scopes
          && evs[k].call.token.token in dbs[k].members
          && dbs[k].members[evs[k].call.token.token].family in dbs[k].families
          && dbs[k].families[dbs[k].members[evs[k].call.token.token].family].binding == request.Stored().binding)
  }

  lemma ResultsRepeatTheBeginning(dbs: seq<Db>, evs: seq<Event>, m: nat, k: nat, id: Id)
    requires Run(dbs, evs) && m < k < |evs| && Begins(dbs[m], evs[m], id)
    requires (evs[k].call.Exchange? || evs[k].call.Rotate?) && OutcomeOf(dbs[k], evs[k]).Granted?
    requires SourceOf(dbs[k], evs[k]).Some? && SourceOf(dbs[k], evs[k]).value in dbs[k].origins
    requires dbs[k].origins[SourceOf(dbs[k], evs[k]).value] == id
    ensures RepeatsTheRequest(dbs, evs, m, k, id)
  {
    hide Perform, Advances, SessionsOk, CodesOk, FamiliesOk, SourcesOk, MembersOk, ChainsOk, ChallengesOk, BrowsersOk,
         OriginsOk, IdentitiesOk, Begins, SessionsKept, CodesKept, FamiliesKept, MembersKept, ChallengesKept,
         OriginsKept;
    assert Advances(dbs[m], evs[m], dbs[m + 1]) && Advances(dbs[k], evs[k], dbs[k + 1]);
    BegunRowsRecordTheRequest(dbs[m], evs[m], dbs[m + 1], id);
    RunLosesNothing(dbs, evs, m + 1, k);
    assert BrowserKept(dbs[m + 1].browsers[id], dbs[k].browsers[id]);
    RunStaysValid(dbs, evs, k);
    OriginIsOk(dbs[k], SourceOf(dbs[k], evs[k]).value);
    if evs[k].call.Exchange? {
      ExchangeDescends(dbs[k], evs[k], dbs[k + 1]);
    } else {
      RotationDescends(dbs[k], evs[k], dbs[k + 1]);
    }
  }

  /** End to end: every successful answer of the token endpoint for a browser-approved code, after any
      number of rotations and under any registries, carries exactly the client, scopes, resource and
      metadata binding of the request that began the browser transaction earlier in the run, and the
      user and upstream authentication time of the session that approved it. */
  lemma ResultsTraceToTheRequest(dbs: seq<Db>, evs: seq<Event>, k: nat) returns (m: nat, id: Id)
    requires Run(dbs, evs) && k < |evs|
    requires (evs[k].call.Exchange? || evs[k].call.Rotate?) && OutcomeOf(dbs[k], evs[k]).Granted?
    requires SourceOf(dbs[k], evs[k]).Some? && SourceOf(dbs[k], evs[k]).value in dbs[k].origins
    requires dbs[k].origins[SourceOf(dbs[k], evs[k]).value] !in dbs[0].browsers
    ensures m < k && id == dbs[k].origins[SourceOf(dbs[k], evs[k]).value]
    ensures Begins(dbs[m], evs[m], id) && RepeatsTheRequest(dbs, evs, m, k, id)
  {
    hide Begins, OutcomeOf, RepeatsTheRequest, SessionsOk, CodesOk, FamiliesOk, SourcesOk, MembersOk, ChainsOk,
         ChallengesOk, BrowsersOk, OriginsOk, IdentitiesOk;
    id := dbs[k].origins[SourceOf(dbs[k], evs[k]).value];
    RunStaysValid(dbs, evs, k);
    OriginIsOk(dbs[k], SourceOf(dbs[k], evs[k]).value);
    m := BrowserRowsWereBegun(dbs, evs, id, k);
    ResultsRepeatTheBeginning(dbs, evs, m, k, id);
  }

  // ---- metadata clients ----

  /** A transaction that carries a metadata binding yields a code only by interactive approval:
      whatever registry is presented, pre-authorization never issues one. */
  lemma DynamicRequestsNeedConsent(db: Db, call: Call, env: Env)
    requires call.PreAuthorize? && call.consentRequest.browser in db.browsers
    requires db.browsers[call.consentRequest.browser].request.grant.binding.Some?
    ensures PerformConsent(db, call, env).effect == NoEffect
    ensures !PerformConsent(db, call, env).outcome.ConsentGiven?
  {
    hide TrustedRedirect, EffectiveResource, ResourceAllowed;
  }

  lemma OnlyApprovalsApprove(db: Db, call: Call, env: Env)
    requires Perform(db, call, env).effect.ApproveBrowser?
    ensures call.ApproveConsent? || call.PreAuthorize?
    ensures Perform(db, call, env).effect.id == call.consentRequest.browser
    ensures call.consentRequest.browser in db.browsers
    ensures Perform(db, call, env).outcome.ConsentGiven?
            && Perform(db, call, env).outcome.code == Perform(db, call, env).effect.codeId
  {
    hide Revalidate, ValidateOptional, PreAuthorizes, Approve, CodePolicy, CodeBound, CodeRequestGate, CheckBinding,
         TokenRequestGate, TokenBound, TokenPolicy, ConsentLive, CodeFrom;
  }

  lemma UpdatesLeaveOrigins(db: Db, e: Effect)
    requires e.UseCode? || e.RevokeSource? || e.RevokeFamily? || e.RotateToken? || e.EndSession? || e.FinishChallenge?
    ensures Apply(db, e).origins == db.origins
  {
  }

  lemma InsertionsLeaveOrigins(db: Db, e: Effect)
    requires e.NoEffect? || e.AddSession? || e.AddCode? || e.AddChallenge? || e.AddBrowser? || e.MoveBrowser?
             || e.LoginBrowser? || e.LinkUser?
    ensures Apply(db, e).origins == db.origins
  {
  }

  lemma OnlyApprovalsRecordOrigins(db: Db, e: Effect, c: Id)
    requires c in Apply(db, e).origins && c !in db.origins
    ensures e.ApproveBrowser? && Apply(db, e).origins[c] == e.id && c == e.codeId
  {
    if e.UseCode? || e.RevokeSource? || e.RevokeFamily? || e.RotateToken? || e.EndSession? || e.FinishChallenge? {
      UpdatesLeaveOrigins(db, e);
    } else if !e.ApproveBrowser? {
      InsertionsLeaveOrigins(db, e);
    }
  }

  /** The only operations that ever record a code's browser transaction are the two approvals. */
  lemma CodesComeFromApprovals(db: Db, ev: Event, after: Db, c: Id)
    requires Advances(db, ev, after) && c in after.origins && c !in db.origins
    ensures ev.call.ApproveConsent? || ev.call.PreAuthorize?
    ensures after.origins[c] == ev.call.consentRequest.browser
    ensures after.origins[c] in db.browsers
    ensures OutcomeOf(db, ev).ConsentGiven? && OutcomeOf(db, ev).code == c
  {
    hide Perform, Admissible, Apply;
    OnlyApprovalsRecordOrigins(db, Perform(db, ev.call, ev.env).effect, c);
    OnlyApprovalsApprove(db, ev.call, ev.env);
  }

  lemma DynamicCodesComeFromConsent(db: Db, ev: Event, after: Db, c: Id)
    requires Advances(db, ev, after) && c in after.origins && c !in db.origins
    requires after.origins[c] in db.browsers && db.browsers[after.origins[c]].request.grant.binding.Some?
    ensures ev.call.ApproveConsent?
  {
    hide Perform, PerformConsent;
    CodesComeFromApprovals(db, ev, after, c);
    if ev.call.PreAuthorize? {
      DynamicRequestsNeedConsent(db, ev.call, ev.env);
      ConsentPerforms(db, ev);
    }
  }

  lemma ConsentPerforms(db: Db, ev: Event)
    requires ev.call.PreAuthorize?
    ensures Perform(db, ev.call, ev.env) == PerformConsent(db, ev.call, ev.env)
  {
    hide PerformConsent;
  }

  /** Operation `i` issued the code `c` by interactive approval of the browser transaction `id`. */
  ghost predicate ConsentedTo(dbs: seq<Db>, evs: seq<Event>, i: nat, c: Id, id: Id)
    requires i < |evs| && |dbs| == |evs| + 1
  {
    && evs[i].call.ApproveConsent? && evs[i].call.consentRequest.browser == id
    && OutcomeOf(dbs[i], evs[i]).ConsentGiven? && OutcomeOf(dbs[i], evs[i]).code == c
  }

  /** In any run, under any sequence of registries, every code with a metadata-document binding that
      was issued for a browser transaction was issued by interactive approval of that transaction. */
  lemma {:induction false} DocumentCodesWereConsentedTo(dbs: seq<Db>, evs: seq<Event>, c: Id, k: nat) returns (i: nat)
    requires Run(dbs, evs) && k < |dbs|
    requires c in dbs[k].origins && c !in dbs[0].origins && c in dbs[k].codes && dbs[k].codes[c].grant.binding.Some?
    ensures i < k && ConsentedTo(dbs, evs, i, c, dbs[k].origins[c])
  {
    hide Valid, Kept, Admissible, Step, ConsentedTo;
    i := k - 1;
    RunStaysValid(dbs, evs, i);
    RunStaysValid(dbs, evs, k);
    RunLosesNothing(dbs, evs, i, k);
    OriginsAreKept(dbs[i], dbs[k], c);
    if c in dbs[i].origins {
      i := DocumentCodesWereConsentedTo(dbs, evs, c, i);
    } else {
      assert Advances(dbs[i], evs[i], dbs[k]);
      ConsentWasGiven(dbs, evs, i, c);
    }
  }

  lemma OriginsAreKept(a: Db, b: Db, c: Id)
    requires Valid(a) && Valid(b) && Kept(a, b) && c in b.origins
    ensures c in b.codes && b.origins[c] in b.browsers && b.browsers[b.origins[c]].request.grant == b.codes[c].grant
    ensures b.origins[c] in a.browsers ==> a.browsers[b.origins[c]].request == b.browsers[b.origins[c]].request
    ensures c in a.origins ==> a.origins[c] == b.origins[c] && c in a.codes && a.codes[c].grant == b.codes[c].grant
  {
    hide SessionsOk, CodesOk, FamiliesOk, SourcesOk, MembersOk, ChainsOk, ChallengesOk, BrowsersOk, IdentitiesOk,
         SessionsKept, FamiliesKept, MembersKept, ChallengesKept, IdentitiesKept;
    OriginIsOk(b, c);
    if c in a.origins {
      OriginIsOk(a, c);
    }
    if b.origins[c] in a.browsers {
      assert BrowserKept(a.browsers[b.origins[c]], b.browsers[b.origins[c]]);
    }
  }

  lemma ConsentWasGiven(dbs: seq<Db>, evs: seq<Event>, i: nat, c: Id)
    requires |dbs| == |evs| + 1 && i < |evs| && Advances(dbs[i], evs[i], dbs[i + 1])
    requires c in dbs[i + 1].origins && c !in dbs[i].origins
    requires dbs[i + 1].origins[c] in dbs[i].browsers ==>
               dbs[i].browsers[dbs[i + 1].origins[c]].request.grant.binding.Some?
    ensures ConsentedTo(dbs, evs, i, c, dbs[i + 1].origins[c])
  {
    hide Admissible, Step, OutcomeOf, Advances;
    CodesComeFromApprovals(dbs[i], evs[i], dbs[i + 1], c);
    DynamicCodesComeFromConsent(dbs[i], evs[i], dbs[i + 1], c);
  }

  /** Static and dynamic grants are never accepted as each other, neither as codes nor as refresh
      tokens; without a registry only static grants are. */
  lemma GrantsKeepTheirKind(db: Db, ev: Event, after: Db)
    requires Advances(db, ev, after) && OutcomeOf(db, ev).Granted?
    ensures ev.call.Exchange? ==>
              ev.call.code.code in db.codes
              && var stored := db.codes[ev.call.code.code].grant.binding;
                 if ev.call.code.via.Checked? then SamePolicy(ev.call.code.via.registry, ev.call.code.clientId, stored)
                 else stored.None?
    ensures ev.call.Rotate? ==>
              ev.call.token.token in db.members && db.members[ev.call.token.token].family in db.families
              && var stored := db.families[db.members[ev.call.token.token].family].binding;
                 if ev.call.token.via.Checked? then
                   SamePolicy(ev.call.token.via.registry, ev.call.token.clientId, stored)
                 else stored.None?
  {
    hide Perform, Apply, PerformExchange, PerformRotate;
    if ev.call.Exchange? {
      EventExchange(db, ev, after);
      GrantedExchangeKeepsKind(db, ev.call.code, ev.env);
    } else if ev.call.Rotate? {
      EventRotate(db, ev, after);
      GrantedRotationKeepsKind(db, ev.call.token, ev.env);
    }
  }

  lemma GrantedExchangeKeepsKind(db: Db, q: CodeRequest, env: Env)
    requires PerformExchange(db, q, env).outcome.Granted?
    ensures q.code in db.codes
    ensures var stored := db.codes[q.code].grant.binding;
            if q.via.Checked? then SamePolicy(q.via.registry, q.clientId, stored) else stored.None?
  {
    hide CodeRequestGate, CodeBound, BoundResource;
  }

  lemma GrantedRotationKeepsKind(db: Db, q: TokenRequest, env: Env)
    requires PerformRotate(db, q, env).outcome.Granted?
    ensures q.token in db.members && db.members[q.token].family in db.families
    ensures var stored := db.families[db.members[q.token].family].binding;
            if q.via.Checked? then SamePolicy(q.via.registry, q.clientId, stored) else stored.None?
  {
    hide TokenRequestGate, TokenBound;
  }

  lemma ApprovalKeepsKind(q: ConsentRequest, row: BrowserRow, session: SessionRow, reg: Registry, env: Env)
    ensures DecideApprove(q, row, session, reg, env).outcome.ConsentGiven?
            || DecidePreAuthorize(q, row, session, reg, env).outcome.ConsentGiven? ==>
              SamePolicy(reg, row.request.grant.clientId, row.request.grant.binding)
  {
    hide ValidatePendingParts, PreAuthorizes;
    BindingsAreNeverConfused(reg, row.request.grant.clientId, row.request.grant.binding, env.at.a);
  }

  /** Nor does a browser transaction become a code under a policy of the other kind, or under another
      document than the one it began with. */
  lemma ApprovalsKeepTheirKind(db: Db, ev: Event)
    requires (ev.call.ApproveConsent? || ev.call.PreAuthorize?) && OutcomeOf(db, ev).ConsentGiven?
    ensures ev.call.consentRequest.browser in db.browsers
    ensures var g := db.browsers[ev.call.consentRequest.browser].request.grant;
            SamePolicy(ev.call.registry, g.clientId, g.binding)
  {
    hide DecideApprove, DecidePreAuthorize, DecideDeny, SamePolicy;
    var q := ev.call.consentRequest;
    if q.session in db.sessions && q.browser in db.browsers {
      ApprovalKeepsKind(q, db.browsers[q.browser], db.sessions[q.session], ev.call.registry, ev.env);
    }
  }

  lemma ConsentIsTimely(db: Db, call: Call, env: Env)
    requires IsConsentCall(call)
    requires PerformConsent(db, call, env).effect != NoEffect
    ensures var q := call.consentRequest;
            && q.session in db.sessions && q.browser in db.browsers
            && MatchesConsent(q, db.browsers[q.browser])
            && ConsentLive(db.browsers[q.browser], db.sessions[q.session], env.clock.first)
            && (call.PreAuthorize? ==>
                  && db.browsers[q.browser].request.allowPreAuthorization
                  && ConsentLive(db.browsers[q.browser], db.sessions[q.session], env.clock.third)
                  && var clientId := db.browsers[q.browser].request.grant.clientId;
                     clientId in call.registry.clients
                     && call.registry.clients[clientId].authorizationFlow == GooglePreauthorized)
  {
    hide ConsentLive, MatchesConsent, ValidateOptional, CodeFrom, TrustedRedirect, ResourceAllowed, EffectiveResource;
  }

  /** A browser transaction is approved or denied only by the session and CSRF secret it waits for,
      before it expires and while the session is live; without interaction only if both the
      transaction and the client's static policy allow it, and still live after the code was inserted. */
  lemma DecisionsAreTimely(db: Db, ev: Event)
    requires IsConsentCall(ev.call) && !ev.call.ViewConsent? && !OutcomeOf(db, ev).Rejected?
             && !OutcomeOf(db, ev).NeedsConsent?
    ensures var q := ev.call.consentRequest;
            && q.session in db.sessions && q.browser in db.browsers
            && var row, session, now := db.browsers[q.browser], db.sessions[q.session], ev.env.clock.first;
               && row.stage == AwaitingConsent && row.session == Some(q.session) && row.csrf == Some(q.csrf)
               && now < row.request.expiresAt && now < session.expiresAt && session.revokedAt.None?
               && (ev.call.PreAuthorize? ==>
                     && row.request.allowPreAuthorization && ev.env.clock.third < row.request.expiresAt
                     && ev.env.clock.third < session.expiresAt)
  {
    hide PerformConsent;
    ConsentOutcomes(db, ev.call, ev.env);
    ConsentIsTimely(db, ev.call, ev.env);
  }

  lemma ConsentOutcomes(db: Db, call: Call, env: Env)
    requires IsConsentCall(call)
    ensures Perform(db, call, env) == PerformConsent(db, call, env)
    ensures PerformConsent(db, call, env).effect == NoEffect ==>
              || PerformConsent(db, call, env).outcome.Rejected?
              || PerformConsent(db, call, env).outcome.NeedsConsent?
              || call.ViewConsent?
  {
    hide ConsentLive, MatchesConsent, ValidateOptional, Revalidate, CodeFrom, PreAuthorizes, Approve;
  }
}
