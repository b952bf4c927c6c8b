/** What racing requests can and cannot obtain: the theorems over serial runs, carried over to every
    interleaving. */
module Races {
  import opened Prelude
  import opened Tables
  import opened Invariants
  import opened Operations
  import opened Steps
  import opened Runs
  import opened LogoutRuns
  import opened BrowserRuns
  import opened Interleaving

  /** The database before the `i`-th finished request; past the last one, the present database. */
  function StateAt(m: Machine, i: nat): Db {
    if i < |m.past| then m.past[i] else m.db
  }

  predicate WinsTokensFor(entry: Entry, code: Id) {
    entry.event.call.Exchange? && entry.event.call.code.code == code && entry.outcome.Granted?
  }

  /** However exchanges of one code interleave, at most one of them obtains tokens. */
  lemma RacingExchangesHaveOneWinner(ms: seq<Machine>, mvs: seq<Move>, code: Id, i: nat, j: nat)
    requires Trace(ms, mvs) && i < |ms[|mvs|].log| && j < |ms[|mvs|].log|
    requires WinsTokensFor(ms[|mvs|].log[i], code) && WinsTokensFor(ms[|mvs|].log[j], code)
    ensures i == j
  {
    hide Run, OutcomeOf;
    EveryInterleavingIsSerial(ms, mvs);
    var m := ms[|mvs|];
    CodeIsExchangedAtMostOnce(m.past + [m.db], EventsOf(m.log), code, i, j);
  }

  predicate WinsRotationOf(entry: Entry, token: Id) {
    entry.event.call.Rotate? && entry.event.call.token.token == token && entry.outcome.Granted?
  }

  /** However presentations of one refresh token interleave, at most one of them is rotated. */
  lemma RacingRotationsHaveOneWinner(ms: seq<Machine>, mvs: seq<Move>, token: Id, i: nat, j: nat)
    requires Trace(ms, mvs) && i < |ms[|mvs|].log| && j < |ms[|mvs|].log|
    requires WinsRotationOf(ms[|mvs|].log[i], token) && WinsRotationOf(ms[|mvs|].log[j], token)
    ensures i == j
  {
    hide Run, OutcomeOf;
    EveryInterleavingIsSerial(ms, mvs);
    var m := ms[|mvs|];
    TokenIsRotatedAtMostOnce(m.past + [m.db], EventsOf(m.log), token, i, j);
  }

  predicate CompletesLogout(entry: Entry) {
    || (entry.event.call.Logout? && entry.outcome.Acknowledged?)
    || (entry.event.call.FinishLogout? && entry.outcome.LoggedOut?)
  }

  /** A request that finishes after a logout of its session has finished obtains nothing under that
      session: no tokens, no code, no consent, no challenge and no second logout, whenever it started
      and whatever it had read and locked by then. */
  lemma NothingIsObtainedAfterLogout(ms: seq<Machine>, mvs: seq<Move>, i: nat, j: nat)
    requires Trace(ms, mvs) && i < j < |ms[|mvs|].log|
    requires CompletesLogout(ms[|mvs|].log[i])
    ensures var log := ms[|mvs|].log;
            !Obtains(log[j].event.call, log[j].outcome, LogoutSession(log[i].event.call))
  {
    hide Run, OutcomeOf, Obtains;
    EveryInterleavingIsSerial(ms, mvs);
    var m := ms[|mvs|];
    LogoutIsFinal(m.past + [m.db], EventsOf(m.log), i, j);
  }

  /** The request has logged a subject in, or linked it. */
  predicate EndsWithAUser(entry: Entry) {
    || (entry.event.call.CompleteCallback? && entry.outcome.LoggedIn?)
    || (entry.event.call.LinkIdentity? && entry.outcome.UserLinked?)
  }

  function SubjectOf(call: Call): string
    requires call.CompleteCallback? || call.LinkIdentity?
  {
    if call.CompleteCallback? then call.identity.subject else call.subject
  }

  /** The user it ended with: the one of the session it opened, or the one it returned. */
  function UserOf(db: Db, entry: Entry): Option<Id>
    requires EndsWithAUser(entry)
  {
    if entry.outcome.UserLinked? then Some(entry.outcome.userId)
    else if entry.outcome.id in db.sessions then Some(db.sessions[entry.outcome.id].userId)
    else None
  }

  lemma LoginOpensItsSession(db: Db, ev: Event, after: Db)
    requires Advances(db, ev, after) && ev.call.CompleteCallback? && OutcomeOf(db, ev).LoggedIn?
    ensures OutcomeOf(db, ev).id in after.sessions
    ensures Identifies(db, ev, ev.call.identity.subject, after.sessions[OutcomeOf(db, ev).id].userId)
  {
    hide FindClaim;
    CompletionDecisions(db, ev.call, ev.env);
    LoginLinks(db, ev);
    LoginNamesItsSession(db, ev);
  }

  lemma LoginNamesItsSession(db: Db, ev: Event)
    requires ev.call.CompleteCallback? && OutcomeOf(db, ev).LoggedIn?
    ensures Perform(db, ev.call, ev.env).effect.LoginBrowser?
    ensures OutcomeOf(db, ev).id == Perform(db, ev.call, ev.env).effect.sessionId
  {
    hide ValidateOptional, FindClaim;
  }

  /** A finished request has identified its subject with the user its session still has at the end. */
  lemma FinishedLoginsIdentify(ms: seq<Machine>, mvs: seq<Move>, i: nat)
    requires Trace(ms, mvs) && i < |ms[|mvs|].log| && EndsWithAUser(ms[|mvs|].log[i])
    ensures var m := ms[|mvs|];
            && UserOf(m.db, m.log[i]).Some?
            && Identifies(StateAt(m, i), m.log[i].event, SubjectOf(m.log[i].event.call), UserOf(m.db, m.log[i]).value)
  {
    hide OutcomeOf, Advances, Identifies;
    EveryInterleavingIsSerial(ms, mvs);
    var m := ms[|mvs|];
    var dbs, ev := m.past + [m.db], m.log[i].event;
    assert Advances(dbs[i], EventsOf(m.log)[i], dbs[i + 1]);
    if ev.call.CompleteCallback? {
      LoginOpensItsSession(dbs[i], ev, dbs[i + 1]);
      RunLosesNothing(dbs, EventsOf(m.log), i + 1, |m.log|);
    } else {
      LinkIdentifies(dbs[i], ev);
    }
  }

  lemma LinkIdentifies(db: Db, ev: Event)
    requires ev.call.LinkIdentity? && OutcomeOf(db, ev).UserLinked?
    ensures Identifies(db, ev, ev.call.subject, OutcomeOf(db, ev).userId)
  {
    hide OutcomeOf;
  }

  /** However logins interleave, two of them end with the same user exactly if they are of the same
      subject. */
  lemma RacingLoginsAgree(ms: seq<Machine>, mvs: seq<Move>, i: nat, j: nat)
    requires Trace(ms, mvs) && i <= j < |ms[|mvs|].log|
    requires EndsWithAUser(ms[|mvs|].log[i]) && EndsWithAUser(ms[|mvs|].log[j])
    ensures var m := ms[|mvs|];
            SubjectOf(m.log[i].event.call) == SubjectOf(m.log[j].event.call)
            <==> UserOf(m.db, m.log[i]) == UserOf(m.db, m.log[j])
  {
    hide Run, OutcomeOf, Identifies, SubjectOf, UserOf;
    EveryInterleavingIsSerial(ms, mvs);
    FinishedLoginsIdentify(ms, mvs, i);
    FinishedLoginsIdentify(ms, mvs, j);
    var m := ms[|mvs|];
    SubjectsAndUsersCorrespond(m.past + [m.db], EventsOf(m.log), i, j, SubjectOf(m.log[i].event.call),
                               SubjectOf(m.log[j].event.call),
                               UserOf(m.db, m.log[i]).value, UserOf(m.db, m.log[j]).value);
  }

  // ---- replays ----

  /** Whatever else is under way: a used code that is rightly presented again obtains nothing, and in
      every later state every family that descends from it is revoked. */
  lemma RacingCodeReplaysEndDescendants(ms: seq<Machine>, mvs: seq<Move>, code: Id, i: nat, k: nat)
    requires Trace(ms, mvs) && i < k <= |ms[|mvs|].log|
    requires var m := ms[|mvs|];
             && m.log[i].event.call.Exchange? && m.log[i].event.call.code.code == code
             && code in StateAt(m, i).codes && StateAt(m, i).codes[code].consumedAt.Some?
             && CodePermitted(m.log[i].event.call.code, StateAt(m, i).codes[code], m.log[i].event.env)
    ensures ms[|mvs|].log[i].outcome == Rejected(InvalidGrant)
    ensures DescendantsRevoked(StateAt(ms[|mvs|], k), code)
  {
    hide Run, OutcomeOf, CodePermitted, DescendantsRevoked, RotatesIn;
    EveryInterleavingIsSerial(ms, mvs);
    var m := ms[|mvs|];
    CodeReplayEndsItsDescendants(m.past + [m.db], EventsOf(m.log), code, i, k);
  }

  /** Whatever else is under way: once a refresh token has been rotated, rightly presenting it again
      obtains nothing and revokes its family, in every later state, so that no request that finishes
      later rotates any member of it. */
  lemma RacingTokenReplaysEndTheFamily(ms: seq<Machine>, mvs: seq<Move>, token: Id, i: nat, j: nat, k: nat)
    requires Trace(ms, mvs) && i < j < k <= |ms[|mvs|].log|
    requires WinsRotationOf(ms[|mvs|].log[i], token)
    requires var m := ms[|mvs|];
             && m.log[j].event.call.Rotate? && m.log[j].event.call.token.token == token
             && token in StateAt(m, j).members && StateAt(m, j).members[token].family in StateAt(m, j).families
             && TokenPermitted(m.log[j].event.call.token, StateAt(m, j).families[StateAt(m, j).members[token].family],
                               m.log[j].event.env)
    ensures var m := ms[|mvs|];
            var family := StateAt(m, j).members[token].family;
            && m.log[j].outcome == Rejected(InvalidGrant)
            && family in StateAt(m, k).families && StateAt(m, k).families[family].revokedAt.Some?
            && (k < |m.log| ==> !RotatesIn(StateAt(m, k), m.log[k].event, family))
  {
    hide Run, OutcomeOf, TokenPermitted, RotatesIn;
    EveryInterleavingIsSerial(ms, mvs);
    var m := ms[|mvs|];
    TokenReplayEndsTheFamily(m.past + [m.db], EventsOf(m.log), token, i, j, k);
  }

  // ---- callbacks and second tries ----

  predicate WinsCallbackOf(entry: Entry, state: Id) {
    entry.event.call.ClaimCallback? && entry.event.call.state == state && entry.outcome.CallbackWon?
  }

  lemma WinnersAreFound(db: Db, ev: Event)
    requires ev.call.ClaimCallback? && OutcomeOf(db, ev).CallbackWon?
    ensures var found := FindState(db, ev.call.state, ev.call.binding);
            && found.Some? && found.value in db.browsers
            && db.browsers[found.value].upstreamState == Some(ev.call.state)
            && WinsCallback(db, ev, found.value)
  {
    hide Perform, FindState;
    ClaimPerforms(db, ev.call, ev.env);
  }

  lemma StatesNameOneRow(a: Db, b: Db, state: Id, x: Id, y: Id)
    requires BrowsersOk(b.browsers, b.sessions) && BrowsersKept(a.browsers, b.browsers)
    requires x in a.browsers && a.browsers[x].upstreamState == Some(state)
    requires y in b.browsers && b.browsers[y].upstreamState == Some(state)
    ensures x == y
  {
    assert BrowserKept(a.browsers[x], b.browsers[x]);
  }

  /** However callbacks with one upstream state interleave, at most one of them is handed the verifier. */
  lemma RacingCallbacksHaveOneWinner(ms: seq<Machine>, mvs: seq<Move>, state: Id, i: nat, j: nat)
    requires Trace(ms, mvs) && i <= j < |ms[|mvs|].log|
    requires WinsCallbackOf(ms[|mvs|].log[i], state) && WinsCallbackOf(ms[|mvs|].log[j], state)
    ensures i == j
  {
    hide Run, OutcomeOf, WinsCallback, FindState, SessionsOk, CodesOk, FamiliesOk, SourcesOk, MembersOk, ChainsOk,
         ChallengesOk, BrowsersOk, OriginsOk, IdentitiesOk, BrowsersKept;
    EveryInterleavingIsSerial(ms, mvs);
    var m := ms[|mvs|];
    var dbs, evs := m.past + [m.db], EventsOf(m.log);
    WinnersAreFound(dbs[i], evs[i]);
    WinnersAreFound(dbs[j], evs[j]);
    var x := FindState(dbs[i], evs[i].call.state, evs[i].call.binding).value;
    var y := FindState(dbs[j], evs[j].call.state, evs[j].call.binding).value;
    RunStaysValid(dbs, evs, j);
    RunLosesNothing(dbs, evs, i, j);
    StatesNameOneRow(dbs[i], dbs[j], state, x, y);
    CallbackIsWonAtMostOnce(dbs, evs, x, i, j);
  }

  /** A try that ends because its metadata lease ran out has changed nothing, whatever else was under way
      around it; so of the two tries of a request at most one ever takes effect. */
  lemma FailedTriesChangeNothing(ms: seq<Machine>, mvs: seq<Move>, i: nat)
    requires Trace(ms, mvs) && i < |ms[|mvs|].log|
    requires ms[|mvs|].log[i].outcome == Rejected(MetadataExpired)
    ensures StateAt(ms[|mvs|], i + 1) == StateAt(ms[|mvs|], i)
  {
    hide OutcomeOf, Valid, Step, Admissible;
    EveryInterleavingIsSerial(ms, mvs);
    var m := ms[|mvs|];
    var dbs, evs := m.past + [m.db], EventsOf(m.log);
    assert Advances(dbs[i], evs[i], dbs[i + 1]);
    RunStaysValid(dbs, evs, i);
    LeaseFailuresChangeNothing(dbs[i], evs[i]);
  }

  lemma LeaseFailuresChangeNothing(db: Db, ev: Event)
    requires Valid(db) && OutcomeOf(db, ev) == Rejected(MetadataExpired)
    ensures Step(db, ev.call, ev.env) == db
  {
    hide Valid, Perform, Step;
    FailuresLeaveNoTrace(db, ev.call, ev.env);
  }
}
