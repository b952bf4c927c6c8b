/** Which rows a concluding request writes: only rows under locks it holds.  So what the others
    have read stays accurate. */
module Footprints {
  import opened Prelude
  import opened Policy
  import opened Tables
  import opened Invariants
  import opened Operations
  import opened Tasks

  ghost predicate SessionsCovered(a: map<Id, SessionRow>, b: map<Id, SessionRow>, loc: Locals) {
    forall s | s in a && s in b :: b[s] == a[s] || Holds(loc, SessionLock(s))
  }

  ghost predicate CodesCovered(a: map<Id, CodeRow>, b: map<Id, CodeRow>, loc: Locals) {
    forall c | c in a && c in b :: b[c] == a[c] || Holds(loc, SessionLock(a[c].session))
  }

  ghost predicate FamiliesCovered(a: map<Id, FamilyRow>, b: map<Id, FamilyRow>, loc: Locals) {
    forall f | f in a && f in b :: b[f] == a[f] || Holds(loc, SessionLock(a[f].session))
  }

  ghost predicate MembersCovered(a: map<Id, MemberRow>, families: map<Id, FamilyRow>, b: map<Id, MemberRow>,
                                 loc: Locals) {
    forall m | m in a && m in b && a[m].family in families ::
      b[m] == a[m] || Holds(loc, SessionLock(families[a[m].family].session))
  }

  ghost predicate ChallengesCovered(a: map<Id, ChallengeRow>, b: map<Id, ChallengeRow>, loc: Locals) {
    forall c | c in a && c in b :: b[c] == a[c] || Holds(loc, SessionLock(a[c].session))
  }

  ghost predicate BrowsersCovered(a: map<Id, BrowserRow>, b: map<Id, BrowserRow>, loc: Locals) {
    forall r | r in a && r in b :: b[r] == a[r] || Holds(loc, BrowserLock(r))
  }

  ghost predicate IdentitiesCovered(a: map<string, Id>, b: map<string, Id>, loc: Locals) {
    forall u | u in b :: u in a || Holds(loc, IdentityLock(u))
  }

  /** Every stored row that differs in `out` is guarded by a lock in `loc`: credentials by their
      session's lock, browser rows by their own, subjects by their identity lock. */
  ghost predicate Covers(db: Db, loc: Locals, out: Db) {
    && SessionsCovered(db.sessions, out.sessions, loc)
    && CodesCovered(db.codes, out.codes, loc)
    && FamiliesCovered(db.families, out.families, loc)
    && MembersCovered(db.members, db.families, out.members, loc)
    && ChallengesCovered(db.challenges, out.challenges, loc)
    && BrowsersCovered(db.browsers, out.browsers, loc)
    && IdentitiesCovered(db.identities, out.identities, loc)
  }

  lemma NothingIsCovered(db: Db, loc: Locals)
    ensures Covers(db, loc, Apply(db, NoEffect))
  {
  }

  /** Locked credential rows belong to the locked session. */
  lemma LockedRowsBelong(db: Db, call: Call, env: Env, loc: Locals)
    requires Accurate(db, call, loc) && Fits(call, env, loc)
    ensures loc.code.Some? ==> loc.session.Some? && loc.code.value.row.session == loc.session.value.id
    ensures loc.challenge.Some? ==> loc.session.Some? && loc.challenge.value.row.session == loc.session.value.id
    ensures loc.family.Some? ==> loc.session.Some? && loc.family.value.row.session == loc.session.value.id
    ensures loc.member.Some? ==> loc.session.Some? && loc.member.value.row.family in db.families
                                 && db.families[loc.member.value.row.family].session == loc.session.value.id
  {
  }

  // ---- which effects a conclusion can have ----

  lemma ExchangeEffects(q: CodeRequest, row: CodeRow, session: SessionRow, env: Env)
    ensures var e := DecideExchange(q, row, session, env).effect;
            e.NoEffect? || (e.UseCode? && e.id == q.code && row.consumedAt.None?) || (e.RevokeSource? && e.id == q.code)
  {
    hide CodePolicy, CheckBinding;
  }

  lemma UseIsCovered(db: Db, loc: Locals, c: Id, at: Time, renewal: Option<Renewal>)
    requires c in db.codes && Holds(loc, SessionLock(db.codes[c].session))
    requires renewal.Some? ==> renewal.value.id !in db.families && renewal.value.token !in db.members
    ensures Covers(db, loc, Apply(db, UseCode(c, at, renewal)))
  {
  }

  lemma SourceRevocationIsCovered(db: Db, loc: Locals, c: Id, at: Time)
    requires FamiliesOk(db.families, db.codes, db.sessions)
    requires c in db.codes && Holds(loc, SessionLock(db.codes[c].session))
    ensures Covers(db, loc, Apply(db, RevokeSource(c, at)))
  {
    var out := Apply(db, RevokeSource(c, at));
    forall f | f in db.families && out.families[f] != db.families[f]
      ensures Holds(loc, SessionLock(db.families[f].session))
    {
      assert FamilyOk(db.families[f], db.codes[db.families[f].sourceCode], db.sessions[db.families[f].session]);
    }
  }

  lemma FamilyRevocationIsCovered(db: Db, loc: Locals, f: Id, at: Time)
    requires f in db.families && Holds(loc, SessionLock(db.families[f].session))
    ensures Covers(db, loc, Apply(db, RevokeFamily(f, at)))
  {
  }

  lemma RotationIsCovered(db: Db, loc: Locals, m: Id, next: Id, at: Time)
    requires m in db.members && db.members[m].family in db.families && next !in db.members
    requires Holds(loc, SessionLock(db.families[db.members[m].family].session))
    ensures Covers(db, loc, Apply(db, RotateToken(m, next, at)))
  {
  }

  lemma SessionEndIsCovered(db: Db, loc: Locals, s: Id, at: Time, familiesAt: Id -> Time)
    requires Holds(loc, SessionLock(s))
    ensures Covers(db, loc, Apply(db, EndSession(s, at, familiesAt)))
  {
  }

  lemma FinishIsCovered(db: Db, loc: Locals, c: Id, s: Id, at: Time)
    requires Holds(loc, SessionLock(s)) && c in db.challenges && db.challenges[c].session == s
    ensures Covers(db, loc, Apply(db, FinishChallenge(c, s, at)))
  {
  }

  lemma BrowserMoveIsCovered(db: Db, loc: Locals, b: Id, row: BrowserRow)
    requires Holds(loc, BrowserLock(b)) || b !in db.browsers
    ensures Covers(db, loc, Apply(db, MoveBrowser(b, row)))
    ensures Covers(db, loc, Apply(db, AddBrowser(b, row)))
  {
  }

  lemma BrowserUpdateIsCovered(a: map<Id, BrowserRow>, loc: Locals, b: Id, row: BrowserRow)
    requires Holds(loc, BrowserLock(b))
    ensures BrowsersCovered(a, a[b := row], loc)
  {
  }

  lemma NewCodeIsCovered(a: map<Id, CodeRow>, loc: Locals, c: Id, row: CodeRow)
    requires c !in a
    ensures CodesCovered(a, a[c := row], loc)
  {
  }

  lemma NewSessionIsCovered(a: map<Id, SessionRow>, loc: Locals, s: Id, row: SessionRow)
    requires s !in a
    ensures SessionsCovered(a, a[s := row], loc)
  {
  }

  lemma SubjectIsCovered(a: map<string, Id>, loc: Locals, subject: string, user: Id)
    requires Holds(loc, IdentityLock(subject))
    ensures IdentitiesCovered(a, a[subject := user], loc)
  {
  }

  lemma UntouchedIsCovered(db: Db, loc: Locals)
    ensures SessionsCovered(db.sessions, db.sessions, loc) && CodesCovered(db.codes, db.codes, loc)
            && FamiliesCovered(db.families, db.families, loc)
               && MembersCovered(db.members, db.families, db.members, loc)
            && ChallengesCovered(db.challenges, db.challenges, loc) && BrowsersCovered(db.browsers, db.browsers, loc)
            && IdentitiesCovered(db.identities, db.identities, loc)
  {
  }

  lemma ApprovalIsCovered(db: Db, loc: Locals, b: Id, codeId: Id, code: CodeRow)
    requires Holds(loc, BrowserLock(b)) && codeId !in db.codes
    ensures Covers(db, loc, Apply(db, ApproveBrowser(b, codeId, code)))
  {
    hide SessionsCovered, CodesCovered, FamiliesCovered, MembersCovered, ChallengesCovered, BrowsersCovered,
         IdentitiesCovered, Holds, ApprovedRow, LoggedInRow;
    NothingIsCovered(db, loc);
    if b in db.browsers {
      BrowserUpdateIsCovered(db.browsers, loc, b, ApprovedRow(db.browsers[b]));
      UntouchedIsCovered(db, loc);
      NewCodeIsCovered(db.codes, loc, codeId, code);
    }
  }

  lemma LoginIsCovered(db: Db, loc: Locals, e: Effect)
    requires e.LoginBrowser? && Holds(loc, BrowserLock(e.id)) && Holds(loc, IdentityLock(e.subject))
             && e.sessionId !in db.sessions
    ensures Covers(db, loc, Apply(db, e))
  {
    hide SessionsCovered, CodesCovered, FamiliesCovered, MembersCovered, ChallengesCovered, BrowsersCovered,
         IdentitiesCovered, Holds, ApprovedRow, LoggedInRow;
    NothingIsCovered(db, loc);
    if e.id in db.browsers {
      BrowserUpdateIsCovered(db.browsers, loc, e.id, LoggedInRow(db.browsers[e.id], e.sessionId, e.csrf));
      UntouchedIsCovered(db, loc);
      NewSessionIsCovered(db.sessions, loc, e.sessionId, e.session);
      SubjectIsCovered(db.identities, loc, e.subject, e.session.userId);
    }
  }

  lemma NewChallengeIsCovered(a: map<Id, ChallengeRow>, loc: Locals, c: Id, row: ChallengeRow)
    requires c !in a
    ensures ChallengesCovered(a, a[c := row], loc)
  {
  }

  lemma InsertionsAreCovered(db: Db, loc: Locals, e: Effect)
    requires (e.AddSession? && e.id !in db.sessions) || (e.AddCode? && e.id !in db.codes)
             || (e.AddChallenge? && e.id !in db.challenges)
             || (e.LinkUser? && Holds(loc, IdentityLock(e.subject)))
    ensures Covers(db, loc, Apply(db, e))
  {
    hide SessionsCovered, CodesCovered, FamiliesCovered, MembersCovered, ChallengesCovered, BrowsersCovered,
         IdentitiesCovered, Holds;
    UntouchedIsCovered(db, loc);
    match e
    case AddSession(id, row) => NewSessionIsCovered(db.sessions, loc, id, row);
    case AddCode(id, row) => NewCodeIsCovered(db.codes, loc, id, row);
    case AddChallenge(id, row) => NewChallengeIsCovered(db.challenges, loc, id, row);
    case LinkUser(subject, userId, _) => SubjectIsCovered(db.identities, loc, subject, userId);
  }

  // ---- request by request ----

  lemma ExchangeIsCovered(db: Db, q: CodeRequest, env: Env, loc: Locals)
    requires FamiliesOk(db.families, db.codes, db.sessions)
    requires Accurate(db, Exchange(q), loc) && Fits(Exchange(q), env, loc) && NextForExchange(q, loc, env).Conclude?
    requires Guarded(db, NextForExchange(q, loc, env).decision.effect)
    ensures Covers(db, loc, Apply(db, NextForExchange(q, loc, env).decision.effect))
  {
    hide Covers, Apply, CodeRequestGate, CodeBound, DecideExchange, FamiliesOk, NewFamilyOk;
    LockedRowsBelong(db, Exchange(q), env, loc);
    NothingIsCovered(db, loc);
    if loc.code.Some? {
      ExchangeEffects(q, loc.code.value.row, loc.session.value.row, env);
      var e := NextForExchange(q, loc, env).decision.effect;
      if e.UseCode? {
        RenewalIsNew(db, e.id, e.at, e.renewal);
        UseIsCovered(db, loc, e.id, e.at, e.renewal);
      } else if e.RevokeSource? {
        SourceRevocationIsCovered(db, loc, e.id, e.at);
      }
    }
  }

  lemma RenewalIsNew(db: Db, c: Id, at: Time, renewal: Option<Renewal>)
    requires Guarded(db, UseCode(c, at, renewal))
    ensures renewal.Some? ==> renewal.value.id !in db.families && renewal.value.token !in db.members
  {
  }

  lemma RotateEffects(q: TokenRequest, member: MemberRow, family: FamilyRow, session: SessionRow, env: Env)
    ensures var e := DecideRotate(q, member, family, session, env).effect;
            e.NoEffect? || (e.RotateToken? && e.id == q.token) || (e.RevokeFamily? && e.id == member.family)
  {
    hide TokenPolicy, CheckBinding, TokenBound;
  }

  lemma RotateIsCovered(db: Db, q: TokenRequest, env: Env, loc: Locals)
    requires Accurate(db, Rotate(q), loc) && Fits(Rotate(q), env, loc) && NextForRotate(q, loc, env).Conclude?
    requires Guarded(db, NextForRotate(q, loc, env).decision.effect)
    ensures Covers(db, loc, Apply(db, NextForRotate(q, loc, env).decision.effect))
  {
    hide Covers, Apply, TokenRequestGate, DecideRotate;
    LockedRowsBelong(db, Rotate(q), env, loc);
    NothingIsCovered(db, loc);
    if loc.member.Some? {
      RotateEffects(q, loc.member.value.row, loc.family.value.row, loc.session.value.row, env);
      var e := NextForRotate(q, loc, env).decision.effect;
      if e.RotateToken? {
        RotationIsCovered(db, loc, e.id, e.next, e.at);
      } else if e.RevokeFamily? {
        FamilyRevocationIsCovered(db, loc, e.id, e.at);
      }
    }
  }

  lemma RevokeIsCovered(db: Db, call: Call, env: Env, loc: Locals)
    requires call.RevokeRefresh?
    requires Accurate(db, call, loc) && Fits(call, env, loc) && NextForRevoke(call.clientId, loc, env).Conclude?
    ensures Covers(db, loc, Apply(db, NextForRevoke(call.clientId, loc, env).decision.effect))
  {
    hide Covers, Apply;
    LockedRowsBelong(db, call, env, loc);
    NothingIsCovered(db, loc);
    if loc.family.Some? {
      FamilyRevocationIsCovered(db, loc, loc.family.value.id, env.clock.first);
    }
  }

  lemma ConsentEffects(call: Call, row: BrowserRow, session: SessionRow, env: Env)
    requires IsConsentCall(call)
    ensures var e := DecideConsent(call, row, session, env).effect;
            e.NoEffect? || ((e.ApproveBrowser? || e.MoveBrowser?) && e.id == call.consentRequest.browser)
  {
    hide Revalidate, ValidateOptional, PreAuthorizes, Approve, ConsentLive, CodeFrom;
  }

  lemma ConsentIsCovered(db: Db, call: Call, env: Env, loc: Locals)
    requires IsConsentCall(call)
    requires Accurate(db, call, loc) && Fits(call, env, loc) && NextForConsent(call, loc, env).Conclude?
    requires Guarded(db, NextForConsent(call, loc, env).decision.effect)
    ensures Covers(db, loc, Apply(db, NextForConsent(call, loc, env).decision.effect))
  {
    hide Covers, Apply, DecideConsent, MoveOk, OriginOk, MatchesConsent;
    NothingIsCovered(db, loc);
    ConsentEffects(call, loc.browser.value.row, loc.session.value.row, env);
    var e := NextForConsent(call, loc, env).decision.effect;
    if e.ApproveBrowser? {
      ApprovalIsCovered(db, loc, e.id, e.codeId, e.code);
    } else if e.MoveBrowser? {
      BrowserMoveIsCovered(db, loc, e.id, e.browser);
    }
  }

  lemma RowEffects(call: Call, id: Id, row: BrowserRow, env: Env)
    ensures DecideStartGoogle(id, row).effect.MoveBrowser? && DecideStartGoogle(id, row).effect.id == id
    ensures DecideFail(id, row).effect.MoveBrowser? && DecideFail(id, row).effect.id == id
    ensures DecideClaim(id, row, env).effect.MoveBrowser? && DecideClaim(id, row, env).effect.id == id
    ensures call.CancelGoogle? ==>
              var e := DecideCancel(id, row, call.optional, env).effect; e.NoEffect? || (e.MoveBrowser? && e.id == id)
    ensures call.DenyCallback? ==>
              var e := DecideDenyCallback(id, row, call.registry, env).effect;
              e.NoEffect? || (e.MoveBrowser? && e.id == id)
  {
    hide Revalidate, ValidateOptional;
  }

  lemma RowIsCovered(db: Db, call: Call, env: Env, loc: Locals)
    requires IsRowCall(call)
    requires Accurate(db, call, loc) && NextOnRow(call, loc, env).Conclude?
    ensures Covers(db, loc, Apply(db, NextOnRow(call, loc, env).decision.effect))
  {
    hide Covers, Apply, DecideStartGoogle, DecideCancel, DecideClaim, DecideFail, DecideDenyCallback;
    NothingIsCovered(db, loc);
    RowEffects(call, loc.browser.value.id, loc.browser.value.row, env);
    var e := NextOnRow(call, loc, env).decision.effect;
    if e.MoveBrowser? {
      BrowserMoveIsCovered(db, loc, e.id, e.browser);
    }
  }

  lemma CompleteEffects(id: Id, row: BrowserRow, call: Call, userId: Id, env: Env)
    requires call.CompleteCallback?
    ensures var e := DecideComplete(id, row, call.identity, call.lifetime, call.optional, userId, env).effect;
            || e.NoEffect?
            || (e.MoveBrowser? && e.id == id)
            || (e.LoginBrowser? && e.id == id && e.subject == call.identity.subject)
  {
    hide ValidateOptional;
  }

  lemma CompleteIsCovered(db: Db, call: Call, env: Env, loc: Locals)
    requires call.CompleteCallback?
    requires Accurate(db, call, loc) && Fits(call, env, loc)
    requires var a := NextForComplete(call.claim, call.identity, call.lifetime, call.optional, loc, env);
             a.Conclude? && Guarded(db, a.decision.effect)
    ensures var a := NextForComplete(call.claim, call.identity, call.lifetime, call.optional, loc, env);
            Covers(db, loc, Apply(db, a.decision.effect))
  {
    hide Covers, Apply, DecideComplete, ValidateOptional, MoveOk, MatchesClaim, LinkOk;
    NothingIsCovered(db, loc);
    if loc.browser.Some? && loc.subject.Some? {
      CompleteEffects(loc.browser.value.id, loc.browser.value.row, call, loc.subject.value.user.GetOr(env.drawn.user),
                      env);
      var e := NextForComplete(call.claim, call.identity, call.lifetime, call.optional, loc, env).decision.effect;
      if e.LoginBrowser? {
        LoginIsCovered(db, loc, e);
      } else if e.MoveBrowser? {
        BrowserMoveIsCovered(db, loc, e.id, e.browser);
      }
    }
  }

  lemma SessionEffects(call: Call, env: Env, loc: Locals)
    requires IsSessionCall(call)
    requires NextUnderSession(call, loc, env).Conclude?
    ensures var e := NextUnderSession(call, loc, env).decision.effect;
            || e.NoEffect? || e.AddCode? || e.AddChallenge? || e.AddBrowser?
            || (e.EndSession? && call.Logout? && e.id == call.session && loc.session.Some?)
            || (e.FinishChallenge? && call.FinishLogout? && e.id == call.logout.challenge
                && e.sessionId == call.logout.session
                && loc.session.Some? && loc.challenge.Some?)
  {
    hide ValidPostLogoutRedirect, AllowsIdTokenLogout, CodeFrom, SessionLive, BeginRequest;
  }

  lemma UnderSessionIsCovered(db: Db, call: Call, env: Env, loc: Locals)
    requires IsSessionCall(call)
    requires Accurate(db, call, loc) && Fits(call, env, loc) && NextUnderSession(call, loc, env).Conclude?
    requires Guarded(db, NextUnderSession(call, loc, env).decision.effect)
    ensures Covers(db, loc, Apply(db, NextUnderSession(call, loc, env).decision.effect))
  {
    hide Covers, Apply, NextUnderSession;
    NothingIsCovered(db, loc);
    SessionEffects(call, env, loc);
    var e := NextUnderSession(call, loc, env).decision.effect;
    if e.EndSession? {
      SessionEndIsCovered(db, loc, e.id, e.at, e.familiesAt);
    } else if e.FinishChallenge? {
      FinishIsCovered(db, loc, e.id, e.sessionId, e.at);
    } else if e.AddBrowser? {
      BrowserMoveIsCovered(db, loc, e.id, e.browser);
    } else if !e.NoEffect? {
      InsertionsAreCovered(db, loc, e);
    }
  }

  lemma UnlockedIsCovered(db: Db, call: Call, env: Env, loc: Locals)
    requires call.CreateSession? || call.BeginGoogle? || call.LinkIdentity?
    requires Fits(call, env, loc) && Next(call, loc, env).Conclude?
    requires Guarded(db, Next(call, loc, env).decision.effect)
    ensures Covers(db, loc, Apply(db, Next(call, loc, env).decision.effect))
  {
    hide Covers, Apply;
    NothingIsCovered(db, loc);
    var e := Next(call, loc, env).decision.effect;
    if e.AddBrowser? {
      BrowserMoveIsCovered(db, loc, e.id, e.browser);
    } else if !e.NoEffect? {
      InsertionsAreCovered(db, loc, e);
    }
  }

  /** A concluding request writes only under its own locks. */
  lemma ConclusionsAreCovered(db: Db, call: Call, env: Env, loc: Locals)
    requires Valid(db) && Accurate(db, call, loc) && Fits(call, env, loc) && Next(call, loc, env).Conclude?
    requires Guarded(db, Next(call, loc, env).decision.effect)
    ensures Covers(db, loc, Apply(db, Next(call, loc, env).decision.effect))
  {
    hide CodesOk, FamiliesOk, SourcesOk, MembersOk, ChainsOk, ChallengesOk, BrowsersOk, OriginsOk, IdentitiesOk,
         SessionsOk, NextForExchange, NextForRotate, NextForRevoke, NextForConsent, NextForComplete, NextUnderSession,
         NextOnRow, Fits, Guarded, Covers, Apply, Accurate;
    match call
    case Exchange(q) => ExchangeIsCovered(db, q, env, loc);
    case Rotate(q) => RotateIsCovered(db, q, env, loc);
    case RevokeRefresh(_, _) => RevokeIsCovered(db, call, env, loc);
    case CompleteCallback(_, _, _, _) => CompleteIsCovered(db, call, env, loc);
    case ApproveConsent(_, _) => ConsentIsCovered(db, call, env, loc);
    case PreAuthorize(_, _) => ConsentIsCovered(db, call, env, loc);
    case DenyConsent(_, _) => ConsentIsCovered(db, call, env, loc);
    case ViewConsent(_, _) => ConsentIsCovered(db, call, env, loc);
    case IssueCode(_, _, _) => UnderSessionIsCovered(db, call, env, loc);
    case Logout(_) => UnderSessionIsCovered(db, call, env, loc);
    case BeginLogout(_, _) => UnderSessionIsCovered(db, call, env, loc);
    case FinishLogout(_) => UnderSessionIsCovered(db, call, env, loc);
    case BeginAuthenticated(_, _) => UnderSessionIsCovered(db, call, env, loc);
    case ReadAuthTime(_) => UnderSessionIsCovered(db, call, env, loc);
    case StartGoogle(_) => RowIsCovered(db, call, env, loc);
    case CancelGoogle(_, _) => RowIsCovered(db, call, env, loc);
    case ClaimCallback(_, _) => RowIsCovered(db, call, env, loc);
    case FailCallback(_) => RowIsCovered(db, call, env, loc);
    case DenyCallback(_, _) => RowIsCovered(db, call, env, loc);
    case LinkIdentity(_, _) => UnlockedIsCovered(db, call, env, loc);
    case CreateSession(_, _, _) => UnlockedIsCovered(db, call, env, loc);
    case BeginGoogle(_) => UnlockedIsCovered(db, call, env, loc);
  }

  // ---- the others ----

  lemma UnlockedReadsStayAccurate(db: Db, out: Db, call: Call, loc: Locals)
    requires Accurate(db, call, loc) && Kept(db, out)
    ensures Accurate(out, call, loc.(session := None, code := None, challenge := None, browser := None, subject := None,
                                     family := None, member := None))
  {
  }

  /** When somebody commits under locks disjoint from mine, everything I have read stays accurate. */
  lemma OthersStayAccurate(db: Db, out: Db, call: Call, env: Env, mine: Locals, theirs: Locals)
    requires Accurate(db, call, mine) && Fits(call, env, mine)
    requires Kept(db, out) && Covers(db, theirs, out)
    requires forall l | Holds(mine, l) :: !Holds(theirs, l)
    ensures Accurate(out, call, mine)
  {
    UnlockedReadsStayAccurate(db, out, call, mine);
    LockedRowsBelong(db, call, env, mine);
    hide Fits, CodeKept, FamilyKept, SessionKept, MemberKept, ChallengeKept, BrowserKept;
    if mine.session.Some? {
      assert Holds(mine, SessionLock(mine.session.value.id));
    }
    if mine.browser.Some? {
      assert Holds(mine, BrowserLock(mine.browser.value.id));
    }
    if mine.subject.Some? {
      assert Holds(mine, IdentityLock(mine.subject.value.subject));
    }
  }
}
