/** What the token endpoint's operations answer, exactly: which presentations succeed, which may be tried
    again, and that the tokens handed out are the tokens stored. */
module TokenAnswers {
  import opened Prelude
  import opened Policy
  import opened Tables
  import opened Operations
  import opened Steps
  import opened Runs

  // ---- exchange ----

  lemma GateAnswers(q: CodeRequest, row: CodeRow, env: Env)
    ensures CodeRequestGate(q, row, env) in {None, Some(InvalidGrant), Some(MetadataExpired)}
    ensures CodeRequestGate(q, row, env) == Some(MetadataExpired) ==> !HoldsAt(q.via, {env.at.a})
    ensures RightlyPresentedCode(q, row.grant) ==>
              CodeRequestGate(q, row, env) == if HoldsAt(q.via, {env.at.a}) then None else Some(MetadataExpired)
  {
    hide ValidatePendingParts, ProvesKey, SameScopes, NamesTheScopes, LeaseHolds, Acceptable;
    var g := row.grant;
    if q.via.Checked? {
      if q.via.scopes.Some? {
        ScopeCheckIsExact(q.via.scopes.value, g.scopes);
      }
      ValidationIsExact(q.via.registry, q.clientId, q.redirectUri, g.challenge, g.scopes, g.resource, env.at.a);
    }
  }

  lemma PolicyAnswers(q: CodeRequest, row: CodeRow, env: Env)
    ensures CodePolicy(q, row, env) in {None, Some(InvalidGrant), Some(MetadataExpired)}
    ensures CodePolicy(q, row, env) == Some(MetadataExpired) ==> !HoldsAt(q.via, {env.at.b, env.at.c, env.at.d})
    ensures RightlyPresentedCode(q, row.grant) && KeepsPolicy(q.via, row.grant.clientId, row.grant.binding) ==>
              CodePolicy(q, row, env) ==
              if HoldsAt(q.via, {env.at.b, env.at.c, env.at.d}) then None else Some(MetadataExpired)
  {
    hide ValidatePendingParts, CheckBinding, SamePolicy, ProvesKey, NamesTheScopes, LeaseHolds, MayRedirect, MayUse;
    var g := row.grant;
    BindingCheckIsExact(q.via, q.clientId, g.binding, env.at.b);
    BindingCheckIsExact(q.via, q.clientId, g.binding, env.at.d);
    if q.via.Checked? {
      ValidationIsExact(q.via.registry, q.clientId, q.redirectUri, g.challenge, g.scopes, g.resource, env.at.c);
    }
  }

  lemma LastCheckAnswers(q: CodeRequest, row: CodeRow, at: Instant)
    ensures var last := CheckBinding(q.via, q.clientId, row.grant.binding, at);
            && last in {None, Some(InvalidGrant), Some(MetadataExpired)}
            && (last == Some(MetadataExpired) ==> !HoldsAt(q.via, {at}))
            && (RightlyPresentedCode(q, row.grant) && KeepsPolicy(q.via, row.grant.clientId, row.grant.binding) ==>
                  last == if HoldsAt(q.via, {at}) then None else Some(MetadataExpired))
  {
    hide CheckBinding, SamePolicy, ProvesKey, NamesTheScopes, LeaseHolds, MayRedirect, MayUse;
    BindingCheckIsExact(q.via, q.clientId, row.grant.binding, at);
  }

  lemma SettlementAnswers(q: CodeRequest, row: CodeRow, session: SessionRow, env: Env)
    requires RightlyPresentedCode(q, row.grant) && KeepsPolicy(q.via, row.grant.clientId, row.grant.binding)
    ensures var d := SettleExchange(q, row, session, env);
            var now := env.clock.first;
            var holds := HoldsAt(q.via, {env.at.e});
            && (row.consumedAt.Some? && holds ==>
                  d.outcome == Rejected(InvalidGrant) && d.effect == RevokeSource(q.code, now))
            && (row.consumedAt.None? && now < row.expiresAt && OpenAt(session, now) && holds ==> d.outcome.Granted?)
            && ((row.consumedAt.Some? || (now < row.expiresAt && OpenAt(session, now))) && !holds ==>
                  d == Decision(NoEffect, Rejected(MetadataExpired)))
            && (row.consumedAt.None? && !(now < row.expiresAt && OpenAt(session, now)) ==>
                  d == Decision(NoEffect, Rejected(InvalidGrant)))
  {
    hide CheckBinding, HoldsAt, RightlyPresentedCode, KeepsPolicy;
    LastCheckAnswers(q, row, env.at.e);
  }

  lemma DecisionAnswers(q: CodeRequest, row: CodeRow, session: SessionRow, env: Env)
    ensures var d := DecideExchange(q, row, session, env);
            && (d.outcome.Granted? || d.outcome in {Rejected(InvalidGrant), Rejected(MetadataExpired)})
            && (d.outcome == Rejected(MetadataExpired) ==>
                  !HoldsAt(q.via, {env.at.b, env.at.c, env.at.d}) || !HoldsAt(q.via, {env.at.e}))
  {
    hide CheckBinding, CodePolicy, HoldsAt;
    PolicyAnswers(q, row, env);
    LastCheckAnswers(q, row, env.at.e);
  }

  lemma HoldsAtAll(via: Via, a: Instant, b: Instant, c: Instant, d: Instant, e: Instant)
    ensures HoldsAt(via, {a, b, c, d, e}) <==> HoldsAt(via, {a}) && HoldsAt(via, {b, c, d}) && HoldsAt(via, {e})
  {
    hide LeaseHolds;
  }

  /** Another client, redirect, resource or scope list than the stored one: whatever the lease. */
  ghost predicate Misnames(q: CodeRequest, g: Grant) {
    || q.clientId != g.clientId || q.redirectUri != g.redirectUri
    || (q.via.Direct? && q.via.exactResource != g.resource)
    || (q.via.Checked? && q.via.resource.Some? && q.via.resource.value != g.resource)
    || (q.via.Checked? && q.via.scopes.Some? && !NamesTheScopes(q.via.scopes.value, g.scopes))
  }

  lemma MisnamedCodesFail(q: CodeRequest, row: CodeRow, env: Env)
    requires Misnames(q, row.grant)
    ensures CodeRequestGate(q, row, env) == Some(InvalidGrant)
            || (CodeRequestGate(q, row, env).None? && !CodeBound(q, BoundResource(q.via, row.grant.resource), row))
  {
    hide ValidatePendingParts, VerifyS256, SameScopes, NamesTheScopes;
    if q.via.Checked? && q.via.scopes.Some? {
      ScopeCheckIsExact(q.via.scopes.value, row.grant.scopes);
    }
  }

  /** A code rightly presented under the policy it was stored with is answered as follows.  If its lease
      holds throughout, an unused one in time under an open session obtains tokens, and a used one ends
      its descendants.  If the lease runs out on the way, either is told so, nothing is written, and the
      request may be tried again.  Whatever else is presented, in whatever way, is an invalid grant, unless
      the lease has run out; what is misnamed is one even then. */
  lemma ExchangeAnswersExactly(db: Db, q: CodeRequest, env: Env)
    ensures q.code !in db.codes || Misnames(q, db.codes[q.code].grant) ==>
              Perform(db, Exchange(q), env) == Decision(NoEffect, Rejected(InvalidGrant))
    ensures var d := Perform(db, Exchange(q), env);
            && (d.outcome.Granted? || d.outcome in {Rejected(InvalidGrant), Rejected(MetadataExpired)})
            && (d.outcome == Rejected(MetadataExpired) ==>
                  !HoldsAt(q.via, {env.at.a, env.at.b, env.at.c, env.at.d, env.at.e}))
    ensures q.code in db.codes && db.codes[q.code].session in db.sessions
            && RightlyPresentedCode(q, db.codes[q.code].grant)
            && KeepsPolicy(q.via, db.codes[q.code].grant.clientId, db.codes[q.code].grant.binding) ==>
              var d := Perform(db, Exchange(q), env);
              var row := db.codes[q.code];
              var now := env.clock.first;
              var live := now < row.expiresAt && OpenAt(db.sessions[row.session], now);
              var holds := HoldsAt(q.via, {env.at.a, env.at.b, env.at.c, env.at.d, env.at.e});
              && (holds && row.consumedAt.None? && live ==> d.outcome.Granted?)
              && (holds && row.consumedAt.Some? ==>
                    d.outcome == Rejected(InvalidGrant) && d.effect == RevokeSource(q.code, now))
              && (holds && row.consumedAt.None? && !live ==> d == Decision(NoEffect, Rejected(InvalidGrant)))
              && (!holds && (row.consumedAt.Some? || live) ==> d == Decision(NoEffect, Rejected(MetadataExpired)))
  {
    hide CodeRequestGate, CodePolicy, CodeBound, CheckBinding, HoldsAt, RightlyPresentedCode, KeepsPolicy, OpenAt,
         SettleExchange, Misnames;
    PerformsExchange(db, q, env);
    if q.code in db.codes && Misnames(q, db.codes[q.code].grant) {
      MisnamedCodesFail(q, db.codes[q.code], env);
    }
    HoldsAtAll(q.via, env.at.a, env.at.b, env.at.c, env.at.d, env.at.e);
    if q.code in db.codes && db.codes[q.code].session in db.sessions {
      var row, session := db.codes[q.code], db.sessions[db.codes[q.code].session];
      GateAnswers(q, row, env);
      PolicyAnswers(q, row, env);
      DecisionAnswers(q, row, session, env);
      if RightlyPresentedCode(q, row.grant) {
        RightCodesAreBound(q, row);
        if KeepsPolicy(q.via, row.grant.clientId, row.grant.binding) {
          SettlementAnswers(q, row, session, env);
        }
      }
    } else if q.code in db.codes {
      GateAnswers(q, db.codes[q.code], env);
    }
  }

  lemma PerformsExchange(db: Db, q: CodeRequest, env: Env)
    ensures Perform(db, Exchange(q), env) == PerformExchange(db, q, env)
  {
    hide PerformExchange;
  }

  lemma RightCodesAreBound(q: CodeRequest, row: CodeRow)
    requires RightlyPresentedCode(q, row.grant)
    ensures CodeBound(q, BoundResource(q.via, row.grant.resource), row)
  {
    hide ProvesKey, VerifyS256;
    KeyCheckIsExact(q.verifier, row.grant.challenge);
  }

  // ---- rotation ----

  lemma TokenGateAnswers(q: TokenRequest, family: FamilyRow)
    ensures TokenRequestGate(q, family) in {None, Some(InvalidGrant)}
    ensures RightlyPresentedToken(q, family) ==> TokenRequestGate(q, family).None? && TokenBound(q, family)
  {
    hide PermitsRefresh, MayRefresh, SameScopes, NamesTheScopes;
    if q.via.Checked? {
      if q.via.scopes.Some? {
        ScopeCheckIsExact(q.via.scopes.value, family.scopes);
      }
      RefreshCheckIsExact(q.via.registry, q.clientId, family.scopes, family.resource);
    }
  }

  lemma TokenCheckAnswers(q: TokenRequest, family: FamilyRow, at: Instant)
    ensures var check := CheckBinding(q.via, q.clientId, family.binding, at);
            && check in {None, Some(InvalidGrant), Some(MetadataExpired)}
            && (check == Some(MetadataExpired) ==> !HoldsAt(q.via, {at}))
            && (RightlyPresentedToken(q, family) && KeepsPolicy(q.via, family.clientId, family.binding) ==>
                  check == if HoldsAt(q.via, {at}) then None else Some(MetadataExpired))
  {
    hide CheckBinding, SamePolicy, NamesTheScopes, LeaseHolds, MayUse;
    BindingCheckIsExact(q.via, q.clientId, family.binding, at);
  }

  lemma TokenPolicyAnswers(q: TokenRequest, family: FamilyRow, env: Env)
    ensures TokenPolicy(q, family, env) in {None, Some(InvalidGrant), Some(MetadataExpired)}
    ensures TokenPolicy(q, family, env) == Some(MetadataExpired) ==> !HoldsAt(q.via, {env.at.a, env.at.b})
    ensures RightlyPresentedToken(q, family) && KeepsPolicy(q.via, family.clientId, family.binding) ==>
              TokenPolicy(q, family, env) ==
              if HoldsAt(q.via, {env.at.a, env.at.b}) then None else Some(MetadataExpired)
  {
    hide CheckBinding, KeepsPolicy, NamesTheScopes, LeaseHolds, PermitsRefresh, MayRefresh;
    TokenCheckAnswers(q, family, env.at.a);
    TokenCheckAnswers(q, family, env.at.b);
    if q.via.Checked? {
      RefreshCheckIsExact(q.via.registry, q.clientId, family.scopes, family.resource);
    }
  }

  lemma RotationDecides(q: TokenRequest, member: MemberRow, family: FamilyRow, session: SessionRow, env: Env)
    ensures var d := DecideRotate(q, member, family, session, env);
            && (d.outcome.Granted? || d.outcome in {Rejected(InvalidGrant), Rejected(MetadataExpired)})
            && (d.outcome == Rejected(MetadataExpired) ==> !HoldsAt(q.via, {env.at.a, env.at.b, env.at.c}))
    ensures RightlyPresentedToken(q, family) && KeepsPolicy(q.via, family.clientId, family.binding) ==>
              var d := DecideRotate(q, member, family, session, env);
              var now := env.clock.first;
              var live := family.revokedAt.None? && now < family.expiresAt && OpenAt(session, now);
              var holds := HoldsAt(q.via, {env.at.a, env.at.b, env.at.c});
              && (holds && member.consumedAt.None? && live ==> d.outcome.Granted?)
              && (holds && member.consumedAt.Some? ==>
                    d.outcome == Rejected(InvalidGrant) && d.effect == RevokeFamily(member.family, now))
              && (holds && member.consumedAt.None? && !live ==> d == Decision(NoEffect, Rejected(InvalidGrant)))
              && (!holds && (member.consumedAt.Some? || live) ==> d == Decision(NoEffect, Rejected(MetadataExpired)))
  {
    hide TokenPolicy, CheckBinding, TokenBound, RightlyPresentedToken, KeepsPolicy, HoldsAt;
    TokenGateAnswers(q, family);
    TokenPolicyAnswers(q, family, env);
    TokenCheckAnswers(q, family, env.at.c);
    HoldsAtThree(q.via, env.at.a, env.at.b, env.at.c);
  }

  lemma HoldsAtThree(via: Via, a: Instant, b: Instant, c: Instant)
    ensures HoldsAt(via, {a, b, c}) <==> HoldsAt(via, {a, b}) && HoldsAt(via, {c})
  {
    hide LeaseHolds;
  }

  /** The same for refresh tokens: under a lease that holds throughout, an unconsumed one of a live,
      unrevoked family under an open session is rotated, and a consumed one ends its family; if the lease
      runs out on the way, either is told so, nothing is written, and the request may be tried again.
      What is wrongly presented is an invalid grant, whatever the lease. */
  lemma RotationAnswersExactly(db: Db, q: TokenRequest, env: Env)
    ensures q.token in db.members && db.members[q.token].family in db.families
            && !RightlyPresentedToken(q, db.families[db.members[q.token].family]) ==>
              Perform(db, Rotate(q), env) == Decision(NoEffect, Rejected(InvalidGrant))
    ensures q.token !in db.members || db.members[q.token].family !in db.families ==>
              Perform(db, Rotate(q), env) == Decision(NoEffect, Rejected(InvalidGrant))
    ensures var d := Perform(db, Rotate(q), env);
            && (d.outcome.Granted? || d.outcome in {Rejected(InvalidGrant), Rejected(MetadataExpired)})
            && (d.outcome == Rejected(MetadataExpired) ==> !HoldsAt(q.via, {env.at.a, env.at.b, env.at.c}))
    ensures q.token in db.members && db.members[q.token].family in db.families
            && db.families[db.members[q.token].family].session in db.sessions
            && RightlyPresentedToken(q, db.families[db.members[q.token].family])
            && KeepsPolicy(q.via, db.families[db.members[q.token].family].clientId,
                           db.families[db.members[q.token].family].binding) ==>
              var d := Perform(db, Rotate(q), env);
              var member, family := db.members[q.token], db.families[db.members[q.token].family];
              var now := env.clock.first;
              var live := family.revokedAt.None? && now < family.expiresAt && OpenAt(db.sessions[family.session], now);
              var holds := HoldsAt(q.via, {env.at.a, env.at.b, env.at.c});
              && (holds && member.consumedAt.None? && live ==> d.outcome.Granted?)
              && (holds && member.consumedAt.Some? ==>
                    d.outcome == Rejected(InvalidGrant) && d.effect == RevokeFamily(member.family, now))
              && (holds && member.consumedAt.None? && !live ==> d == Decision(NoEffect, Rejected(InvalidGrant)))
              && (!holds && (member.consumedAt.Some? || live) ==> d == Decision(NoEffect, Rejected(MetadataExpired)))
  {
    hide TokenRequestGate, HoldsAt, RightlyPresentedToken, KeepsPolicy, OpenAt, DecideRotate;
    PerformsRotation(db, q, env);
    if q.token in db.members && db.members[q.token].family in db.families {
      var member, family := db.members[q.token], db.families[db.members[q.token].family];
      TokenGateAnswers(q, family);
      if family.session in db.sessions {
        RotationDecides(q, member, family, db.sessions[family.session], env);
        if !RightlyPresentedToken(q, family) {
          WrongTokensFail(q, member, family, db.sessions[family.session], env);
        }
      }
    }
  }

  lemma WrongTokensFail(q: TokenRequest, member: MemberRow, family: FamilyRow, session: SessionRow, env: Env)
    requires !RightlyPresentedToken(q, family)
    ensures TokenRequestGate(q, family) == Some(InvalidGrant)
            || DecideRotate(q, member, family, session, env) == Decision(NoEffect, Rejected(InvalidGrant))
  {
    hide PermitsRefresh, MayRefresh, SameScopes, NamesTheScopes;
    if q.via.Checked? {
      if q.via.scopes.Some? {
        ScopeCheckIsExact(q.via.scopes.value, family.scopes);
      }
      RefreshCheckIsExact(q.via.registry, q.clientId, family.scopes, family.resource);
    }
  }

  lemma PerformsRotation(db: Db, q: TokenRequest, env: Env)
    ensures Perform(db, Rotate(q), env) == PerformRotate(db, q, env)
  {
    hide PerformRotate;
  }

  // ---- the tokens handed out ----

  /** The token is new, stored, unconsumed, and belongs to this family. */
  ghost predicate IsNewTokenOf(before: Db, after: Db, token: Id, family: Id) {
    && token !in before.members
    && token in after.members && after.members[token].family == family
    && after.members[token].consumedAt.None? && after.members[token].successor.None?
    && family in after.families && after.families[family].revokedAt.None?
  }

  /** The family is new and descends from the code, for thirty days or as long as the session. */
  ghost predicate IsNewFamilyFrom(before: Db, after: Db, family: Id, code: Id) {
    && family !in before.families && family in after.families
    && after.families[family].sourceCode == code
    && after.families[family].session in after.sessions
    && after.families[family].expiresAt ==
       Min(after.families[family].issuedAt + 30 * 24 * 60 * 60 * SECOND,
           after.sessions[after.families[family].session].expiresAt)
  }

  lemma ExchangedTokenIsStored(db: Db, q: CodeRequest, env: Env)
    requires Fresh(db, env.drawn) && PerformExchange(db, q, env).outcome.Granted?
    ensures var token := PerformExchange(db, q, env).outcome.result.refreshToken;
            var after := Apply(db, PerformExchange(db, q, env).effect);
            && q.code in db.codes && (token.Some? <==> db.codes[q.code].issueRefresh)
            && (token.Some? ==>
                  && token.value in after.members
                  && IsNewTokenOf(db, after, token.value, after.members[token.value].family)
                  && IsNewFamilyFrom(db, after, after.members[token.value].family, q.code))
            && (token.None? ==> after.members == db.members && after.families == db.families)
  {
    hide CodeRequestGate, CodeBound, CodePolicy, CheckBinding, BoundResource;
  }

  lemma RotatedTokenIsStored(db: Db, q: TokenRequest, env: Env)
    requires Fresh(db, env.drawn) && PerformRotate(db, q, env).outcome.Granted?
    ensures var token := PerformRotate(db, q, env).outcome.result.refreshToken;
            var after := Apply(db, PerformRotate(db, q, env).effect);
            && token.Some?
            && q.token in db.members && q.token in after.members
            && IsNewTokenOf(db, after, token.value, db.members[q.token].family)
            && after.members[q.token].consumedAt.Some? && after.members[q.token].successor == token
  {
    hide TokenRequestGate, TokenBound, TokenPolicy, CheckBinding;
  }

  /** A refresh token handed out by an exchange is the one stored: it was unknown before, is unconsumed
      after, and opens the one new family, which descends from the presented code. */
  lemma ExchangeHandsOutTheStoredToken(before: Db, ev: Event, after: Db)
    requires Advances(before, ev, after) && ev.call.Exchange? && OutcomeOf(before, ev).Granted?
    ensures var code := ev.call.code.code;
            var token := OutcomeOf(before, ev).result.refreshToken;
            && code in before.codes && (token.Some? <==> before.codes[code].issueRefresh)
            && (token.Some? ==>
                  && token.value in after.members
                  && IsNewTokenOf(before, after, token.value, after.members[token.value].family)
                  && IsNewFamilyFrom(before, after, after.members[token.value].family, code))
            && (token.None? ==> after.members == before.members && after.families == before.families)
  {
    hide PerformExchange, Apply, Fresh, IsNewTokenOf, IsNewFamilyFrom;
    EventExchange(before, ev, after);
    ExchangedTokenIsStored(before, ev.call.code, ev.env);
  }

  /** A refresh token handed out by a rotation is the one stored: the new unconsumed member of the same
      family, and the recorded successor of the presented one. */
  lemma RotationHandsOutTheStoredToken(before: Db, ev: Event, after: Db)
    requires Advances(before, ev, after) && ev.call.Rotate? && OutcomeOf(before, ev).Granted?
    ensures var presented := ev.call.token.token;
            var token := OutcomeOf(before, ev).result.refreshToken;
            && token.Some? && presented in before.members && presented in after.members
            && IsNewTokenOf(before, after, token.value, before.members[presented].family)
            && after.members[presented].consumedAt.Some? && after.members[presented].successor == token
  {
    hide PerformRotate, Apply, Fresh, IsNewTokenOf;
    EventRotate(before, ev, after);
    RotatedTokenIsStored(before, ev.call.token, ev.env);
  }
}
