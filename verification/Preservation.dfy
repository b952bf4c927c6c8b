/** Every guarded write set keeps every invariant. */
module Preservation {
  import opened Prelude
  import opened Tables
  import opened Invariants

  // ---- single tables ----

  lemma RevokedFamiliesAreKept(families: map<Id, FamilyRow>, chosen: set<Id>, at: Id -> Time)
    ensures FamiliesKept(families, RevokeWhere(families, chosen, at))
  {
  }

  lemma EndedSessionIsKept(sessions: map<Id, SessionRow>, id: Id, at: Time)
    requires id in sessions
    ensures SessionsKept(sessions, sessions[id := sessions[id].(revokedAt := Coalesce(sessions[id].revokedAt, at))])
  {
  }

  lemma UsedCodeIsKept(codes: map<Id, CodeRow>, id: Id, at: Time)
    requires id in codes && codes[id].consumedAt.None?
    ensures CodesKept(codes, codes[id := codes[id].(consumedAt := Some(at))])
  {
  }

  lemma ConsumedChallengeIsKept(challenges: map<Id, ChallengeRow>, id: Id, at: Time)
    requires id in challenges && challenges[id].consumedAt.None?
    ensures ChallengesKept(challenges, challenges[id := challenges[id].(consumedAt := Some(at))])
  {
  }

  lemma MovedBrowserIsKept(browsers: map<Id, BrowserRow>, id: Id, row: BrowserRow)
    requires id in browsers && BrowserKept(browsers[id], row)
    ensures BrowsersKept(browsers, browsers[id := row])
  {
  }

  lemma RotatedMemberIsKept(db: Db, id: Id, next: Id, at: Time)
    requires Guarded(db, RotateToken(id, next, at))
    ensures MembersKept(db.members, Apply(db, RotateToken(id, next, at)).members)
  {
  }

  // ---- predicates over a table that grows ----

  lemma CodesUnderKeptSessions(codes: map<Id, CodeRow>, a: map<Id, SessionRow>, b: map<Id, SessionRow>)
    requires CodesOk(codes, a) && SessionsKept(a, b)
    ensures CodesOk(codes, b)
  {
  }

  lemma BrowsersUnderKeptSessions(browsers: map<Id, BrowserRow>, a: map<Id, SessionRow>, b: map<Id, SessionRow>)
    requires BrowsersOk(browsers, a) && SessionsKept(a, b)
    ensures BrowsersOk(browsers, b)
  {
  }

  lemma ChallengesUnderKeptSessions(challenges: map<Id, ChallengeRow>, a: map<Id, SessionRow>, b: map<Id, SessionRow>)
    requires ChallengesOk(challenges, a) && SessionsKept(a, b)
    ensures ChallengesOk(challenges, b)
  {
  }

  lemma FamiliesUnderKeptCodes(families: map<Id, FamilyRow>, a: map<Id, CodeRow>, b: map<Id, CodeRow>,
                               sessions: map<Id, SessionRow>)
    requires FamiliesOk(families, a, sessions) && CodesKept(a, b)
    ensures FamiliesOk(families, b, sessions)
  {
  }

  lemma FamiliesWithNewSession(families: map<Id, FamilyRow>, codes: map<Id, CodeRow>, sessions: map<Id, SessionRow>,
                               id: Id, row: SessionRow)
    requires FamiliesOk(families, codes, sessions) && id !in sessions
    ensures FamiliesOk(families, codes, sessions[id := row])
  {
  }

  lemma RevokedFamiliesStayOk(families: map<Id, FamilyRow>, codes: map<Id, CodeRow>, sessions: map<Id, SessionRow>,
                              chosen: set<Id>, at: Id -> Time)
    requires FamiliesOk(families, codes, sessions)
    ensures FamiliesOk(RevokeWhere(families, chosen, at), codes, sessions)
  {
    var out := RevokeWhere(families, chosen, at);
    forall f | f in out
      ensures && out[f].sourceCode in codes && out[f].session in sessions
              && FamilyOk(out[f], codes[out[f].sourceCode], sessions[out[f].session])
    {
      assert FamilyOk(families[f], codes[families[f].sourceCode], sessions[families[f].session]);
    }
  }

  /** Ending a session ends every family under it, so a revoked session still has no live family. */
  lemma FamiliesEndWithTheirSession(families: map<Id, FamilyRow>, codes: map<Id, CodeRow>,
                                    sessions: map<Id, SessionRow>,
                                    id: Id, ended: SessionRow, at: Id -> Time)
    requires FamiliesOk(families, codes, sessions)
    requires id in sessions && ended == sessions[id].(revokedAt := ended.revokedAt)
    ensures FamiliesOk(RevokeWhere(families, FamiliesUnder(families, id), at), codes, sessions[id := ended])
  {
    var out := RevokeWhere(families, FamiliesUnder(families, id), at);
    forall f | f in out
      ensures && out[f].sourceCode in codes && out[f].session in sessions[id := ended]
              && FamilyOk(out[f], codes[out[f].sourceCode], sessions[id := ended][out[f].session])
    {
      assert FamilyOk(families[f], codes[families[f].sourceCode], sessions[families[f].session]);
    }
  }

  /** Revocation touches neither sources nor chains. */
  lemma RevocationKeepsSourcesAndChains(families: map<Id, FamilyRow>, codes: map<Id, CodeRow>,
                                        members: map<Id, MemberRow>,
                                        chosen: set<Id>, at: Id -> Time)
    ensures SourcesOk(families, codes) ==> SourcesOk(RevokeWhere(families, chosen, at), codes)
    ensures MembersOk(members, families) ==> MembersOk(members, RevokeWhere(families, chosen, at))
    ensures ChainsOk(members, families) ==> ChainsOk(members, RevokeWhere(families, chosen, at))
  {
    var out := RevokeWhere(families, chosen, at);
    if SourcesOk(families, codes) {
      forall c | c in codes && codes[c].consumedAt.Some? && codes[c].issueRefresh
        ensures exists f :: f in out && out[f].sourceCode == c
      {
        var f :| f in families && families[f].sourceCode == c;
        assert f in out && out[f].sourceCode == c;
      }
    }
  }

  lemma OriginsUnderKept(origins: map<Id, Id>, codes: map<Id, CodeRow>, codes': map<Id, CodeRow>,
                         browsers: map<Id, BrowserRow>, browsers': map<Id, BrowserRow>)
    requires OriginsOk(origins, codes, browsers) && CodesKept(codes, codes') && BrowsersKept(browsers, browsers')
    requires forall b | b in browsers' && browsers'[b].stage == Approved ::
               b in browsers && browsers[b].stage == Approved
    ensures OriginsOk(origins, codes', browsers')
  {
    forall c | c in origins ensures OriginOk(codes'[c], browsers'[origins[c]]) {
      assert CodeKept(codes[c], codes'[c]);
      assert BrowserKept(browsers[origins[c]], browsers'[origins[c]]);
    }
  }

  lemma SourcesWithNewFamily(families: map<Id, FamilyRow>, codes: map<Id, CodeRow>, sessions: map<Id, SessionRow>,
                             c: Id, at: Time, id: Id, row: FamilyRow)
    requires SourcesOk(families, codes) && FamiliesOk(families, codes, sessions)
    requires c in codes && codes[c].consumedAt.None? && id !in families && row.sourceCode == c
    ensures SourcesOk(families[id := row], codes[c := codes[c].(consumedAt := Some(at))])
  {
    var out := families[id := row];
    var used := codes[c := codes[c].(consumedAt := Some(at))];
    forall f | f in families ensures families[f].sourceCode != c {
      assert FamilyOk(families[f], codes[families[f].sourceCode], sessions[families[f].session]);
    }
    forall x | x in used && used[x].consumedAt.Some? && used[x].issueRefresh
      ensures exists f :: f in out && out[f].sourceCode == x
    {
      if x == c {
        assert id in out && out[id].sourceCode == x;
      } else {
        var f :| f in families && families[f].sourceCode == x;
        assert f in out && out[f].sourceCode == x;
      }
    }
  }

  lemma CodesWithNew(codes: map<Id, CodeRow>, sessions: map<Id, SessionRow>, id: Id, row: CodeRow)
    requires CodesOk(codes, sessions) && row.session in sessions && CodeOk(row, sessions[row.session])
    ensures CodesOk(codes[id := row], sessions)
    ensures id !in codes ==> CodesKept(codes, codes[id := row])
  {
  }

  lemma CodesAfterUse(codes: map<Id, CodeRow>, sessions: map<Id, SessionRow>, id: Id, at: Time)
    requires CodesOk(codes, sessions) && id in codes
    ensures CodesOk(codes[id := codes[id].(consumedAt := Some(at))], sessions)
  {
  }

  lemma SessionsAfterEnd(sessions: map<Id, SessionRow>, users: set<Id>, id: Id, at: Time)
    requires SessionsOk(sessions, users) && id in sessions
    ensures SessionsOk(sessions[id := sessions[id].(revokedAt := Coalesce(sessions[id].revokedAt, at))], users)
  {
  }

  lemma SessionsWithMoreUsers(sessions: map<Id, SessionRow>, users: set<Id>, more: set<Id>)
    requires SessionsOk(sessions, users)
    ensures SessionsOk(sessions, users + more)
  {
  }

  lemma OriginsKeptByApproval(origins: map<Id, Id>, codes: map<Id, CodeRow>, codeId: Id, id: Id)
    requires codeId !in codes && codeId !in origins
    ensures OriginsKept(origins, codes, origins[codeId := id])
  {
  }

  lemma SourcesWithNewCode(families: map<Id, FamilyRow>, codes: map<Id, CodeRow>, id: Id, row: CodeRow)
    requires SourcesOk(families, codes) && id !in codes && row.consumedAt.None?
    ensures SourcesOk(families, codes[id := row])
  {
  }

  lemma SourcesWithoutRenewal(families: map<Id, FamilyRow>, codes: map<Id, CodeRow>, id: Id, at: Time)
    requires SourcesOk(families, codes) && id in codes && !codes[id].issueRefresh
    ensures SourcesOk(families, codes[id := codes[id].(consumedAt := Some(at))])
  {
  }

  lemma ChallengesWithNew(challenges: map<Id, ChallengeRow>, sessions: map<Id, SessionRow>, id: Id, row: ChallengeRow)
    requires ChallengesOk(challenges, sessions) && id !in challenges && row.session in sessions && row.consumedAt.None?
    requires row.expiresAt <= row.createdAt + CHALLENGE_LIFETIME
    ensures ChallengesOk(challenges[id := row], sessions) && ChallengesKept(challenges, challenges[id := row])
  {
  }

  lemma BrowsersWithNew(db: Db, id: Id, row: BrowserRow)
    requires BrowsersOk(db.browsers, db.sessions) && NewBrowserOk(db, id, row)
    ensures BrowsersOk(db.browsers[id := row], db.sessions) && BrowsersKept(db.browsers, db.browsers[id := row])
  {
  }

  lemma BrowsersWithMove(db: Db, id: Id, row: BrowserRow)
    requires BrowsersOk(db.browsers, db.sessions) && MoveOk(db, id, row)
    ensures BrowsersOk(db.browsers[id := row], db.sessions) && BrowsersKept(db.browsers, db.browsers[id := row])
  {
    MovedBrowserIsKept(db.browsers, id, row);
  }

  lemma BrowsersWithApproval(browsers: map<Id, BrowserRow>, sessions: map<Id, SessionRow>, id: Id)
    requires BrowsersOk(browsers, sessions) && id in browsers && browsers[id].stage == AwaitingConsent
    ensures BrowsersOk(browsers[id := ApprovedRow(browsers[id])], sessions)
    ensures BrowsersKept(browsers, browsers[id := ApprovedRow(browsers[id])])
  {
    MovedBrowserIsKept(browsers, id, ApprovedRow(browsers[id]));
  }

  lemma BrowsersWithLogin(browsers: map<Id, BrowserRow>, sessions: map<Id, SessionRow>, id: Id, session: Id, csrf: Id)
    requires BrowsersOk(browsers, sessions) && id in browsers && browsers[id].stage == CallbackClaimed
             && session in sessions
    ensures BrowsersOk(browsers[id := LoggedInRow(browsers[id], session, csrf)], sessions)
    ensures BrowsersKept(browsers, browsers[id := LoggedInRow(browsers[id], session, csrf)])
  {
    MovedBrowserIsKept(browsers, id, LoggedInRow(browsers[id], session, csrf));
  }

  lemma SessionsWithNew(sessions: map<Id, SessionRow>, users: set<Id>, users': set<Id>, id: Id, row: SessionRow)
    requires SessionsOk(sessions, users) && id !in sessions && SessionOk(row) && users <= users' && row.userId in users'
    ensures SessionsOk(sessions[id := row], users') && SessionsKept(sessions, sessions[id := row])
  {
  }

  /** Linking keeps the map injective: a subject keeps its user, a new subject gets a new one. */
  lemma IdentitiesWithLink(db: Db, subject: string, userId: Id, profile: Profile)
    requires IdentitiesOk(db.identities, db.users, db.profiles) && LinkOk(db, subject, userId)
    ensures IdentitiesKept(db.identities, db.identities[subject := userId])
    ensures IdentitiesOk(db.identities[subject := userId], db.users + {userId}, db.profiles)
    ensures IdentitiesOk(db.identities[subject := userId], db.users + {userId}, db.profiles[userId := profile])
  {
  }

  lemma OriginsWithNewCode(origins: map<Id, Id>, codes: map<Id, CodeRow>, browsers: map<Id, BrowserRow>, id: Id,
                           row: CodeRow)
    requires OriginsOk(origins, codes, browsers) && id !in codes
    ensures OriginsOk(origins, codes[id := row], browsers)
  {
    OriginsUnderKept(origins, codes, codes[id := row], browsers, browsers);
  }

  lemma MembersAfterRotation(members: map<Id, MemberRow>, families: map<Id, FamilyRow>, m: Id, next: Id, at: Time)
    requires MembersOk(members, families) && m in members && next !in members
    ensures MembersOk(members[next := MemberRow(members[m].family, at, None, None)]
                             [m := members[m].(consumedAt := Some(at), successor := Some(next))], families)
  {
  }

  lemma FamiliesWithNew(db: Db, c: Id, at: Time, renewal: Renewal)
    requires FamiliesOk(db.families, db.codes, db.sessions) && MembersOk(db.members, db.families)
    requires c in db.codes && db.codes[c].session in db.sessions && NewFamilyOk(db, c, at, renewal)
    requires db.codes[c].consumedAt.None?
    ensures FamiliesOk(db.families[renewal.id := renewal.family], db.codes[c := db.codes[c].(consumedAt := Some(at))],
                       db.sessions)
    ensures FamiliesKept(db.families, db.families[renewal.id := renewal.family])
    ensures MembersOk(db.members[renewal.token := MemberRow(renewal.id, at, None, None)],
                      db.families[renewal.id := renewal.family])
    ensures MembersKept(db.members, db.members[renewal.token := MemberRow(renewal.id, at, None, None)])
  {
    UsedCodeIsKept(db.codes, c, at);
    FamiliesUnderKeptCodes(db.families, db.codes, db.codes[c := db.codes[c].(consumedAt := Some(at))], db.sessions);
  }

  // ---- chains ----

  lemma ChainUnaffected(before: map<Id, MemberRow>, after: map<Id, MemberRow>, family: Id, start: Time, chain: seq<Id>)
    requires IsChain(before, family, start, chain)
    requires forall m | m in before && before[m].family == family :: m in after && after[m] == before[m]
    requires forall m | m in after && after[m].family == family :: m in before && before[m].family == family
    ensures IsChain(after, family, start, chain)
  {
    forall i | 0 <= i < |chain| ensures chain[i] in after && after[chain[i]] == before[chain[i]] {
      assert chain[i] in chain;
    }
  }

  /** An unconsumed member is the tail of its chain. */
  lemma UnconsumedIsTail(members: map<Id, MemberRow>, family: Id, start: Time, chain: seq<Id>, m: Id)
    requires IsChain(members, family, start, chain)
    requires m in members && members[m].family == family && members[m].consumedAt.None?
    ensures chain[|chain| - 1] == m
  {
    assert m in chain;
    var k :| 0 <= k < |chain| && chain[k] == m;
    assert k + 1 < |chain| ==> Succeeds(members, chain[k], chain[k + 1]);
  }

  /** Superseding the tail lengthens the chain by one. */
  lemma RotationExtendsChain(before: map<Id, MemberRow>, after: map<Id, MemberRow>, m: Id, next: Id, at: Time,
                             start: Time, chain: seq<Id>)
    requires m in before && next !in before && before[m].consumedAt.None?
    requires after == before[next := MemberRow(before[m].family, at, None, None)]
                            [m := before[m].(consumedAt := Some(at), successor := Some(next))]
    requires IsChain(before, before[m].family, start, chain)
    ensures IsChain(after, before[m].family, start, chain + [next])
  {
    var family := before[m].family;
    var longer := chain + [next];
    UnconsumedIsTail(before, family, start, chain, m);
    forall i | 0 <= i < |chain| ensures chain[i] in before && chain[i] in after && before[chain[i]].family == family {
      assert chain[i] in chain;
    }
    forall x ensures x in longer <==> x in after && after[x].family == family {
      assert x in longer <==> x in chain || x == next;
    }
    forall i, j | 0 <= i < j < |longer| && j == i + 1 ensures Succeeds(after, longer[i], longer[j]) {
      if j < |chain| {
        assert Succeeds(before, chain[i], chain[j]);
      }
    }
  }

  lemma ChainsAfterRotation(members: map<Id, MemberRow>, families: map<Id, FamilyRow>, m: Id, next: Id, at: Time)
    requires ChainsOk(members, families)
    requires m in members && next !in members && members[m].consumedAt.None? && members[m].family in families
    ensures ChainsOk(members[next := MemberRow(members[m].family, at, None, None)]
                            [m := members[m].(consumedAt := Some(at), successor := Some(next))], families)
  {
    var after := members[next := MemberRow(members[m].family, at, None, None)]
                        [m := members[m].(consumedAt := Some(at), successor := Some(next))];
    forall f | f in families ensures HasChain(after, f, families[f].issuedAt) {
      var chain :| IsChain(members, f, families[f].issuedAt, chain);
      if members[m].family == f {
        RotationExtendsChain(members, after, m, next, at, families[f].issuedAt, chain);
      } else {
        ChainUnaffected(members, after, f, families[f].issuedAt, chain);
      }
    }
  }

  lemma ChainsWithNewFamily(members: map<Id, MemberRow>, families: map<Id, FamilyRow>, id: Id, row: FamilyRow,
                            token: Id)
    requires ChainsOk(members, families) && MembersOk(members, families)
    requires id !in families && token !in members
    ensures ChainsOk(members[token := MemberRow(id, row.issuedAt, None, None)], families[id := row])
  {
    var after := members[token := MemberRow(id, row.issuedAt, None, None)];
    var grown := families[id := row];
    forall f | f in grown ensures HasChain(after, f, grown[f].issuedAt) {
      if f == id {
        assert IsChain(after, id, row.issuedAt, [token]);
      } else {
        var chain :| IsChain(members, f, families[f].issuedAt, chain);
        ChainUnaffected(members, after, f, families[f].issuedAt, chain);
      }
    }
  }

  // ---- one lemma per write set ----

  lemma NewSessionPreserves(db: Db, id: Id, row: SessionRow)
    requires Valid(db) && Guarded(db, AddSession(id, row))
    ensures Valid(Apply(db, AddSession(id, row))) && Kept(db, Apply(db, AddSession(id, row)))
  {
    hide SessionsOk, CodesOk, FamiliesOk, SourcesOk, MembersOk, ChainsOk, ChallengesOk, BrowsersOk, OriginsOk,
         IdentitiesOk, SessionsKept, CodesKept, FamiliesKept, MembersKept, ChallengesKept, BrowsersKept, IdentitiesKept,
         OriginsKept;
    var sessions := db.sessions[id := row];
    SessionsWithNew(db.sessions, db.users, db.users, id, row);
    CodesUnderKeptSessions(db.codes, db.sessions, sessions);
    BrowsersUnderKeptSessions(db.browsers, db.sessions, sessions);
    ChallengesUnderKeptSessions(db.challenges, db.sessions, sessions);
    FamiliesWithNewSession(db.families, db.codes, db.sessions, id, row);
    KeptIsReflexive(db);
  }

  lemma NewCodePreserves(db: Db, id: Id, row: CodeRow)
    requires Valid(db) && Guarded(db, AddCode(id, row))
    ensures Valid(Apply(db, AddCode(id, row))) && Kept(db, Apply(db, AddCode(id, row)))
  {
    hide SessionsOk, CodesOk, FamiliesOk, SourcesOk, MembersOk, ChainsOk, ChallengesOk, BrowsersOk, OriginsOk,
         IdentitiesOk, SessionsKept, CodesKept, FamiliesKept, MembersKept, ChallengesKept, BrowsersKept, IdentitiesKept,
         OriginsKept;
    KeptIsReflexive(db);
    CodesWithNew(db.codes, db.sessions, id, row);
    SourcesWithNewCode(db.families, db.codes, id, row);
    FamiliesUnderKeptCodes(db.families, db.codes, db.codes[id := row], db.sessions);
    OriginsWithNewCode(db.origins, db.codes, db.browsers, id, row);
  }

  lemma UsedCodePreserves(db: Db, id: Id, at: Time, renewal: Option<Renewal>)
    requires Valid(db) && Guarded(db, UseCode(id, at, renewal))
    ensures Valid(Apply(db, UseCode(id, at, renewal))) && Kept(db, Apply(db, UseCode(id, at, renewal)))
  {
    hide SessionsOk, CodesOk, FamiliesOk, SourcesOk, MembersOk, ChainsOk, ChallengesOk, BrowsersOk, OriginsOk,
         IdentitiesOk, SessionsKept, CodesKept, FamiliesKept, MembersKept, ChallengesKept, BrowsersKept, IdentitiesKept,
         OriginsKept;
    var used := db.codes[id].(consumedAt := Some(at));
    KeptIsReflexive(db);
    UsedCodeIsKept(db.codes, id, at);
    CodesAfterUse(db.codes, db.sessions, id, at);
    OriginsUnderKept(db.origins, db.codes, db.codes[id := used], db.browsers, db.browsers);
    if renewal.None? {
      FamiliesUnderKeptCodes(db.families, db.codes, db.codes[id := used], db.sessions);
      SourcesWithoutRenewal(db.families, db.codes, id, at);
    } else {
      var r := renewal.value;
      FamiliesWithNew(db, id, at, r);
      SourcesWithNewFamily(db.families, db.codes, db.sessions, id, at, r.id, r.family);
      ChainsWithNewFamily(db.members, db.families, r.id, r.family, r.token);
    }
  }

  lemma RevocationPreserves(db: Db, chosen: set<Id>, at: Id -> Time)
    requires Valid(db)
    ensures var out := db.(families := RevokeWhere(db.families, chosen, at));
            Valid(out) && Kept(db, out)
  {
    hide SessionsOk, CodesOk, FamiliesOk, SourcesOk, MembersOk, ChainsOk, ChallengesOk, BrowsersOk, OriginsOk,
         IdentitiesOk, SessionsKept, CodesKept, FamiliesKept, MembersKept, ChallengesKept, BrowsersKept, IdentitiesKept,
         OriginsKept;
    KeptIsReflexive(db);
    RevokedFamiliesAreKept(db.families, chosen, at);
    RevokedFamiliesStayOk(db.families, db.codes, db.sessions, chosen, at);
    RevocationKeepsSourcesAndChains(db.families, db.codes, db.members, chosen, at);
  }

  lemma SourceRevocationPreserves(db: Db, id: Id, at: Time)
    requires Valid(db)
    ensures Valid(Apply(db, RevokeSource(id, at))) && Kept(db, Apply(db, RevokeSource(id, at)))
  {
    RevocationPreserves(db, FamiliesFrom(db.families, id), Always(at));
  }

  lemma FamilyRevocationPreserves(db: Db, id: Id, at: Time)
    requires Valid(db)
    ensures Valid(Apply(db, RevokeFamily(id, at))) && Kept(db, Apply(db, RevokeFamily(id, at)))
  {
    RevocationPreserves(db, {id}, Always(at));
  }

  lemma RotationPreserves(db: Db, id: Id, next: Id, at: Time)
    requires Valid(db) && Guarded(db, RotateToken(id, next, at))
    ensures Valid(Apply(db, RotateToken(id, next, at))) && Kept(db, Apply(db, RotateToken(id, next, at)))
  {
    hide SessionsOk, CodesOk, FamiliesOk, SourcesOk, MembersOk, ChainsOk, ChallengesOk, BrowsersOk, OriginsOk,
         IdentitiesOk, SessionsKept, CodesKept, FamiliesKept, MembersKept, ChallengesKept, BrowsersKept, IdentitiesKept,
         OriginsKept;
    KeptIsReflexive(db);
    MembersAfterRotation(db.members, db.families, id, next, at);
    RotatedMemberIsKept(db, id, next, at);
    ChainsAfterRotation(db.members, db.families, id, next, at);
  }

  lemma SessionEndPreserves(db: Db, id: Id, at: Time, familiesAt: Id -> Time)
    requires Valid(db) && Guarded(db, EndSession(id, at, familiesAt))
    ensures Valid(Apply(db, EndSession(id, at, familiesAt))) && Kept(db, Apply(db, EndSession(id, at, familiesAt)))
  {
    hide SessionsOk, CodesOk, FamiliesOk, SourcesOk, MembersOk, ChainsOk, ChallengesOk, BrowsersOk, OriginsOk,
         IdentitiesOk, SessionsKept, CodesKept, FamiliesKept, MembersKept, ChallengesKept, BrowsersKept, IdentitiesKept,
         OriginsKept;
    var ended := db.sessions[id].(revokedAt := Coalesce(db.sessions[id].revokedAt, at));
    var chosen := FamiliesUnder(db.families, id);
    KeptIsReflexive(db);
    EndedSessionIsKept(db.sessions, id, at);
    SessionsAfterEnd(db.sessions, db.users, id, at);
    RevokedFamiliesAreKept(db.families, chosen, familiesAt);
    CodesUnderKeptSessions(db.codes, db.sessions, db.sessions[id := ended]);
    BrowsersUnderKeptSessions(db.browsers, db.sessions, db.sessions[id := ended]);
    ChallengesUnderKeptSessions(db.challenges, db.sessions, db.sessions[id := ended]);
    FamiliesEndWithTheirSession(db.families, db.codes, db.sessions, id, ended, familiesAt);
    RevocationKeepsSourcesAndChains(db.families, db.codes, db.members, chosen, familiesAt);
  }

  lemma NewChallengePreserves(db: Db, id: Id, row: ChallengeRow)
    requires Valid(db) && Guarded(db, AddChallenge(id, row))
    ensures Valid(Apply(db, AddChallenge(id, row))) && Kept(db, Apply(db, AddChallenge(id, row)))
  {
    hide SessionsOk, CodesOk, FamiliesOk, SourcesOk, MembersOk, ChainsOk, ChallengesOk, BrowsersOk, OriginsOk,
         IdentitiesOk, SessionsKept, CodesKept, FamiliesKept, MembersKept, ChallengesKept, BrowsersKept, IdentitiesKept,
         OriginsKept;
    KeptIsReflexive(db);
    ChallengesWithNew(db.challenges, db.sessions, id, row);
  }

  /** The consumed challenge carries its session's revocation time and is the session's only one. */
  lemma FinishedChallengeIsOk(challenges: map<Id, ChallengeRow>, sessions: map<Id, SessionRow>, id: Id, at: Time)
    requires ChallengesOk(challenges, sessions)
    requires id in challenges && challenges[id].consumedAt.None? && sessions[challenges[id].session].revokedAt.None?
    ensures ChallengesOk(challenges[id := challenges[id].(consumedAt := Some(at))],
                         sessions[challenges[id].session := sessions[challenges[id].session].(revokedAt := Some(at))])
  {
  }

  lemma FinishPreserves(db: Db, id: Id, s: Id, at: Time)
    requires Valid(db) && Guarded(db, FinishChallenge(id, s, at))
    ensures Valid(Apply(db, FinishChallenge(id, s, at))) && Kept(db, Apply(db, FinishChallenge(id, s, at)))
  {
    hide SessionsOk, CodesOk, FamiliesOk, SourcesOk, MembersOk, ChainsOk, ChallengesOk, BrowsersOk, OriginsOk,
         IdentitiesOk, SessionsKept, CodesKept, FamiliesKept, MembersKept, ChallengesKept, BrowsersKept, IdentitiesKept,
         OriginsKept;
    var ended := db.sessions[s].(revokedAt := Coalesce(db.sessions[s].revokedAt, at));
    var chosen := FamiliesUnder(db.families, s);
    KeptIsReflexive(db);
    EndedSessionIsKept(db.sessions, s, at);
    SessionsAfterEnd(db.sessions, db.users, s, at);
    ConsumedChallengeIsKept(db.challenges, id, at);
    RevokedFamiliesAreKept(db.families, chosen, Always(at));
    CodesUnderKeptSessions(db.codes, db.sessions, db.sessions[s := ended]);
    BrowsersUnderKeptSessions(db.browsers, db.sessions, db.sessions[s := ended]);
    FinishedChallengeIsOk(db.challenges, db.sessions, id, at);
    FamiliesEndWithTheirSession(db.families, db.codes, db.sessions, s, ended, Always(at));
    RevocationKeepsSourcesAndChains(db.families, db.codes, db.members, chosen, Always(at));
  }

  lemma NewBrowserPreserves(db: Db, id: Id, row: BrowserRow)
    requires Valid(db) && Guarded(db, AddBrowser(id, row))
    ensures Valid(Apply(db, AddBrowser(id, row))) && Kept(db, Apply(db, AddBrowser(id, row)))
  {
    hide SessionsOk, CodesOk, FamiliesOk, SourcesOk, MembersOk, ChainsOk, ChallengesOk, BrowsersOk, OriginsOk,
         IdentitiesOk, SessionsKept, CodesKept, FamiliesKept, MembersKept, ChallengesKept, BrowsersKept, IdentitiesKept,
         OriginsKept;
    KeptIsReflexive(db);
    BrowsersWithNew(db, id, row);
    OriginsUnderKept(db.origins, db.codes, db.codes, db.browsers, db.browsers[id := row]);
  }

  lemma MovePreserves(db: Db, id: Id, row: BrowserRow)
    requires Valid(db) && Guarded(db, MoveBrowser(id, row))
    ensures Valid(Apply(db, MoveBrowser(id, row))) && Kept(db, Apply(db, MoveBrowser(id, row)))
  {
    hide SessionsOk, CodesOk, FamiliesOk, SourcesOk, MembersOk, ChainsOk, ChallengesOk, BrowsersOk, OriginsOk,
         IdentitiesOk, SessionsKept, CodesKept, FamiliesKept, MembersKept, ChallengesKept, BrowsersKept, IdentitiesKept,
         OriginsKept;
    KeptIsReflexive(db);
    BrowsersWithMove(db, id, row);
    OriginsUnderKept(db.origins, db.codes, db.codes, db.browsers, db.browsers[id := row]);
  }

  lemma OriginsWithApproval(origins: map<Id, Id>, codes: map<Id, CodeRow>, browsers: map<Id, BrowserRow>,
                            id: Id, codeId: Id, code: CodeRow)
    requires OriginsOk(origins, codes, browsers)
    requires id in browsers && browsers[id].stage == AwaitingConsent && codeId !in codes && codeId !in origins
    requires OriginOk(code, ApprovedRow(browsers[id]))
    ensures OriginsOk(origins[codeId := id], codes[codeId := code], browsers[id := ApprovedRow(browsers[id])])
  {
    var out := origins[codeId := id];
    var after := browsers[id := ApprovedRow(browsers[id])];
    forall b | b in after && after[b].stage == Approved ensures exists c :: c in out && out[c] == b {
      if b == id {
        assert codeId in out;
      } else {
        var c :| c in origins && origins[c] == b;
        assert c in out && out[c] == b;
      }
    }
  }

  lemma ApprovalPreserves(db: Db, id: Id, codeId: Id, code: CodeRow)
    requires Valid(db) && Guarded(db, ApproveBrowser(id, codeId, code))
    ensures Valid(Apply(db, ApproveBrowser(id, codeId, code))) && Kept(db, Apply(db, ApproveBrowser(id, codeId, code)))
  {
    hide SessionsOk, CodesOk, FamiliesOk, SourcesOk, MembersOk, ChainsOk, ChallengesOk, BrowsersOk, OriginsOk,
         IdentitiesOk, SessionsKept, CodesKept, FamiliesKept, MembersKept, ChallengesKept, BrowsersKept, IdentitiesKept,
         OriginsKept;
    KeptIsReflexive(db);
    CodesWithNew(db.codes, db.sessions, codeId, code);
    SourcesWithNewCode(db.families, db.codes, codeId, code);
    BrowsersWithApproval(db.browsers, db.sessions, id);
    FamiliesUnderKeptCodes(db.families, db.codes, db.codes[codeId := code], db.sessions);
    OriginsKeptByApproval(db.origins, db.codes, codeId, id);
    OriginsWithApproval(db.origins, db.codes, db.browsers, id, codeId, code);
  }

  lemma LoginPreserves(db: Db, e: Effect)
    requires e.LoginBrowser? && Valid(db) && Guarded(db, e)
    ensures Valid(Apply(db, e)) && Kept(db, Apply(db, e))
  {
    hide SessionsOk, CodesOk, FamiliesOk, SourcesOk, MembersOk, ChainsOk, ChallengesOk, BrowsersOk, OriginsOk,
         IdentitiesOk, SessionsKept, CodesKept, FamiliesKept, MembersKept, ChallengesKept, BrowsersKept, IdentitiesKept,
         OriginsKept;
    var sessions := db.sessions[e.sessionId := e.session];
    var browsers := db.browsers[e.id := LoggedInRow(db.browsers[e.id], e.sessionId, e.csrf)];
    KeptIsReflexive(db);
    SessionsWithNew(db.sessions, db.users, db.users + {e.session.userId}, e.sessionId, e.session);
    CodesUnderKeptSessions(db.codes, db.sessions, sessions);
    BrowsersUnderKeptSessions(db.browsers, db.sessions, sessions);
    ChallengesUnderKeptSessions(db.challenges, db.sessions, sessions);
    FamiliesWithNewSession(db.families, db.codes, db.sessions, e.sessionId, e.session);
    BrowsersWithLogin(db.browsers, sessions, e.id, e.sessionId, e.csrf);
    IdentitiesWithLink(db, e.subject, e.session.userId, e.profile);
    OriginsUnderKept(db.origins, db.codes, db.codes, db.browsers, browsers);
  }

  lemma LinkPreserves(db: Db, subject: string, userId: Id, profile: Option<Profile>)
    requires Valid(db) && Guarded(db, LinkUser(subject, userId, profile))
    ensures Valid(Apply(db, LinkUser(subject, userId, profile)))
            && Kept(db, Apply(db, LinkUser(subject, userId, profile)))
  {
    hide SessionsOk, CodesOk, FamiliesOk, SourcesOk, MembersOk, ChainsOk, ChallengesOk, BrowsersOk, OriginsOk,
         IdentitiesOk, SessionsKept, CodesKept, FamiliesKept, MembersKept, ChallengesKept, BrowsersKept, IdentitiesKept,
         OriginsKept;
    KeptIsReflexive(db);
    SessionsWithMoreUsers(db.sessions, db.users, {userId});
    IdentitiesWithLink(db, subject, userId, profile.GetOr(SAMPLE_PROFILE));
  }

  lemma NothingPreserves(db: Db)
    requires Valid(db)
    ensures Valid(Apply(db, NoEffect)) && Kept(db, Apply(db, NoEffect))
  {
    KeptIsReflexive(db);
  }

  lemma CredentialEffectPreserves(db: Db, e: Effect)
    requires e.UseCode? || e.RevokeSource? || e.RevokeFamily? || e.RotateToken? || e.EndSession? || e.FinishChallenge?
    requires Valid(db) && Guarded(db, e)
    ensures Valid(Apply(db, e)) && Kept(db, Apply(db, e))
  {
    hide Valid, Kept, Guarded, Apply;
    match e
    case UseCode(id, at, renewal) => UsedCodePreserves(db, id, at, renewal);
    case RevokeSource(id, at) => SourceRevocationPreserves(db, id, at);
    case RevokeFamily(id, at) => FamilyRevocationPreserves(db, id, at);
    case RotateToken(id, next, at) => RotationPreserves(db, id, next, at);
    case EndSession(id, at, familiesAt) => SessionEndPreserves(db, id, at, familiesAt);
    case FinishChallenge(id, s, at) => FinishPreserves(db, id, s, at);
  }

  lemma BrowserEffectPreserves(db: Db, e: Effect)
    requires e.AddBrowser? || e.MoveBrowser? || e.ApproveBrowser? || e.LoginBrowser?
    requires Valid(db) && Guarded(db, e)
    ensures Valid(Apply(db, e)) && Kept(db, Apply(db, e))
  {
    hide Valid, Kept, Guarded, Apply;
    match e
    case AddBrowser(id, row) => NewBrowserPreserves(db, id, row);
    case MoveBrowser(id, row) => MovePreserves(db, id, row);
    case ApproveBrowser(id, codeId, code) => ApprovalPreserves(db, id, codeId, code);
    case LoginBrowser(_, _, _, _, _, _) => LoginPreserves(db, e);
  }

  /** Every guarded commit keeps every invariant and loses nothing. */
  lemma GuardedPreservesValid(db: Db, e: Effect)
    requires Valid(db) && Guarded(db, e)
    ensures Valid(Apply(db, e)) && Kept(db, Apply(db, e))
  {
    hide Valid, Kept, Guarded, Apply;
    match e
    case NoEffect => NothingPreserves(db);
    case AddSession(id, row) => NewSessionPreserves(db, id, row);
    case AddCode(id, row) => NewCodePreserves(db, id, row);
    case AddChallenge(id, row) => NewChallengePreserves(db, id, row);
    case LinkUser(subject, userId, profile) => LinkPreserves(db, subject, userId, profile);
    case AddBrowser(_, _) => BrowserEffectPreserves(db, e);
    case MoveBrowser(_, _) => BrowserEffectPreserves(db, e);
    case ApproveBrowser(_, _, _) => BrowserEffectPreserves(db, e);
    case LoginBrowser(_, _, _, _, _, _) => BrowserEffectPreserves(db, e);
    case _ => CredentialEffectPreserves(db, e);
  }
}
