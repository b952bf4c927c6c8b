/** What holds of the database in every reachable state. */
module Invariants {
  import opened Prelude
  import opened Ordering
  import opened Policy
  import opened Tables

  const SESSION_LIFETIME: Time := SESSION_SECONDS * SECOND
  const CODE_LIFETIME: Time := CODE_SECONDS * SECOND

  predicate SessionOk(row: SessionRow) {
    row.expiresAt <= row.authTime + SESSION_LIFETIME
  }

  ghost predicate SessionsOk(sessions: map<Id, SessionRow>, users: set<Id>) {
    forall s | s in sessions :: SessionOk(sessions[s]) && sessions[s].userId in users
  }

  predicate CodeOk(row: CodeRow, session: SessionRow) {
    && row.expiresAt <= row.issuedAt + CODE_LIFETIME
    && row.expiresAt <= session.expiresAt
    && row.upstreamAuthTime == session.upstreamAuthTime
    && row.issueRefresh == (OFFLINE_ACCESS in row.grant.scopes)
    && BoundToItsClient(row.grant)
  }

  ghost predicate CodesOk(codes: map<Id, CodeRow>, sessions: map<Id, SessionRow>) {
    forall c | c in codes :: codes[c].session in sessions && CodeOk(codes[c], sessions[codes[c].session])
  }

  /** A family repeats its code and its session, lives within both limits, and ends with its session. */
  predicate FamilyOk(row: FamilyRow, code: CodeRow, session: SessionRow) {
    && code.consumedAt == Some(row.issuedAt)
    && code.issueRefresh
    && row.session == code.session
    && row.userId == session.userId
    && row.clientId == code.grant.clientId
    && row.scopes == code.grant.scopes
    && row.resource == code.grant.resource
    && row.binding == code.grant.binding
    && row.upstreamAuthTime == code.upstreamAuthTime
    && row.expiresAt <= row.issuedAt + FAMILY_LIFETIME
    && row.expiresAt <= session.expiresAt
    && (session.revokedAt.Some? ==> row.revokedAt.Some?)
  }

  ghost predicate FamiliesOk(families: map<Id, FamilyRow>, codes: map<Id, CodeRow>, sessions: map<Id, SessionRow>) {
    forall f | f in families ::
      && families[f].sourceCode in codes
      && families[f].session in sessions
      && FamilyOk(families[f], codes[families[f].sourceCode], sessions[families[f].session])
  }

  /** At most one family comes from a code, and one does if a renewing code was used. */
  ghost predicate SourcesOk(families: map<Id, FamilyRow>, codes: map<Id, CodeRow>) {
    && (forall f, g | f in families && g in families && families[f].sourceCode == families[g].sourceCode :: f == g)
    && (forall c | c in codes && codes[c].consumedAt.Some? && codes[c].issueRefresh ::
          exists f :: f in families && families[f].sourceCode == c)
  }

  ghost predicate MembersOk(members: map<Id, MemberRow>, families: map<Id, FamilyRow>) {
    forall m | m in members :: members[m].family in families
  }

  /** `next` was issued when `m` was consumed, and is its recorded successor. */
  predicate Succeeds(members: map<Id, MemberRow>, m: Id, next: Id)
    requires m in members && next in members
  {
    members[m].successor == Some(next) && members[m].consumedAt == Some(members[next].issuedAt)
  }

  /** `chain` lists the members of the family without repetition, each superseded by the next at the
      next one's issue, the last one unconsumed. */
  ghost predicate IsChain(members: map<Id, MemberRow>, family: Id, start: Time, chain: seq<Id>) {
    && chain != []
    && (forall i, j | 0 <= i < j < |chain| :: chain[i] != chain[j])
    && (forall m :: m in chain <==> m in members && members[m].family == family)
    && members[chain[0]].issuedAt == start
    && (forall i, j | 0 <= i < j < |chain| && j == i + 1 :: Succeeds(members, chain[i], chain[j]))
    && members[chain[|chain| - 1]].consumedAt.None?
    && members[chain[|chain| - 1]].successor.None?
  }

  ghost predicate HasChain(members: map<Id, MemberRow>, family: Id, start: Time) {
    exists chain :: IsChain(members, family, start, chain)
  }

  ghost predicate ChainsOk(members: map<Id, MemberRow>, families: map<Id, FamilyRow>) {
    forall f | f in families :: HasChain(members, f, families[f].issuedAt)
  }

  ghost predicate ChallengesOk(challenges: map<Id, ChallengeRow>, sessions: map<Id, SessionRow>) {
    && (forall c | c in challenges ::
          && challenges[c].session in sessions
          && challenges[c].expiresAt <= challenges[c].createdAt + CHALLENGE_LIFETIME
          && (challenges[c].consumedAt.Some? ==>
                sessions[challenges[c].session].revokedAt == challenges[c].consumedAt))
    && (forall c, d | c in challenges && d in challenges
                      && challenges[c].consumedAt.Some? && challenges[d].consumedAt.Some?
                      && challenges[c].session == challenges[d].session :: c == d)
  }

  /** The secrets a browser transaction holds, stage by stage. */
  predicate BrowserOk(row: BrowserRow) {
    && (row.upstreamVerifier.Some? <==> row.stage == AwaitingStart || row.stage == AwaitingGoogle)
    && (row.csrf.Some? <==> row.stage == AwaitingConsent)
    && (row.stage == CallbackClaimed ==> row.claim.Some?)
    && (row.stage == AwaitingStart || row.stage == AwaitingGoogle ==> row.upstreamState.Some? && row.claim.None?)
    && (row.stage == AwaitingConsent || row.stage == Approved ==> row.session.Some?)
    && (row.stage == AwaitingStart || row.stage == AwaitingGoogle || row.stage == CallbackClaimed ==> row.session.None?)
    && Sorted(row.request.grant.scopes) && Distinct(row.request.grant.scopes)
    && row.request.expiresAt <= row.request.createdAt + BROWSER_LIFETIME
    && BoundToItsClient(row.request.grant)
  }

  ghost predicate BrowsersOk(browsers: map<Id, BrowserRow>, sessions: map<Id, SessionRow>) {
    && (forall b | b in browsers ::
          BrowserOk(browsers[b])
          && (browsers[b].session.Some? ==> browsers[b].session.value in sessions))
    && (forall a, b | a in browsers && b in browsers && browsers[a].claim.Some?
                      && browsers[a].claim == browsers[b].claim :: a == b)
    && (forall a, b | a in browsers && b in browsers && browsers[a].upstreamState.Some?
                      && browsers[a].upstreamState == browsers[b].upstreamState :: a == b)
  }

  /** A code issued from a browser transaction repeats what that transaction recorded. */
  predicate OriginOk(code: CodeRow, row: BrowserRow) {
    && row.stage == Approved
    && row.session == Some(code.session)
    && code.grant == row.request.grant
    && code.nonce == row.request.nonce
  }

  /** A browser transaction is approved exactly if one code was issued from it, and only one. */
  ghost predicate OriginsOk(origins: map<Id, Id>, codes: map<Id, CodeRow>, browsers: map<Id, BrowserRow>) {
    && (forall c | c in origins ::
          c in codes && origins[c] in browsers && OriginOk(codes[c], browsers[origins[c]]))
    && (forall c, d | c in origins && d in origins && origins[c] == origins[d] :: c == d)
    && (forall b | b in browsers && browsers[b].stage == Approved :: exists c :: c in origins && origins[c] == b)
  }

  /** The subject-to-user map is injective. */
  ghost predicate IdentitiesOk(identities: map<string, Id>, users: set<Id>, profiles: map<Id, Profile>) {
    && (forall u | u in identities :: identities[u] in users)
    && (forall u, v | u in identities && v in identities && identities[u] == identities[v] :: u == v)
    && profiles.Keys <= users
  }

  ghost predicate Valid(db: Db) {
    && SessionsOk(db.sessions, db.users)
    && CodesOk(db.codes, db.sessions)
    && FamiliesOk(db.families, db.codes, db.sessions)
    && SourcesOk(db.families, db.codes)
    && MembersOk(db.members, db.families)
    && ChainsOk(db.members, db.families)
    && ChallengesOk(db.challenges, db.sessions)
    && BrowsersOk(db.browsers, db.sessions)
    && OriginsOk(db.origins, db.codes, db.browsers)
    && IdentitiesOk(db.identities, db.users, db.profiles)
  }

  lemma EmptyIsValid()
    ensures Valid(EMPTY_DB)
  {
  }

  // ---- the conditions under which a write set keeps them ----

  ghost predicate NewBrowserOk(db: Db, id: Id, row: BrowserRow) {
    && id !in db.browsers
    && BrowserOk(row)
    && (row.stage == AwaitingStart || row.stage == AwaitingConsent)
    && row.claim.None?
    && (row.session.Some? ==> row.session.value in db.sessions)
    && (row.upstreamState.Some? ==> forall b | b in db.browsers :: db.browsers[b].upstreamState != row.upstreamState)
  }

  ghost predicate MoveOk(db: Db, id: Id, row: BrowserRow) {
    && id in db.browsers
    && BrowserOk(row)
    && Edge(db.browsers[id].stage, row.stage)
    && row.stage != Approved && row.stage != AwaitingConsent
    && row.request == db.browsers[id].request
    && row.upstreamState == db.browsers[id].upstreamState
    && row.browserBinding == db.browsers[id].browserBinding
    && row.session == db.browsers[id].session
    && (row.claim.Some? && row.claim != db.browsers[id].claim ==>
          forall b | b in db.browsers :: db.browsers[b].claim != row.claim)
  }

  ghost predicate NewCodeOk(db: Db, id: Id, row: CodeRow) {
    && id !in db.codes && id !in db.origins
    && row.session in db.sessions
    && CodeOk(row, db.sessions[row.session])
    && row.consumedAt.None?
  }

  ghost predicate NewFamilyOk(db: Db, c: Id, at: Time, renewal: Renewal)
    requires c in db.codes && db.codes[c].session in db.sessions
  {
    && renewal.id !in db.families && renewal.token !in db.members
    && renewal.family.sourceCode == c
    && renewal.family.issuedAt == at
    && renewal.family.revokedAt.None?
    && FamilyOk(renewal.family, db.codes[c].(consumedAt := Some(at)), db.sessions[db.codes[c].session])
  }

  ghost predicate LinkOk(db: Db, subject: string, userId: Id) {
    (subject in db.identities && db.identities[subject] == userId) || (subject !in db.identities && userId !in db.users)
  }

  ghost predicate Guarded(db: Db, e: Effect) {
    match e
    case NoEffect => true
    case AddSession(id, row) => id !in db.sessions && row.revokedAt.None? && SessionOk(row) && row.userId in db.users
    case AddCode(id, row) => NewCodeOk(db, id, row)
    case UseCode(id, at, renewal) =>
      && id in db.codes && db.codes[id].consumedAt.None?
      && db.codes[id].session in db.sessions && db.sessions[db.codes[id].session].revokedAt.None?
      && (renewal.Some? <==> db.codes[id].issueRefresh)
      && (renewal.Some? ==> NewFamilyOk(db, id, at, renewal.value))
    case RevokeSource(id, at) => id in db.codes && db.codes[id].consumedAt.Some?
    case RevokeFamily(id, at) => id in db.families
    case RotateToken(id, next, at) =>
      && id in db.members && db.members[id].consumedAt.None? && next !in db.members
      && db.members[id].family in db.families && db.families[db.members[id].family].revokedAt.None?
    case EndSession(id, at, familiesAt) => id in db.sessions
    case AddChallenge(id, row) =>
      && id !in db.challenges && row.session in db.sessions && row.consumedAt.None?
      && row.expiresAt <= row.createdAt + CHALLENGE_LIFETIME
    case FinishChallenge(id, s, at) =>
      && id in db.challenges && s in db.sessions && db.challenges[id].session == s
      && db.challenges[id].consumedAt.None? && db.sessions[s].revokedAt.None?
    case AddBrowser(id, row) => NewBrowserOk(db, id, row)
    case MoveBrowser(id, row) => MoveOk(db, id, row)
    case ApproveBrowser(id, codeId, code) =>
      && id in db.browsers && db.browsers[id].stage == AwaitingConsent
      && NewCodeOk(db, codeId, code)
      && OriginOk(code, ApprovedRow(db.browsers[id]))
    case LoginBrowser(id, csrf, sessionId, session, subject, profile) =>
      && id in db.browsers && db.browsers[id].stage == CallbackClaimed
      && sessionId !in db.sessions && session.revokedAt.None? && SessionOk(session)
      && LinkOk(db, subject, session.userId)
    case LinkUser(subject, userId, profile) => LinkOk(db, subject, userId)
  }

}
