/** The rows of the database, the write sets of its transactions, and what a commit does. */
module Tables {
  import opened Prelude
  import opened Policy

  datatype SessionRow = SessionRow(
    userId: Id,
    authTime: Time,
    expiresAt: Time,
    revokedAt: Option<Time>,
    upstreamAuthTime: Option<Time>)

  datatype CodeRow = CodeRow(
    session: Id,
    grant: Grant,
    issueRefresh: bool,
    nonce: Option<string>,
    upstreamAuthTime: Option<Time>,
    issuedAt: Time,
    expiresAt: Time,
    consumedAt: Option<Time>)

  datatype FamilyRow = FamilyRow(
    sourceCode: Id,
    session: Id,
    userId: Id,
    clientId: string,
    scopes: seq<string>,
    resource: string,
    binding: Option<Binding>,
    upstreamAuthTime: Option<Time>,
    issuedAt: Time,
    expiresAt: Time,
    revokedAt: Option<Time>)

  datatype MemberRow = MemberRow(family: Id, issuedAt: Time, consumedAt: Option<Time>, successor: Option<Id>)

  datatype ChallengeRow = ChallengeRow(
    csrf: Id,
    session: Id,
    clientId: string,
    redirectUri: string,
    state: Option<string>,
    createdAt: Time,
    expiresAt: Time,
    consumedAt: Option<Time>)

  datatype Stage =
    | AwaitingStart | AwaitingGoogle | CallbackClaimed | AwaitingConsent
    | Approved | Denied | Failed | Expired

  /** What the browser transaction recorded when it began; never written again. */
  datatype Request = Request(
    grant: Grant,
    state: Option<string>,
    nonce: Option<string>,
    allowPreAuthorization: bool,
    createdAt: Time,
    expiresAt: Time)

  datatype BrowserRow = BrowserRow(
    request: Request,
    stage: Stage,
    upstreamState: Option<Id>,
    browserBinding: Option<Id>,
    upstreamNonce: Option<Id>,
    upstreamVerifier: Option<Id>,
    claim: Option<Id>,
    csrf: Option<Id>,
    session: Option<Id>)

  datatype Profile = Profile(
    name: Option<string>, givenName: Option<string>, familyName: Option<string>,
    picture: Option<string>, verifiedEmail: Option<string>, updatedAt: Time)

  const SAMPLE_PROFILE := Profile(None, None, None, None, None, 0)

  /** `origins` is a history table, not in the schema: it records from which browser transaction
      a code was issued. */
  datatype Db = Db(
    sessions: map<Id, SessionRow>,
    codes: map<Id, CodeRow>,
    families: map<Id, FamilyRow>,
    members: map<Id, MemberRow>,
    challenges: map<Id, ChallengeRow>,
    browsers: map<Id, BrowserRow>,
    users: set<Id>,
    identities: map<string, Id>,
    profiles: map<Id, Profile>,
    origins: map<Id, Id>)

  const EMPTY_DB := Db(map[], map[], map[], map[], map[], map[], {}, map[], map[], map[])

  /** A new refresh family with its first member. */
  datatype Renewal = Renewal(id: Id, family: FamilyRow, token: Id)

  /** The write set of one transaction. */
  datatype Effect =
    | NoEffect
    | AddSession(id: Id, session: SessionRow)
    | AddCode(id: Id, code: CodeRow)
    | UseCode(id: Id, at: Time, renewal: Option<Renewal>)
    | RevokeSource(id: Id, at: Time)
    | RevokeFamily(id: Id, at: Time)
    | RotateToken(id: Id, next: Id, at: Time)
    | EndSession(id: Id, at: Time, familiesAt: Id -> Time)
    | AddChallenge(id: Id, challenge: ChallengeRow)
    | FinishChallenge(id: Id, sessionId: Id, at: Time)
    | AddBrowser(id: Id, browser: BrowserRow)
    | MoveBrowser(id: Id, browser: BrowserRow)
    | ApproveBrowser(id: Id, codeId: Id, code: CodeRow)
    | LoginBrowser(id: Id, csrf: Id, sessionId: Id, session: SessionRow, subject: string, profile: Profile)
    | LinkUser(subject: string, userId: Id, newProfile: Option<Profile>)

  /** `COALESCE(revoked_at, at)`. */
  function Coalesce(revokedAt: Option<Time>, at: Time): Option<Time> {
    if revokedAt.Some? then revokedAt else Some(at)
  }

  /** One time for every row. */
  function Always(at: Time): Id -> Time {
    f => at
  }

  /** An update of the chosen rows; `at` gives the time at which each of them is written. */
  function RevokeWhere(families: map<Id, FamilyRow>, chosen: set<Id>, at: Id -> Time): (r: map<Id, FamilyRow>)
    ensures r.Keys == families.Keys
  {
    map f | f in families ::
      if f in chosen then families[f].(revokedAt := Coalesce(families[f].revokedAt, at(f))) else families[f]
  }

  function FamiliesFrom(families: map<Id, FamilyRow>, code: Id): set<Id> {
    set f | f in families && families[f].sourceCode == code
  }

  function FamiliesUnder(families: map<Id, FamilyRow>, session: Id): set<Id> {
    set f | f in families && families[f].session == session
  }

  function ApprovedRow(row: BrowserRow): BrowserRow {
    row.(stage := Approved, csrf := None)
  }

  function LoggedInRow(row: BrowserRow, session: Id, csrf: Id): BrowserRow {
    row.(stage := AwaitingConsent, session := Some(session), csrf := Some(csrf), claim := None)
  }

  /** The state after a commit.  An update of a missing row is no update. */
  function Apply(db: Db, e: Effect): Db {
    match e
    case NoEffect => db
    case AddSession(id, row) => db.(sessions := db.sessions[id := row])
    case AddCode(id, row) => db.(codes := db.codes[id := row])
    case UseCode(id, at, renewal) =>
      if id !in db.codes then db
      else
        db.(codes := db.codes[id := db.codes[id].(consumedAt := Some(at))],
            families := if renewal.Some? then db.families[renewal.value.id := renewal.value.family] else db.families,
            members := if renewal.Some? then
              db.members[renewal.value.token := MemberRow(renewal.value.id, at, None, None)]
                       else db.members)
    case RevokeSource(id, at) => db.(families := RevokeWhere(db.families, FamiliesFrom(db.families, id), Always(at)))
    case RevokeFamily(id, at) => db.(families := RevokeWhere(db.families, {id}, Always(at)))
    case RotateToken(id, next, at) =>
      if id !in db.members then db
      else db.(members := db.members[next := MemberRow(db.members[id].family, at, None, None)]
                                    [id := db.members[id].(consumedAt := Some(at), successor := Some(next))])
    case EndSession(id, at, familiesAt) =>
      if id !in db.sessions then db
      else db.(sessions := db.sessions[id := db.sessions[id].(revokedAt := Coalesce(db.sessions[id].revokedAt, at))],
               families := RevokeWhere(db.families, FamiliesUnder(db.families, id), familiesAt))
    case AddChallenge(id, row) => db.(challenges := db.challenges[id := row])
    case FinishChallenge(id, s, at) =>
      if id !in db.challenges || s !in db.sessions then db
      else db.(challenges := db.challenges[id := db.challenges[id].(consumedAt := Some(at))],
               sessions := db.sessions[s := db.sessions[s].(revokedAt := Coalesce(db.sessions[s].revokedAt, at))],
               families := RevokeWhere(db.families, FamiliesUnder(db.families, s), Always(at)))
    case AddBrowser(id, row) => db.(browsers := db.browsers[id := row])
    case MoveBrowser(id, row) => db.(browsers := db.browsers[id := row])
    case ApproveBrowser(id, codeId, code) =>
      if id !in db.browsers then db
      else db.(browsers := db.browsers[id := ApprovedRow(db.browsers[id])],
               codes := db.codes[codeId := code],
               origins := db.origins[codeId := id])
    case LoginBrowser(id, csrf, sessionId, session, subject, profile) =>
      if id !in db.browsers then db
      else db.(browsers := db.browsers[id := LoggedInRow(db.browsers[id], sessionId, csrf)],
               sessions := db.sessions[sessionId := session],
               users := db.users + {session.userId},
               identities := db.identities[subject := session.userId],
               profiles := db.profiles[session.userId := profile])
    case LinkUser(subject, userId, profile) =>
      db.(users := db.users + {userId},
          identities := db.identities[subject := userId],
          profiles := if profile.Some? then db.profiles[userId := profile.value] else db.profiles)
  }

  // ---- what never changes, and what changes once ----

  predicate SessionKept(a: SessionRow, b: SessionRow) {
    b == a.(revokedAt := b.revokedAt) && (a.revokedAt.Some? ==> b == a)
  }

  predicate CodeKept(a: CodeRow, b: CodeRow) {
    b == a.(consumedAt := b.consumedAt) && (a.consumedAt.Some? ==> b == a)
  }

  predicate FamilyKept(a: FamilyRow, b: FamilyRow) {
    b == a.(revokedAt := b.revokedAt) && (a.revokedAt.Some? ==> b == a)
  }

  predicate MemberKept(a: MemberRow, b: MemberRow) {
    b == a.(consumedAt := b.consumedAt, successor := b.successor) && (a.consumedAt.Some? ==> b == a)
  }

  predicate ChallengeKept(a: ChallengeRow, b: ChallengeRow) {
    b == a.(consumedAt := b.consumedAt) && (a.consumedAt.Some? ==> b == a)
  }

  /** How many stage changes are still possible. */
  function Rank(s: Stage): nat {
    match s
    case AwaitingStart => 4
    case AwaitingGoogle => 3
    case CallbackClaimed => 2
    case AwaitingConsent => 1
    case Approved => 0
    case Denied => 0
    case Failed => 0
    case Expired => 0
  }

  /** The edges of the stage graph. */
  predicate Edge(a: Stage, b: Stage) {
    match a
    case AwaitingStart => b == AwaitingGoogle || b == Denied
    case AwaitingGoogle => b == CallbackClaimed || b == Expired
    case CallbackClaimed => b == AwaitingConsent || b == Denied || b == Failed || b == Expired
    case AwaitingConsent => b == Approved || b == Denied
    case _ => false
  }

  /** The request is immutable; a row either stays as it is or its rank drops; the session of a
      browser transaction, once set, is fixed. */
  predicate BrowserKept(a: BrowserRow, b: BrowserRow) {
    && b.request == a.request
    && b.upstreamState == a.upstreamState && b.browserBinding == a.browserBinding
    && (b == a || Rank(b.stage) < Rank(a.stage))
    && (a.session.Some? ==> b.session == a.session)
  }

  ghost predicate SessionsKept(a: map<Id, SessionRow>, b: map<Id, SessionRow>) {
    forall s | s in a :: s in b && SessionKept(a[s], b[s])
  }

  ghost predicate CodesKept(a: map<Id, CodeRow>, b: map<Id, CodeRow>) {
    forall c | c in a :: c in b && CodeKept(a[c], b[c])
  }

  ghost predicate FamiliesKept(a: map<Id, FamilyRow>, b: map<Id, FamilyRow>) {
    forall f | f in a :: f in b && FamilyKept(a[f], b[f])
  }

  ghost predicate MembersKept(a: map<Id, MemberRow>, b: map<Id, MemberRow>) {
    forall m | m in a :: m in b && MemberKept(a[m], b[m])
  }

  ghost predicate ChallengesKept(a: map<Id, ChallengeRow>, b: map<Id, ChallengeRow>) {
    forall c | c in a :: c in b && ChallengeKept(a[c], b[c])
  }

  ghost predicate BrowsersKept(a: map<Id, BrowserRow>, b: map<Id, BrowserRow>) {
    forall r | r in a :: r in b && BrowserKept(a[r], b[r])
  }

  ghost predicate IdentitiesKept(a: map<string, Id>, b: map<string, Id>) {
    forall u | u in a :: u in b && b[u] == a[u]
  }

  /** Recorded origins stay, and a code issued without one never gets one. */
  ghost predicate OriginsKept(a: map<Id, Id>, codes: map<Id, CodeRow>, b: map<Id, Id>) {
    && (forall c | c in a :: c in b && b[c] == a[c])
    && (forall c | c in codes && c !in a :: c !in b)
  }

  /** Everything a commit leaves in place, table by table. */
  ghost predicate Kept(a: Db, b: Db) {
    && SessionsKept(a.sessions, b.sessions)
    && CodesKept(a.codes, b.codes)
    && FamiliesKept(a.families, b.families)
    && MembersKept(a.members, b.members)
    && ChallengesKept(a.challenges, b.challenges)
    && BrowsersKept(a.browsers, b.browsers)
    && a.users <= b.users
    && IdentitiesKept(a.identities, b.identities)
    && OriginsKept(a.origins, a.codes, b.origins)
  }

  lemma KeptIsReflexive(a: Db)
    ensures Kept(a, a)
  {
  }

  lemma KeptIsTransitive(a: Db, b: Db, c: Db)
    requires Kept(a, b) && Kept(b, c)
    ensures Kept(a, c)
  {
  }
}
