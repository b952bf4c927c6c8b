/** One run from the empty database: a subject is linked, a session and a code are created, the code is
    exchanged, the refresh token rotated, and the old token presented again.  It shows that the
    hypotheses of the theorems over runs are met. */
module Witness {
  import opened Prelude
  import opened Policy
  import opened Tables
  import opened Invariants
  import opened Operations
  import opened Steps
  import opened Runs

  const CLIENT := "client"
  const REDIRECT := "app:/callback"
  const RESOURCE := "https://api.example"
  const SCOPES: seq<string> := [OFFLINE_ACCESS]
  function Verifier(): (r: string)
    ensures ValidVerifier(r)
  {
    seq(43, i => 'v')
  }

  function Request(): Pending {
    PendingData(CLIENT, REDIRECT, SCOPES, RESOURCE, Digest(Verifier()), None)
  }

  const USER: Id := 30
  const SESSION: Id := 11
  const CODE: Id := 12
  const FAMILY: Id := 13
  const FIRST_TOKEN: Id := 23
  const SECOND_TOKEN: Id := 24

  /** Everything happens at time zero; the `k`-th operation draws its own identifiers. */
  function EnvOf(k: nat): Env {
    Env(Clock(0, 0, 0, Always(0)), Ticks(0, 0, 0, 0, 0, 0, 0, 0), Drawn(10 + k, 20 + k, 30 + k, 0, 0, 0, 0, 0))
  }

  function CallOf(k: nat): Call
    requires k < 6
  {
    match k
    case 0 => LinkIdentity("subject", None)
    case 1 => CreateSession(USER, None, Lifetime(3600, 0))
    case 2 => IssueCode(SESSION, Request(), Lifetime(60, 0))
    case 3 => Exchange(CodeRequest(CODE, CLIENT, REDIRECT, Verifier(), Direct(RESOURCE)))
    case _ => Rotate(TokenRequest(FIRST_TOKEN, CLIENT, Direct(RESOURCE)))
  }

  const SESSION_ROW := SessionRow(USER, 0, 3600 * SECOND, None, None)
  const CODE_ROW := CodeRow(SESSION, Request().Stored(), true, None, None, 0, 60 * SECOND, None)
  const FAMILY_ROW :=
    FamilyRow(CODE, SESSION, USER, CLIENT, SCOPES, RESOURCE, None, None, 0, 3600 * SECOND, None)
  const TOKEN_ROW := MemberRow(FAMILY, 0, None, None)

  const LINKED: Db := EMPTY_DB.(users := {USER}, identities := map["subject" := USER])
  const OPENED: Db := LINKED.(sessions := map[SESSION := SESSION_ROW])
  const ISSUED: Db := OPENED.(codes := map[CODE := CODE_ROW])
  const EXCHANGED: Db :=
    ISSUED.(codes := map[CODE := CODE_ROW.(consumedAt := Some(0))], families := map[FAMILY := FAMILY_ROW],
            members := map[FIRST_TOKEN := TOKEN_ROW])
  const ROTATED: Db :=
    EXCHANGED.(members := map[SECOND_TOKEN := TOKEN_ROW,
                              FIRST_TOKEN := TOKEN_ROW.(consumedAt := Some(0), successor := Some(SECOND_TOKEN))])
  const ENDED: Db := ROTATED.(families := map[FAMILY := FAMILY_ROW.(revokedAt := Some(0))])

  const STATES: seq<Db> := [EMPTY_DB, LINKED, OPENED, ISSUED, EXCHANGED, ROTATED, ENDED]

  function Events(): seq<Event> {
    seq(6, k requires 0 <= k < 6 => Event(CallOf(k), EnvOf(k)))
  }

  lemma LinkDecides()
    ensures Perform(EMPTY_DB, CallOf(0), EnvOf(0)) == Decision(LinkUser("subject", USER, None), UserLinked(USER))
  {
    hide Apply;
  }

  lemma SubjectIsLinked()
    ensures Advances(EMPTY_DB, Event(CallOf(0), EnvOf(0)), LINKED)
  {
    LinkDecides();
    hide Perform;
  }

  lemma SessionIsOpened()
    ensures Advances(LINKED, Event(CallOf(1), EnvOf(1)), OPENED)
  {
  }

  lemma CodeIsIssued()
    ensures Advances(OPENED, Event(CallOf(2), EnvOf(2)), ISSUED)
  {
  }

  lemma CodeIsExchanged()
    ensures Advances(ISSUED, Event(CallOf(3), EnvOf(3)), EXCHANGED)
    ensures OutcomeOf(ISSUED, Event(CallOf(3), EnvOf(3))).Granted?
  {
  }

  /** The draws of the last two operations are new. */
  lemma DrawsAreNew()
    ensures Admissible(EXCHANGED, CallOf(4), EnvOf(4)) && Admissible(ROTATED, CallOf(5), EnvOf(5))
  {
  }

  lemma RotationDecides()
    ensures Perform(EXCHANGED, CallOf(4), EnvOf(4)).effect == RotateToken(FIRST_TOKEN, SECOND_TOKEN, 0)
    ensures Perform(EXCHANGED, CallOf(4), EnvOf(4)).outcome.Granted?
  {
    hide Apply;
  }

  lemma RotationWrites()
    ensures Apply(EXCHANGED, RotateToken(FIRST_TOKEN, SECOND_TOKEN, 0)) == ROTATED
  {
  }

  lemma TokenIsRotated()
    ensures Advances(EXCHANGED, Event(CallOf(4), EnvOf(4)), ROTATED)
    ensures OutcomeOf(EXCHANGED, Event(CallOf(4), EnvOf(4))).Granted?
  {
    hide Perform, Apply, Admissible, CallOf, EnvOf;
    DrawsAreNew();
    RotationDecides();
    RotationWrites();
  }

  lemma ReplayDecides()
    ensures Perform(ROTATED, CallOf(5), EnvOf(5)) == Decision(RevokeFamily(FAMILY, 0), Rejected(InvalidGrant))
  {
    hide Apply;
  }

  lemma ReplayWrites()
    ensures Apply(ROTATED, RevokeFamily(FAMILY, 0)) == ENDED
  {
  }

  lemma TokenIsReplayed()
    ensures Advances(ROTATED, Event(CallOf(5), EnvOf(5)), ENDED)
    ensures OutcomeOf(ROTATED, Event(CallOf(5), EnvOf(5))) == Rejected(InvalidGrant)
  {
    hide Perform, Apply, Admissible, CallOf, EnvOf;
    DrawsAreNew();
    ReplayDecides();
    ReplayWrites();
  }

  /** The six operations are a run; the exchange and the rotation succeed, and the replay ends the family. */
  lemma RunsExist()
    ensures Run(STATES, Events()) && STATES[0] == EMPTY_DB
    ensures OutcomeOf(STATES[3], Events()[3]).Granted?
    ensures OutcomeOf(STATES[4], Events()[4]).Granted?
    ensures OutcomeOf(STATES[5], Events()[5]) == Rejected(InvalidGrant)
    ensures STATES[6].families[FAMILY].revokedAt.Some?
  {
    hide Advances, OutcomeOf, CallOf, EnvOf, Valid;
    EmptyIsValid();
    SubjectIsLinked();
    SessionIsOpened();
    CodeIsIssued();
    CodeIsExchanged();
    TokenIsRotated();
    TokenIsReplayed();
  }
}
