# A verified model of the provider's credential core

The repository is an OAuth 2.0 / OpenID Connect provider that keeps its state in a relational database.
This project models the part of it that must not go wrong under concurrency and replay: provider sessions,
authorization codes, refresh families, logout challenges, the browser transactions codes come from, the
client policy that guards all of them, and two caches.

`dafny verify dfyconfig.toml` checks everything.

## How the model is built

**Tables and operations.** `Tables` holds the rows, the write sets (`Effect`) and what a commit does (`Apply`).
`Operations` gives each of the twenty-two operations as a decision from the rows it locked, its clock readings and
its random draws to a write set and an outcome; `Perform` is one operation alone on a database. An early error
return is a rollback (`NoEffect`); the two replay branches and the two expired-callback branches commit and
still fail.

**Statement by statement.** `Database`, `Credentials`, `LogoutTransactions` and `BrowserTransactions` are the
stores as the source writes them: classes over shared mutable tables whose methods read, check, update row by
row, re-check policy and restore the saved tables when they roll back, with a nested savepoint in the callback.
Every method is proved to leave exactly the database, and give exactly the outcome, that `Perform` states.
`Provider` does the same for client resolution and for the loops that try a request twice.

**Whole runs.** `Invariants` says what holds of the database, `Preservation` and `Steps` prove that every
operation keeps it, and `Runs`, `LogoutRuns` and `BrowserRuns` prove the promises over every run: any number of
operations by anybody in any order, from any valid database. `Witness` exhibits one from the empty database.

**Answers.** `TokenAnswers`, `SessionAnswers`, `BrowserAnswers` and `ConsentAnswers` say of every operation when it
succeeds, which refusal it gives otherwise, what it hands out and what it leaves, in terms of the rows before and
after and of a vocabulary of their own for policy and time.

**Interleavings.** `Tasks` cuts each request into unlocked reads, row locks, a decision and a commit.
`Interleaving` lets any number of them run at once and proves that every interleaving gives the results and the
database of a serial run; `Races` carries the theorems over; `Footprints` and `Locking` are the parts of that
proof about write sets and locks. `UpdateLocks` adds the rows that UPDATE statements lock, and `Deadlock` proves
that nobody waits in a circle, neither for a lock nor for a row that somebody writes, and that once no new requests
arrive there is a bound on all further moves, which can only stop when nobody is left.

**Policy and documents.** `Policy`, `Redirects` and `Ordering` cover request validation, revalidation, refresh
policy, projection of metadata-document clients and security bindings; `Documents` validates a document.

**Caches.** `CacheControl` reads HTTP cache headers. `Fetcher` is the metadata fetcher with its permits,
in-flight set, leases and cancellation; `UpstreamKeys` is the upstream signing-key cache with its back-off.

## What the model assumes

- Random UUIDs and secrets are fresh when they are inserted (`Steps.Fresh`). Secrets are stored hashed and the
  hash is injective, so a secret and its hash are one key; the id and the secret hash of a code, a refresh
  token, a session are one key as well. An S256 challenge is the digest of at most one verifier (`Challenge`).
- Row locks and the identity advisory lock are exclusive until commit or rollback. A locked read sees the latest
  committed row; an unlocked read sees some committed row at the moment it happens. A statement that looks for a
  locked row re-evaluates its condition once it has the lock.
- Clock readings are arbitrary. No theorem about the database needs the clock to be monotone, and none needs the
  time between a decision and its commit to be short. A multi-row update that reads
  the clock takes one reading for each row (`Operations.Clock.row`).
- The advisory lock is named after the subject; two subjects that collide in its hash only wait for each other
  once more, and nothing is locked after it.
- A stored JSON binding reads back as it was written. The URL parser is a pair of verdict functions carried by
  the registry. A verified upstream identity and a verified ID token hint are inputs. `subject` stands for the
  pair of issuer and subject.
- A session is created for a user the database knows (`Steps.Admissible`), which its foreign key enforces.
- `Tables.Db.origins` is a history table the schema does not have: it records which browser transaction a code
  was issued from. `Machine.log` and `Machine.past`, `Fetcher.State.next` and `Fetcher.State.log` are history too.
- Logging out of a session that does not exist is a database error in the source; the model gives it the outcome
  of a missing row. Both change nothing.

## Model

| member | source | states |
|---|---|---|
| `Credentials.CredentialStore.CreateProviderSession` | src/credentials.rs:93-108 | a session is opened with one whole-second lifetime of at most 30 days, or refused, with the complete new database stated |
| `Credentials.CredentialStore.IssueAuthorizationCode` | src/credentials.rs:124-173 | the code is inserted only under a live session and a lease fresh before and after; otherwise the database is unchanged |
| `Credentials.CredentialStore.InsertAuthorizationCode` | src/credentials.rs:515-529 | a code expires at the earlier of its lifetime and its session's end and copies the session's upstream auth time |
| `Credentials.CredentialStore.ExchangeCode` | src/credentials.rs:303-344 | the request entry point, with its checks on an unlocked read, refines the atomic exchange |
| `Credentials.CredentialStore.ExchangeCodeBound` | src/credentials.rs:187-249 | lookups, bindings compared before and after the lock, and policy checks refine the atomic exchange |
| `Credentials.CredentialStore.Settle` | src/credentials.rs:251-301 | replay before liveness, consumption, renewal, and rollback of everything if the lease runs out at the end; what it answers and hands out is pinned by `TokenAnswers` |
| `Credentials.CredentialStore.RotateRefresh` | src/credentials.rs:450-470 | the request entry point refines the atomic rotation |
| `Credentials.CredentialStore.RotateRefreshBound` | src/credentials.rs:355-448 | statement-wise rotation with its replay branch refines the atomic rotation, whose answers are pinned by `TokenAnswers` |
| `Credentials.CredentialStore.RevokeRefreshToken` | src/credentials.rs:472-488 | revokes the family exactly if the token exists and belongs to the client, and acknowledges either way |
| `Credentials.CredentialStore.LogoutSession` | src/credentials.rs:490-501 | the session and all its families end, each family at its own clock reading, first revocation times kept |
| `LogoutTransactions.LogoutStore.Begin` | src/logout.rs:60-79 | a challenge is opened exactly for a registered target of a live session |
| `LogoutTransactions.LogoutStore.Insert` | src/logout.rs:80-109 | the challenge row, or nothing |
| `LogoutTransactions.LogoutStore.Finish` | src/logout.rs:130-203 | confirmed and hinted logout refine one atomic step on challenge, session and families, whose three answers are pinned by `SessionAnswers.LogoutsFinishExactly` |
| `BrowserTransactions.BrowserStore.BeginWithGoogle` | src/browser.rs:155-176 | begins a transaction, or leaves the database as it was if the lease ran out before or after the insert |
| `BrowserTransactions.BrowserStore.BeginWithSession` | src/browser.rs:246-268 | the same under a live session, straight at consent |
| `BrowserTransactions.BrowserStore.Start` | src/browser.rs:177-192 | one guarded update |
| `BrowserTransactions.BrowserStore.Cancel` | src/browser.rs:212-229 | denial that is undone if policy no longer holds after the update |
| `BrowserTransactions.BrowserStore.Claim` | src/browser.rs:279-314 | one winner takes the upstream verifier; an expired row is moved and the call still fails |
| `BrowserTransactions.BrowserStore.Fail` | src/browser.rs:315-322 | the claimed row fails, or nothing |
| `BrowserTransactions.BrowserStore.DenyAtCallback` | src/browser.rs:323-353 | denial at the callback with policy checked on both sides |
| `BrowserTransactions.BrowserStore.Complete` | src/browser.rs:373-392 | the callback refines one atomic step |
| `BrowserTransactions.BrowserStore.CompleteClaimed` | src/browser.rs:393-438 | with the row locked, the nested and the outer transaction together refine one atomic step, whose answers are pinned by `ConsentAnswers.CallbacksCompleteExactly` |
| `BrowserTransactions.BrowserStore.StageLogin` | src/browser.rs:400-430 | the nested transaction writes identity, profile and session, or nothing at all |
| `BrowserTransactions.BrowserStore.UpsertIdentity` | src/database.rs:131-160 | a known subject keeps its user, an unknown one gets the new user; the profile is overwritten |
| `BrowserTransactions.BrowserStore.FindOrCreateIdentity` | src/database.rs:61-109 | linking refines one atomic step |
| `BrowserTransactions.BrowserStore.ApproveWithConsent` | src/browser.rs:439-473 | code and closed row together, or neither |
| `BrowserTransactions.BrowserStore.ApprovePreAuthorized` | src/browser.rs:476-518 | the same without interaction, rolled back if policy or time ran out after the insert; when it issues a code is pinned by `ConsentAnswers.PreAuthorizationsExactly` |
| `BrowserTransactions.BrowserStore.IssueFor` | src/browser.rs:451-466 | the code is inserted, the row closed, and which row it was is remembered |
| `BrowserTransactions.BrowserStore.DenyByUser` | src/browser.rs:571-592 | denial at consent with policy checked on both sides |
| `BrowserTransactions.BrowserStore.ShowConsent` | src/browser.rs:519-555 | the consent page: shown exactly to the right session and secret, in time and under policy, and nothing changes |
| `BrowserTransactions.BrowserStore.SessionUpstreamAuthTime` | src/browser.rs:269-278 | the auth time of a live session, under its lock, and nothing changes |
| `Database.TransactionsAreSteps` | src/credentials.rs:187-301 | a transaction of any store is one step of a run and keeps every invariant |
| `Steps.StepKeepsEverything` | src/credentials.rs:187-501 | each of the operations, on every valid database, at any clock readings, keeps every invariant and rewrites nothing immutable |
| `Steps.FailuresLeaveNoTrace` | src/browser.rs:120-129 | a failure changes nothing, except a proven replay (its own families only) and an expired callback (its own row only); an expired lease never changes anything |
| `TokenAnswers.ExchangeAnswersExactly` | src/credentials.rs:187-344 | a code rightly presented under its stored policy obtains tokens if unused and live, ends its descendants if used, and is told that the lease ran out exactly if it did on the way; nothing else but an expired lease is answered otherwise than as an invalid grant |
| `TokenAnswers.RotationAnswersExactly` | src/credentials.rs:355-470 | the same for refresh tokens |
| `TokenAnswers.ExchangeHandsOutTheStoredToken` | src/credentials.rs:277-298 | the refresh token handed out is the stored one: new, unconsumed, first of the one new family, which descends from the presented code and has its full lifetime |
| `TokenAnswers.RotationHandsOutTheStoredToken` | src/credentials.rs:421-447 | the refresh token handed out is the new unconsumed member of the same family and the presented one's successor |
| `SessionAnswers.SessionsAreOpenedExactly` | src/credentials.rs:93-108 | a session is opened exactly for whole seconds up to thirty days, and lives that long |
| `SessionAnswers.CodesAreIssuedExactly` | src/credentials.rs:124-173 | when a code is issued, refused for its lifetime, its session or its lease, and the complete code |
| `SessionAnswers.AuthTimesAreReadExactly` | src/browser.rs:269-278 | exactly open sessions answer, with their own auth time |
| `SessionAnswers.LogoutsEndExactly` | src/credentials.rs:490-501 | logging out ends the session and exactly its families and nothing else |
| `SessionAnswers.RevocationsEndExactly` | src/credentials.rs:472-488 | revocation ends exactly the family of a token of the caller's own and answers everybody alike |
| `SessionAnswers.ChallengesAreOpenedExactly` | src/logout.rs:60-109 | a challenge is opened exactly for a local target or a registered redirect under an open session, and stored with the secret handed out |
| `SessionAnswers.LogoutsFinishExactly` | src/logout.rs:130-203 | a standing challenge, local or registered, logs out without a hint or with one that stands and suffices, asks for confirmation if it only stands, and everything else is an invalid grant |
| `BrowserAnswers.RevalidationAnswers` | src/browser.rs:647-664 | revalidation succeeds exactly if policy accepts and the lease holds, and a refusal names the right one of the two |
| `BrowserAnswers.ValidationAnswers` | src/browser.rs:671-680 | the same where a registry is optional |
| `BrowserAnswers.TransactionsBeginExactly` | src/browser.rs:155-176 | begun exactly under a lease that holds on both sides, with the complete row, whose state and binding are the ones handed out |
| `BrowserAnswers.ConsentsAreAskedExactly` | src/browser.rs:246-268 | the same under an open session; the handle handed out is the one the row waits for |
| `BrowserAnswers.StartsExactly` | src/browser.rs:177-192 | exactly a waiting row in time is started, and its own nonce and verifier are handed out |
| `BrowserAnswers.CancelsExactly` | src/browser.rs:212-229 | exactly a waiting row is cancelled, under accepting policy and a holding lease; the client hears at its redirect with its state |
| `BrowserAnswers.ClaimsExactly` | src/browser.rs:279-314 | the waiting row is claimed in time under a new secret, its own verifier and nonce handed out, or expires |
| `BrowserAnswers.StrayCallbacksFail` | src/browser.rs:284-294 | a callback no row waits for changes nothing |
| `BrowserAnswers.StrayClaimsFail` | src/browser.rs:315-336 | a claim no row is under changes nothing, whatever is asked on it |
| `BrowserAnswers.FailuresAreRecordedExactly` | src/browser.rs:315-322 | the claimed row fails and nothing else changes |
| `BrowserAnswers.CallbackDenialsExactly` | src/browser.rs:323-353 | a claimed row in time is denied under accepting policy and a holding lease |
| `ConsentAnswers.CallbacksCompleteExactly` | src/browser.rs:373-438 | when a callback logs in, expires or is refused; the session, its end and the consent handle handed out are those stored, and the row waits for exactly that handle |
| `ConsentAnswers.SubjectsAreLinkedExactly` | src/database.rs:61-109 | a subject keeps its user, a new one gets a new user, and a profile is stored |
| `ConsentAnswers.ApprovalsExactly` | src/browser.rs:439-473 | a code is issued exactly to the session and secret the row waits for, in time, under accepting policy and a holding lease, with the complete code and what the client hears |
| `ConsentAnswers.PreAuthorizationsExactly` | src/oauth.rs:264-279 | without interaction, exactly where transaction and static client allow it for this very app-claimed redirect, resource and scopes; elsewhere consent is asked for |
| `ConsentAnswers.DenialsExactly` | src/browser.rs:571-592 | denied under the same conditions, without a code |
| `ConsentAnswers.ViewsExactly` | src/browser.rs:519-555 | under the same conditions the consent page shows what the row asks for and whose account it is |
| `Runs.RunStaysValid` | src/credentials.rs:260-284 | every state of every run satisfies every invariant |
| `Runs.RunLosesNothing` | src/credentials.rs:277-284 | rows are never lost, immutable fields never rewritten, one-time marks never moved |
| `Witness.RunsExist` | src/credentials.rs:733-811 | from the empty database: link, session, code, exchange, rotation, and a replay that ends the family |
| `Runs.CodeChecksAreExact` | src/credentials.rs:187-344 | all checks of an exchange, made one after another and some of them twice, amount to: right client, redirect, resource, scopes and proof key, the stored policy, and a fresh lease at each check |
| `Runs.TokenChecksAreExact` | src/credentials.rs:355-470 | the same for the checks of a rotation |
| `Runs.ExchangeIsDecidedExactly` | src/credentials.rs:187-301 | a code obtains tokens if and only if stored, rightly presented, permitted, unused and live; it ends its descendants if and only if rightly presented, permitted and used, live or not |
| `Runs.RotationIsDecidedExactly` | src/credentials.rs:355-448 | the same for a refresh token and its family |
| `Runs.CodeIsExchangedAtMostOnce` | src/credentials.rs:260-276 | for any number of presentations in any run, at most one succeeds |
| `Runs.CodeReplayEndsItsDescendants` | src/credentials.rs:260-268 | a correctly bound re-presentation fails and leaves every descending family revoked in all later states, never rotated again |
| `Runs.TokenIsRotatedAtMostOnce` | src/credentials.rs:379-432 | for any number of presentations in any run, at most one succeeds |
| `Runs.TokenReplayEndsTheFamily` | src/credentials.rs:399-413 | after a success, a later presentation that passes the checks revokes the family for ever: no member, existing or future, is rotated again |
| `Runs.WronglyPresentedCodesChangeNothing` | src/credentials.rs:201-231 | a wrong client, redirect, resource, scope list, proof key or policy obtains nothing and is no replay evidence |
| `Runs.WronglyPresentedTokensChangeNothing` | src/credentials.rs:379-393 | the same for refresh tokens: a wrong presentation revokes nobody's family |
| `Runs.RevocationIsFinal` | src/credentials.rs:472-488 | revocation by the token's own client ends its family for ever, by any other client changes nothing, and both are acknowledged alike |
| `LogoutRuns.EndedSessionsStayEnded` | src/credentials.rs:490-500 | once revoked, a session stays so, all its families are revoked, and nothing succeeds under it |
| `LogoutRuns.LogoutIsFinal` | src/logout.rs:173-198 | the same after every completed logout and every finished challenge |
| `LogoutRuns.LogoutsAreBound` | src/logout.rs:137-177 | only the challenge's own session and secret, once, in time; a hint only for the same client, user and session |
| `LogoutRuns.OneChallengePerSession` | src/logout.rs:155-190 | at most one challenge of a session is ever consumed, at the moment the session was revoked |
| `LogoutRuns.LifetimesAreNested` | src/credentials.rs:277-280 | code within 60 seconds and its session, family within 30 days and its session, session within 30 days |
| `LogoutRuns.NoGrantOutlivesItsSession` | src/credentials.rs:414-420 | no chain of rotations, however long, obtains anything at or after 30 days from the session's auth time |
| `LogoutRuns.FamiliesAreChains` | src/credentials.rs:421-432 | the members of a family are one acyclic successor chain with one unconsumed tail, each consumed when the next was issued |
| `LogoutRuns.MembersCountRotations` | src/credentials.rs:421-432 | a family has one member more than it has seen successful rotations |
| `LogoutRuns.FamiliesRepeatTheirCode` | src/credentials.rs:277-284 | every family has offline access in its scopes and repeats its one code; no other family has that code |
| `LogoutRuns.UniquenessAndLifetimeChecksHold` | migrations/202609050002_oauth_credentials.sql:1-48 | the schema's checks on uniqueness, lifetimes and, for all three tables, the client and version of a binding hold in every reachable state |
| `BrowserRuns.StepsFollowEdges` | src/browser.rs:177-353 | a step leaves a browser row alone or moves it along one edge of the stage graph |
| `BrowserRuns.AtMostFourChanges` | src/browser.rs:382-430 | changes so far plus remaining rank never exceed four |
| `BrowserRuns.TerminalRowsAreFinal` | src/browser.rs:279-353 | an approved, denied, failed or expired row is the same in all later states |
| `BrowserRuns.CallbackIsWonAtMostOnce` | src/browser.rs:279-313 | in any run the callback of a browser transaction is won, and its verifier handed out, at most once |
| `BrowserRuns.BrowserSecretsAndCodes` | src/browser.rs:279-313 | verifier exactly before the callback, CSRF exactly at consent, approved exactly if one code was issued |
| `BrowserRuns.CallbackHasThreeEffects` | src/browser.rs:373-438 | everything is written, or the row alone expires, or nothing changes |
| `BrowserRuns.SubjectsAndUsersCorrespond` | src/database.rs:119-160 | over all runs and logins, two subjects are equal exactly if their users are |
| `BrowserRuns.BrowserRowsWereBegun` | src/browser.rs:155-176 | every browser transaction that appears in a run was begun by an operation of it, which the lemma returns |
| `BrowserRuns.ResultsTraceToTheRequest` | src/browser.rs:449-459 | every token result, after any number of rotations, traces to the operation that began its browser transaction, and carries the client, scopes, resource and binding it began with, and the user and auth time of its session |
| `BrowserRuns.DynamicRequestsNeedConsent` | src/browser.rs:476-495 | under any registry a transaction with a document binding is never pre-authorized |
| `BrowserRuns.DecisionsAreTimely` | src/browser.rs:602-646 | approvals and denials only by the right session and secret, in time, under a live session; pre-authorization only if transaction and client allow it, and still in time after the insert |
| `BrowserRuns.CodesComeFromApprovals` | src/browser.rs:451-467 | only the two approvals issue a code for a browser transaction |
| `BrowserRuns.DynamicCodesComeFromConsent` | src/oauth.rs:264-279 | a step that issues a code for a document-bound transaction is an interactive approval |
| `BrowserRuns.DocumentCodesWereConsentedTo` | src/browser.rs:439-518 | in any run, under any sequence of registries, every document-bound code of a browser transaction was issued by interactive approval of that transaction |
| `BrowserRuns.GrantsKeepTheirKind` | src/credentials.rs:555-570 | static and document grants are never accepted as each other as codes or refresh tokens |
| `BrowserRuns.ApprovalsKeepTheirKind` | src/browser.rs:647-680 | nor when a browser transaction becomes a code |
| `Tasks.ConclusionsAreAtomic` | src/credentials.rs:197-249 | a request that concludes from unlocked reads and locked rows has decided what it would decide alone |
| `Tasks.MissesAreAtomic` | src/credentials.rs:198-216 | so has a request that finds no row |
| `Footprints.ConclusionsAreCovered` | src/credentials.rs:209-224 | a request writes only under locks it holds |
| `Footprints.OthersStayAccurate` | src/browser.rs:445-448 | so what others have read stays accurate |
| `Locking.LocksStayAccurate` | src/credentials.rs:363-378 | every lock is taken in rank order and reads the committed row |
| `Interleaving.EveryInterleavingIsSerial` | src/credentials.rs:197-232 | finished requests, in the order they finished, form a serial run with the same results and the same database |
| `Races.RacingExchangesHaveOneWinner` | src/credentials.rs:966-995 | however exchanges of one code interleave, at most one obtains tokens |
| `Races.RacingRotationsHaveOneWinner` | src/credentials.rs:938-964 | however presentations of one token interleave, at most one is rotated |
| `Races.NothingIsObtainedAfterLogout` | src/credentials.rs:996-1047 | a request that finishes after a logout of its session obtains nothing under it: no tokens, code, consent, denial, challenge or second logout, whenever it started |
| `Races.RacingCodeReplaysEndDescendants` | src/credentials.rs:260-268 | under any interleaving, a permitted re-presentation of a used code fails and leaves every descending family revoked in all later states |
| `Races.RacingTokenReplaysEndTheFamily` | src/credentials.rs:399-413 | under any interleaving, a permitted re-presentation of a rotated token ends its family for good |
| `Races.RacingCallbacksHaveOneWinner` | src/browser.rs:279-313 | however callbacks with one upstream state interleave, at most one is handed the verifier |
| `Races.FailedTriesChangeNothing` | src/web.rs:602-664 | a try that ends on an expired lease has changed nothing, whatever else was under way, so of two tries at most one takes effect |
| `Races.RacingLoginsAgree` | src/database.rs:119-160 | however logins interleave, two of them end with the same user exactly if they are of the same subject |
| `UpdateLocks.TouchesAreSelected` | src/credentials.rs:261-284 | the rows that a request's committed statements select are among those it may update |
| `Deadlock.WritesAreGuarded` | src/credentials.rs:261-268 | every row that a request's updates may select, changed or not, committed or rolled back, is locked by it or lies under the session it has locked |
| `Deadlock.ChangesAreWrites` | src/credentials.rs:484-501 | no commit changes a row that does not count as written |
| `Deadlock.NoWaitCycle` | src/logout.rs:137-198 | in no reachable state do requests wait for each other in a circle, be it for locks they take, rows they write or rows others write |
| `Deadlock.SomebodyCanMove` | src/browser.rs:382-399 | while requests are under way one of them waits for nobody and can go on |
| `Deadlock.MovesMakeProgress` | src/browser.rs:602-629 | every move of a request ends it or leaves it less to do, and leaves the others' tasks as they are |
| `Deadlock.EverybodyFinishes` | src/credentials.rs:366-378 | once no new requests arrive, any continuation is bounded by the work left, and can only stop when nobody is left |
| `Deadlock.NewRowsAreUnknown` | src/browser.rs:402-405 | nobody asks for a session that a callback is about to insert |
| `Deadlock.NestedLocksAreFree` | src/credentials.rs:367-378 | code, challenge, family and member locks are never waited for: the session lock above them excludes every competitor |
| `Provider.DocumentsSpeakForThemselves` | src/web.rs:36-54 | a document is resolved only for its own id, never for a static client, and changes nobody else's policy |
| `Provider.ClientsAreResolvedExactly` | src/web.rs:36-54 | a static client is always resolved, any other one exactly if documents are enabled, its own was fetched and may be projected |
| `Provider.Endpoint.Submit` | src/web.rs:855-898 | each kind of request refines its atomic operation under the registry it was resolved with |
| `Provider.Endpoint.SubmitTwice` | src/web.rs:602-664 | a second try happens only if the first left the database exactly as it was, whatever others do in between |
| `Policy.BuildRegistry` | src/oauth.rs:245-260 | duplicate client ids are refused, otherwise each client is found under its own |
| `Policy.ValidationIsExact` | src/oauth.rs:452-535 | a complete request passes exactly if it is acceptable, duplicate-free and the lease is fresh, and keeps every field |
| `Policy.ValidationWithDefaultsIsExact` | src/oauth.rs:452-535 | the same with response type, challenge method and the order of default resources |
| `Policy.RefusalsNameTheirCause` | src/oauth.rs:452-535 | every refusal names a condition that is really violated |
| `Policy.ApprovalIsExact` | src/oauth.rs:587-603 | approval takes a fresh lease, and consent for offline access, and renews exactly with the latter |
| `Policy.RefreshCheckIsExact` | src/oauth.rs:413-436 | the refresh check permits exactly distinct scopes of the client and a resource it may use |
| `Policy.ValidationIsAFixpoint` | src/oauth.rs:452-553 | resolving defaults and validating again gives the same request, with sorted distinct scopes |
| `Policy.AcceptedRowsAreReproduced` | src/browser.rs:647-664 | any registry that accepts a stored row gives its fields back |
| `Policy.RefreshCheckAgreesWithValidation` | src/oauth.rs:413-436 | the refresh check agrees with full validation given a valid redirect and challenge |
| `Policy.ProjectionIsLocal` | src/oauth.rs:281-335 | one client is added, within local scopes and resources, and nobody else's policy changes |
| `Policy.ProjectionIsExact` | src/oauth.rs:281-335 | a document is projected exactly if it may be, to exactly its client, lease and binding |
| `Policy.BindingIdentity` | src/cimd.rs:91-111 | equal bindings mean the same client, redirect set and effective refresh permission |
| `Policy.BindingLists` | src/cimd.rs:91-111 | a binding lists the redirects in order with their kinds, and allows refreshing if both sides do |
| `Redirects.SplitIffLoopbackUri` | src/oauth.rs:739-763 | the parts of a loopback URI, exactly, whatever its port |
| `Redirects.PortsAreExact` | src/oauth.rs:752-761 | a port is a colon and a number from 1 to 65535, or missing |
| `Redirects.OnlyTheLoopbackPortMayVary` | src/oauth.rs:721-738 | a redirect matches if it is equal or, for native loopback, differs in the port only |
| `Documents.CheckGrantTypes` | src/cimd.rs:569-588 | the checks accept exactly the three lists that may be declared |
| `Documents.CollectRedirects` | src/cimd.rs:596-609 | the loop accepts exactly distinct, vetted texts |
| `Documents.ValidateDocument` | src/cimd.rs:540-616 | a document is accepted exactly if it conforms, and what is accepted says what it said |
| `Documents.AcceptedDocumentsAreIdentified` | src/cimd.rs:91-111 | what validation accepts meets the hypothesis of binding identity: of accepted documents, the binding identifies client, redirect set and refresh permission |
| `CacheControl.CacheTtl` | src/cimd.rs:642-691 | the loop over directives computes the stated lifetime |
| `CacheControl.TtlIsExact` | src/cimd.rs:642-691 | reusable exactly if nothing refuses and the least limit, capped at 300 s, exceeds the age |
| `CacheControl.NamesAreReadExactly` | src/cimd.rs:652-672 | which directives without a value refuse |
| `CacheControl.ValuesAreReadExactly` | src/cimd.rs:652-686 | which directives with a value refuse, limit the age, or say nothing of interest |
| `CacheControl.QuotedValuesReadAlike` | src/cimd.rs:673-685 | a quoted value reads like the plain one |
| `CacheControl.HeaderLayoutIsImmaterial` | src/cimd.rs:642-691 | headers with the same directives allow the same, whatever their order, repetition and grouping into fields |
| `CacheControl.JoinedFieldsReadAlike` | src/cimd.rs:645-649 | two fields and their join with a comma have the same directives |
| `CacheControl.FreshnessIsExact` | src/google.rs:454-484 | a key set is reused for exactly the first limit it states, capped at an hour, less its age, and never if any directive forbids it |
| `CacheControl.AgeLimitsAreReadExactly` | src/google.rs:454-484 | what a directive of a key set says about age and reuse |
| `Fetcher.CimdFetcher.Lookup` | src/cimd.rs:294-301 | a hit is a fresh cached lease |
| `Fetcher.CimdFetcher.TryAcquire` | src/cimd.rs:302-305 | one permit, or busy |
| `Fetcher.CimdFetcher.TakeOff` | src/cimd.rs:306-315 | one flight for each client, or busy |
| `Fetcher.CimdFetcher.Validated` | src/cimd.rs:347-359 | the lease gets its deadline once, from the response's own headers |
| `Fetcher.CimdFetcher.Store` | src/cimd.rs:360-369 | entries found stale, each at its own clock reading, go, at most one fresh entry is evicted, the lease is published |
| `Fetcher.FlightsAreBounded` | src/cimd.rs:302-315 | at most eight fetches, at most one for each client, permits conserved under failure and cancellation |
| `Fetcher.PublishedInFetchOrder` | src/cimd.rs:121-133 | no older response of a client is published after a newer one |
| `Fetcher.HitsAreFreshAndLatest` | src/cimd.rs:294-371 | a hit is the client's latest cacheable response under its original deadline, at most 300 s after validation, in a cache of at most 128 entries |
| `Fetcher.PublishedLeasesAreFound` | src/cimd.rs:294-369 | what is published is found until its deadline |
| `Fetcher.EntriesStay` | src/cimd.rs:360-369 | an entry goes only for a publication of its client, for being stale, or for room |
| `Fetcher.FetchesAreAdmittedExactly` | src/cimd.rs:302-305 | a fetch is admitted exactly if fewer than eight are under way |
| `Fetcher.FetchesTakeOffExactly` | src/cimd.rs:306-315 | an admitted fetch takes off exactly if no other is active for its client |
| `Fetcher.ResponsesAreLeasedExactly` | src/cimd.rs:347-360 | a response is leased as long as its headers allow, or five seconds, and published only in the first case |
| `UpstreamKeys.KeyRing.Lookup` | src/google.rs:348-371 | one lookup under the lock, with fetch, failure and back-off |
| `UpstreamKeys.AttemptsAreSpaced` | src/google.rs:356-362 | in any run n attempts span at least 5(n-1) seconds |
| `UpstreamKeys.KeysComeFromTheLastFetch` | src/google.rs:348-371 | a key comes from the key set fetched last, by this call or before its deadline, at most an hour |
| `UpstreamKeys.CallsAreAnsweredExactly` | src/google.rs:348-371 | a fetch is attempted exactly when the last key set does not serve and five seconds have passed, and a key is answered exactly if that set serves it or this call fetches it |

## Left out

- Locks under mutation: the classes run each transaction atomically on shared tables; interleaving, locks and
  aliasing between connections are modelled on values in `Tasks` and `Interleaving`.
- `Interleaving.EveryInterleavingIsSerial`: takes each operation's clock readings as given; that a reading lies
  between two moves is not modelled, and no result depends on it.
- The key-share locks of foreign keys: they only fall on rows the request has locked itself, has just inserted,
  or that nobody locks for update.
- `Provider.Endpoint.SubmitTwice`: covers the token, callback, cancel and consent loops; `authorize`, which may
  commit a begin before it fails, is not one of them.
- `authorize`, routing, forms, HTML, cookies, CORS and content security policy: presentation and plumbing.
- Read-only calls that lock nothing (`find_provider_session`, `transaction_client_id`, `callback_client_id`, profile
  display): they change nothing and state one branch each. Of the consent page the display names are left out.
- Token signing, key files, the parsing of key sets and ID tokens, JSON, base64 and SHA-256: library wrappers.
- URL parsing, safe redirects, display names and public DNS names: verdicts taken as given (`Urls`, `Vetting`).
- DNS, TLS, address classes, body limits and timeouts of fetches: a fetch that fails in any way is `Land` without
  `Publish`.
- `UpstreamKeys.KeyRing.Lookup`: the request permits shared with the other upstream calls are part of whether a
  fetch fails.
- `LogoutRuns.UniquenessAndLifetimeChecksHold`: does not cover the 49152-byte limit on a stored binding, its JSON shape,
  or the checks that texts are not empty, because the model keeps no serialized form and takes URL verdicts as given.
- Deletion of users and sessions by cascading foreign keys: no operation of the source deletes rows.
- `Policy.BuildRegistry`: display names and browser origins of clients are not part of the model.
- Sessions with a fractional-second lifetime are refused in the source and in the model; the double-precision
  form of a whole number of seconds is exact and is not modelled.
