/** The shared tables as mutable state, and what it means for a transaction to have run. */
module Database {
  import opened Prelude
  import opened Tables
  import opened Invariants
  import opened Operations
  import opened Steps
  import opened Runs

  /** The tables behind the connection pool.  A transaction updates them statement by statement and
      restores the tables it began with when it rolls back. */
  class Pool {
    var sessions: map<Id, SessionRow>
    var codes: map<Id, CodeRow>
    var families: map<Id, FamilyRow>
    var members: map<Id, MemberRow>
    var challenges: map<Id, ChallengeRow>
    var browsers: map<Id, BrowserRow>
    var users: set<Id>
    var identities: map<string, Id>
    var profiles: map<Id, Profile>
    var origins: map<Id, Id>

    constructor ()
      ensures Snapshot() == EMPTY_DB
    {
      sessions, codes, families, members, challenges := map[], map[], map[], map[], map[];
      browsers, users, identities, profiles, origins := map[], {}, map[], map[], map[];
    }

    function Snapshot(): Db
      reads this
    {
      Db(sessions, codes, families, members, challenges, browsers, users, identities, profiles, origins)
    }

    method Restore(saved: Db)
      modifies this
      ensures Snapshot() == saved
    {
      sessions, codes, families, members, challenges := saved.sessions, saved.codes, saved.families, saved.members,
        saved.challenges;
      browsers, users, identities, profiles := saved.browsers, saved.users, saved.identities, saved.profiles;
      origins := saved.origins;
    }
  }

  /** `call` ran from `before` to `after`, as a whole, with this outcome. */
  ghost predicate Ran(before: Db, call: Call, env: Env, after: Db, outcome: Outcome) {
    Executed(before, Perform(before, call, env), after, outcome)
  }

  /** The decision's write set, and nothing else, has been committed. */
  ghost predicate Executed(before: Db, decision: Decision, after: Db, outcome: Outcome) {
    after == Apply(before, decision.effect) && outcome == decision.outcome
  }

  /** A transaction of any store is one step of a run, so it keeps every invariant; consecutive
      transactions on one pool are a run. */
  lemma TransactionsAreSteps(before: Db, ev: Event, after: Db, outcome: Outcome)
    requires Valid(before) && Admissible(before, ev.call, ev.env)
    requires Ran(before, ev.call, ev.env, after, outcome)
    ensures Advances(before, ev, after) && outcome == OutcomeOf(before, ev)
    ensures Valid(after) && Kept(before, after)
  {
    hide Valid, Kept, Perform, Apply, Admissible;
    StepKeepsEverything(before, ev.call, ev.env);
  }

  lemma NothingIsWritten(db: Db)
    ensures Apply(db, NoEffect) == db
  {
  }
}
