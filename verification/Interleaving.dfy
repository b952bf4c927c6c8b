/** Any number of requests at once, each read, lock, decision and commit a step of its own: every
    interleaving gives the results and the database of a serial run. */
module Interleaving {
  import opened Prelude
  import opened Tables
  import opened Invariants
  import opened Operations
  import opened Steps
  import opened Runs
  import opened Tasks
  import opened Footprints
  import opened Locking

  /** A request under way.  Once `decided` it only waits to commit. */
  datatype Task = Task(call: Call, env: Env, loc: Locals, decided: bool)

  datatype Entry = Entry(event: Event, outcome: Outcome)

  /** `owner` is the lock table.  `log` records finished requests in order and `past` the database
      before each of them; both are history, read by no step. */
  datatype Machine = Machine(db: Db, owner: map<Lock, Id>, tasks: map<Id, Task>, log: seq<Entry>, past: seq<Db>)

  datatype Move =
    | Spawn(task: Id, call: Call, env: Env)
    | Go(task: Id)        // read, lock, or decide
    | Finish(task: Id)    // commit or roll back, and release

  function Release(owner: map<Lock, Id>, t: Id): map<Lock, Id> {
    map l | l in owner && owner[l] != t :: owner[l]
  }

  /** The request ends: its write set is applied, its locks are released, its result is recorded. */
  function End(m: Machine, t: Id, d: Decision): Machine
    requires t in m.tasks
  {
    Machine(Apply(m.db, d.effect), Release(m.owner, t), m.tasks - {t},
            m.log + [Entry(Event(m.tasks[t].call, m.tasks[t].env), d.outcome)], m.past + [m.db])
  }

  ghost function ActionOf(m: Machine, t: Id): Action
    requires t in m.tasks
  {
    Next(m.tasks[t].call, m.tasks[t].loc, m.tasks[t].env)
  }

  /** A lock can be taken when nobody has it; random draws do not collide at commit. */
  ghost predicate Enabled(m: Machine, mv: Move) {
    match mv
    case Spawn(t, call, env) => t !in m.tasks
    case Go(t) =>
      t in m.tasks && !m.tasks[t].decided
      && (ActionOf(m, t).Take? && Locate(m.db, ActionOf(m, t).target).Some? ==>
            Locate(m.db, ActionOf(m, t).target).value !in m.owner)
      && (Misses(m.db, m.tasks[t].call, ActionOf(m, t)) ==> Admissible(m.db, m.tasks[t].call, m.tasks[t].env))
    case Finish(t) =>
      t in m.tasks && m.tasks[t].decided && ActionOf(m, t).Conclude?
      && Admissible(m.db, m.tasks[t].call, m.tasks[t].env)
  }

  ghost function Advanced(m: Machine, t: Id): Machine
    requires Enabled(m, Go(t))
  {
    var task := m.tasks[t];
    if Misses(m.db, task.call, ActionOf(m, t)) then End(m, t, Missed(task.call))
    else
      match ActionOf(m, t)
      case ReadOutside => m.(tasks := m.tasks[t := task.(loc := AfterRead(m.db, task.call, task.loc, true))])
      case ReadUnlocked => m.(tasks := m.tasks[t := task.(loc := AfterRead(m.db, task.call, task.loc, false))])
      case Take(target) =>
        var lock := Locate(m.db, target).value;
        m.(owner := m.owner[lock := t], tasks := m.tasks[t := task.(loc := AfterLock(m.db, lock, task.loc))])
      case Conclude(_) => m.(tasks := m.tasks[t := task.(decided := true)])
  }

  ghost function After(m: Machine, mv: Move): Machine
    requires Enabled(m, mv)
  {
    match mv
    case Spawn(t, call, env) => m.(tasks := m.tasks[t := Task(call, env, NOTHING_READ, false)])
    case Go(t) => Advanced(m, t)
    case Finish(t) => End(m, t, ActionOf(m, t).decision)
  }

  /** Any sequence of enabled moves from a quiet machine on a valid database. */
  ghost predicate Trace(ms: seq<Machine>, mvs: seq<Move>) {
    && |ms| == |mvs| + 1
    && Valid(ms[0].db) && ms[0].owner == map[] && ms[0].tasks == map[] && ms[0].log == [] && ms[0].past == []
    && forall i, j | 0 <= i < |mvs| && j == i + 1 :: Moves(ms[i], mvs[i], ms[j])
  }

  ghost predicate Moves(m: Machine, mv: Move, m': Machine) {
    Enabled(m, mv) && m' == After(m, mv)
  }

  // ---- the invariant ----

  ghost predicate TaskOk(db: Db, owner: map<Lock, Id>, t: Id, task: Task) {
    && Accurate(db, task.call, task.loc)
    && Fits(task.call, task.env, task.loc)
    && (task.decided ==> Next(task.call, task.loc, task.env).Conclude?)
    && (forall l | Holds(task.loc, l) :: l in owner && owner[l] == t)
  }

  ghost predicate TasksOk(m: Machine) {
    forall t | t in m.tasks :: TaskOk(m.db, m.owner, t, m.tasks[t])
  }

  ghost predicate OwnersOk(m: Machine) {
    forall l | l in m.owner :: m.owner[l] in m.tasks && Holds(m.tasks[m.owner[l]].loc, l)
  }

  function EventsOf(log: seq<Entry>): (evs: seq<Event>)
    ensures |evs| == |log| && forall i | 0 <= i < |log| :: evs[i] == log[i].event
  {
    seq(|log|, i requires 0 <= i < |log| => log[i].event)
  }

  /** The finished requests, in the order they finished, form a serial run that ends in the present
      database and gives each of them the very result it got. */
  ghost predicate Serialized(m: Machine) {
    && |m.past| == |m.log|
    && Run(m.past + [m.db], EventsOf(m.log))
    && forall i | 0 <= i < |m.log| :: m.log[i].outcome == OutcomeOf(m.past[i], m.log[i].event)
  }

  ghost predicate MachineOk(m: Machine) {
    Valid(m.db) && TasksOk(m) && OwnersOk(m) && Serialized(m)
  }

  // ---- every move keeps the invariant ----

  /** The database the machine started from. */
  function Origin(m: Machine): Db {
    (m.past + [m.db])[0]
  }

  /** A move that touches one request's locals and perhaps one free lock keeps everything. */
  lemma LocalMoveKeepsOk(m: Machine, t: Id, task: Task, owner: map<Lock, Id>)
    requires MachineOk(m)
    requires forall l | l in m.owner :: l in owner && owner[l] == m.owner[l]
    requires forall l | l in owner && l !in m.owner :: owner[l] == t
    requires t in m.tasks ==> forall l | Holds(m.tasks[t].loc, l) :: Holds(task.loc, l)
    requires forall l | l in owner && owner[l] == t :: Holds(task.loc, l)
    requires TaskOk(m.db, owner, t, task)
    ensures MachineOk(m.(owner := owner, tasks := m.tasks[t := task]))
  {
    hide Accurate, Fits, Next, Holds, Valid, Run, OutcomeOf;
    var m' := m.(owner := owner, tasks := m.tasks[t := task]);
    forall u | u in m'.tasks ensures TaskOk(m'.db, m'.owner, u, m'.tasks[u]) {
      if u != t {
        assert TaskOk(m.db, m.owner, u, m.tasks[u]);
      }
    }
    forall l | l in m'.owner ensures m'.owner[l] in m'.tasks && Holds(m'.tasks[m'.owner[l]].loc, l) {
    }
  }

  lemma SpawnKeepsOk(m: Machine, t: Id, call: Call, env: Env)
    requires MachineOk(m) && t !in m.tasks
    ensures MachineOk(m.(tasks := m.tasks[t := Task(call, env, NOTHING_READ, false)]))
  {
    hide Accurate, Fits, Next, Holds, Valid, Run, OutcomeOf;
    NothingReadFits(m.db, call, env);
    LocalMoveKeepsOk(m, t, Task(call, env, NOTHING_READ, false), m.owner);
  }

  /** Reads, locks and decisions. */
  lemma AdvanceKeepsOk(m: Machine, t: Id)
    requires MachineOk(m) && Enabled(m, Go(t)) && !Misses(m.db, m.tasks[t].call, ActionOf(m, t))
    ensures MachineOk(Advanced(m, t))
  {
    hide Accurate, Fits, Next, Holds, Valid, Run, OutcomeOf, Locate, RowToRead, AfterRead, AfterLock, Stored, Unused,
         Admissible;
    var task := m.tasks[t];
    assert TaskOk(m.db, m.owner, t, task);
    match ActionOf(m, t)
    case ReadOutside =>
      ReadsStayAccurate(m.db, task.call, task.env, task.loc, true);
      LocalMoveKeepsOk(m, t, task.(loc := AfterRead(m.db, task.call, task.loc, true)), m.owner);
    case ReadUnlocked =>
      ReadsStayAccurate(m.db, task.call, task.env, task.loc, false);
      LocalMoveKeepsOk(m, t, task.(loc := AfterRead(m.db, task.call, task.loc, false)), m.owner);
    case Take(target) =>
      var lock := Locate(m.db, target).value;
      LocksStayAccurate(m.db, task.call, task.env, task.loc, target);
      LocalMoveKeepsOk(m, t, task.(loc := AfterLock(m.db, lock, task.loc)), m.owner[lock := t]);
    case Conclude(_) =>
      LocalMoveKeepsOk(m, t, task.(decided := true), m.owner);
  }

  lemma SerialRunGrows(past: seq<Db>, db: Db, out: Db, evs: seq<Event>, ev: Event)
    requires Run(past + [db], evs) && Advances(db, ev, out)
    ensures Run(past + [db] + [out], evs + [ev])
  {
    hide Valid, Advances;
    var dbs, events := past + [db] + [out], evs + [ev];
    forall i, j | 0 <= i < |events| && j == i + 1 ensures Advances(dbs[i], events[i], dbs[j]) {
      if i < |evs| {
        assert (past + [db])[i] == dbs[i] && (past + [db])[j] == dbs[j];
      }
    }
  }

  /** A finishing request writes what it would write alone, under its own locks only; so nobody else
      notices, and the log gains one serial step. */
  lemma EndKeepsOk(m: Machine, t: Id, d: Decision)
    requires MachineOk(m) && t in m.tasks
    requires Admissible(m.db, m.tasks[t].call, m.tasks[t].env)
    requires d == Perform(m.db, m.tasks[t].call, m.tasks[t].env)
    requires Covers(m.db, m.tasks[t].loc, Apply(m.db, d.effect))
    ensures MachineOk(End(m, t, d)) && Origin(End(m, t, d)) == Origin(m)
  {
    hide Accurate, Fits, Next, Holds, Valid, Run, Admissible, Covers, Kept, Perform, Apply;
    var task := m.tasks[t];
    var out := Apply(m.db, d.effect);
    var ev := Event(task.call, task.env);
    var m' := End(m, t, d);
    StepKeepsEverything(m.db, task.call, task.env);
    forall u | u in m'.tasks ensures TaskOk(m'.db, m'.owner, u, m'.tasks[u]) {
      assert TaskOk(m.db, m.owner, u, m.tasks[u]) && TaskOk(m.db, m.owner, t, task);
      OthersStayAccurate(m.db, out, m.tasks[u].call, m.tasks[u].env, m.tasks[u].loc, task.loc);
    }
    SerialRunGrows(m.past, m.db, out, EventsOf(m.log), ev);
    assert EventsOf(m'.log) == EventsOf(m.log) + [ev];
    assert m'.past + [m'.db] == m.past + [m.db] + [out];
    assert Origin(m') == Origin(m);
    forall i | 0 <= i < |m'.log| ensures m'.log[i].outcome == OutcomeOf(m'.past[i], m'.log[i].event) {
    }
  }

  lemma MovesKeepOk(m: Machine, mv: Move)
    requires MachineOk(m) && Enabled(m, mv)
    ensures MachineOk(After(m, mv)) && Origin(After(m, mv)) == Origin(m)
  {
    hide Accurate, Fits, Next, Holds, Valid, Run, OutcomeOf, Admissible, Covers, Perform, Apply, Guarded, Misses;
    match mv
    case Spawn(t, call, env) => SpawnKeepsOk(m, t, call, env);
    case Go(t) =>
      var task := m.tasks[t];
      if Misses(m.db, task.call, ActionOf(m, t)) {
        assert TaskOk(m.db, m.owner, t, task);
        MissesAreAtomic(m.db, task.call, task.env, task.loc);
        NothingIsCovered(m.db, task.loc);
        EndKeepsOk(m, t, Missed(task.call));
      } else {
        AdvanceKeepsOk(m, t);
      }
    case Finish(t) =>
      var task := m.tasks[t];
      assert TaskOk(m.db, m.owner, t, task);
      ConclusionsAreAtomic(m.db, task.call, task.env, task.loc);
      PerformIsGuarded(m.db, task.call, task.env);
      ConclusionsAreCovered(m.db, task.call, task.env, task.loc);
      EndKeepsOk(m, t, ActionOf(m, t).decision);
  }

  lemma {:induction false} TracesStayOk(ms: seq<Machine>, mvs: seq<Move>, n: nat)
    requires Trace(ms, mvs) && n < |ms|
    ensures MachineOk(ms[n]) && Origin(ms[n]) == ms[0].db
  {
    hide After, Enabled, Valid, TasksOk, OwnersOk;
    if n == 0 {
      QuietIsOk(ms[0]);
    } else {
      TracesStayOk(ms, mvs, n - 1);
      assert Moves(ms[n - 1], mvs[n - 1], ms[n]);
      MovesKeepOk(ms[n - 1], mvs[n - 1]);
    }
  }

  lemma QuietIsOk(m: Machine)
    requires Valid(m.db) && m.owner == map[] && m.tasks == map[] && m.log == [] && m.past == []
    ensures MachineOk(m) && Origin(m) == m.db
  {
    hide Valid, Advances;
    assert m.past + [m.db] == [m.db];
  }

  // ---- the theorems ----

  /** Every interleaving is serial: the requests that have finished, taken one after another in the
      order in which they finished, form a run of whole operations from the initial database to the
      present one, and each got the result it gets in that run. */
  lemma EveryInterleavingIsSerial(ms: seq<Machine>, mvs: seq<Move>)
    requires Trace(ms, mvs)
    ensures var m := ms[|mvs|];
            var dbs := m.past + [m.db];
            && |m.past| == |m.log|
            && Run(dbs, EventsOf(m.log))
            && dbs[0] == ms[0].db && dbs[|m.log|] == m.db
            && (forall i | 0 <= i < |m.log| :: m.log[i].outcome == OutcomeOf(dbs[i], m.log[i].event))
  {
    hide Run, OutcomeOf, Valid, TasksOk, OwnersOk;
    TracesStayOk(ms, mvs, |mvs|);
  }
}
