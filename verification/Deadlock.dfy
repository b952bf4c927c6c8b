/** Nobody deadlocks: requests never wait for each other in a circle, neither for the locks they take
    nor for the rows they write; and once no new requests arrive, everybody finishes. */
module Deadlock {
  import opened Prelude
  import opened Tables
  import opened Invariants
  import opened Operations
  import opened Steps
  import opened Tasks
  import opened Locking
  import opened UpdateLocks
  import opened Interleaving

  // ---- waiting for a lock ----

  /** `t` is waiting for a lock that `u` has. */
  ghost predicate Waits(m: Machine, t: Id, u: Id) {
    && t in m.tasks && !m.tasks[t].decided && ActionOf(m, t).Take?
    && Locate(m.db, ActionOf(m, t).target).Some?
    && Locate(m.db, ActionOf(m, t).target).value in m.owner
    && m.owner[Locate(m.db, ActionOf(m, t).target).value] == u
  }

  /** The rank of the lock a waiting request asks for. */
  ghost function Wanted(m: Machine, t: Id): nat
    requires exists u :: Waits(m, t, u)
  {
    LockRank(Locate(m.db, ActionOf(m, t).target).value)
  }

  /** Whoever holds the lock I want only ever wants locks of higher rank. */
  lemma WaitsRise(m: Machine, t: Id, u: Id, v: Id)
    requires MachineOk(m) && Waits(m, t, u) && Waits(m, u, v)
    ensures Wanted(m, t) < Wanted(m, u)
  {
    hide Accurate, Fits, Next, Valid, Serialized, Locate, Stored, Unused, Holds, AfterLock;
    var task := m.tasks[u];
    assert TaskOk(m.db, m.owner, u, task);
    LocksStayAccurate(m.db, task.call, task.env, task.loc, ActionOf(m, u).target);
  }

  /** A chain of requests, each waiting for the next. */
  ghost predicate WaitChain(m: Machine, ts: seq<Id>) {
    |ts| >= 2 && forall i, j | 0 <= i < j < |ts| && j == i + 1 :: Waits(m, ts[i], ts[j])
  }

  lemma {:induction false} ChainsRise(m: Machine, ts: seq<Id>, n: nat)
    requires MachineOk(m) && WaitChain(m, ts) && n + 1 < |ts|
    ensures Waits(m, ts[0], ts[1]) && Waits(m, ts[n], ts[n + 1]) && Wanted(m, ts[0]) + n <= Wanted(m, ts[n])
  {
    hide MachineOk, Waits, Wanted;
    if n > 0 {
      ChainsRise(m, ts, n - 1);
      WaitsRise(m, ts[n - 1], ts[n], ts[n + 1]);
    }
  }

  lemma LockWaitsNeverClose(m: Machine, ts: seq<Id>)
    requires MachineOk(m) && WaitChain(m, ts)
    ensures ts[0] != ts[|ts| - 1]
  {
    hide MachineOk;
    if ts[0] == ts[|ts| - 1] {
      var around := ts + [ts[1]];
      assert WaitChain(m, around);
      ChainsRise(m, around, |ts| - 1);
    }
  }

  lemma {:induction false} FollowTheWaits(m: Machine, t: Id)
    requires MachineOk(m) && t in m.tasks
    ensures exists u :: u in m.tasks && !(exists v :: Waits(m, u, v))
    decreases if exists v :: Waits(m, t, v) then 5 - Wanted(m, t) else 0
  {
    hide TasksOk, Valid, Serialized, Locate, Next;
    if v :| Waits(m, t, v) {
      if w :| Waits(m, v, w) {
        WaitsRise(m, t, v, w);
        FollowTheWaits(m, v);
      }
    }
  }

  // ---- waiting for a row that somebody writes ----

  /** The request may be updating the row: an UPDATE locks every row it selects. */
  ghost predicate Writes(m: Machine, t: Id, lock: Lock) {
    t in m.tasks && Selects(m.db, m.tasks[t].call, m.tasks[t].loc, lock)
  }

  ghost predicate Asks(m: Machine, t: Id, lock: Lock) {
    || Writes(m, t, lock)
    || (t in m.tasks && !m.tasks[t].decided && ActionOf(m, t).Take?
        && Locate(m.db, ActionOf(m, t).target) == Some(lock))
  }

  ghost predicate Keeps(m: Machine, u: Id, lock: Lock) {
    Writes(m, u, lock) || (lock in m.owner && m.owner[lock] == u)
  }

  /** `t` is waiting for `u`, because of a lock or because of a row one of them writes. */
  ghost predicate WaitsAnyhow(m: Machine, t: Id, u: Id) {
    t != u && exists lock :: Asks(m, t, lock) && Keeps(m, u, lock)
  }

  /** `t` has the lock, or the session lock above it. */
  ghost predicate Guards(m: Machine, t: Id, lock: Lock) {
    || (lock in m.owner && m.owner[lock] == t)
    || (Nested(lock) && SessionOfRow(m.db, lock).Some?
        && SessionLock(SessionOfRow(m.db, lock).value) in m.owner
        && m.owner[SessionLock(SessionOfRow(m.db, lock).value)] == t)
  }

  /** Whoever may update a row guards it: in particular an update of many families falls only on
      families of the session it has locked. */
  lemma WritesAreGuarded(m: Machine, t: Id, lock: Lock)
    requires MachineOk(m) && Writes(m, t, lock)
    ensures Guards(m, t, lock)
  {
    hide Accurate, Fits, Next, Serialized, OwnersOk, Holds, Selects, SessionOfRow, SessionsOk, CodesOk, FamiliesOk,
         SourcesOk, MembersOk, ChainsOk, ChallengesOk, BrowsersOk, OriginsOk, IdentitiesOk;
    var task := m.tasks[t];
    assert TaskOk(m.db, m.owner, t, task);
    SelectionsAreGuarded(m.db, task.call, task.env, task.loc, lock);
  }

  /** And no commit changes a row that does not count as written. */
  lemma ChangesAreWrites(m: Machine, t: Id, lock: Lock)
    requires MachineOk(m) && Enabled(m, Finish(t))
    requires RowChanges(m.db, After(m, Finish(t)).db, lock)
    ensures Writes(m, t, lock)
  {
    hide Accurate, Fits, Next, Valid, Serialized, OwnersOk, Holds, Selects, Touches, RowChanges, Admissible, Perform,
         Apply, Guarded;
    var task := m.tasks[t];
    assert TaskOk(m.db, m.owner, t, task);
    ConclusionsAreAtomic(m.db, task.call, task.env, task.loc);
    PerformIsGuarded(m.db, task.call, task.env);
    ChangesAreTouched(m.db, ActionOf(m, t).decision.effect, lock);
    TouchesAreSelected(m.db, task.call, task.env, task.loc, lock);
  }

  /** Nobody else guards the same row. */
  lemma GuardsAreUnique(m: Machine, t: Id, u: Id, lock: Lock)
    requires MachineOk(m) && Guards(m, t, lock) && Guards(m, u, lock)
    ensures t == u
  {
    hide Accurate, Fits, Next, Valid, Serialized, Holds, SessionOfRow;
    if Nested(lock) && lock in m.owner {
      var owner := m.tasks[m.owner[lock]];
      assert TaskOk(m.db, m.owner, m.owner[lock], owner);
      HeldUnderItsSession(m.db, owner.call, owner.env, owner.loc, lock);
    }
  }

  /** Written rows never make anybody wait who does not wait for a lock. */
  lemma WritesAddNoWaits(m: Machine, t: Id, u: Id)
    requires MachineOk(m) && WaitsAnyhow(m, t, u)
    ensures Waits(m, t, u)
  {
    hide Accurate, Fits, Next, Valid, Serialized, Holds, SessionOfRow, Writes, Locate;
    var lock :| Asks(m, t, lock) && Keeps(m, u, lock);
    if Writes(m, u, lock) {
      WritesAreGuarded(m, u, lock);
    }
    if Writes(m, t, lock) {
      WritesAreGuarded(m, t, lock);
      GuardsAreUnique(m, t, u, lock);
    } else {
      if Nested(lock) {
        AskedUnderItsSession(m, t, lock);
        GuardsAreUnique(m, t, u, lock);
      }
    }
  }

  lemma AskedUnderItsSession(m: Machine, t: Id, lock: Lock)
    requires MachineOk(m) && t in m.tasks && !m.tasks[t].decided && ActionOf(m, t).Take?
    requires Locate(m.db, ActionOf(m, t).target) == Some(lock) && Nested(lock)
    ensures Guards(m, t, lock)
  {
    hide Accurate, Fits, Next, Valid, Serialized, OwnersOk, Holds, SessionOfRow, Locate;
    var task := m.tasks[t];
    assert TaskOk(m.db, m.owner, t, task);
    WantedUnderItsSession(m.db, task.call, task.env, task.loc, ActionOf(m, t).target);
  }

  lemma WrittenSessionsAreStored(m: Machine, u: Id, s: Id)
    requires MachineOk(m) && Writes(m, u, SessionLock(s))
    ensures s in m.db.sessions
  {
    hide Fits, Next, Valid, Serialized, Selects;
    WritesAreGuarded(m, u, SessionLock(s));
    assert TaskOk(m.db, m.owner, u, m.tasks[u]);
  }

  lemma LocatedSessionsAreStored(db: Db, target: Target, s: Id)
    requires Locate(db, target) == Some(SessionLock(s))
    ensures s in db.sessions
  {
  }

  /** Nobody asks for a row that a commit is going to insert, such as the session of a callback. */
  lemma NewRowsAreUnknown(m: Machine, t: Id, u: Id)
    requires MachineOk(m) && t in m.tasks && Admissible(m.db, m.tasks[t].call, m.tasks[t].env)
    ensures !Asks(m, u, SessionLock(m.tasks[t].env.drawn.row))
  {
    hide MachineOk, Next, Writes, Locate;
    var s := m.tasks[t].env.drawn.row;
    if Writes(m, u, SessionLock(s)) {
      WrittenSessionsAreStored(m, u, s);
    } else if Asks(m, u, SessionLock(s)) {
      LocatedSessionsAreStored(m.db, ActionOf(m, u).target, s);
    }
  }

  // ---- the theorems ----

  /** A chain of requests, each waiting for the next in one way or the other. */
  ghost predicate AnyWaitChain(m: Machine, ts: seq<Id>) {
    |ts| >= 2 && forall i, j | 0 <= i < j < |ts| && j == i + 1 :: WaitsAnyhow(m, ts[i], ts[j])
  }

  /** No deadlock: in no reachable state do requests wait for each other in a circle, be it for locks
      they take, for rows they write, or for rows others write. */
  lemma NoWaitCycle(ms: seq<Machine>, mvs: seq<Move>, n: nat, ts: seq<Id>)
    requires Trace(ms, mvs) && n < |ms|
    requires AnyWaitChain(ms[n], ts)
    ensures ts[0] != ts[|ts| - 1]
  {
    hide MachineOk, WaitsAnyhow, Waits;
    TracesStayOk(ms, mvs, n);
    forall i, j | 0 <= i < j < |ts| && j == i + 1 ensures Waits(ms[n], ts[i], ts[j]) {
      WritesAddNoWaits(ms[n], ts[i], ts[j]);
    }
    LockWaitsNeverClose(ms[n], ts);
  }

  function Resume(m: Machine, t: Id): Move
    requires t in m.tasks
  {
    if m.tasks[t].decided then Finish(t) else Go(t)
  }

  /** And so somebody can always go on: while requests are under way, one of them waits for nobody, and
      its next move is enabled unless its random draws collide. */
  lemma SomebodyCanMove(ms: seq<Machine>, mvs: seq<Move>, n: nat, t: Id) returns (u: Id)
    requires Trace(ms, mvs) && n < |ms| && t in ms[n].tasks
    ensures u in ms[n].tasks && forall v :: !WaitsAnyhow(ms[n], u, v)
    ensures Admissible(ms[n].db, ms[n].tasks[u].call, ms[n].tasks[u].env) ==> Enabled(ms[n], Resume(ms[n], u))
  {
    hide Accurate, Fits, Next, Valid, Serialized, OwnersOk, Locate, Misses, Admissible, Holds, Trace, WaitsAnyhow;
    TracesStayOk(ms, mvs, n);
    FollowTheWaits(ms[n], t);
    var m := ms[n];
    u :| u in m.tasks && !(exists v :: Waits(m, u, v));
    assert TaskOk(m.db, m.owner, u, m.tasks[u]);
    var lock := if ActionOf(m, u).Take? then Locate(m.db, ActionOf(m, u).target) else None;
    var holder := if lock.Some? && lock.value in m.owner then m.owner[lock.value] else u;
    assert !Waits(m, u, holder);
    forall v ensures !WaitsAnyhow(m, u, v) {
      if WaitsAnyhow(m, u, v) {
        WritesAddNoWaits(m, u, v);
      }
    }
  }

  // ---- progress ----

  /** A bound on the moves a request may still make before it only has to finish. */
  function Effort(task: Task): nat {
    12 - (if task.decided then 1 else 0) - Slots(task.loc)
  }

  /** Every move of a request ends it or leaves it less to do, whatever the others do meanwhile. */
  lemma MovesMakeProgress(m: Machine, t: Id)
    requires MachineOk(m) && Enabled(m, Go(t))
    ensures var m' := After(m, Go(t));
            && (t in m'.tasks ==> m'.tasks.Keys == m.tasks.Keys && Effort(m'.tasks[t]) < Effort(m.tasks[t]))
            && m'.tasks - {t} == m.tasks - {t}
  {
    hide Valid, Serialized, OwnersOk, Accurate, Fits, Admissible, Next, Perform, Apply, Locate, RowToRead, Slots,
         AfterRead, AfterLock, Unused, Stored, Holds;
    var task := m.tasks[t];
    assert TaskOk(m.db, m.owner, t, task);
    if !Misses(m.db, task.call, ActionOf(m, t)) {
      match ActionOf(m, t)
      case ReadOutside => ReadsFillASlot(m.db, task.call, task.env, task.loc, true);
      case ReadUnlocked => ReadsFillASlot(m.db, task.call, task.env, task.loc, false);
      case Take(target) =>
        LocksStayAccurate(m.db, task.call, task.env, task.loc, target);
        LocksFillASlot(m.db, task.loc, Locate(m.db, target).value);
      case Conclude(_) =>
    }
  }

  /** A bound on all moves that all requests under way may still make. */
  ghost function Work(tasks: map<Id, Task>): nat {
    if tasks == map[] then 0
    else var t :| t in tasks; Effort(tasks[t]) + 1 + Work(tasks - {t})
  }

  /** Whichever request is counted first. */
  lemma {:induction false} WorkOfOne(tasks: map<Id, Task>, t: Id)
    requires t in tasks
    ensures Work(tasks) == Effort(tasks[t]) + 1 + Work(tasks - {t})
  {
    var u :| u in tasks && Work(tasks) == Effort(tasks[u]) + 1 + Work(tasks - {u});
    if u != t {
      WorkOfOne(tasks - {u}, t);
      WorkOfOne(tasks - {t}, u);
      assert tasks - {u} - {t} == tasks - {t} - {u};
    }
  }

  lemma MovesCostWork(m: Machine, mv: Move)
    requires MachineOk(m) && Enabled(m, mv) && !mv.Spawn?
    ensures Work(After(m, mv).tasks) < Work(m.tasks)
  {
    hide MachineOk, Effort, Work, Apply, Advanced, Admissible, Misses, Next, Locate;
    var m' := After(m, mv);
    WorkOfOne(m.tasks, mv.task);
    if mv.Finish? {
      assert m'.tasks == m.tasks - {mv.task};
    } else {
      MovesMakeProgress(m, mv.task);
      if mv.task in m'.tasks {
        WorkOfOne(m'.tasks, mv.task);
      } else {
        assert m'.tasks - {mv.task} == m'.tasks;
      }
    }
  }

  /** However long the moves go on, without new requests there are only so many of them. */
  lemma {:induction false} MovesAreBounded(ms: seq<Machine>, mvs: seq<Move>, n: nat, k: nat)
    requires Trace(ms, mvs) && n <= k < |ms|
    requires forall i | n <= i < k :: !mvs[i].Spawn?
    ensures k - n + Work(ms[k].tasks) <= Work(ms[n].tasks)
    decreases k
  {
    hide MachineOk, Enabled, After, Work;
    if n < k {
      MovesAreBounded(ms, mvs, n, k - 1);
      TracesStayOk(ms, mvs, k - 1);
      assert Moves(ms[k - 1], mvs[k - 1], ms[k]);
      MovesCostWork(ms[k - 1], mvs[k - 1]);
    }
  }

  /** Everybody finishes: once no new requests arrive, any continuation has at most `Work` moves, and it
      can only stop, draws being fresh, when nobody is left. */
  lemma EverybodyFinishes(ms: seq<Machine>, mvs: seq<Move>, n: nat)
    requires Trace(ms, mvs) && n < |ms|
    requires forall i | n <= i < |mvs| :: !mvs[i].Spawn?
    ensures |mvs| - n <= Work(ms[n].tasks)
    ensures var m := ms[|mvs|];
            (forall t | t in m.tasks ::
               Admissible(m.db, m.tasks[t].call, m.tasks[t].env) && !Enabled(m, Resume(m, t))) ==>
              m.tasks == map[]
  {
    hide MachineOk, Enabled, After, Work, Admissible, WaitsAnyhow;
    MovesAreBounded(ms, mvs, n, |mvs|);
    var m := ms[|mvs|];
    if t :| t in m.tasks {
      var u := SomebodyCanMove(ms, mvs, |mvs|, t);
    }
  }

  /** Only session, browser and identity locks are ever waited for: the others lie under a session
      lock that excludes every competitor. */
  lemma NestedLocksAreFree(ms: seq<Machine>, mvs: seq<Move>, n: nat, t: Id, u: Id)
    requires Trace(ms, mvs) && n < |ms| && Waits(ms[n], t, u)
    ensures var lock := Locate(ms[n].db, ActionOf(ms[n], t).target).value;
            u != t && (lock.SessionLock? || lock.BrowserLock? || lock.IdentityLock?)
  {
    TracesStayOk(ms, mvs, n);
    NestedLockIsFree(ms[n], t, u);
  }

  lemma NestedLockIsFree(m: Machine, t: Id, u: Id)
    requires MachineOk(m) && Waits(m, t, u)
    ensures var lock := Locate(m.db, ActionOf(m, t).target).value;
            u != t && (lock.SessionLock? || lock.BrowserLock? || lock.IdentityLock?)
  {
    var lock := Locate(m.db, ActionOf(m, t).target).value;
    hide Accurate, Fits, Next, Valid, Serialized, Locate, Guards;
    OwnLocksAreNotAsked(m, t);
    if Nested(lock) {
      AskedUnderItsSession(m, t, lock);
      OwnersGuard(m, u, lock);
      GuardsAreUnique(m, t, u, lock);
    }
  }

  lemma OwnersGuard(m: Machine, u: Id, lock: Lock)
    requires lock in m.owner && m.owner[lock] == u
    ensures Guards(m, u, lock)
  {
  }

  lemma OwnLocksAreNotAsked(m: Machine, t: Id)
    requires MachineOk(m) && t in m.tasks && ActionOf(m, t).Take? && Locate(m.db, ActionOf(m, t).target).Some?
    ensures var lock := Locate(m.db, ActionOf(m, t).target).value;
            !(lock in m.owner && m.owner[lock] == t)
  {
    hide Accurate, Fits, Next, Valid, Serialized, Locate, Stored, Unused, Holds, AfterLock;
    var task := m.tasks[t];
    assert TaskOk(m.db, m.owner, t, task);
    LocksStayAccurate(m.db, task.call, task.env, task.loc, ActionOf(m, t).target);
  }
}
