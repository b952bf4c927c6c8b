/** The bounded metadata fetcher (src/cimd.rs): permits, in-flight clients, a leased cache, and fetches
    that may be cancelled at any point where they wait. */
module Fetcher {
  import opened Prelude
  import opened Policy
  import opened CacheControl

  const MAX_FLIGHTS: nat := 8
  const MAX_CACHE_ENTRIES: nat := 128
  const NON_CACHEABLE_LEASE: nat := 5

  /** How far a fetch has come.  Each holds a permit; all but the first and the last stage also hold
      the client's in-flight entry.  `number` is its place in the order in which flights start. */
  datatype Stage =
    | Permitted
    | Flying(number: nat)
    | Ready(number: nat, lease: Lease, at: Instant, ttl: Option<nat>)
    | Published(number: nat)
    | Leaving

  datatype Fetch = Fetch(clientId: string, stage: Stage)

  /** A response put into the cache, validated at `at` for `ttl` seconds. */
  datatype Publication = Publication(clientId: string, number: nat, lease: Lease, at: Instant, ttl: nat)

  /** `next` and `log` are history. */
  datatype State = State(
    permits: nat,
    inFlight: set<string>,
    cache: map<string, Lease>,
    fetches: map<Id, Fetch>,
    next: nat,
    log: seq<Publication>)

  const IDLE := State(MAX_FLIGHTS, {}, map[], map[], 0, [])

  datatype Move =
    | Acquire(fetch: Id, clientId: string)
    | Enter(fetch: Id)
    | Respond(fetch: Id, document: Document, control: Option<seq<string>>, age: nat, at: Instant)
    | Publish(fetch: Id, clock: string -> Instant, victim: string)
    | Land(fetch: Id)     // drop the in-flight entry: done, failed, timed out or cancelled
    | Leave(fetch: Id)    // give the permit back

  predicate Active(f: Fetch) {
    f.stage.Flying? || f.stage.Ready? || f.stage.Published?
  }

  predicate Enabled(s: State, m: Move) {
    match m
    case Acquire(t, _) => t !in s.fetches
    case Enter(t) => t in s.fetches && s.fetches[t].stage.Permitted?
    case Respond(t, document, _, _, _) =>
      t in s.fetches && s.fetches[t].stage.Flying? && document.clientId == s.fetches[t].clientId
    case Publish(t, clock, victim) =>
      && t in s.fetches && s.fetches[t].stage.Ready? && s.fetches[t].stage.ttl.Some?
      && (|Retained(s.cache, clock)| >= MAX_CACHE_ENTRIES ==> victim in Retained(s.cache, clock))
    case Land(t) => t in s.fetches && Active(s.fetches[t])
    case Leave(t) => t in s.fetches && !Active(s.fetches[t])
  }

  /** The entries found fresh; `clock` gives the instant at which each of them is looked at. */
  function Retained(cache: map<string, Lease>, clock: string -> Instant): map<string, Lease> {
    map id | id in cache && cache[id].IsFresh(clock(id)) :: cache[id]
  }

  function WithRoom(cache: map<string, Lease>, victim: string): map<string, Lease> {
    if |cache| >= MAX_CACHE_ENTRIES then cache - {victim} else cache
  }

  function TtlOf(control: Option<seq<string>>, age: nat): Option<nat> {
    if control.None? then None else Ttl(ReadAll(Directives(control.value)), age)
  }

  function At(s: State, t: Id, stage: Stage): State
    requires t in s.fetches
  {
    s.(fetches := s.fetches[t := s.fetches[t].(stage := stage)])
  }

  function After(s: State, m: Move): State
    requires Enabled(s, m)
  {
    match m
    case Acquire(t, clientId) =>
      if s.permits == 0 then s
      else s.(permits := s.permits - 1, fetches := s.fetches[t := Fetch(clientId, Permitted)])
    case Enter(t) =>
      var id := s.fetches[t].clientId;
      if id in s.inFlight then At(s, t, Leaving)
      else At(s, t, Flying(s.next)).(inFlight := s.inFlight + {id}, next := s.next + 1)
    case Respond(t, document, control, age, at) =>
      var ttl := TtlOf(control, age);
      At(s, t, Ready(s.fetches[t].stage.number, Lease(document, at + ttl.GetOr(NON_CACHEABLE_LEASE) * SECOND), at, ttl))
    case Publish(t, clock, victim) =>
      var f := s.fetches[t];
      At(s, t, Published(f.stage.number)).(
        cache := WithRoom(Retained(s.cache, clock), victim)[f.clientId := f.stage.lease],
        log := s.log + [Publication(f.clientId, f.stage.number, f.stage.lease, f.stage.at, f.stage.ttl.value)])
    case Land(t) => At(s, t, Leaving).(inFlight := s.inFlight - {s.fetches[t].clientId})
    case Leave(t) => s.(permits := s.permits + 1, fetches := s.fetches - {t})
  }

  // ---- invariants ----

  /** No permit is ever lost or invented. */
  predicate PermitsOk(permits: nat, fetches: map<Id, Fetch>) {
    permits + |fetches| == MAX_FLIGHTS
  }

  /** The in-flight set is exactly the clients of the active fetches, one fetch each. */
  ghost predicate FlightsOk(inFlight: set<string>, fetches: map<Id, Fetch>) {
    && (forall t | t in fetches && Active(fetches[t]) :: fetches[t].clientId in inFlight)
    && (forall id | id in inFlight :: exists t :: t in fetches && Active(fetches[t]) && fetches[t].clientId == id)
    && (forall t, u | t in fetches && u in fetches && Active(fetches[t]) && Active(fetches[u])
                      && fetches[t].clientId == fetches[u].clientId :: t == u)
  }

  /** A lease lasts as long as its response allowed, at most five minutes from validation. */
  predicate LeaseOk(clientId: string, lease: Lease, at: Instant, ttl: Option<nat>) {
    && lease.document.clientId == clientId
    && lease.validUntil == at + ttl.GetOr(NON_CACHEABLE_LEASE) * SECOND
    && (ttl.Some? ==> 0 < ttl.value <= MAX_CACHE_TTL)
  }

  ghost predicate StagesOk(fetches: map<Id, Fetch>) {
    forall t | t in fetches && fetches[t].stage.Ready? ::
      LeaseOk(fetches[t].clientId, fetches[t].stage.lease, fetches[t].stage.at, fetches[t].stage.ttl)
  }

  /** Each client's responses are published in the order in which they were fetched. */
  ghost predicate LogOk(log: seq<Publication>, next: nat) {
    && (forall i | 0 <= i < |log| ::
          log[i].number < next && LeaseOk(log[i].clientId, log[i].lease, log[i].at, Some(log[i].ttl)))
    && (forall i, j | 0 <= i < j < |log| && log[i].clientId == log[j].clientId :: log[i].number < log[j].number)
  }

  /** Whoever may still publish started after everything published for that client. */
  ghost predicate OrderOk(fetches: map<Id, Fetch>, log: seq<Publication>, next: nat) {
    forall t | t in fetches && Active(fetches[t]) ::
      && fetches[t].stage.number < next
      && (!fetches[t].stage.Published? ==>
            forall i | 0 <= i < |log| && log[i].clientId == fetches[t].clientId ::
              log[i].number < fetches[t].stage.number)
  }

  /** The last publication for a client, if any. */
  function Latest(log: seq<Publication>, id: string): Option<Publication> {
    if log == [] then None
    else if log[|log| - 1].clientId == id then Some(log[|log| - 1])
    else Latest(log[..|log| - 1], id)
  }

  /** A bounded cache, and nothing in it but each client's latest publication. */
  ghost predicate CacheOk(cache: map<string, Lease>, log: seq<Publication>) {
    && |cache| <= MAX_CACHE_ENTRIES
    && (forall id | id in cache :: Latest(log, id).Some? && Latest(log, id).value.lease == cache[id])
  }

  ghost predicate Ok(s: State) {
    && PermitsOk(s.permits, s.fetches)
    && FlightsOk(s.inFlight, s.fetches)
    && StagesOk(s.fetches)
    && LogOk(s.log, s.next)
    && OrderOk(s.fetches, s.log, s.next)
    && CacheOk(s.cache, s.log)
  }

  // ---- every move keeps them ----

  /** An inactive fetch, new or not, leaves the flights as they were. */
  lemma InactiveFetchKeepsFlights(inFlight: set<string>, fetches: map<Id, Fetch>, t: Id, f: Fetch)
    requires FlightsOk(inFlight, fetches) && !Active(f) && (t in fetches ==> !Active(fetches[t]))
    ensures FlightsOk(inFlight, fetches[t := f])
    ensures |fetches[t := f]| == |fetches| + if t in fetches then 0 else 1
  {
    var fetches' := fetches[t := f];
    assert fetches'.Keys == fetches.Keys + {t};
    forall id | id in inFlight ensures exists u :: u in fetches' && Active(fetches'[u]) && fetches'[u].clientId == id {
      var u :| u in fetches && Active(fetches[u]) && fetches[u].clientId == id;
      assert u in fetches' && Active(fetches'[u]);
    }
  }

  lemma AcquireKeepsOk(s: State, t: Id, clientId: string)
    requires Ok(s) && Enabled(s, Acquire(t, clientId))
    ensures Ok(After(s, Acquire(t, clientId)))
  {
    hide LogOk, CacheOk, LeaseOk, FlightsOk;
    if s.permits > 0 {
      InactiveFetchKeepsFlights(s.inFlight, s.fetches, t, Fetch(clientId, Permitted));
    }
  }

  /** Moves that only change the stage of one active fetch, staying active. */
  lemma StageChangeKeepsFlights(inFlight: set<string>, fetches: map<Id, Fetch>, t: Id, stage: Stage)
    requires FlightsOk(inFlight, fetches) && t in fetches && Active(fetches[t])
    requires Active(fetches[t].(stage := stage))
    ensures FlightsOk(inFlight, fetches[t := fetches[t].(stage := stage)])
    ensures |fetches[t := fetches[t].(stage := stage)]| == |fetches|
  {
    var fetches' := fetches[t := fetches[t].(stage := stage)];
    assert fetches'.Keys == fetches.Keys;
    forall id | id in inFlight ensures exists u :: u in fetches' && Active(fetches'[u]) && fetches'[u].clientId == id {
      var u :| u in fetches && Active(fetches[u]) && fetches[u].clientId == id;
      assert u in fetches' && Active(fetches'[u]);
    }
  }

  lemma NewFlightKeepsFlights(inFlight: set<string>, fetches: map<Id, Fetch>, t: Id, f: Fetch)
    requires FlightsOk(inFlight, fetches) && t in fetches && !Active(fetches[t])
    requires Active(f) && f.clientId !in inFlight
    ensures FlightsOk(inFlight + {f.clientId}, fetches[t := f])
    ensures |fetches[t := f]| == |fetches|
  {
    var fetches' := fetches[t := f];
    assert fetches'.Keys == fetches.Keys;
    assert t in fetches' && Active(fetches'[t]);
    forall id | id in inFlight ensures exists u :: u in fetches' && Active(fetches'[u]) && fetches'[u].clientId == id {
      var u :| u in fetches && Active(fetches[u]) && fetches[u].clientId == id;
      assert u in fetches' && Active(fetches'[u]);
    }
  }

  lemma EnterKeepsOk(s: State, t: Id)
    requires Ok(s) && Enabled(s, Enter(t))
    ensures Ok(After(s, Enter(t)))
  {
    hide CacheOk, LeaseOk, FlightsOk;
    var f := s.fetches[t];
    if f.clientId in s.inFlight {
      InactiveFetchKeepsFlights(s.inFlight, s.fetches, t, f.(stage := Leaving));
    } else {
      NewFlightKeepsFlights(s.inFlight, s.fetches, t, f.(stage := Flying(s.next)));
    }
  }

  lemma RespondKeepsOk(s: State, m: Move)
    requires m.Respond? && Ok(s) && Enabled(s, m)
    ensures Ok(After(s, m))
  {
    hide CacheOk, LogOk, FlightsOk;
    var stage := After(s, m).fetches[m.fetch].stage;
    StageChangeKeepsFlights(s.inFlight, s.fetches, m.fetch, stage);
    if m.control.Some? && stage.ttl.Some? {
      TtlIsExact(ReadAll(Directives(m.control.value)), m.age, stage.ttl.value);
    }
  }

  lemma PublicationIsLatest(log: seq<Publication>, p: Publication, id: string)
    ensures Latest(log + [p], id) == if p.clientId == id then Some(p) else Latest(log, id)
  {
    assert (log + [p])[..|log|] == log;
  }

  lemma RoomIsMade(cache: map<string, Lease>, clock: string -> Instant, victim: string, id: string, lease: Lease)
    requires |cache| <= MAX_CACHE_ENTRIES
    requires |Retained(cache, clock)| >= MAX_CACHE_ENTRIES ==> victim in Retained(cache, clock)
    ensures |WithRoom(Retained(cache, clock), victim)[id := lease]| <= MAX_CACHE_ENTRIES
  {
    var kept := Retained(cache, clock);
    SubmapIsSmaller(kept, cache);
    var roomy := WithRoom(kept, victim);
    if |kept| >= MAX_CACHE_ENTRIES {
      assert roomy.Keys == kept.Keys - {victim};
    }
    assert |roomy.Keys| < MAX_CACHE_ENTRIES;
    assert roomy[id := lease].Keys == roomy.Keys + {id};
  }

  lemma SubmapIsSmaller(a: map<string, Lease>, b: map<string, Lease>)
    requires forall id | id in a :: id in b
    ensures |a| <= |b|
  {
    SubsetIsSmaller(a.Keys, b.Keys);
  }

  lemma {:induction false} SubsetIsSmaller(a: set<string>, b: set<string>)
    requires a <= b
    ensures |a| <= |b|
  {
    if x :| x in a {
      SubsetIsSmaller(a - {x}, b - {x});
    }
  }

  lemma PublishKeepsOk(s: State, m: Move)
    requires m.Publish? && Ok(s) && Enabled(s, m)
    ensures Ok(After(s, m))
  {
    hide FlightsOk, LeaseOk, Latest;
    var f := s.fetches[m.fetch];
    var s' := After(s, m);
    StageChangeKeepsFlights(s.inFlight, s.fetches, m.fetch, Published(f.stage.number));
    RoomIsMade(s.cache, m.clock, m.victim, f.clientId, f.stage.lease);
    forall id | id in s'.cache ensures Latest(s'.log, id).Some? && Latest(s'.log, id).value.lease == s'.cache[id] {
      PublicationIsLatest(s.log, s'.log[|s.log|], id);
    }
    OthersFlyForOthers(s, m.fetch);
  }

  lemma OthersFlyForOthers(s: State, t: Id)
    requires FlightsOk(s.inFlight, s.fetches) && t in s.fetches && Active(s.fetches[t])
    ensures forall u | u in s.fetches && u != t && Active(s.fetches[u]) ::
              s.fetches[u].clientId != s.fetches[t].clientId
  {
  }

  lemma LandKeepsOk(s: State, t: Id)
    requires Ok(s) && Enabled(s, Land(t))
    ensures Ok(After(s, Land(t)))
  {
    hide CacheOk, LogOk, LeaseOk;
    var s' := After(s, Land(t));
    assert s'.fetches.Keys == s.fetches.Keys;
    OthersFlyForOthers(s, t);
    forall id | id in s'.inFlight
      ensures exists u :: u in s'.fetches && Active(s'.fetches[u]) && s'.fetches[u].clientId == id {
      var u :| u in s.fetches && Active(s.fetches[u]) && s.fetches[u].clientId == id;
      assert u in s'.fetches && Active(s'.fetches[u]);
    }
  }

  lemma LeaveKeepsOk(s: State, t: Id)
    requires Ok(s) && Enabled(s, Leave(t))
    ensures Ok(After(s, Leave(t)))
  {
    hide CacheOk, LogOk, LeaseOk;
    var s' := After(s, Leave(t));
    assert s'.fetches.Keys == s.fetches.Keys - {t};
    forall id | id in s'.inFlight
      ensures exists u :: u in s'.fetches && Active(s'.fetches[u]) && s'.fetches[u].clientId == id {
      var u :| u in s.fetches && Active(s.fetches[u]) && s.fetches[u].clientId == id;
      assert u in s'.fetches && Active(s'.fetches[u]);
    }
  }

  lemma MovesKeepOk(s: State, m: Move)
    requires Ok(s) && Enabled(s, m)
    ensures Ok(After(s, m)) && s.log <= After(s, m).log
  {
    hide Ok;
    match m
    case Acquire(t, clientId) => AcquireKeepsOk(s, t, clientId);
    case Enter(t) => EnterKeepsOk(s, t);
    case Respond(_, _, _, _, _) => RespondKeepsOk(s, m);
    case Publish(_, _, _) => PublishKeepsOk(s, m);
    case Land(t) => LandKeepsOk(s, t);
    case Leave(t) => LeaveKeepsOk(s, t);
  }

  // ---- runs ----

  ghost predicate Moves(s: State, m: Move, s': State) {
    Enabled(s, m) && s' == After(s, m)
  }

  /** Any number of fetches, moving, failing and being cancelled in any order. */
  ghost predicate Trace(states: seq<State>, moves: seq<Move>) {
    && |states| == |moves| + 1 && states[0] == IDLE
    && forall i, j | 0 <= i < |moves| && j == i + 1 :: Moves(states[i], moves[i], states[j])
  }

  lemma {:induction false} TracesStayOk(states: seq<State>, moves: seq<Move>, n: nat)
    requires Trace(states, moves) && n < |states|
    ensures Ok(states[n])
  {
    hide Ok;
    if n == 0 {
      IdleIsOk();
    } else {
      TracesStayOk(states, moves, n - 1);
      assert Moves(states[n - 1], moves[n - 1], states[n]);
      MovesKeepOk(states[n - 1], moves[n - 1]);
    }
  }

  lemma IdleIsOk()
    ensures Ok(IDLE)
  {
  }

  /** In every reachable state at most eight fetches run, at most one of them for any one client, and
      every permit is either free or held by one of them. */
  lemma FlightsAreBounded(states: seq<State>, moves: seq<Move>, n: nat, t: Id, u: Id)
    requires Trace(states, moves) && n < |states|
    ensures var s := states[n];
            && |s.fetches| <= MAX_FLIGHTS && s.permits == MAX_FLIGHTS - |s.fetches|
            && ((t in s.fetches && u in s.fetches && Active(s.fetches[t]) && Active(s.fetches[u])
                 && s.fetches[t].clientId == s.fetches[u].clientId) ==> t == u)
  {
    TracesStayOk(states, moves, n);
  }

  /** Each client's responses reach the cache in the order in which their fetches started. */
  lemma PublishedInFetchOrder(states: seq<State>, moves: seq<Move>, n: nat, i: nat, j: nat)
    requires Trace(states, moves) && n < |states|
    requires i < j < |states[n].log| && states[n].log[i].clientId == states[n].log[j].clientId
    ensures states[n].log[i].number < states[n].log[j].number
  {
    TracesStayOk(states, moves, n);
  }

  /** What a lookup at `at` finds. */
  function Hit(s: State, clientId: string, at: Instant): Option<Lease> {
    if clientId in s.cache && s.cache[clientId].IsFresh(at) then Some(s.cache[clientId]) else None
  }

  lemma {:induction false} LatestIsInTheLog(log: seq<Publication>, id: string)
    requires Latest(log, id).Some?
    ensures Latest(log, id).value in log && Latest(log, id).value.clientId == id
  {
    if log[|log| - 1].clientId != id {
      LatestIsInTheLog(log[..|log| - 1], id);
    }
  }

  /** A cache hit is the client's latest cacheable response, fresh, under the deadline it was given
      when it was validated, at most five minutes before. */
  lemma HitsAreFreshAndLatest(states: seq<State>, moves: seq<Move>, n: nat, clientId: string, at: Instant)
    requires Trace(states, moves) && n < |states|
    requires Hit(states[n], clientId, at).Some?
    ensures var lease := Hit(states[n], clientId, at).value;
            && lease.IsFresh(at) && lease.document.clientId == clientId
            && Latest(states[n].log, clientId).Some?
    ensures var p := Latest(states[n].log, clientId).value;
            && p.lease == Hit(states[n], clientId, at).value
            && p.lease.validUntil == p.at + p.ttl * SECOND
            && at < p.at + MAX_CACHE_TTL * SECOND
    ensures |states[n].cache| <= MAX_CACHE_ENTRIES
  {
    TracesStayOk(states, moves, n);
    LatestIsInTheLog(states[n].log, clientId);
  }

  /** A lookup hits exactly on a cached lease that has not run out. */
  lemma HitsAreExact(s: State, clientId: string, at: Instant)
    ensures Hit(s, clientId, at) ==
            if clientId in s.cache && at < s.cache[clientId].validUntil then Some(s.cache[clientId]) else None
  {
  }

  /** What is published is found, until its deadline. */
  lemma PublishedLeasesAreFound(s: State, m: Move, at: Instant)
    requires m.Publish? && Enabled(s, m) && at < s.fetches[m.fetch].stage.lease.validUntil
    ensures Hit(After(s, m), s.fetches[m.fetch].clientId, at) == Some(s.fetches[m.fetch].stage.lease)
  {
  }

  /** An entry stays as it is, but for a publication of the same client, one that finds it stale, and one
      that needs room and evicts it. */
  lemma EntriesStay(s: State, m: Move, id: string)
    requires Enabled(s, m) && id in s.cache
    requires m.Publish? ==>
               && s.fetches[m.fetch].clientId != id && m.clock(id) < s.cache[id].validUntil
               && (m.victim == id ==> |Retained(s.cache, m.clock)| < 128)
    ensures id in After(s, m).cache && After(s, m).cache[id] == s.cache[id]
  {
  }

  /** In a reachable state a new fetch is admitted exactly if fewer than eight are under way. */
  lemma FetchesAreAdmittedExactly(states: seq<State>, moves: seq<Move>, n: nat, t: Id, clientId: string)
    requires Trace(states, moves) && n < |states| && t !in states[n].fetches
    ensures var s := After(states[n], Acquire(t, clientId));
            if |states[n].fetches| < 8 then s.fetches == states[n].fetches[t := Fetch(clientId, Permitted)]
            else s == states[n]
  {
    TracesStayOk(states, moves, n);
  }

  /** An admitted fetch takes off exactly if no other one is active for its client. */
  lemma FetchesTakeOffExactly(states: seq<State>, moves: seq<Move>, n: nat, t: Id)
    requires Trace(states, moves) && n < |states| && Enabled(states[n], Enter(t))
    ensures var s := states[n];
            Active(After(s, Enter(t)).fetches[t]) <==>
            forall u | u in s.fetches && Active(s.fetches[u]) :: s.fetches[u].clientId != s.fetches[t].clientId
  {
    TracesStayOk(states, moves, n);
    var s := states[n];
    if s.fetches[t].clientId in s.inFlight {
      var u :| u in s.fetches && Active(s.fetches[u]) && s.fetches[u].clientId == s.fetches[t].clientId;
    }
  }

  /** A response is leased for as long as its headers allow it to be cached, and for five seconds if they do
      not; only in the first case may it be published. */
  lemma ResponsesAreLeasedExactly(s: State, m: Move)
    requires m.Respond? && Enabled(s, m)
    ensures var out := After(s, m);
            var stage := out.fetches[m.fetch].stage;
            && stage.Ready? && stage.lease.document == m.document && stage.at == m.at
            && stage.ttl == (if m.control.None? then None else Ttl(ReadAll(Directives(m.control.value)), m.age))
            && stage.lease.validUntil == m.at + (if stage.ttl.Some? then stage.ttl.value else 5) * 1_000_000
            && forall clock, victim | Enabled(out, Publish(m.fetch, clock, victim)) :: stage.ttl.Some?
  {
    hide Ttl, ReadAll, Directives;
  }

  // ---- the fetcher itself ----

  /** The shared fields; `fetches` are the suspended calls with their locals, `next` and `log` history. */
  class CimdFetcher {
    var permits: nat
    var inFlight: set<string>
    var cache: map<string, Lease>
    var fetches: map<Id, Fetch>
    var next: nat
    var log: seq<Publication>

    constructor ()
      ensures View() == IDLE
    {
      permits, inFlight, cache, fetches := MAX_FLIGHTS, {}, map[], map[];
      next, log := 0, [];
    }

    function View(): State
      reads this
    {
      State(permits, inFlight, cache, fetches, next, log)
    }

    method Lookup(clientId: string, at: Instant) returns (hit: Option<Lease>)
      ensures hit == Hit(View(), clientId, at)
    {
      if clientId in cache {
        var snapshot := cache[clientId];
        if snapshot.IsFresh(at) {
          return Some(snapshot);
        }
      }
      return None;
    }

    method TryAcquire(fetch: Id, clientId: string) returns (ok: bool)
      requires Enabled(View(), Acquire(fetch, clientId))
      modifies this
      ensures View() == After(old(View()), Acquire(fetch, clientId))
      ensures ok <==> fetch in fetches
    {
      if permits == 0 {
        return false;
      }
      permits := permits - 1;
      fetches := fetches[fetch := Fetch(clientId, Permitted)];
      return true;
    }

    method TakeOff(fetch: Id) returns (ok: bool)
      requires Enabled(View(), Enter(fetch))
      modifies this
      ensures View() == After(old(View()), Enter(fetch))
      ensures ok <==> Active(fetches[fetch])
    {
      var clientId := fetches[fetch].clientId;
      if clientId in inFlight {
        fetches := fetches[fetch := Fetch(clientId, Leaving)];
        return false;
      }
      inFlight := inFlight + {clientId};
      fetches := fetches[fetch := fetches[fetch].(stage := Flying(next))];
      next := next + 1;
      return true;
    }

    method Validated(fetch: Id, document: Document, control: Option<seq<string>>, age: nat, at: Instant)
      requires Enabled(View(), Respond(fetch, document, control, age, at))
      modifies this
      ensures View() == After(old(View()), Respond(fetch, document, control, age, at))
    {
      hide Ttl, ReadAll, Directives;
      var ttl := CacheTtl(control, age);
      var lease := Lease(document, at + ttl.GetOr(NON_CACHEABLE_LEASE) * SECOND);
      fetches := fetches[fetch := fetches[fetch].(stage := Ready(fetches[fetch].stage.number, lease, at, ttl))];
    }

    method Store(fetch: Id, clock: string -> Instant, victim: string)
      requires Enabled(View(), Publish(fetch, clock, victim))
      modifies this
      ensures View() == After(old(View()), Publish(fetch, clock, victim))
    {
      var clientId, stage := fetches[fetch].clientId, fetches[fetch].stage;
      cache := Retained(cache, clock);
      if |cache| >= MAX_CACHE_ENTRIES {
        cache := cache - {victim};
      }
      cache := cache[clientId := stage.lease];
      log := log + [Publication(clientId, stage.number, stage.lease, stage.at, stage.ttl.value)];
      fetches := fetches[fetch := fetches[fetch].(stage := Published(stage.number))];
    }

    method DropFlight(fetch: Id)
      requires Enabled(View(), Land(fetch))
      modifies this
      ensures View() == After(old(View()), Land(fetch))
    {
      inFlight := inFlight - {fetches[fetch].clientId};
      fetches := fetches[fetch := fetches[fetch].(stage := Leaving)];
    }

    method DropPermit(fetch: Id)
      requires Enabled(View(), Leave(fetch))
      modifies this
      ensures View() == After(old(View()), Leave(fetch))
    {
      permits := permits + 1;
      fetches := fetches - {fetch};
    }
  }
}
