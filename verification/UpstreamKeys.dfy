/** The cache of upstream signing keys (src/google.rs): freshness and back-off. */
module UpstreamKeys {
  import opened Prelude
  import opened CacheControl

  datatype Key = Key(material: string)

  /** A key set with the two headers that say how long it may be reused. */
  datatype KeySet = KeySet(keys: map<string, Key>, control: string, age: string)

  /** One call: the key wanted, the time it gets the lock, and what a fetch would bring and when;
      None stands for any failure, and for a call cancelled while it fetches. */
  datatype Query = Query(kid: string, now: Instant, response: Option<KeySet>, received: Instant)

  datatype Cache = Cache(keys: map<string, Key>, freshUntil: Instant, lastAttempt: Option<Instant>)

  const UNKNOWN_KID_BACKOFF: Instant := 5 * SECOND

  predicate Served(c: Cache, q: Query) {
    q.now < c.freshUntil && q.kid in c.keys
  }

  predicate BacksOff(c: Cache, q: Query) {
    c.lastAttempt.Some? && q.now - c.lastAttempt.value < UNKNOWN_KID_BACKOFF
  }

  predicate Attempts(c: Cache, q: Query) {
    !Served(c, q) && !BacksOff(c, q)
  }

  function Refilled(c: Cache, q: Query): Cache {
    if q.response.None? then c.(lastAttempt := Some(q.now))
    else
      Cache(q.response.value.keys, q.received + CacheFreshness(q.response.value.control, q.response.value.age) * SECOND,
            Some(q.now))
  }

  function Ask(c: Cache, q: Query): Cache {
    if Attempts(c, q) then Refilled(c, q) else c
  }

  function Answer(c: Cache, q: Query): Option<Key> {
    if Served(c, q) then Some(c.keys[q.kid])
    else if !BacksOff(c, q) && q.response.Some? && q.kid in q.response.value.keys then
      Some(q.response.value.keys[q.kid])
    else None
  }

  class KeyRing {
    var keys: map<string, Key>
    var freshUntil: Instant
    var lastAttempt: Option<Instant>

    constructor (now: Instant)
      ensures View() == Cache(map[], now, None)
    {
      keys, freshUntil, lastAttempt := map[], now, None;
    }

    function View(): Cache
      reads this
    {
      Cache(keys, freshUntil, lastAttempt)
    }

    /** The lock is held throughout, also while fetching. */
    method Lookup(q: Query) returns (key: Option<Key>)
      modifies this
      ensures View() == Ask(old(View()), q)
      ensures key == Answer(old(View()), q)
    {
      if q.now < freshUntil && q.kid in keys {
        return Some(keys[q.kid]);
      }
      if lastAttempt.Some? && q.now - lastAttempt.value < UNKNOWN_KID_BACKOFF {
        return None;
      }
      lastAttempt := Some(q.now);
      if q.response.None? {
        return None;
      }
      keys := q.response.value.keys;
      var seconds := CacheFreshness(q.response.value.control, q.response.value.age);
      freshUntil := q.received + seconds * SECOND;
      if q.kid in keys {
        return Some(keys[q.kid]);
      }
      return None;
    }
  }

  // ---- runs: any calls, in the order in which they get the lock ----

  function CacheBefore(start: Instant, queries: seq<Query>): Cache {
    if queries == [] then Cache(map[], start, None)
    else Ask(CacheBefore(start, queries[..|queries| - 1]), queries[|queries| - 1])
  }

  /** When fetches were attempted. */
  function AttemptTimes(start: Instant, queries: seq<Query>): seq<Instant> {
    if queries == [] then []
    else
      var before := queries[..|queries| - 1];
      var last := queries[|queries| - 1];
      AttemptTimes(start, before) + if Attempts(CacheBefore(start, before), last) then [last.now] else []
  }

  lemma {:induction false} LastAttemptIsRecorded(start: Instant, queries: seq<Query>)
    ensures var times := AttemptTimes(start, queries);
            CacheBefore(start, queries).lastAttempt == if times == [] then None else Some(times[|times| - 1])
  {
    if queries != [] {
      LastAttemptIsRecorded(start, queries[..|queries| - 1]);
    }
  }

  /** However the calls arrive, any two attempts are at least five seconds apart for each step between
      them: n attempts span at least 5(n-1) seconds. */
  lemma {:induction false} AttemptsAreSpaced(start: Instant, queries: seq<Query>, i: nat, j: nat)
    requires i <= j < |AttemptTimes(start, queries)|
    ensures AttemptTimes(start, queries)[j] - AttemptTimes(start, queries)[i] >= UNKNOWN_KID_BACKOFF * (j - i)
    decreases |queries|
  {
    var before := queries[..|queries| - 1];
    var times := AttemptTimes(start, before);
    LastAttemptIsRecorded(start, before);
    if j < |times| {
      AttemptsAreSpaced(start, before, i, j);
    } else if i < j {
      AttemptsAreSpaced(start, before, i, j - 1);
    }
  }

  /** The last call that fetched a key set, if any. */
  function LastFetch(start: Instant, queries: seq<Query>): (k: Option<nat>)
    ensures k.Some? ==> k.value < |queries| && queries[k.value].response.Some?
  {
    if queries == [] then None
    else if Attempts(CacheBefore(start, queries[..|queries| - 1]), queries[|queries| - 1])
            && queries[|queries| - 1].response.Some? then
      Some(|queries| - 1)
    else LastFetch(start, queries[..|queries| - 1])
  }

  lemma {:induction false} CacheHoldsTheLastFetch(start: Instant, queries: seq<Query>)
    ensures var c, k := CacheBefore(start, queries), LastFetch(start, queries);
            if k.None? then c.keys == map[]
            else
              var q := queries[k.value];
              c.keys == q.response.value.keys
              && q.received <= c.freshUntil <= q.received + MAX_CACHE_AGE * SECOND
              && c.freshUntil == q.received + CacheFreshness(q.response.value.control, q.response.value.age) * SECOND
  {
    if queries != [] {
      CacheHoldsTheLastFetch(start, queries[..|queries| - 1]);
    }
  }

  /** A key is answered only from the key set fetched last, by this very call or by an earlier one
      whose deadline, at most an hour after it was received, has not passed. */
  lemma KeysComeFromTheLastFetch(start: Instant, queries: seq<Query>)
    requires queries != []
    requires var before := queries[..|queries| - 1]; Answer(CacheBefore(start, before), queries[|queries| - 1]).Some?
    ensures var before, q := queries[..|queries| - 1], queries[|queries| - 1];
            var key := Answer(CacheBefore(start, before), q).value;
            var k := LastFetch(start, queries);
            && k.Some?
            && q.kid in queries[k.value].response.value.keys && queries[k.value].response.value.keys[q.kid] == key
            && (k.value < |before| ==>
                  q.now < queries[k.value].received
                          + CacheFreshness(queries[k.value].response.value.control,
                                           queries[k.value].response.value.age) * SECOND
                       <= queries[k.value].received + MAX_CACHE_AGE * SECOND)
  {
    CacheHoldsTheLastFetch(start, queries[..|queries| - 1]);
  }

  /** The key set fetched last has the key and its deadline has not passed. */
  predicate StillServes(start: Instant, before: seq<Query>, q: Query) {
    LastFetch(start, before).Some?
    && var fetched := before[LastFetch(start, before).value];
       && q.kid in fetched.response.value.keys
       && q.now < fetched.received
                  + CacheFreshness(fetched.response.value.control, fetched.response.value.age) * 1_000_000
  }

  /** There has been no attempt yet, or the last one was at least five seconds ago. */
  predicate MayAttempt(start: Instant, before: seq<Query>, q: Query) {
    var times := AttemptTimes(start, before);
    times == [] || q.now - times[|times| - 1] >= 5 * 1_000_000
  }

  /** A fetch is attempted exactly by a call that the last key set does not serve, five seconds or more after
      the last attempt; and a key is answered exactly if that set serves it or this call fetches it. */
  lemma CallsAreAnsweredExactly(start: Instant, before: seq<Query>, q: Query)
    ensures var attempts := !StillServes(start, before, q) && MayAttempt(start, before, q);
            && AttemptTimes(start, before + [q]) == AttemptTimes(start, before) + (if attempts then [q.now] else [])
            && Answer(CacheBefore(start, before), q) ==
               if StillServes(start, before, q) then
                 Some(before[LastFetch(start, before).value].response.value.keys[q.kid])
               else if attempts && q.response.Some? && q.kid in q.response.value.keys then
                 Some(q.response.value.keys[q.kid])
               else None
  {
    assert (before + [q])[..|before|] == before;
    CacheHoldsTheLastFetch(start, before);
    LastAttemptIsRecorded(start, before);
  }
}
