/** The SECOP client: a cache in front of the Socrata API and a bounded retry loop with
    linear backoff (backend/app/core/secop_client.py). The Socrata API and the Redis
    cache are objects whose state the client changes; sleeping is recorded, not done. */
module SecopClient {
  import opened Values
  import opened Canonical

  /** The outcome of one call to the Socrata API: the rows it returned, or an exception. */
  datatype Outcome = Rows(rows: Value) | Fails(reason: string)

  /** The Socrata client. What a call gives depends on the dataset, the parameters and the
      number of calls made before it; every call is logged. */
  class Socrata {
    const respond: (string, Entries, nat) -> Outcome
    var calls: seq<(string, Entries)>

    constructor(respond: (string, Entries, nat) -> Outcome)
      ensures this.respond == respond && calls == []
    {
      this.respond := respond;
      calls := [];
    }

    /** `client.get(dataset, **params)`. */
    method Get(dataset: string, params: Entries) returns (o: Outcome)
      modifies this
      ensures calls == old(calls) + [(dataset, params)]
      ensures o == respond(dataset, params, |old(calls)|)
    {
      o := respond(dataset, params, |calls|);
      calls := calls + [(dataset, params)];
    }
  }

  /** The Redis client: the stored strings and the expiry, in seconds, each was set with. */
  class Cache {
    var store: map<string, string>
    var ttl: map<string, int>

    constructor()
      ensures store == map[] && ttl == map[]
    {
      store := map[];
      ttl := map[];
    }

    /** `redis.get(key)`. */
    function Get(key: string): Option<string>
      reads this
    {
      if key in store then Some(store[key]) else None
    }

    /** `redis.setex(key, seconds, value)`. */
    method SetEx(key: string, seconds: int, value: string)
      modifies this
      ensures store == old(store)[key := value]
      ensures ttl == old(ttl)[key := seconds]
    {
      store := store[key := value];
      ttl := ttl[key := seconds];
    }
  }

  // ---------------------------------------------------------------- the cache key

  /** `params or {}`. */
  function ParamsOr(params: Option<Entries>): Entries {
    if params.Some? then params.value else []
  }

  /** `_cache_key`: the dataset and the parameters serialised with sorted keys. */
  function CacheKey(rt: Runtime, dataset: string, params: Entries): string {
    "secop:" + dataset + ":" + rt.dumps(Canon(Object(params)))
  }

  /** Equal parameter dicts give the same key, whatever order the keys of any dict in them
      were inserted in. */
  lemma CacheKeyIgnoresOrder(rt: Runtime, dataset: string, a: Entries, b: Entries)
    requires Equal(Object(a), Object(b))
    ensures CacheKey(rt, dataset, a) == CacheKey(rt, dataset, b)
  {
    CanonIgnoresOrder(Object(a), Object(b));
  }

  /** `json.loads(cached)`. */
  function Loaded(rt: Runtime, cached: string): Result<Value> {
    match rt.loads(cached)
    case Some(v) => Ok(v)
    case None => Err(JsonDecodeError)
  }

  // ---------------------------------------------------------------- the retry loop

  /** How many calls are made when every one of them fails: the first call, then one per
      retry (a negative `max_retries` allows none). */
  function Bound(maxRetries: int): nat {
    if maxRetries < 0 then 1 else maxRetries + 1
  }

  /** Among the calls numbered `k`, ..., `bound - 1`, the number of the first one that
      succeeds. */
  function FirstSuccess(respond: (string, Entries, nat) -> Outcome, dataset: string, params: Entries,
                        k: nat, bound: nat): (f: Option<nat>)
    requires k <= bound
    ensures f.Some? ==> k <= f.value < bound && respond(dataset, params, f.value).Rows?
    ensures f.Some? ==> forall j :: k <= j < f.value ==> respond(dataset, params, j).Fails?
    ensures f.None? <==> forall j :: k <= j < bound ==> respond(dataset, params, j).Fails?
    decreases bound - k
  {
    if k == bound then None
    else if respond(dataset, params, k).Rows? then Some(k)
    else FirstSuccess(respond, dataset, params, k + 1, bound)
  }

  /** The sleep before retry `k`: the backoff times the retry's number. */
  function Pause(backoff: real, k: nat): real {
    backoff * k as real
  }

  /** The sleeps before retries 1, ..., n. */
  function Backoffs(backoff: real, n: nat): seq<real> {
    seq(n, k requires 0 <= k < n => Pause(backoff, k + 1))
  }

  /** `n` calls with the same arguments. */
  function Repeat(call: (string, Entries), n: nat): seq<(string, Entries)> {
    seq(n, k requires 0 <= k < n => call)
  }

  /** What the retry loop does: how many calls it makes, what it returns or raises, and
      how long it sleeps in between. */
  datatype Run = Run(calls: nat, result: Result<Value>, sleeps: seq<real>)

  /** The retry loop as a function of the calls' outcomes, `n0` calls having been made
      before it starts. */
  function Retrying(respond: (string, Entries, nat) -> Outcome, dataset: string, params: Entries,
                    n0: nat, maxRetries: int, backoff: real): Run
  {
    var b := Bound(maxRetries);
    match FirstSuccess(respond, dataset, params, n0, n0 + b)
    case Some(f) => Run(f - n0 + 1, Ok(respond(dataset, params, f).rows), Backoffs(backoff, f - n0))
    case None =>
      assert respond(dataset, params, n0 + b - 1).Fails?;
      Run(b, Err(RemoteError(respond(dataset, params, n0 + b - 1).reason)), Backoffs(backoff, b - 1))
  }

  /** The loop makes at least one and at most `max_retries + 1` calls; it stops at the
      first call that succeeds and returns its rows; it raises, with the last call's
      exception, exactly when all `max_retries + 1` calls fail; and before retry k it
      sleeps the backoff times k. */
  lemma RetryingOutcome(respond: (string, Entries, nat) -> Outcome, dataset: string, params: Entries,
                        n0: nat, maxRetries: int, backoff: real)
    ensures var run := Retrying(respond, dataset, params, n0, maxRetries, backoff);
            var b := Bound(maxRetries);
            && 1 <= run.calls <= b
            && (maxRetries >= 0 ==> run.calls <= maxRetries + 1)
            && |run.sleeps| == run.calls - 1
            && (forall k :: 0 <= k < |run.sleeps| ==> run.sleeps[k] == backoff * (k + 1) as real)
            && (run.result.Err? <==> forall j :: n0 <= j < n0 + b ==> respond(dataset, params, j).Fails?)
            && (run.result.Ok? ==> respond(dataset, params, n0 + run.calls - 1) == Rows(run.result.value))
            && (forall j :: n0 <= j < n0 + run.calls - 1 ==> respond(dataset, params, j).Fails?)
            && (run.result.Err? ==>
                  && run.calls == b && respond(dataset, params, n0 + b - 1).Fails?
                  && run.result.error == RemoteError(respond(dataset, params, n0 + b - 1).reason))
  {
  }

  /** The loop stops at call `n0 + attempt` when that call is the first to succeed. */
  lemma RetryingStops(respond: (string, Entries, nat) -> Outcome, dataset: string, params: Entries,
                      n0: nat, maxRetries: int, backoff: real, attempt: nat)
    requires attempt < Bound(maxRetries)
    requires forall j :: n0 <= j < n0 + attempt ==> respond(dataset, params, j).Fails?
    requires respond(dataset, params, n0 + attempt).Rows?
    ensures Retrying(respond, dataset, params, n0, maxRetries, backoff)
         == Run(attempt + 1, Ok(respond(dataset, params, n0 + attempt).rows), Backoffs(backoff, attempt))
  {
    assert FirstSuccess(respond, dataset, params, n0, n0 + Bound(maxRetries)) == Some(n0 + attempt);
  }

  /** The loop raises after its last allowed call when every call failed. */
  lemma RetryingGivesUp(respond: (string, Entries, nat) -> Outcome, dataset: string, params: Entries,
                        n0: nat, maxRetries: int, backoff: real)
    requires forall j :: n0 <= j < n0 + Bound(maxRetries) ==> respond(dataset, params, j).Fails?
    ensures Retrying(respond, dataset, params, n0, maxRetries, backoff)
         == Run(Bound(maxRetries), Err(RemoteError(respond(dataset, params, n0 + Bound(maxRetries) - 1).reason)),
                Backoffs(backoff, Bound(maxRetries) - 1))
  {
  }

  lemma RepeatNext(call: (string, Entries), n: nat)
    ensures Repeat(call, n) + [call] == Repeat(call, n + 1)
  {
  }

  lemma BackoffsNext(backoff: real, n: nat)
    ensures Backoffs(backoff, n) + [Pause(backoff, n + 1)] == Backoffs(backoff, n + 1)
  {
    var a, b := Backoffs(backoff, n) + [Pause(backoff, n + 1)], Backoffs(backoff, n + 1);
    forall k | 0 <= k < n + 1
      ensures a[k] == b[k]
    {
      if k < n {
        assert a[k] == Backoffs(backoff, n)[k];
      }
    }
  }

  /** `SecopClient`, with the Socrata client it was given (or built) and its optional cache. */
  class SecopClient {
    const remote: Socrata
    const cache: Cache?
    const maxRetries: int
    const retryBackoff: real

    constructor(remote: Socrata, cache: Cache?, maxRetries: int, retryBackoff: real)
      ensures this.remote == remote && this.cache == cache
      ensures this.maxRetries == maxRetries && this.retryBackoff == retryBackoff
    {
      this.remote := remote;
      this.cache := cache;
      this.maxRetries := maxRetries;
      this.retryBackoff := retryBackoff;
    }

    /** The retry loop of `query`: call the API until a call succeeds or `max_retries`
        retries have failed, sleeping the backoff times the retry's number before each
        retry. */
    method Retry(dataset: string, params: Entries) returns (r: Result<Value>, sleeps: seq<real>)
      modifies remote
      ensures var run := Retrying(remote.respond, dataset, params, |old(remote.calls)|, maxRetries, retryBackoff);
              && r == run.result && sleeps == run.sleeps
              && remote.calls == old(remote.calls) + Repeat((dataset, params), run.calls)
    {
      ghost var n0 := |remote.calls|;
      ghost var b := Bound(maxRetries);
      var attempt: nat := 0;
      sleeps := [];
      while true
        invariant attempt < b
        invariant remote.calls == old(remote.calls) + Repeat((dataset, params), attempt)
        invariant sleeps == Backoffs(retryBackoff, attempt)
        invariant forall j :: n0 <= j < n0 + attempt ==> remote.respond(dataset, params, j).Fails?
        decreases b - attempt
      {
        var outcome := remote.Get(dataset, params);
        RepeatNext((dataset, params), attempt);
        if outcome.Rows? {
          RetryingStops(remote.respond, dataset, params, n0, maxRetries, retryBackoff, attempt);
          return Ok(outcome.rows), sleeps;
        }
        BackoffsNext(retryBackoff, attempt);
        attempt := attempt + 1;
        if attempt > maxRetries {
          RetryingGivesUp(remote.respond, dataset, params, n0, maxRetries, retryBackoff);
          return Err(RemoteError(outcome.reason)), sleeps;
        }
        sleeps := sleeps + [Pause(retryBackoff, attempt)];
      }
    }

    /** `query`: the cached rows when the key is cached (no remote call then), otherwise
        the retry loop, and on success the rows cached under the key for 300 seconds. */
    method Query(rt: Runtime, dataset: string, params: Option<Entries>) returns (r: Result<Value>, sleeps: seq<real>)
      modifies remote, cache
      ensures var key := CacheKey(rt, dataset, ParamsOr(params));
              cache != null && key in old(cache.store) ==>
                && r == Loaded(rt, old(cache.store)[key]) && sleeps == []
                && remote.calls == old(remote.calls)
                && cache.store == old(cache.store) && cache.ttl == old(cache.ttl)
      ensures var p := ParamsOr(params);
              var key := CacheKey(rt, dataset, p);
              var run := Retrying(remote.respond, dataset, p, |old(remote.calls)|, maxRetries, retryBackoff);
              !(cache != null && key in old(cache.store)) ==>
                && r == run.result && sleeps == run.sleeps
                && remote.calls == old(remote.calls) + Repeat((dataset, p), run.calls)
      ensures var key := CacheKey(rt, dataset, ParamsOr(params));
              cache != null && key !in old(cache.store) ==>
                && cache.store == (if r.Ok? then old(cache.store)[key := rt.dumps(r.value)] else old(cache.store))
                && cache.ttl == (if r.Ok? then old(cache.ttl)[key := 300] else old(cache.ttl))
    {
      var p := ParamsOr(params);
      var key := CacheKey(rt, dataset, p);
      if cache != null {
        var cached := cache.Get(key);
        if cached.Some? {
          return Loaded(rt, cached.value), [];
        }
      }
      r, sleeps := Retry(dataset, p);
      if cache != null && r.Ok? {
        cache.SetEx(key, 300, rt.dumps(r.value));
      }
    }
  }
}
