// The data-fetching hook's cache and retry policy: a keyed cache whose
// entries expire after `cacheDuration` and count as stale after 80% of it,
// bounded retries with doubling delays, and the state changes a fetch makes
// when it starts, succeeds or fails. Clocks are a `now` parameter (integer
// milliseconds); the successive results of the fetch function are a
// parameter indexed by attempt number; timers, the request timeout race and
// the abort controller are not modelled beyond an `aborted` flag.

module DataFetching {
  import opened JsCore
  import Validation

  const DefaultCacheDuration: int := 5 * 60 * 1000
  const DefaultRetryAttempts: int := 3
  const DefaultRetryDelay: real := 1000.0

  datatype CacheEntry = CacheEntry(data: JsValue, timestamp: int, expiresAt: int)

  type Cache = map<string, CacheEntry>

  /** The hook's options after defaults are applied. */
  datatype Options = Options(cacheKey: Option<string>, cacheDuration: int, retryAttempts: int,
                             retryDelay: real, validator: Option<JsValue -> Option<bool>>, enabled: bool)

  /** The destructuring defaults: each applies only when the option is absent. */
  function WithDefaults(cacheKey: Option<string>, cacheDuration: Option<int>, retryAttempts: Option<int>,
                        retryDelay: Option<real>, validator: Option<JsValue -> Option<bool>>,
                        enabled: Option<bool>): Options
  {
    Options(cacheKey,
            if cacheDuration.Some? then cacheDuration.value else DefaultCacheDuration,
            if retryAttempts.Some? then retryAttempts.value else DefaultRetryAttempts,
            if retryDelay.Some? then retryDelay.value else DefaultRetryDelay,
            validator,
            if enabled.Some? then enabled.value else true)
  }

  /** `if (!cacheKey)`: absent and empty keys both disable the cache. */
  predicate KeyGiven(cacheKey: Option<string>)
  {
    cacheKey.Some? && cacheKey.value != ""
  }

  // ---------------------------------------------------------------- cache

  /** `getCachedData(key)`: the entry's data while it has not expired; an
      expired entry is dropped from the cache. Returns the data (None for
      `null`) and the new cache. */
  function GetCachedData(cacheKey: Option<string>, cache: Cache, key: string, now: int): (r: (Option<JsValue>, Cache))
    ensures r.0.Some? <==> KeyGiven(cacheKey) && key in cache && now <= cache[key].expiresAt
    ensures r.0.Some? ==> r.0.value == cache[key].data
    ensures KeyGiven(cacheKey) && key in cache && now > cache[key].expiresAt ==> r.1 == cache - {key}
    ensures !(KeyGiven(cacheKey) && key in cache && now > cache[key].expiresAt) ==> r.1 == cache
  {
    if !KeyGiven(cacheKey) || key !in cache then (None, cache)
    else if now > cache[key].expiresAt then (None, cache - {key})
    else (Some(cache[key].data), cache)
  }

  /** `setCacheData(key, data)`: the entry stamped now and expiring after
      `cacheDuration`, under that key only. */
  function SetCacheData(cacheKey: Option<string>, cacheDuration: int, cache: Cache, key: string,
                        data: JsValue, now: int): (r: Cache)
    ensures !KeyGiven(cacheKey) ==> r == cache
    ensures KeyGiven(cacheKey) ==>
              && r.Keys == cache.Keys + {key}
              && r[key] == CacheEntry(data, now, now + cacheDuration)
              && forall other :: other in cache && other != key ==> r[other] == cache[other]
  {
    if !KeyGiven(cacheKey) then cache
    else cache[key := CacheEntry(data, now, now + cacheDuration)]
  }

  /** The stale threshold: 80% of the cache duration after the entry's stamp. */
  function StaleThreshold(entry: CacheEntry, cacheDuration: int): real
  {
    entry.timestamp as real + cacheDuration as real * 0.8
  }

  /** `checkStaleData(key)`: an entry is stale once more than 80% of the
      cache duration has passed since it was stamped; without a key or an
      entry nothing is stale. */
  function CheckStaleData(cacheKey: Option<string>, cacheDuration: int, cache: Cache, key: string, now: int): (stale: bool)
    ensures stale ==> KeyGiven(cacheKey) && key in cache
    ensures KeyGiven(cacheKey) && key in cache ==>
              (stale <==> (now - cache[key].timestamp) as real > 0.8 * cacheDuration as real)
  {
    KeyGiven(cacheKey) && key in cache && now as real > StaleThreshold(cache[key], cacheDuration)
  }

  /** A stored entry that has expired is also stale, for any positive
      duration: the stale threshold comes before the expiry time. */
  lemma ExpiredIsStale(cacheKey: Option<string>, cacheDuration: int, cache: Cache, key: string,
                       data: JsValue, stamped: int, now: int)
    requires KeyGiven(cacheKey) && cacheDuration > 0
    ensures var c := SetCacheData(cacheKey, cacheDuration, cache, key, data, stamped);
            now > c[key].expiresAt ==> CheckStaleData(cacheKey, cacheDuration, c, key, now)
  {
    var c := SetCacheData(cacheKey, cacheDuration, cache, key, data, stamped);
    if now > c[key].expiresAt {
      assert now as real > stamped as real + cacheDuration as real;
      assert cacheDuration as real * 0.8 < cacheDuration as real;
    }
  }

  /** Reading back what was stored: the data until the entry expires, then
      nothing, with the entry dropped; and staleness sets in exactly after
      80% of the duration. */
  lemma SetThenGet(cacheKey: Option<string>, cacheDuration: int, cache: Cache, key: string,
                   data: JsValue, stamped: int, now: int)
    requires KeyGiven(cacheKey)
    ensures var c := SetCacheData(cacheKey, cacheDuration, cache, key, data, stamped);
            && (now <= stamped + cacheDuration ==> GetCachedData(cacheKey, c, key, now) == (Some(data), c))
            && (now > stamped + cacheDuration ==>
                  GetCachedData(cacheKey, c, key, now).0.None? && key !in GetCachedData(cacheKey, c, key, now).1)
            && (CheckStaleData(cacheKey, cacheDuration, c, key, now) <==>
                  now as real > stamped as real + cacheDuration as real * 0.8)
  {
  }

  /** Without a cache key nothing is read, stored or stale. */
  lemma NoKeyNoCache(cacheKey: Option<string>, cacheDuration: int, cache: Cache, key: string,
                     data: JsValue, now: int)
    requires !KeyGiven(cacheKey)
    ensures GetCachedData(cacheKey, cache, key, now) == (None, cache)
    ensures SetCacheData(cacheKey, cacheDuration, cache, key, data, now) == cache
    ensures !CheckStaleData(cacheKey, cacheDuration, cache, key, now)
  {
  }

  // ---------------------------------------------------------------- hook state

  datatype HookState = HookState(data: JsValue, isLoading: bool, error: Option<string>,
                                 isStale: bool, lastUpdated: Option<int>, cache: Cache)

  /** The state before the first fetch, over a stored cache. */
  function InitialState(cache: Cache): HookState
  {
    HookState(Null, false, None, false, None, cache)
  }

  /** `invalidateCache`: drop this key's entry and mark the data stale. */
  function InvalidateCache(opts: Options, s: HookState): (r: HookState)
    ensures !KeyGiven(opts.cacheKey) ==> r == s
    ensures KeyGiven(opts.cacheKey) ==> r == s.(cache := s.cache - {opts.cacheKey.value}, isStale := true)
  {
    if !KeyGiven(opts.cacheKey) then s
    else s.(cache := s.cache - {opts.cacheKey.value}, isStale := true)
  }

  /** After invalidation the cache holds nothing for that key, every other
      entry is kept, and the data is marked stale. */
  lemma InvalidateThenMiss(opts: Options, s: HookState, now: int)
    requires KeyGiven(opts.cacheKey)
    ensures var r := InvalidateCache(opts, s);
            && GetCachedData(opts.cacheKey, r.cache, opts.cacheKey.value, now).0.None?
            && r.isStale
            && forall other :: other in s.cache && other != opts.cacheKey.value ==>
                 other in r.cache && r.cache[other] == s.cache[other]
  {
  }

  /** `clearError`. */
  function ClearError(s: HookState): (r: HookState)
    ensures r.error.None?
    ensures r == s.(error := None)
  {
    s.(error := None)
  }

  /** The cache answers a fetch by itself: caching is on, the entry has not
      expired, its data is truthy and it is not yet stale. */
  predicate FreshHit(opts: Options, cache: Cache, useCache: bool, now: int)
  {
    && useCache && KeyGiven(opts.cacheKey)
    && opts.cacheKey.value in cache
    && var entry := cache[opts.cacheKey.value];
       now <= entry.expiresAt && Truthy(entry.data)
       && !(now as real > StaleThreshold(entry, opts.cacheDuration))
  }

  /** The start of `fetchData(useCache)`: the new state and whether a request
      goes out. A cache hit shows the cached data (with its staleness, its
      stamp as `lastUpdated` and no error) and returns early unless stale; a
      request sets the loading flag and clears the error. */
  function FetchStart(opts: Options, s: HookState, useCache: bool, now: int): (r: (HookState, bool))
    ensures !opts.enabled ==> r == (s, false)
    ensures opts.enabled ==> (r.1 <==> !FreshHit(opts, s.cache, useCache, now))
    ensures r.1 ==> r.0.isLoading && r.0.error.None?
    ensures opts.enabled && FreshHit(opts, s.cache, useCache, now) ==>
              var entry := s.cache[opts.cacheKey.value];
              && r.0 == s.(data := entry.data, isStale := false, error := None,
                           lastUpdated := if entry.timestamp != 0 then Some(entry.timestamp) else None)
    ensures !useCache || !KeyGiven(opts.cacheKey) ==> r.0.data == s.data && r.0.cache == s.cache
  {
    if !opts.enabled then (s, false)
    else
      var afterCache: (HookState, bool) :=
        if useCache && KeyGiven(opts.cacheKey) then
          var key := opts.cacheKey.value;
          var got := GetCachedData(opts.cacheKey, s.cache, key, now);
          if got.0.Some? && Truthy(got.0.value) then
            var stale := CheckStaleData(opts.cacheKey, opts.cacheDuration, s.cache, key, now);
            var stamp := s.cache[key].timestamp;
            (s.(data := got.0.value, isStale := stale, error := None,
                lastUpdated := if stamp != 0 then Some(stamp) else None, cache := got.1), !stale)
          else (s.(cache := got.1), false)
        else (s, false);
      if afterCache.1 then (afterCache.0, false)
      else (afterCache.0.(isLoading := true, error := None), true)
  }

  /** `refetch` skips the cache, so an enabled hook always sends a request. */
  lemma RefetchAlwaysRequests(opts: Options, s: HookState, now: int)
    requires opts.enabled
    ensures FetchStart(opts, s, false, now).1
  {
  }

  // ---------------------------------------------------------------- retries

  datatype Outcome = Ok(value: JsValue) | Err(message: Option<string>)

  /** `wrappedFetchFn`: a validator turns a rejected (or falsy) result into
      an 'Invalid response format' error. */
  function WrappedFetch(fetched: Outcome, validator: Option<JsValue -> Option<bool>>): (r: Outcome)
    ensures fetched.Err? ==> r == fetched
    ensures validator.None? ==> r == fetched
    ensures fetched.Ok? && validator.Some? ==>
              (r == fetched <==> validator.value(fetched.value) == Some(true) && Truthy(fetched.value))
    ensures r != fetched ==> r == Err(Some("Invalid response format"))
  {
    match fetched
    case Err(_) => fetched
    case Ok(v) =>
      if validator.None? then fetched
      else
        var validated := Validation.ValidateApiResponse(v, validator.value);
        if validated.None? || !Truthy(validated.value) then Err(Some("Invalid response format"))
        else Ok(validated.value)
  }

  function Pow2(n: nat): (r: nat)
    ensures r >= 1
  {
    if n == 0 then 1 else 2 * Pow2(n - 1)
  }

  /** The wait before the retry that follows `attempt`:
      `retryDelay * Math.pow(2, attempt)`. */
  function BackoffDelay(retryDelay: real, attempt: nat): real
  {
    retryDelay * Pow2(attempt) as real
  }

  /** The number of retries still allowed from `attempt`. */
  function RetriesLeft(attempt: nat, retryAttempts: int): nat
  {
    if retryAttempts > attempt then retryAttempts - attempt else 0
  }

  /** What `retryWithBackoff` does: the final outcome, the number of calls to
      the fetch function and the delays waited between them. */
  datatype Retried = Retried(outcome: Outcome, calls: nat, delays: seq<real>)

  /** `retryWithBackoff(fn, attempt)`; `call(i)` is the outcome of the call
      made at attempt `i`. It stops at the first success or once the
      attempt reaches `retryAttempts`, waiting `retryDelay * 2^attempt`
      before each retry, and ends with the last call's outcome. */
  function RetryWithBackoff(call: nat -> Outcome, attempt: nat, retryAttempts: int, retryDelay: real): (r: Retried)
    ensures 1 <= r.calls <= RetriesLeft(attempt, retryAttempts) + 1
    ensures |r.delays| == r.calls - 1
    ensures r.outcome == call(attempt + r.calls - 1)
    ensures r.outcome.Err? ==> r.calls == RetriesLeft(attempt, retryAttempts) + 1
    decreases RetriesLeft(attempt, retryAttempts)
  {
    var o := call(attempt);
    if o.Ok? || attempt >= retryAttempts then Retried(o, 1, [])
    else
      var rest := RetryWithBackoff(call, attempt + 1, retryAttempts, retryDelay);
      Retried(rest.outcome, rest.calls + 1, [BackoffDelay(retryDelay, attempt)] + rest.delays)
  }

  /** Before retry i it waits the delay times 2 to the power of the
      attempt, and every call but the last one failed. */
  lemma {:induction false} RetryHistory(call: nat -> Outcome, attempt: nat, retryAttempts: int, retryDelay: real)
    ensures var r := RetryWithBackoff(call, attempt, retryAttempts, retryDelay);
            && (forall i :: 0 <= i < |r.delays| ==> r.delays[i] == BackoffDelay(retryDelay, attempt + i))
            && (forall j :: attempt <= j < attempt + r.calls - 1 ==> call(j).Err?)
    decreases RetriesLeft(attempt, retryAttempts)
  {
    var r := RetryWithBackoff(call, attempt, retryAttempts, retryDelay);
    if call(attempt).Err? && attempt < retryAttempts {
      RetryHistory(call, attempt + 1, retryAttempts, retryDelay);
      var rest := RetryWithBackoff(call, attempt + 1, retryAttempts, retryDelay);
      assert r.delays == [BackoffDelay(retryDelay, attempt)] + rest.delays;
      forall i | 1 <= i < |r.delays| ensures r.delays[i] == BackoffDelay(retryDelay, attempt + i) {
        assert r.delays[i] == rest.delays[i - 1];
        assert attempt + 1 + (i - 1) == attempt + i;
      }
    }
  }

  /** The retry ends in success exactly when one of the allowed calls
      succeeds, and then with the first success. */
  lemma {:induction false} RetrySucceedsIffSomeCallDoes(call: nat -> Outcome, attempt: nat, retryAttempts: int, retryDelay: real)
    ensures var r := RetryWithBackoff(call, attempt, retryAttempts, retryDelay);
            r.outcome.Ok? <==>
              exists j :: attempt <= j <= attempt + RetriesLeft(attempt, retryAttempts) && call(j).Ok?
  {
    var r := RetryWithBackoff(call, attempt, retryAttempts, retryDelay);
    RetryHistory(call, attempt, retryAttempts, retryDelay);
    if r.outcome.Ok? {
      assert call(attempt + r.calls - 1).Ok?;
    } else {
      forall j | attempt <= j <= attempt + RetriesLeft(attempt, retryAttempts)
        ensures call(j).Err?
      {
        if j < attempt + r.calls - 1 {
        } else {
          assert j == attempt + r.calls - 1;
        }
      }
    }
  }

  /** With the default options and every call failing, the fetch function runs
      four times with waits of 1, 2 and 4 seconds, and the last error is
      rethrown. */
  lemma DefaultRetrySchedule(call: nat -> Outcome)
    requires forall j :: call(j).Err?
    ensures var r := RetryWithBackoff(call, 0, DefaultRetryAttempts, DefaultRetryDelay);
            r.calls == 4 && r.delays == [1000.0, 2000.0, 4000.0] && r.outcome == call(3)
  {
    var r := RetryWithBackoff(call, 0, DefaultRetryAttempts, DefaultRetryDelay);
    RetryHistory(call, 0, DefaultRetryAttempts, DefaultRetryDelay);
    assert Pow2(0) == 1 && Pow2(1) == 2 && Pow2(2) == 4;
    assert BackoffDelay(DefaultRetryDelay, 0) == 1000.0 && BackoffDelay(DefaultRetryDelay, 1) == 2000.0
        && BackoffDelay(DefaultRetryDelay, 2) == 4000.0;
    assert r.outcome.Err?;
  }

  // ---------------------------------------------------------------- completion

  /** A fetch that produced `result`: unless aborted, show it fresh, stamp it
      now and cache it; the loading flag is cleared in every case. */
  function FetchSuccess(opts: Options, s: HookState, result: JsValue, aborted: bool, now: int): (r: HookState)
    ensures aborted ==> r == s.(isLoading := false)
    ensures !aborted ==>
              r == s.(data := result, isStale := false, lastUpdated := Some(now), isLoading := false,
                      cache := SetCacheData(opts.cacheKey, opts.cacheDuration, s.cache,
                                            if opts.cacheKey.Some? then opts.cacheKey.value else "", result, now))
  {
    if aborted then s.(isLoading := false)
    else
      s.(data := result, isStale := false, lastUpdated := Some(now), isLoading := false,
         cache := SetCacheData(opts.cacheKey, opts.cacheDuration, s.cache,
                               if opts.cacheKey.Some? then opts.cacheKey.value else "", result, now))
  }

  /** A fetch that failed: unless aborted, record the error ('Fetch failed'
      for a thrown non-error) and fall back to unexpired cached data, marked
      stale, when nothing is shown yet. */
  function FetchFailure(opts: Options, s: HookState, message: Option<string>, aborted: bool, now: int): (r: HookState)
    ensures aborted ==> r == s.(isLoading := false)
    ensures !aborted ==> r.error == Some(if message.Some? then message.value else "Fetch failed")
    ensures !r.isLoading
    ensures r.data != s.data ==>
              && !aborted && !Truthy(s.data) && r.isStale && KeyGiven(opts.cacheKey)
              && opts.cacheKey.value in s.cache && r.data == s.cache[opts.cacheKey.value].data
              && now <= s.cache[opts.cacheKey.value].expiresAt
  {
    if aborted then s.(isLoading := false)
    else
      var failed := s.(error := Some(if message.Some? then message.value else "Fetch failed"), isLoading := false);
      if KeyGiven(opts.cacheKey) then
        var got := GetCachedData(opts.cacheKey, s.cache, opts.cacheKey.value, now);
        if got.0.Some? && Truthy(got.0.value) && !Truthy(s.data) then
          failed.(data := got.0.value, isStale := true, cache := got.1)
        else failed.(cache := got.1)
      else failed
  }

  /** The whole `fetchData(useCache)` call: the start, then (if a request
      went out) the retried, validated fetch and its completion. */
  function FetchData(opts: Options, s: HookState, useCache: bool, fetches: nat -> Outcome,
                     aborted: bool, start: int, finish: int): (r: HookState)
    ensures var st := FetchStart(opts, s, useCache, start);
            && (!st.1 ==> r == st.0)
            && (st.1 ==> !r.isLoading)
            && (st.1 && aborted ==> r == st.0.(isLoading := false))
            && (st.1 && !aborted ==>
                  (r.error.None? <==>
                     exists j: nat :: j <= RetriesLeft(0, opts.retryAttempts)
                                    && WrappedFetch(fetches(j), opts.validator).Ok?))
  {
    var (started, requested) := FetchStart(opts, s, useCache, start);
    if !requested then started
    else
      var call := (i: nat) => WrappedFetch(fetches(i), opts.validator);
      var retried := RetryWithBackoff(call, 0, opts.retryAttempts, opts.retryDelay);
      RetrySucceedsIffSomeCallDoes(call, 0, opts.retryAttempts, opts.retryDelay);
      assert forall j: nat :: call(j) == WrappedFetch(fetches(j), opts.validator);
      match retried.outcome
      case Ok(v) => FetchSuccess(opts, started, v, aborted, finish)
      case Err(m) => FetchFailure(opts, started, m, aborted, finish)
  }

  /** A successful fetch of truthy data with caching on makes the next
      cached fetch, before 80% of the duration has passed, a fresh hit that
      sends no request and shows the same data. */
  lemma SuccessThenFreshHit(opts: Options, s: HookState, result: JsValue, finish: int, later: int)
    requires opts.enabled && KeyGiven(opts.cacheKey) && opts.cacheDuration >= 0
    requires Truthy(result)
    requires finish <= later && later as real <= finish as real + opts.cacheDuration as real * 0.8
    ensures var s1 := FetchSuccess(opts, s, result, false, finish);
            var r := FetchStart(opts, s1, true, later);
            !r.1 && r.0.data == result && !r.0.isStale
  {
    var s1 := FetchSuccess(opts, s, result, false, finish);
    assert s1.cache[opts.cacheKey.value] == CacheEntry(result, finish, finish + opts.cacheDuration);
    assert later <= finish + opts.cacheDuration by {
      assert opts.cacheDuration as real * 0.8 <= opts.cacheDuration as real;
    }
    assert FreshHit(opts, s1.cache, true, later);
  }

  /** A fresh cache hit leaves the whole fetch a pure read of the cache:
      no request, the cache unchanged. */
  lemma FreshHitSkipsRequest(opts: Options, s: HookState, fetches: nat -> Outcome, aborted: bool, start: int, finish: int)
    requires opts.enabled && FreshHit(opts, s.cache, true, start)
    ensures var r := FetchData(opts, s, true, fetches, aborted, start, finish);
            && r.data == s.cache[opts.cacheKey.value].data
            && r.cache == s.cache && r.isLoading == s.isLoading && r.error.None?
  {
  }
}
