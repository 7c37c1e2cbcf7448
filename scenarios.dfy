/** Whole-system runs of the search route on fresh stores, stating the
    behaviour a client sees across several requests. */
module Scenarios {
  import opened Wrappers
  import opened JsBuiltins
  import opened Http
  import opened Cache
  import opened RateLimit
  import opened SearchRoute

  /** Two identical searches, the second while the first one's result is
      still fresh: the upstream is called once, and both answers carry the
      same data. */
  method RepeatedSearchIsServedFromCache(request: Request, accessKey: Option<string>, body: Json,
                                         t0: int, t1: int, t2: int, t3: int)
    returns (firstFetched: bool, secondFetched: bool, first: Response, second: Response)
    requires Configured(accessKey) && ParseSearchParams(request.searchParams).Success?
    requires body != Null
    requires t1 <= t2 <= t1 + CacheTtlSeconds * 1000
    ensures firstFetched && !secondFetched
    ensures first.status == 200 && second.status == 200
    ensures first.body == second.body == Payload(body)
  {
    var limiter := new RateLimiter();
    var store := new SimpleCache();
    var upstream := Replied(200, "OK", body);
    ghost var ip := GetClientIP(request.headers);
    ghost var params := ParseSearchParams(request.searchParams).value;
    assert Admit(Find(map[], ip), RateLimitPerWindow, RateWindowMs, t0).record == Record(1, t0 + RateWindowMs);
    assert Admitted(map[], request, accessKey, t0);
    first, firstFetched := Get(limiter, store, request, accessKey, upstream, t0, t1);
    assert map[][ip := Record(1, t0 + RateWindowMs)] == map[ip := Record(1, t0 + RateWindowMs)];
    SearchOnEmptyCache(ip, params, body, t0, t1, limiter.requests, store.entries, first, firstFetched);
    ghost var requests1, entries1 := limiter.requests, store.entries;
    assert Find(requests1, ip) == Some(requests1[ip]);
    assert Admitted(requests1, request, accessKey, t2);
    second, secondFetched := Get(limiter, store, request, accessKey, upstream, t2, t3);
    assert Lookup(entries1, CacheKey(params), t2) == body;
    SearchOnCachedKey(requests1[ip := Admit(Some(requests1[ip]), RateLimitPerWindow, RateWindowMs, t2).record],
                      entries1, ip, params, upstream, body, t2, t3,
                      limiter.requests, store.entries, second, secondFetched);
  }

  /** The first search of a caller, on an empty cache and a successful
      upstream: the upstream is called, the data is cached from `doneAt`,
      and only the caller's limiter record exists, with at most two units
      spent. */
  lemma SearchOnEmptyCache(ip: string, params: SearchParams, body: Json, now: int, doneAt: int,
                           requests': map<string, Record>, entries': map<string, Entry>,
                           response: Response, fetched: bool)
    requires body != Null
    requires Served(map[ip := Record(1, now + RateWindowMs)], map[], requests', entries',
                    ip, params, Replied(200, "OK", body), now, doneAt, response, fetched)
    ensures fetched && response.status == 200 && response.body == Payload(body)
    ensures entries' == map[CacheKey(params) := Entry(body, doneAt + CacheTtlSeconds * 1000)]
    ensures requests'.Keys == {ip} && requests'[ip].count <= 2
  {
    var key := CacheKey(params);
    assert Lookup(map[], key, now) == Null;
    assert Fetch(Replied(200, "OK", body)) == Success(body);
    assert AfterRead(map[], key, now) == map[];
    var second := Admit(Some(Record(1, now + RateWindowMs)), RateLimitPerWindow, RateWindowMs, doneAt);
    assert requests' == map[ip := Record(1, now + RateWindowMs)][ip := second.record];
    OnlyKeyUpdate(map[ip := Record(1, now + RateWindowMs)], ip, second.record);
  }

  /** A search whose key holds fresh non-null data: the upstream is not
      called and the cached data is answered with status 200. */
  lemma SearchOnCachedKey(requests: map<string, Record>, entries: map<string, Entry>,
                          ip: string, params: SearchParams, upstream: Upstream, body: Json, now: int, doneAt: int,
                          requests': map<string, Record>, entries': map<string, Entry>,
                          response: Response, fetched: bool)
    requires body != Null && Lookup(entries, CacheKey(params), now) == body
    requires Served(requests, entries, requests', entries', ip, params, upstream, now, doneAt, response, fetched)
    ensures !fetched && response.status == 200 && response.body == Payload(body)
    ensures entries' == entries
  {
  }

  /** With a limit of 2 per minute, three calls inside one window: two are
      admitted, the third gets a 429 whose `Retry-After` is at most 60
      seconds. */
  method ThirdRapidCallIsRefused(request: Request, t0: int, t1: int, t2: int)
    returns (verdicts: seq<Option<Response>>)
    requires t0 <= t1 <= t2 <= t0 + 60000
    ensures |verdicts| == 3 && verdicts[0].None? && verdicts[1].None? && verdicts[2].Some?
    ensures verdicts[2].value.status == 429 && verdicts[2].value.body.Problem?
    ensures verdicts[2].value.body.retryAfter.Some? && 0 <= verdicts[2].value.body.retryAfter.value <= 60
  {
    var limiter := new RateLimiter();
    ghost var ip := GetClientIP(request.headers);
    var a := CheckRateLimit(limiter, request, t0, 2, 60000);
    assert limiter.requests == map[ip := Record(1, t0 + 60000)];
    var b := CheckRateLimit(limiter, request, t1, 2, 60000);
    assert limiter.requests == map[ip := Record(2, t0 + 60000)];
    var c := CheckRateLimit(limiter, request, t2, 2, 60000);
    assert c == Some(TooManyRequests(2, t0 + 60000, t2));
    RetryAfterBounds(t0 + 60000, t2, 60000);
    verdicts := [a, b, c];
  }

  /** Every successful search spends two limiter units, so a caller gets five
      successful searches per window, not ten: the sixth identical search
      within the window is refused. */
  method SixthSearchInOneWindowIsRefused(request: Request, accessKey: Option<string>, body: Json, t: int)
    returns (statuses: seq<int>)
    requires Configured(accessKey) && ParseSearchParams(request.searchParams).Success?
    requires body != Null
    ensures |statuses| == 6 && statuses[5] == 429
    ensures forall k :: 0 <= k < 5 ==> statuses[k] == 200
  {
    var limiter := new RateLimiter();
    var store := new SimpleCache();
    ghost var ip := GetClientIP(request.headers);
    ghost var key := CacheKey(ParseSearchParams(request.searchParams).value);
    statuses := FiveSearches(limiter, store, request, accessKey, body, t, ip, key);
    var status := SearchAfterWindowIsSpent(limiter, store, request, accessKey, body, t, ip, key);
    statuses := statuses + [status];
  }

  /** Five identical searches at instant `t` on empty tables all succeed. */
  method FiveSearches(limiter: RateLimiter, store: SimpleCache, request: Request, accessKey: Option<string>,
                      body: Json, t: int, ghost ip: string, ghost key: string)
    returns (statuses: seq<int>)
    requires Configured(accessKey) && ParseSearchParams(request.searchParams).Success?
    requires ip == GetClientIP(request.headers) && key == CacheKey(ParseSearchParams(request.searchParams).value)
    requires body != Null
    requires limiter.requests == map[] && store.entries == map[]
    modifies limiter, store
    ensures |statuses| == 5 && forall k :: 0 <= k < 5 ==> statuses[k] == 200
    ensures AfterSearches(limiter.requests, store.entries, ip, key, body, t, 5)
  {
    var n := 0;
    statuses := [];
    while n < 5
      invariant n <= 5 && |statuses| == n
      invariant forall k :: 0 <= k < n ==> statuses[k] == 200
      invariant AfterSearches(limiter.requests, store.entries, ip, key, body, t, n)
    {
      var status := SearchWithinWindow(limiter, store, request, accessKey, body, t, n, ip, key);
      statuses := statuses + [status];
      n := n + 1;
    }
  }

  /** A search at instant `t` once the caller's ten units for the window are
      spent: refused with 429 before the cache or the upstream is reached. */
  method SearchAfterWindowIsSpent(limiter: RateLimiter, store: SimpleCache, request: Request, accessKey: Option<string>,
                                  body: Json, t: int, ghost ip: string, ghost key: string)
    returns (status: int)
    requires ip == GetClientIP(request.headers)
    requires AfterSearches(limiter.requests, store.entries, ip, key, body, t, 5)
    modifies limiter, store
    ensures status == 429
    ensures store.entries == old(store.entries)
  {
    var upstream := Replied(200, "OK", body);
    assert !Admit(Find(limiter.requests, ip), RateLimitPerWindow, RateWindowMs, t).result.allowed;
    var response, fetched := Get(limiter, store, request, accessKey, upstream, t, t);
    assert response == TooManyRequests(RateLimitPerWindow, t + RateWindowMs, t);
    status := response.status;
  }

  /** The `(n + 1)`-th identical search at instant `t`, after `n` successful
      ones at the same instant: it succeeds, and the caller's count grows by
      two. */
  method SearchWithinWindow(limiter: RateLimiter, store: SimpleCache, request: Request, accessKey: Option<string>,
                            body: Json, t: int, n: nat, ghost ip: string, ghost key: string)
    returns (status: int)
    requires Configured(accessKey) && ParseSearchParams(request.searchParams).Success?
    requires ip == GetClientIP(request.headers) && key == CacheKey(ParseSearchParams(request.searchParams).value)
    requires body != Null && n <= 4
    requires AfterSearches(limiter.requests, store.entries, ip, key, body, t, n)
    modifies limiter, store
    ensures status == 200
    ensures AfterSearches(limiter.requests, store.entries, ip, key, body, t, n + 1)
  {
    ghost var params := ParseSearchParams(request.searchParams).value;
    ghost var requests0, entries0 := limiter.requests, store.entries;
    ghost var first := Admit(Find(requests0, ip), RateLimitPerWindow, RateWindowMs, t);
    assert first.result.allowed && first.record == Record(2 * n + 1, t + RateWindowMs);
    assert Admitted(requests0, request, accessKey, t);
    var response, fetched := Get(limiter, store, request, accessKey, Replied(200, "OK", body), t, t);
    OnlyKeyUpdate(requests0, ip, first.record);
    SearchAtOneInstant(ip, params, body, n, t, limiter.requests, store.entries, response, fetched);
    status := response.status;
  }

  /** What serving the `(n + 1)`-th identical search at instant `t` does,
      once the limiter has counted it: the data comes from the upstream the
      first time and from the cache afterwards, and the second `check` spends
      one more unit. */
  lemma SearchAtOneInstant(ip: string, params: SearchParams, body: Json, n: nat, t: int,
                           requests': map<string, Record>, entries': map<string, Entry>,
                           response: Response, fetched: bool)
    requires body != Null && n <= 4
    requires Served(map[ip := Record(2 * n + 1, t + RateWindowMs)],
                    if n == 0 then map[] else map[CacheKey(params) := Entry(body, t + CacheTtlSeconds * 1000)],
                    requests', entries', ip, params, Replied(200, "OK", body), t, t, response, fetched)
    ensures response.status == 200
    ensures requests' == map[ip := Record(2 * n + 2, t + RateWindowMs)]
    ensures entries' == map[CacheKey(params) := Entry(body, t + CacheTtlSeconds * 1000)]
  {
    var key := CacheKey(params);
    var entries: map<string, Entry> := if n == 0 then map[] else map[key := Entry(body, t + CacheTtlSeconds * 1000)];
    assert Lookup(entries, key, t) == if n == 0 then Null else body;
    assert Fetch(Replied(200, "OK", body)) == Success(body);
    if n == 0 {
      assert AfterRead(entries, key, t) == map[];
    }
    var requests := map[ip := Record(2 * n + 1, t + RateWindowMs)];
    var second := Admit(Some(Record(2 * n + 1, t + RateWindowMs)), RateLimitPerWindow, RateWindowMs, t);
    assert second.record == Record(2 * n + 2, t + RateWindowMs) && second.result.allowed;
    OnlyKeyUpdate(requests, ip, second.record);
  }

  /** The limiter and cache tables after `n` successful identical searches
      at instant `t`, starting from empty tables: two units spent per search,
      and the data cached once. */
  ghost predicate AfterSearches(requests: map<string, Record>, entries: map<string, Entry>,
                                ip: string, key: string, body: Json, t: int, n: nat)
  {
    if n == 0 then requests == map[] && entries == map[]
    else requests == map[ip := Record(2 * n, t + RateWindowMs)]
         && entries == map[key := Entry(body, t + CacheTtlSeconds * 1000)]
  }

  lemma OnlyKeyUpdate<V>(m: map<string, V>, k: string, v: V)
    requires m.Keys <= {k}
    ensures m[k := v] == map[k := v]
  {
  }
}
