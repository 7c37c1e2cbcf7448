/** The image-search gateway route (app/api/unsplash/search/route.ts): an
    early-return pipeline over the two shared stores. Rate limiting comes
    first, then the credential check, then parameter validation, then the
    cache key, then `withCache` around the upstream fetch, then a second
    `check` whose result fills the rate-limit headers. The upstream reply is
    an input; `now` is the arrival instant and `doneAt` the instant the
    cached or fetched data is available. */
module SearchRoute {
  import opened Wrappers
  import opened JsBuiltins
  import opened Http
  import opened Cache
  import opened RateLimit

  /** Requests per window and per caller. */
  const RateLimitPerWindow: int := 10
  /** Window length, in milliseconds. */
  const RateWindowMs: int := 60 * 1000
  /** Time to live of a cached search result, in seconds. */
  const CacheTtlSeconds: int := 24 * 60 * 60

  /** The normalised search parameters. */
  datatype SearchParams = SearchParams(query: string, perPage: Num, page: Num, orientation: string)

  /** What the upstream fetch did: it threw (network failure, unreadable
      body), or it answered with a status and a JSON body. */
  datatype Upstream =
    | Threw(message: string)
    | Replied(status: int, statusText: string, body: Json)

  /** The producer handed to `withCache`: an upstream status outside 200-299
      becomes a thrown error whose message names the status. */
  function Fetch(upstream: Upstream): (r: Result<Json, string>)
    ensures upstream.Threw? ==> r == Failure(upstream.message)
    ensures upstream.Replied? ==> (r.Success? <==> 200 <= upstream.status <= 299)
    ensures r.Success? ==> r.value == upstream.body
    ensures upstream.Replied? && !(200 <= upstream.status <= 299) ==>
              r == Failure("Unsplash API error: " + IntToString(upstream.status) + " " + upstream.statusText)
  {
    match upstream
    case Threw(message) => Failure(message)
    case Replied(status, statusText, body) =>
      if 200 <= status <= 299 then Success(body)
      else Failure("Unsplash API error: " + IntToString(status) + " " + statusText)
  }

  function ErrorResponse(status: int, error: string, message: Option<string>): Response {
    Response(status, Problem(error, message, None), map[])
  }

  const MissingQuery := "Missing required parameter: query"
  const PerPageOutOfRange := "per_page must be between 1 and 30"

  /** `per_page` passes the range check; NaN passes it too, because both
      comparisons with NaN are false. */
  predicate PerPageAccepted(perPage: Num) {
    match perPage
    case NaN => true
    case Int(n) => 1 <= n <= 30
  }

  /** Reads the query string with its defaults (`per_page` 10, `page` 1,
      `orientation` "squarish"), then rejects an absent or empty `query` and
      an out-of-range `per_page` with 400. `page` is not checked. */
  function ParseSearchParams(params: map<string, string>): (r: Result<SearchParams, Response>)
    ensures r.Failure? ==> r.error.status == 400 && r.error.body.Problem? && r.error.body.message.None?
    ensures r.Success? <==> Truthy(params, "query") && PerPageAccepted(ParseInt(ValueOr(params, "per_page", "10")))
    ensures !Truthy(params, "query") ==> r.error.body.error == MissingQuery
    ensures Truthy(params, "query") && r.Failure? ==> r.error.body.error == PerPageOutOfRange
    ensures r.Success? ==> r.value.query == params["query"] && r.value.query != ""
    ensures r.Success? && !Truthy(params, "per_page") ==> r.value.perPage == Int(10)
    ensures r.Success? && !Truthy(params, "page") ==> r.value.page == Int(1)
    ensures r.Success? && !Truthy(params, "orientation") ==> r.value.orientation == "squarish"
    ensures r.Success? ==> r.value == SearchParams(params["query"], ParseInt(ValueOr(params, "per_page", "10")),
                                                   ParseInt(ValueOr(params, "page", "1")),
                                                   ValueOr(params, "orientation", "squarish"))
  {
    DefaultNumerals();
    var perPage := ParseInt(ValueOr(params, "per_page", "10"));
    var page := ParseInt(ValueOr(params, "page", "1"));
    var orientation := ValueOr(params, "orientation", "squarish");
    if !Truthy(params, "query") then Failure(ErrorResponse(400, MissingQuery, None))
    else if !PerPageAccepted(perPage) then Failure(ErrorResponse(400, PerPageOutOfRange, None))
    else Success(SearchParams(params["query"], perPage, page, orientation))
  }

  /** The default numerals parse to the defaults. */
  lemma DefaultNumerals()
    ensures ParseInt("10") == Int(10) && ParseInt("1") == Int(1)
  {
    ParseIntToString(10);
    ParseIntToString(1);
    assert IntToString(10) == "10";
    assert IntToString(1) == "1";
  }

  /** `unsplash:search:<query>:<per_page>:<page>:<orientation>`. */
  function CacheKey(p: SearchParams): (key: string)
    ensures |key| > 16 + |p.query| && key[..16] == "unsplash:search:"
    ensures key[16..16 + |p.query|] == p.query && key[16 + |p.query|] == ':'
  {
    "unsplash:search:" + p.query + ":" + NumToString(p.perPage) + ":" + NumToString(p.page) + ":" + p.orientation
  }

  /** The key is the six fields joined by colons. */
  lemma CacheKeyFields(p: SearchParams)
    ensures CacheKey(p) == Join(KeyFields(p), ':')
  {
    JoinSixFields(p.query, NumToString(p.perPage), NumToString(p.page), p.orientation);
  }

  lemma JoinSixFields(q: string, a: string, b: string, o: string)
    ensures "unsplash:search:" + q + ":" + a + ":" + b + ":" + o == Join(["unsplash", "search", q, a, b, o], ':')
  {
    var head := "unsplash" + ":" + "search";
    assert Join(["unsplash"], ':') == "unsplash";
    JoinBack(["unsplash"], "search", ':');
    assert ["unsplash"] + ["search"] == ["unsplash", "search"];
    JoinBack(["unsplash", "search"], q, ':');
    assert ["unsplash", "search"] + [q] == ["unsplash", "search", q];
    JoinBack(["unsplash", "search", q], a, ':');
    assert ["unsplash", "search", q] + [a] == ["unsplash", "search", q, a];
    JoinBack(["unsplash", "search", q, a], b, ':');
    assert ["unsplash", "search", q, a] + [b] == ["unsplash", "search", q, a, b];
    JoinBack(["unsplash", "search", q, a, b], o, ':');
    assert ["unsplash", "search", q, a, b] + [o] == ["unsplash", "search", q, a, b, o];
    assert "unsplash:search:" == head + ":";
  }

  function KeyFields(p: SearchParams): seq<string> {
    ["unsplash", "search", p.query, NumToString(p.perPage), NumToString(p.page), p.orientation]
  }

  /** Equal keys mean equal parameters, as long as neither the query nor the
      orientation holds a colon. */
  lemma {:induction false} CacheKeyInjective(p: SearchParams, q: SearchParams)
    requires ':' !in p.query && ':' !in p.orientation
    requires ':' !in q.query && ':' !in q.orientation
    requires CacheKey(p) == CacheKey(q)
    ensures p == q
  {
    CacheKeyFields(p);
    CacheKeyFields(q);
    NumToStringInjective(p.perPage, q.perPage);
    NumToStringInjective(p.page, q.page);
    NumToStringInjective(q.perPage, p.perPage);
    NumToStringInjective(q.page, p.page);
    SplitJoin(KeyFields(p), ':');
    SplitJoin(KeyFields(q), ':');
    assert KeyFields(p) == KeyFields(q);
    assert KeyFields(p)[3] == KeyFields(q)[3] && KeyFields(p)[4] == KeyFields(q)[4];
  }

  /** With a colon in the query, two different searches share one key: the
      second is answered with the first one's cached result. */
  lemma CacheKeyCollision()
    ensures var p := SearchParams("a:1", Int(2), Int(3), "o");
            var q := SearchParams("a", Int(1), Int(2), "3:o");
            p != q && CacheKey(p) == CacheKey(q)
  {
    var p := SearchParams("a:1", Int(2), Int(3), "o");
    var q := SearchParams("a", Int(1), Int(2), "3:o");
    SmallNumerals();
    assert CacheKey(p) == "unsplash:search:" + "a:1" + ":" + "2" + ":" + "3" + ":" + "o";
    assert CacheKey(q) == "unsplash:search:" + "a" + ":" + "1" + ":" + "2" + ":" + "3:o";
    assert p.query != q.query;
  }

  lemma SmallNumerals()
    ensures NumToString(Int(1)) == "1" && NumToString(Int(2)) == "2" && NumToString(Int(3)) == "3"
  {
    assert NatDigits(1) == "1" && NatDigits(2) == "2" && NatDigits(3) == "3";
  }

  /** Distinct numbers print differently, and never with a colon. */
  lemma NumToStringInjective(a: Num, b: Num)
    ensures NumToString(a) == NumToString(b) ==> a == b
    ensures ':' !in NumToString(a)
  {
    if NumToString(a) == NumToString(b) {
      if a.Int? && b.Int? {
        ParseIntToString(a.value);
        ParseIntToString(b.value);
      }
    }
  }

  /** `GET /api/unsplash/search`. `accessKey` is the configured credential
      (absent or empty means not configured); `fetched` tells whether the
      upstream was called. */
  method Get(limiter: RateLimiter, store: SimpleCache, request: Request, accessKey: Option<string>,
             upstream: Upstream, now: int, doneAt: int)
    returns (response: Response, fetched: bool)
    modifies limiter, store
    // The limiter is consulted first, on every request, and spends one unit.
    ensures var ip := GetClientIP(request.headers);
            var first := Admit(Find(old(limiter.requests), ip), RateLimitPerWindow, RateWindowMs, now);
            !Admitted(old(limiter.requests), request, accessKey, now) ==>
              && limiter.requests == old(limiter.requests)[ip := first.record]
              && store.entries == old(store.entries)
              && !fetched
              && response == Rejection(first.result, request, accessKey, now)
    // Otherwise the cache decides whether the upstream is called.
    ensures Admitted(old(limiter.requests), request, accessKey, now) ==>
              var ip := GetClientIP(request.headers);
              var first := Admit(Find(old(limiter.requests), ip), RateLimitPerWindow, RateWindowMs, now);
              Served(old(limiter.requests)[ip := first.record], old(store.entries), limiter.requests, store.entries,
                     ip, ParseSearchParams(request.searchParams).value, upstream, now, doneAt, response, fetched)
  {
    var denial := CheckRateLimit(limiter, request, now, RateLimitPerWindow, RateWindowMs);
    if denial.Some? {
      return denial.value, false;
    }
    if !Configured(accessKey) {
      return ErrorResponse(500, "Unsplash API key not configured", None), false;
    }
    var parsed := ParseSearchParams(request.searchParams);
    if parsed.Failure? {
      return parsed.error, false;
    }
    var ip := GetClientIP(request.headers);
    response, fetched := Serve(limiter, store, ip, parsed.value, upstream, now, doneAt);
  }

  /** The answer to a request that does not get past validation: 429 when
      the limiter refuses it, then 500 when the credential is missing, then
      the 400 of parameter validation. */
  function Rejection(first: CheckResult, request: Request, accessKey: Option<string>, now: int): (r: Response)
    requires !(first.allowed && Configured(accessKey) && ParseSearchParams(request.searchParams).Success?)
    ensures !first.allowed ==> r == TooManyRequests(RateLimitPerWindow, first.resetTime, now)
    ensures first.allowed && !Configured(accessKey) ==> r == ErrorResponse(500, "Unsplash API key not configured", None)
    ensures first.allowed && Configured(accessKey) && ParseSearchParams(request.searchParams).Failure? ==>
              r == ParseSearchParams(request.searchParams).error
  {
    if !first.allowed then TooManyRequests(RateLimitPerWindow, first.resetTime, now)
    else if !Configured(accessKey) then ErrorResponse(500, "Unsplash API key not configured", None)
    else ParseSearchParams(request.searchParams).error
  }

  /** The cached or upstream data for validated parameters, and the second
      `check` whose result fills the headers of the 200 response. */
  method Serve(limiter: RateLimiter, store: SimpleCache, ip: string, params: SearchParams,
               upstream: Upstream, now: int, doneAt: int)
    returns (response: Response, fetched: bool)
    modifies limiter, store
    ensures Served(old(limiter.requests), old(store.entries), limiter.requests, store.entries,
                   ip, params, upstream, now, doneAt, response, fetched)
  {
    var cacheKey := CacheKey(params);
    var data;
    data, fetched := WithCache(store, cacheKey, Fetch(upstream), now, doneAt, CacheTtlSeconds);
    if data.Failure? {
      return ErrorResponse(500, "Failed to fetch images from Unsplash", Some(data.error)), fetched;
    }
    var rateLimitInfo := limiter.Check(ip, doneAt, RateLimitPerWindow, RateWindowMs);
    response := ApplyRateLimitHeaders(Response(200, Payload(data.value), map[]), rateLimitInfo, RateLimitPerWindow);
  }

  /** What serving validated parameters does, from limiter table `requests`
      and cache table `entries` to `requests'` and `entries'`. The upstream is
      called exactly on a cache miss (absent, expired or stored `null`). A
      failure becomes a 500 and nothing is cached. On success the data (cached
      on a miss, with the time to live counted from `doneAt`) is returned with
      the `X-RateLimit-*` headers of a second, counted `check` at `doneAt`. */
  ghost predicate Served(requests: map<string, Record>, entries: map<string, Entry>,
                         requests': map<string, Record>, entries': map<string, Entry>,
                         ip: string, params: SearchParams, upstream: Upstream, now: int, doneAt: int,
                         response: Response, fetched: bool)
  {
    var key := CacheKey(params);
    var cached := Lookup(entries, key, now);
    var outcome := if cached != Null then Success(cached) else Fetch(upstream);
    var second := Admit(Find(requests, ip), RateLimitPerWindow, RateWindowMs, doneAt);
    && (fetched <==> cached == Null)
    && (match outcome
        case Failure(message) =>
          && response == ErrorResponse(500, "Failed to fetch images from Unsplash", Some(message))
          && requests' == requests
          && entries' == AfterRead(entries, key, now)
        case Success(data) =>
          && response == ApplyRateLimitHeaders(Response(200, Payload(data), map[]), second.result, RateLimitPerWindow)
          && requests' == requests[ip := second.record]
          && entries' == if fetched then Put(AfterRead(entries, key, now), key, data, CacheTtlSeconds, doneAt)
                         else entries)
  }

  /** The credential is set and non-empty. */
  predicate Configured(accessKey: Option<string>) {
    accessKey.Some? && accessKey.value != ""
  }

  /** The request passes the limiter, the credential check and validation. */
  predicate Admitted(requests: map<string, Record>, request: Request, accessKey: Option<string>, now: int) {
    && Admit(Find(requests, GetClientIP(request.headers)), RateLimitPerWindow, RateWindowMs, now).result.allowed
    && Configured(accessKey)
    && ParseSearchParams(request.searchParams).Success?
  }
}
