# Image-search request governance of the Forest Queen storefront

This project is a Dafny model of the layer that sits between the shop's pages
and the Unsplash image API. It covers:

- **The TTL cache** (`lib/cache.ts`). This is a `SimpleCache` class whose entry
  table is a `map` field. It has lazy expiry on `get`/`has`, an explicit
  sweep (`cleanup`), and the `withCache` read-through helper.
- **The fixed-window rate limiter** (`lib/rateLimit.ts`). This is a
  `RateLimiter` class with one `{count, resetTime}` record per caller. It also
  includes:
  - `getClientIP`;
  - `checkRateLimit` and its 429 response;
  - `applyRateLimitHeaders`.
- **The search route** (`app/api/unsplash/search/route.ts`). The order is: rate
  limit, credential check, parameter validation, cache key, cached upstream
  fetch, a second limiter check for the response headers, then the 500 on
  failure.
- **The catalogue helpers** (`lib/utils.ts`): product conversion, badges, slugs
  and word capitalisation.
- **The pure helpers of the client-side Unsplash service**
  (`src/services/unsplash.ts`): the category-to-query table, the attribution
  text and the referral links.

Time (`Date.now()`) is an explicit parameter `now`, in milliseconds. Where the
route awaits the upstream, a second instant `doneAt` stands for the clock
after the await. The cache write and the second limiter check use that
instant. The upstream's reply is a parameter (`Upstream`), and `fetched` tells
whether the route called it. JSON values are `Json = Null | Document(..)`, so a
stored `null` is a cache miss, exactly as `cached !== null` makes it.

The JavaScript built-ins the code relies on are written out in `JsBuiltins`:

- `parseInt(s, 10)` with its NaN;
- integer `toString`;
- `trim` over the ECMAScript white-space set;
- `split`/`join` on one character;
- `includes`;
- ASCII `toLowerCase`/`toUpperCase`;
- the truncating `%`;
- `Math.ceil` of a quotient.

Two facts about the route's code shape everything the model proves about it:

- **Validation order.** The route consults the limiter before it checks the
  credential or validates parameters. So a request rejected with 400 or 500
  still spends a limiter unit.
- **The second check counts.** The `rateLimiter.check` that fills the headers
  of a successful answer is a counting call. Each successful search therefore
  spends two units, and a caller gets five successful searches per 60-second
  window, not ten. `Scenarios.SixthSearchInOneWindowIsRefused` states this.

## Model

| member | source | states |
|---|---|---|
| Cache.AfterRead | lib/cache.ts:34-38 | a read keeps `key` exactly when its entry is fresh, removes nothing else and changes no value |
| Cache.Put | lib/cache.ts:49-56 | `set` stores the value with expiry `now + ttl*1000` under `key` and leaves every other key as it was |
| Cache.Sweep | lib/cache.ts:96-106 | `cleanup` keeps exactly the entries that are fresh at `now`, unchanged |
| Cache.ReadAfterWrite | lib/cache.ts:27-56 | a written value is read back up to and including its expiry instant, and `null` after it |
| Cache.ReadsOfFreshEntryAreStable | lib/cache.ts:27-41 | reading a fresh entry does not change the table, and every read within the TTL returns the same data |
| Cache.ReadDoesNotChangeLaterReads | lib/cache.ts:34-38 | lazy deletion on read never changes what a later read of any key returns |
| Cache.SweepDoesNotChangeLaterReads | lib/cache.ts:96-106 | the periodic sweep is invisible to reads at or after its instant |
| Cache.HasAgreesWithGet | lib/cache.ts:63-76 | `has` and `get` agree except on a fresh entry storing `null`, which `has` reports and `get` misses |
| Cache.SimpleCache.constructor | lib/cache.ts:14-20 | a new cache is empty |
| Cache.SimpleCache.Get | lib/cache.ts:27-41 | returns the stored data only when present and unexpired, and deletes an expired entry for that key only |
| Cache.SimpleCache.Set | lib/cache.ts:49-56 | the table becomes `Put` of the old one, and the value is readable until `now + ttl*1000` |
| Cache.SimpleCache.Has | lib/cache.ts:63-76 | answers whether a fresh entry exists, with the same lazy deletion as `get` |
| Cache.SimpleCache.Delete | lib/cache.ts:82-84 | removes that key only |
| Cache.SimpleCache.Clear | lib/cache.ts:89-91 | the table becomes empty |
| Cache.SimpleCache.Cleanup | lib/cache.ts:96-111 | the two loops (collect the expired keys, then delete them) leave exactly `Sweep` of the old table |
| Cache.WithCache | lib/cache.ts:144-164 | the producer runs exactly on a miss; a hit returns the cached data and leaves the table alone; a produced value is stored with its TTL counted from when the producer finished; a failure stores nothing |
| RateLimit.Admit | lib/rateLimit.ts:36-70 | a new or ended window restarts at count 1 and admits; otherwise the count is incremented and the call is admitted iff it stays within the limit; `remaining` is `limit - count` or 0 |
| RateLimit.DenialIsInsideLiveWindow | lib/rateLimit.ts:54-64 | a refusal only happens inside a live window, whose reset instant it reports, with the count over the limit |
| RateLimit.WindowReset | lib/rateLimit.ts:40-52 | after the reset instant, a record is treated as absent |
| RateLimit.VerdictsInLiveWindow | lib/rateLimit.ts:54-70 | inside a live window holding `count` calls, call `i` is admitted iff `count + i + 1 <= limit` |
| RateLimit.AdmissionBound | lib/rateLimit.ts:31-71 | for a new caller, of the calls inside the first window exactly the first `limit` are admitted |
| RateLimit.TwoChecksInOneWindow | lib/rateLimit.ts:54-70 | two calls within one window advance the count by two |
| RateLimit.RetryAfterSeconds | lib/rateLimit.ts:173 | the `Retry-After` value is the ceiling of the remaining milliseconds over 1000 |
| RateLimit.RetryAfterBounds | lib/rateLimit.ts:173 | within a live window the advertised wait is between 0 and the window length in whole seconds |
| RateLimit.Expire | lib/rateLimit.ts:91-101 | the sweep keeps exactly the records whose window has not ended, unchanged |
| RateLimit.SweepDoesNotChangeChecks | lib/rateLimit.ts:91-106 | the periodic sweep never changes the outcome of a later `check` |
| RateLimit.RateLimiter.constructor | lib/rateLimit.ts:16-22 | a new limiter has no records |
| RateLimit.RateLimiter.Check | lib/rateLimit.ts:31-71 | reports `Admit`'s verdict and updates the caller's record only |
| RateLimit.RateLimiter.Reset | lib/rateLimit.ts:77-79 | forgets that identifier only |
| RateLimit.RateLimiter.Clear | lib/rateLimit.ts:84-86 | forgets every identifier |
| RateLimit.RateLimiter.Cleanup | lib/rateLimit.ts:91-106 | the two loops leave exactly `Expire` of the old table |
| RateLimit.GetClientIP | lib/rateLimit.ts:141-155 | the trimmed first comma field of a non-empty `x-forwarded-for`, else the trimmed non-empty `x-real-ip`, else `unknown` |
| RateLimit.ClientIPShape | lib/rateLimit.ts:143-151 | a derived identifier has no surrounding white space; one from `x-forwarded-for` holds no comma and is no longer than the first field |
| RateLimit.TrimIsInside | lib/rateLimit.ts:145 | `trim` only keeps characters of its argument |
| RateLimit.TooManyRequests | lib/rateLimit.ts:172-190 | status 429, error `Too many requests`, `retryAfter` is the ceiling wait, the headers `Retry-After` and the three `X-RateLimit-*` ones and no others of its own, `X-RateLimit-Remaining` is `0` |
| RateLimit.TooManyRequestsHeadersAgree | lib/rateLimit.ts:173-187 | `Retry-After`, `X-RateLimit-Limit` and `X-RateLimit-Reset` parse back to the body's wait, the limit and the reset instant |
| RateLimit.CheckRateLimit | lib/rateLimit.ts:164-194 | one counting `check` for the caller; `null` exactly when admitted, else the 429 built from the reported reset instant |
| RateLimit.ApplyRateLimitHeaders | lib/rateLimit.ts:202-210 | status and body are kept, the three `X-RateLimit-*` headers are added, other headers are untouched |
| RateLimit.RateLimitHeadersAgree | lib/rateLimit.ts:207-209 | the three headers parse back to the limit, the remaining count and the reset instant |
| Http.ValueOr | app/api/unsplash/search/route.ts:41-43 | `get(name) \|\| fallback`: the parameter when present and non-empty, else the fallback |
| JsBuiltins.ParseInt | app/api/unsplash/search/route.ts:41-42 | `parseInt(s, 10)` yields a number exactly when, after leading white space and an optional sign, a decimal digit follows; ParseIntToString gives its value on numerals |
| JsBuiltins.ParseIntToString | app/api/unsplash/search/route.ts:41-42 | `parseInt(String(n), 10) == n` for every integer `n` |
| JsBuiltins.IntToString | lib/rateLimit.ts:184-187 | integer printing yields an optional minus then decimal digits |
| JsBuiltins.NatDigits | lib/rateLimit.ts:184-187 | the numeral of a natural is non-empty, all digits, and has no leading zero unless it is `0` |
| JsBuiltins.DigitsValueOfNatDigits | lib/rateLimit.ts:184-187 | the numeral of `n` denotes `n` |
| JsBuiltins.LeadingDigits | app/api/unsplash/search/route.ts:41-42 | `parseInt` reads the longest prefix of digits |
| JsBuiltins.TrimStart | lib/rateLimit.ts:145 | removes only leading white space, and all of it |
| JsBuiltins.TrimEnd | lib/rateLimit.ts:145 | removes only trailing white space, and all of it |
| JsBuiltins.Trim | lib/rateLimit.ts:145 | the result has no white space at either end and is the input when the input has none |
| JsBuiltins.Split | lib/utils.ts:68 | `split` yields at least one part and no part contains the separator |
| JsBuiltins.JoinSplit | lib/utils.ts:67-70 | joining the parts of a split gives the string back |
| JsBuiltins.SplitJoin | app/api/unsplash/search/route.ts:63 | splitting a join of separator-free parts gives the parts back |
| JsBuiltins.JoinBack | app/api/unsplash/search/route.ts:63 | joining one more part appends the separator and that part |
| JsBuiltins.FirstField | lib/rateLimit.ts:145 | `split(',')[0]`: the longest separator-free prefix, followed by the separator when shorter than the input |
| JsBuiltins.FirstFieldIsFirstPart | lib/rateLimit.ts:145 | that prefix is the first element of the split |
| JsBuiltins.ToUpper | lib/utils.ts:69 | upper-casing keeps the length and maps each character by the ASCII UpperChar |
| JsBuiltins.Join | lib/utils.ts:70 | `parts.join(sep)`: the parts with the separator between neighbours; JoinSplit, SplitJoin and JoinBack relate it to Split and to appending |
| JsBuiltins.Includes | src/services/unsplash.ts:198-208 | `includes` holds iff the needle occurs at some position of the text |
| JsBuiltins.ToLower | lib/utils.ts:57 | lower-casing keeps the length and maps each character by the ASCII LowerChar |
| JsBuiltins.LowerAbsorbsCase | src/services/unsplash.ts:194 | lower-casing is idempotent and undoes upper-casing |
| JsBuiltins.TruncRem | src/services/unsplash.ts:199 | the remainder is `a - n*q` for the quotient `q` truncated toward zero: smaller than the divisor in magnitude, the modulus for non-negative dividends, and otherwise of the dividend's sign |
| JsBuiltins.CeilDiv | lib/rateLimit.ts:173 | `Math.ceil(x / d)` is the least `q` with `x <= q*d` |
| SearchRoute.Fetch | app/api/unsplash/search/route.ts:78-88 | a 2xx reply gives its data; any other status gives `Unsplash API error: <status> <statusText>`; a thrown fetch keeps its message |
| SearchRoute.PerPageAccepted | app/api/unsplash/search/route.ts:54 | NaN passes; an integer passes iff 1 <= n <= 30 |
| SearchRoute.Configured | app/api/unsplash/search/route.ts:31 | the credential counts as set iff it is present and not empty |
| SearchRoute.ErrorResponse | app/api/unsplash/search/route.ts:32-35 | the JSON error body `{error, message}` with the given status and no headers of its own |
| SearchRoute.ParseSearchParams | app/api/unsplash/search/route.ts:39-59 | a missing or empty query is a 400 naming it; otherwise a parsed `per_page` outside 1..30 is a 400; otherwise success carrying the query, `parseInt` of the supplied `per_page` and `page` and the supplied `orientation`, with the defaults 10, 1 and `squarish` for absent or empty ones |
| SearchRoute.CacheKey | app/api/unsplash/search/route.ts:63 | the key starts with `unsplash:search:`, then the query, then a colon; CacheKeyFields gives all six fields |
| SearchRoute.CacheKeyFields | app/api/unsplash/search/route.ts:63 | the cache key is the six fields joined by colons |
| SearchRoute.NumToStringInjective | app/api/unsplash/search/route.ts:63 | distinct parsed numbers print differently, and never with a colon |
| SearchRoute.CacheKeyInjective | app/api/unsplash/search/route.ts:63 | equal keys mean equal parameters when the query and the orientation hold no colon |
| SearchRoute.CacheKeyCollision | app/api/unsplash/search/route.ts:63 | with a colon in the query two different searches share one key |
| SearchRoute.Get | app/api/unsplash/search/route.ts:22-116 | the limiter is consulted first and always counts; a request that is not admitted gets `Rejection` with the cache untouched and no upstream call; an admitted one is `Served` |
| SearchRoute.Rejection | app/api/unsplash/search/route.ts:24-59 | 429 when refused, else 500 when the key is not configured, else the 400 of validation |
| SearchRoute.Serve | app/api/unsplash/search/route.ts:61-114 | the upstream is called exactly on a cache miss; a failure is a 500 that names the error and caches nothing; a success is cached from `doneAt` and answered with status 200 and the headers of a second, counting check |
| Scenarios.RepeatedSearchIsServedFromCache | app/api/unsplash/search/route.ts:61-103 | an identical search within the TTL is answered from the cache with the same data, and the upstream is called once |
| Scenarios.SearchOnEmptyCache | app/api/unsplash/search/route.ts:61-103 | a first search calls the upstream, caches the data from `doneAt` and spends at most two units |
| Scenarios.SearchOnCachedKey | app/api/unsplash/search/route.ts:66-103 | fresh non-null cached data is answered with status 200 without an upstream call |
| Scenarios.ThirdRapidCallIsRefused | lib/rateLimit.ts:164-194 | with limit 2, the third call in one window is a 429 whose `retryAfter` is at most 60 |
| Scenarios.SixthSearchInOneWindowIsRefused | app/api/unsplash/search/route.ts:22-103 | five identical searches at one instant succeed and the sixth is a 429 |
| Scenarios.FiveSearches | app/api/unsplash/search/route.ts:22-103 | five identical searches at one instant all answer 200 and spend ten units |
| Scenarios.SearchWithinWindow | app/api/unsplash/search/route.ts:22-103 | the `(n+1)`-th such search answers 200 and spends two more units |
| Scenarios.SearchAtOneInstant | app/api/unsplash/search/route.ts:61-103 | serving the `(n+1)`-th search calls the upstream only the first time and counts the second check |
| Scenarios.SearchAfterWindowIsSpent | app/api/unsplash/search/route.ts:24-28 | once ten units are spent the search is a 429 and the cache is untouched |
| CatalogUtils.Badges | lib/utils.ts:21-37 | each badge appears iff its condition holds (rating >= 4.5, price < 50, more than 200 ratings), in that fixed order, at most three |
| CatalogUtils.DetermineBadges | lib/utils.ts:21-37 | the three conditional pushes build exactly `Badges` |
| CatalogUtils.ConvertFakeStoreProduct | lib/utils.ts:5-18 | the id parses back to the numeric id; fields are carried over; every product is in stock with its derived badges |
| CatalogUtils.ReplaceNonSlugChars | lib/utils.ts:57 | same length; a character in `[a-z0-9]` is kept and any other becomes `-`, so only those characters and `-` remain |
| CatalogUtils.Slugify | lib/utils.ts:57 | same length; each character is the lower-cased one when it is in `[a-z0-9]`, else `-` |
| CatalogUtils.SlugifyNormalises | lib/utils.ts:57-59 | a slug is its own slug, and names differing only in case share one |
| CatalogUtils.ConvertFakeStoreCategory | lib/utils.ts:40-63 | id and slug are the same slug; the name is capitalised; the mapped image or the default, the mapped description or none |
| CatalogUtils.CapitalizeFirst | lib/utils.ts:69 | capitalising a word keeps its length |
| CatalogUtils.CapitalizeEach | lib/utils.ts:69 | one word out per word in, the `k`-th being `CapitalizeFirst` of the `k`-th |
| CatalogUtils.CapitalizeWords | lib/utils.ts:66-71 | split on spaces, capitalise each word and join again: the result has the input's length and upper-cases exactly the characters at the start or after a space |
| CatalogUtils.JoinCapitalizeEach | lib/utils.ts:67-70 | capitalising each space-free word and joining equals the character-wise rule on the joined text |
| CatalogUtils.CapitalizeWordsIdempotent | lib/utils.ts:66-71 | spaces stay where they were, and capitalising twice is capitalising once |
| UnsplashService.Pick | src/services/unsplash.ts:199 | a non-negative index selects `list[index % length]`; a negative one is `undefined` unless it is a multiple of the length, which reads `list[-0]`, that is `list[0]` |
| UnsplashService.FirstMatch | src/services/unsplash.ts:198-210 | the first rule whose keyword occurs, with no earlier rule matching, or none when no rule matches |
| UnsplashService.CategoryQuery | src/services/unsplash.ts:192-210 | a non-negative index (0 by default) always yields a query, and every query is the fallback or one of the six lists; CategoryQueryFollowsTable pins down which |
| UnsplashService.CategoryQueryFollowsTable | src/services/unsplash.ts:194-210 | the if-chain equals the first-match lookup in the category table |
| UnsplashService.CategoryQueryProperties | src/services/unsplash.ts:194-210 | the choice ignores case, a non-negative index always yields a query, and no match yields `camping gear` |
| UnsplashService.ImageForCategory | src/services/unsplash.ts:190-218 | an image is returned iff the search for the chosen query succeeds with a result, and it is the first result |
| UnsplashService.ImageAttribution | src/services/unsplash.ts:150-152 | the attribution line reads back as the photographer's name |
| UnsplashService.UserProfileUrl | src/services/unsplash.ts:158-160 | removing the referral query gives the profile link back |
| UnsplashService.PhotoPageUrl | src/services/unsplash.ts:166-168 | removing the referral query gives the photo page link back |

## Left out

- Timers: the `setInterval` sweeps and `destroy`. `cleanup` is modelled as a method called with an instant; when it runs is not modelled.
- `getStats` of both classes: they only report on the tables.
- Logging (`console.log`, `console.error`, `console.warn`) has no effect on the state.
- Concurrency: `withCache` and the route are modelled as one uninterrupted run. Two concurrent misses for one key, both fetching, are not modelled.
- The outgoing upstream request: URL construction, query encoding and the `Authorization` header. The upstream's reply is a parameter.
- Request header names are taken as already lower-cased strings in a map; HTTP's case-insensitive header lookup is not modelled. Query parameters are looked up case-sensitively, as `URLSearchParams.get` does.
- `Date.now()` is called twice in `checkRateLimit` (once inside `check`, once for `resetIn`). Both calls are taken as the same instant `now`.
- JavaScript numbers are unbounded integers here. Precision loss above 2^53 and fractional `limit`, ids or `index` are not modelled (a fractional `index` reads `undefined` from the query list in the source).
- `toLowerCase`/`toUpperCase` are modelled on ASCII letters only.
- Strings are sequences of Unicode code points, not of UTF-16 code units. CatalogUtils.Slugify therefore writes one `-` for a character outside the Basic Multilingual Plane (such as U+1F600), where the source's regular expression, which has no `u` flag, writes `--`, one per code unit.
- Headers that the framework adds to a JSON response, such as `content-type` from `NextResponse.json`, are not modelled. RateLimit.TooManyRequests states only the headers the source sets itself.
- The category maps in `convertFakeStoreCategory` are plain maps. Inherited object keys such as `constructor` are not modelled.
- RateLimit.ApplyRateLimitHeaders returns the updated response as a value instead of mutating the `NextResponse` in place. No other reference to the response exists at the call site.
- `getOptimizedImageUrl` is left out; URL parsing and `searchParams.append` encoding are outside the model.
- `searchUnsplashImages` and `getRandomUnsplashImage` are left out: they only fetch. `getImageForCategory`'s search is a parameter of UnsplashService.ImageForCategory.
- `triggerDownload` is left out: it is a no-op.
- `lib/api.ts`, `middleware.ts` and the UI components are not part of this model.
- JsBuiltins.NumToString has no contract of its own. Its injectivity is SearchRoute.NumToStringInjective.
