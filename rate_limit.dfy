/** The fixed-window rate limiter (lib/rateLimit.ts): one record per caller
    identifier, counting the requests of the current window, plus the helpers
    that derive the identifier from a request and turn a denial into a 429
    response. Time is the parameter `now`, in milliseconds. */
module RateLimit {
  import opened Wrappers
  import opened JsBuiltins
  import opened Http

  /** The requests seen in the current window and the window's last instant. */
  datatype Record = Record(count: int, resetTime: int)

  /** What `check` reports. */
  datatype CheckResult = CheckResult(allowed: bool, remaining: int, resetTime: int)

  /** One `check`: its report and the identifier's record afterwards. */
  datatype Step = Step(result: CheckResult, record: Record)

  const DefaultLimit: int := 10
  const DefaultWindowMs: int := 60 * 1000

  function Find(m: map<string, Record>, id: string): Option<Record> {
    if id in m then Some(m[id]) else None
  }

  /** A `check` at `now` opens a new window: there is no record, or its
      window ended strictly before `now`. */
  predicate StartsWindow(entry: Option<Record>, now: int) {
    entry.None? || now > entry.value.resetTime
  }

  /** `check` on one identifier's record. A new window starts with count 1;
      inside a live window the count is incremented before it is compared
      with the limit, so the call that takes it past `limit` is the first
      one refused. */
  function Admit(entry: Option<Record>, limit: int, windowMs: int, now: int): (s: Step)
    ensures s.result.resetTime == s.record.resetTime
    ensures StartsWindow(entry, now) ==> s.record == Record(1, now + windowMs) && s.result.allowed
    ensures !StartsWindow(entry, now) ==> s.record == Record(entry.value.count + 1, entry.value.resetTime)
    ensures s.result.allowed <==> StartsWindow(entry, now) || s.record.count <= limit
    ensures s.result.remaining == if s.result.allowed then limit - s.record.count else 0
  {
    if entry.None? || now > entry.value.resetTime then
      var resetTime := now + windowMs;
      Step(CheckResult(true, limit - 1, resetTime), Record(1, resetTime))
    else
      var record := Record(entry.value.count + 1, entry.value.resetTime);
      if record.count > limit then Step(CheckResult(false, 0, record.resetTime), record)
      else Step(CheckResult(true, limit - record.count, record.resetTime), record)
  }

  /** A refusal only happens inside a live window, so the reset instant is
      never in the past, and the count is over the limit. */
  lemma DenialIsInsideLiveWindow(entry: Option<Record>, limit: int, windowMs: int, now: int)
    requires !Admit(entry, limit, windowMs, now).result.allowed
    ensures entry.Some? && now <= entry.value.resetTime
    ensures Admit(entry, limit, windowMs, now).result.resetTime == entry.value.resetTime
    ensures Admit(entry, limit, windowMs, now).record.count > limit
  {
  }

  /** Once the window has ended, the identifier is treated as if it had no
      record at all. */
  lemma WindowReset(r: Record, limit: int, windowMs: int, now: int)
    requires now > r.resetTime
    ensures Admit(Some(r), limit, windowMs, now) == Admit(None, limit, windowMs, now)
    ensures Admit(Some(r), limit, windowMs, now).result == CheckResult(true, limit - 1, now + windowMs)
  {
  }

  /** The verdicts of consecutive `check` calls on one identifier at the
      given instants. */
  function Verdicts(entry: Option<Record>, limit: int, windowMs: int, times: seq<int>): (vs: seq<bool>)
    ensures |vs| == |times|
    decreases |times|
  {
    if times == [] then []
    else
      var s := Admit(entry, limit, windowMs, times[0]);
      [s.result.allowed] + Verdicts(Some(s.record), limit, windowMs, times[1..])
  }

  /** Inside a live window that already holds `count` requests, call `i`
      (from 0) is admitted exactly when `count + i + 1 <= limit`. */
  lemma {:induction false} VerdictsInLiveWindow(count: int, resetTime: int, limit: int, windowMs: int, times: seq<int>)
    requires forall i :: 0 <= i < |times| ==> times[i] <= resetTime
    ensures forall i :: 0 <= i < |times| ==>
              Verdicts(Some(Record(count, resetTime)), limit, windowMs, times)[i] == (count + i + 1 <= limit)
    decreases |times|
  {
    if times != [] {
      VerdictsInLiveWindow(count + 1, resetTime, limit, windowMs, times[1..]);
    }
  }

  /** The admission bound: for a fresh identifier and `limit >= 1`, among
      calls that all fall inside the first call's window, exactly the first
      `limit` are admitted. */
  lemma {:induction false} AdmissionBound(limit: int, windowMs: int, times: seq<int>)
    requires limit >= 1 && times != []
    requires forall i :: 0 <= i < |times| ==> times[i] <= times[0] + windowMs
    ensures forall i :: 0 <= i < |times| ==> Verdicts(None, limit, windowMs, times)[i] == (i < limit)
  {
    VerdictsInLiveWindow(1, times[0] + windowMs, limit, windowMs, times[1..]);
  }

  /** Two consecutive admitted `check` calls inside one live window, as one
      successful search makes, advance the count by two. */
  lemma TwoChecksInOneWindow(entry: Option<Record>, limit: int, windowMs: int, now: int, later: int)
    requires later <= Admit(entry, limit, windowMs, now).record.resetTime
    ensures var first := Admit(entry, limit, windowMs, now).record;
            Admit(Some(first), limit, windowMs, later).record == Record(first.count + 1, first.resetTime)
  {
  }

  /** `Math.ceil((resetTime - now) / 1000)`, the `Retry-After` value. */
  function RetryAfterSeconds(resetTime: int, now: int): (seconds: int)
    ensures (seconds - 1) * 1000 < resetTime - now <= seconds * 1000
  {
    CeilDiv(resetTime - now, 1000)
  }

  /** A refusal inside a window that opened at or before `now` asks the
      caller to wait between zero and the window's length, rounded up to
      whole seconds. */
  lemma {:induction false} RetryAfterBounds(resetTime: int, now: int, windowMs: int)
    requires now <= resetTime <= now + windowMs
    ensures 0 <= RetryAfterSeconds(resetTime, now) <= CeilDiv(windowMs, 1000)
  {
    var s := RetryAfterSeconds(resetTime, now);
    var w := CeilDiv(windowMs, 1000);
    assert (s - 1) * 1000 < windowMs <= w * 1000;
  }

  /** The table after a sweep at `now`: exactly the records whose window has
      not ended, untouched. */
  function Expire(m: map<string, Record>, now: int): (m': map<string, Record>)
    ensures forall k :: k in m' <==> k in m && now <= m[k].resetTime
    ensures forall k :: k in m' ==> k in m && m'[k] == m[k]
  {
    map k | k in m && now <= m[k].resetTime :: m[k]
  }

  /** The sweep never changes a later `check`: a removed record's window has
      ended, and an ended window is treated as no record. */
  lemma {:induction false} SweepDoesNotChangeChecks(m: map<string, Record>, now: int, id: string,
                                                     limit: int, windowMs: int, later: int)
    requires now <= later
    ensures Admit(Find(Expire(m, now), id), limit, windowMs, later) == Admit(Find(m, id), limit, windowMs, later)
  {
    if id in m && id !in Expire(m, now) {
      assert StartsWindow(Find(m, id), later);
    }
  }

  /** `RateLimiter`: the mutable table behind the process-wide `rateLimiter`. */
  class RateLimiter {
    var requests: map<string, Record>

    constructor ()
      ensures requests == map[]
    {
      requests := map[];
    }

    /** `check(identifier, limit, windowMs)` at `now`: reports the verdict and
        updates that identifier's record, and no other. */
    method Check(identifier: string, now: int, limit: int := DefaultLimit, windowMs: int := DefaultWindowMs)
      returns (result: CheckResult)
      modifies this
      ensures result == Admit(Find(old(requests), identifier), limit, windowMs, now).result
      ensures requests == old(requests)[identifier := Admit(Find(old(requests), identifier), limit, windowMs, now).record]
    {
      if identifier !in requests || now > requests[identifier].resetTime {
        var resetTime := now + windowMs;
        requests := requests[identifier := Record(1, resetTime)];
        return CheckResult(true, limit - 1, resetTime);
      }
      var entry := requests[identifier];
      entry := entry.(count := entry.count + 1);
      requests := requests[identifier := entry];
      if entry.count > limit {
        return CheckResult(false, 0, entry.resetTime);
      }
      return CheckResult(true, limit - entry.count, entry.resetTime);
    }

    /** `reset`: forgets one identifier. */
    method Reset(identifier: string)
      modifies this
      ensures requests == old(requests) - {identifier}
    {
      requests := requests - {identifier};
    }

    /** `clear`: forgets every identifier. */
    method Clear()
      modifies this
      ensures requests == map[]
    {
      requests := map[];
    }

    /** `cleanup`: collects the identifiers whose window has ended, then
        deletes them. */
    method Cleanup(now: int)
      modifies this
      ensures requests == Expire(old(requests), now)
    {
      var pending := requests.Keys;
      var keysToDelete: seq<string> := [];
      while pending != {}
        invariant pending <= requests.Keys
        invariant requests == old(requests)
        invariant forall k :: k in keysToDelete <==> k in requests && k !in pending && now > requests[k].resetTime
        decreases pending
      {
        var key :| key in pending;
        if now > requests[key].resetTime {
          keysToDelete := keysToDelete + [key];
        }
        pending := pending - {key};
      }
      var i := 0;
      while i < |keysToDelete|
        invariant 0 <= i <= |keysToDelete|
        invariant forall k :: k in requests <==> k in old(requests) && k !in keysToDelete[..i]
        invariant forall k :: k in requests ==> requests[k] == old(requests)[k]
      {
        assert keysToDelete[..i + 1] == keysToDelete[..i] + [keysToDelete[i]];
        requests := requests - {keysToDelete[i]};
        i := i + 1;
      }
      assert keysToDelete[..i] == keysToDelete;
    }
  }

  /** `getClientIP`: the first comma-separated element of `x-forwarded-for`,
      else `x-real-ip`, each trimmed, else `"unknown"`; an empty header
      counts as absent. */
  function GetClientIP(headers: map<string, string>): (ip: string)
    ensures Truthy(headers, "x-forwarded-for") ==>
              ip == Trim(FirstField(headers["x-forwarded-for"], ','))
    ensures !Truthy(headers, "x-forwarded-for") && Truthy(headers, "x-real-ip") ==>
              ip == Trim(headers["x-real-ip"])
    ensures !Truthy(headers, "x-forwarded-for") && !Truthy(headers, "x-real-ip") ==> ip == "unknown"
  {
    if Truthy(headers, "x-forwarded-for") then
      FirstFieldIsFirstPart(headers["x-forwarded-for"], ',');
      Trim(Split(headers["x-forwarded-for"], ',')[0])
    else if Truthy(headers, "x-real-ip") then Trim(headers["x-real-ip"])
    else "unknown"
  }

  /** Every identifier `getClientIP` derives from a forwarding header is free
      of surrounding white space; one from `x-forwarded-for` holds no comma
      and lies inside the header's first element. */
  lemma {:induction false} ClientIPShape(headers: map<string, string>)
    ensures var ip := GetClientIP(headers);
            ip != [] ==> !IsSpace(ip[0]) && !IsSpace(ip[|ip| - 1])
    ensures Truthy(headers, "x-forwarded-for") ==>
              ',' !in GetClientIP(headers)
              && |GetClientIP(headers)| <= |FirstField(headers["x-forwarded-for"], ',')|
  {
    if Truthy(headers, "x-forwarded-for") {
      var f := FirstField(headers["x-forwarded-for"], ',');
      TrimIsInside(f);
    }
  }

  /** Characters that `Trim` keeps come from its argument. */
  lemma {:induction false} TrimIsInside(s: string)
    ensures forall c :: c in Trim(s) ==> c in s
  {
    var t := TrimStart(s);
    assert forall c :: c in t ==> c in s by {
      forall c | c in t ensures c in s {
        var j :| 0 <= j < |t| && t[j] == c;
        assert s[|s| - |t| + j] == c;
      }
    }
    var r := TrimEnd(t);
    forall c | c in r ensures c in t {
      var j :| 0 <= j < |r| && r[j] == c;
      assert t[j] == c;
    }
  }

  /** The 429 response for a refused call at `now`. */
  function TooManyRequests(limit: int, resetTime: int, now: int): (r: Response)
    ensures r.status == 429 && r.body.Problem? && r.body.error == "Too many requests"
    ensures r.body.retryAfter == Some(RetryAfterSeconds(resetTime, now))
    ensures r.headers.Keys == RateLimitHeaderNames + {"Retry-After"}
    ensures r.headers["X-RateLimit-Remaining"] == "0"
    ensures r.body.message == Some("Rate limit exceeded. Please try again in "
                                   + IntToString(RetryAfterSeconds(resetTime, now)) + " seconds.")
  {
    var resetIn := RetryAfterSeconds(resetTime, now);
    Response(
      429,
      Problem("Too many requests",
              Some("Rate limit exceeded. Please try again in " + IntToString(resetIn) + " seconds."),
              Some(resetIn)),
      map["X-RateLimit-Limit" := IntToString(limit),
          "X-RateLimit-Remaining" := "0",
          "X-RateLimit-Reset" := IntToString(resetTime),
          "Retry-After" := IntToString(resetIn)])
  }

  /** The numeric headers of a 429 read back as the limit, the reset instant
      and the body's `retryAfter`. */
  lemma TooManyRequestsHeadersAgree(limit: int, resetTime: int, now: int)
    ensures var r := TooManyRequests(limit, resetTime, now);
            && ParseInt(r.headers["Retry-After"]) == Int(r.body.retryAfter.value)
            && ParseInt(r.headers["X-RateLimit-Limit"]) == Int(limit)
            && ParseInt(r.headers["X-RateLimit-Reset"]) == Int(resetTime)
  {
    var r := TooManyRequests(limit, resetTime, now);
    var resetIn := RetryAfterSeconds(resetTime, now);
    assert r.headers["Retry-After"] == IntToString(resetIn);
    assert r.headers["X-RateLimit-Limit"] == IntToString(limit);
    assert r.headers["X-RateLimit-Reset"] == IntToString(resetTime);
    ParseIntToString(resetIn);
    ParseIntToString(limit);
    ParseIntToString(resetTime);
  }

  /** `checkRateLimit`: runs `check` for the caller's identifier and answers
      `null` exactly when the call is admitted, or the 429 response when it
      is refused. */
  method CheckRateLimit(limiter: RateLimiter, request: Request, now: int,
                        limit: int := DefaultLimit, windowMs: int := DefaultWindowMs)
    returns (denial: Option<Response>)
    modifies limiter
    ensures var s := Admit(Find(old(limiter.requests), GetClientIP(request.headers)), limit, windowMs, now);
            && limiter.requests == old(limiter.requests)[GetClientIP(request.headers) := s.record]
            && (denial.None? <==> s.result.allowed)
            && (denial.Some? ==> denial.value == TooManyRequests(limit, s.result.resetTime, now))
  {
    var ip := GetClientIP(request.headers);
    var result := limiter.Check(ip, now, limit, windowMs);
    if !result.allowed {
      return Some(TooManyRequests(limit, result.resetTime, now));
    }
    return None;
  }

  /** `applyRateLimitHeaders`: the response with the three `X-RateLimit-*`
      headers set from a check result; status, body and other headers are
      kept. */
  function ApplyRateLimitHeaders(response: Response, result: CheckResult, limit: int): (r: Response)
    ensures r.status == response.status && r.body == response.body
    ensures r.headers.Keys == response.headers.Keys + RateLimitHeaderNames
    ensures forall h :: h in response.headers && h !in RateLimitHeaderNames ==> r.headers[h] == response.headers[h]
  {
    response.(headers := response.headers["X-RateLimit-Limit" := IntToString(limit)]
                                         ["X-RateLimit-Remaining" := IntToString(result.remaining)]
                                         ["X-RateLimit-Reset" := IntToString(result.resetTime)])
  }

  /** The headers set by `applyRateLimitHeaders` read back as the limit and
      the check result. */
  lemma RateLimitHeadersAgree(response: Response, result: CheckResult, limit: int)
    ensures var r := ApplyRateLimitHeaders(response, result, limit);
            && ParseInt(r.headers["X-RateLimit-Limit"]) == Int(limit)
            && ParseInt(r.headers["X-RateLimit-Remaining"]) == Int(result.remaining)
            && ParseInt(r.headers["X-RateLimit-Reset"]) == Int(result.resetTime)
  {
    var r := ApplyRateLimitHeaders(response, result, limit);
    assert r.headers["X-RateLimit-Limit"] == IntToString(limit);
    assert r.headers["X-RateLimit-Remaining"] == IntToString(result.remaining);
    assert r.headers["X-RateLimit-Reset"] == IntToString(result.resetTime);
    ParseIntToString(limit);
    ParseIntToString(result.remaining);
    ParseIntToString(result.resetTime);
  }

  const RateLimitHeaderNames: set<string> := {"X-RateLimit-Limit", "X-RateLimit-Remaining", "X-RateLimit-Reset"}
}
