/** The HTTP side of the first Hetzner collector (`scripts/fetch_hetzner.py`):
    the module-level response cache with a five-minute lifetime and the
    retrying Cloud and Robot API requests. Time is a clock reading in seconds passed in; sleeps are returned as the
    list of delays the request would have slept for; the credentials are
    parameters. */
module HetznerV1Client {

  import opened Wrappers
  import opened PyJson
  import opened Http

  const ApiBaseUrl: string := "https://api.hetzner.cloud/v1"
  const RobotApiBaseUrl: string := "https://robot-ws.your-server.de"
  /** Seconds slept before every attempt after the first. */
  const RateLimitDelay: real := 0.1
  const DefaultRetryCount: int := 3
  /** The first backoff, in seconds; it doubles with each attempt. */
  const RetryDelay: real := 1.0
  /** Seconds a cached response stays valid. */
  const CacheDuration: int := 300

  /** The backoff slept after attempt `attempt`: `API_RETRY_DELAY * 2 ** attempt`. */
  function Backoff(attempt: nat): real {
    RetryDelay * Pow2(attempt) as real
  }

  /** Each later attempt backs off strictly longer, starting from `API_RETRY_DELAY`. */
  lemma BackoffGrows(m: nat, n: nat)
    requires m < n
    ensures Backoff(0) == RetryDelay && Backoff(m) < Backoff(n)
  {
    Pow2Grows(m, n);
  }

  /** An entry younger than the cache lifetime at `now`. */
  predicate FreshIn(entries: map<string, (Json, int)>, key: string, now: int) {
    key in entries && now - entries[key].1 < CacheDuration
  }

  /** The cache after a lookup: an expired entry is gone. */
  function Pruned(entries: map<string, (Json, int)>, key: string, now: int): map<string, (Json, int)> {
    if FreshIn(entries, key, now) then entries else entries - {key}
  }

  /** A lookup that answers the request: a fresh entry whose response is
      not JSON `null` (a cached `None` reads as a miss). */
  predicate CacheHit(entries: map<string, (Json, int)>, key: string, now: int) {
    FreshIn(entries, key, now) && entries[key].0 != JNull
  }

  /** The cache after a request: a response is stored, stamped `now`. */
  function Stored(entries: map<string, (Json, int)>, key: string, result: Option<Json>, now: int): map<string, (Json, int)> {
    if result.Some? then entries[key := (result.value, now)] else entries
  }

  /** `_api_cache`: cache key to the response and the time it was stored. */
  class ApiCache {
    var entries: map<string, (Json, int)>

    constructor ()
      ensures entries == map[]
    {
      entries := map[];
    }

    predicate Fresh(key: string, now: int)
      reads this
    {
      FreshIn(entries, key, now)
    }

    /** `get_from_cache`: the stored response while it is fresh; an
        expired entry is deleted, and nothing else changes. */
    method GetFromCache(key: string, now: int) returns (r: Option<Json>)
      modifies this
      ensures old(Fresh(key, now)) ==> r == Some(old(entries)[key].0) && entries == old(entries)
      ensures !old(Fresh(key, now)) ==> r.None? && entries == old(entries) - {key}
    {
      if key in entries {
        var (data, timestamp) := entries[key];
        if now - timestamp < CacheDuration {
          return Some(data);
        }
        entries := entries - {key};
      }
      r := None;
    }

    /** `set_cache`: store the response under the key, stamped `now`. */
    method SetCache(key: string, data: Json, now: int)
      modifies this
      ensures entries == old(entries)[key := (data, now)]
    {
      entries := entries[key := (data, now)];
    }
  }

  // ---------------------------------------------------------------------
  // The retry loop of `make_api_request` and `make_robot_api_request`

  /** What the loop body does with the outcome of one attempt. */
  datatype Step =
    | Return(data: Option<Json>)  // the function returns `data`
    | Retry(wait: seq<real>)      // the loop goes on after sleeping `wait`
    | Stop                        // `break`

  /** One pass of the loop body after the request. 401, 403, 404 and any
      status other than 200, 429 and 5xx end the request; 429 always backs
      off and goes on; a 5xx, a timeout or a connection error backs off and
      goes on only before the last attempt (on the last one the loop simply
      ends); any other exception, including an undecodable 200 body, breaks
      out of the loop. */
  function StepOf(outcome: Attempt, attempt: nat, retryCount: int): Step {
    var transient := Retry(if attempt < retryCount then [Backoff(attempt)] else []);
    match outcome
    case Reply(status, body) =>
      if status == 200 then (if body.Some? then Return(body) else Stop)
      else if status == 401 || status == 403 || status == 404 then Return(None)
      else if status == 429 then Retry([Backoff(attempt)])
      else if ServerError(status) then transient
      else Return(None)
    case Timeout => transient
    case ConnectionError => transient
    case RequestFailed => Stop
    case Crashed => Stop
  }

  /** The response returned (`None` also when the loop runs out), the
      delays slept, and the number of requests sent. */
  datatype Trace = Trace(result: Option<Json>, sleeps: seq<real>, requests: nat)

  /** The attempts from `attempt` on, given the outcome of every attempt. */
  function Attempts(respond: nat -> Attempt, retryCount: int, attempt: nat): Trace
    decreases retryCount + 1 - attempt
  {
    if attempt > retryCount then Trace(None, [], 0)
    else
      var pause := if attempt > 0 then [RateLimitDelay] else [];
      match StepOf(respond(attempt), attempt, retryCount)
      case Return(data) => Trace(data, pause, 1)
      case Stop => Trace(None, pause, 1)
      case Retry(wait) =>
        var rest := Attempts(respond, retryCount, attempt + 1);
        Trace(rest.result, pause + wait + rest.sleeps, 1 + rest.requests)
  }

  /** At most `retryCount + 1` requests are sent, at least one unless the
      count is negative; a response is returned only as the decoded body of
      some attempt answered with 200. */
  lemma {:induction false} AttemptsBounded(respond: nat -> Attempt, retryCount: int, attempt: nat)
    ensures attempt <= retryCount ==> 1 <= Attempts(respond, retryCount, attempt).requests <= retryCount + 1 - attempt
    ensures attempt > retryCount ==> Attempts(respond, retryCount, attempt).requests == 0
    ensures Attempts(respond, retryCount, attempt).result.Some? ==>
      exists i :: attempt <= i <= retryCount && respond(i) == Reply(200, Attempts(respond, retryCount, attempt).result)
    decreases retryCount + 1 - attempt
  {
    if attempt <= retryCount && StepOf(respond(attempt), attempt, retryCount).Retry? {
      AttemptsBounded(respond, retryCount, attempt + 1);
    }
  }

  /** The sleeps of a request whose every attempt fails transiently: the
      rate-limit delay before each attempt after the first, and the backoff
      after each attempt but the last. */
  function TransientSleeps(retryCount: int, attempt: nat): seq<real>
    decreases retryCount + 1 - attempt
  {
    if attempt > retryCount then []
    else
      (if attempt > 0 then [RateLimitDelay] else []) +
      (if attempt < retryCount then [Backoff(attempt)] else []) +
      TransientSleeps(retryCount, attempt + 1)
  }

  /** A server that always answers 5xx gets exactly `retryCount + 1`
      requests, backing off `1, 2, 4, ...` seconds between them, and the
      request returns `None`. */
  lemma {:induction false} AlwaysServerError(respond: nat -> Attempt, retryCount: int, attempt: nat)
    requires forall i :: respond(i).Reply? && ServerError(respond(i).status)
    requires attempt <= retryCount + 1
    ensures Attempts(respond, retryCount, attempt) ==
      Trace(None, TransientSleeps(retryCount, attempt), retryCount + 1 - attempt)
    decreases retryCount + 1 - attempt
  {
    if attempt <= retryCount {
      AlwaysServerError(respond, retryCount, attempt + 1);
    }
  }

  /** A terminal status on the first attempt ends the request at once:
      one request, no sleep, no response. */
  lemma TerminalStatusStops(respond: nat -> Attempt, retryCount: int)
    requires retryCount >= 0 && respond(0).Reply?
    requires var s := respond(0).status; s != 200 && s != 429 && !ServerError(s)
    ensures Attempts(respond, retryCount, 0) == Trace(None, [], 1)
  {
  }

  /** On the last attempt a 429 still sleeps its backoff, while a 5xx,
      a timeout or a connection error does not. */
  lemma LastAttemptBackoff(respond: nat -> Attempt, retryCount: nat)
    ensures respond(retryCount).Reply? && respond(retryCount).status == 429 ==>
      Attempts(respond, retryCount, retryCount).sleeps ==
        (if retryCount > 0 then [RateLimitDelay] else []) + [Backoff(retryCount)]
    ensures (respond(retryCount) == Timeout || respond(retryCount) == ConnectionError ||
             (respond(retryCount).Reply? && ServerError(respond(retryCount).status))) ==>
      Attempts(respond, retryCount, retryCount).sleeps == (if retryCount > 0 then [RateLimitDelay] else [])
  {
    assert Attempts(respond, retryCount, retryCount + 1) == Trace(None, [], 0);
  }

  /** The branches of the loop body on one attempt's outcome. */
  method HandleAttempt(outcome: Attempt, attempt: nat, retryCount: int) returns (step: Step)
    ensures step == StepOf(outcome, attempt, retryCount)
  {
    var transient := Retry(if attempt < retryCount then [Backoff(attempt)] else []);
    match outcome {
      case Reply(status, body) =>
        if status == 200 {
          step := if body.Some? then Return(body) else Stop;
        } else if status == 401 || status == 403 || status == 404 {
          step := Return(None);
        } else if status == 429 {
          step := Retry([Backoff(attempt)]);
        } else if ServerError(status) {
          step := transient;
        } else {
          step := Return(None);
        }
      case Timeout =>
        step := transient;
      case ConnectionError =>
        step := transient;
      case RequestFailed =>
        step := Stop;
      case Crashed =>
        step := Stop;
    }
  }

  /** The trace of a request that has slept `sleeps` and sent `requests`
      requests so far and goes on with attempt `attempt`. */
  function Resume(respond: nat -> Attempt, retryCount: int, attempt: nat, sleeps: seq<real>, requests: nat): Trace {
    var rest := Attempts(respond, retryCount, attempt);
    Trace(rest.result, sleeps + rest.sleeps, requests + rest.requests)
  }

  /** One attempt of the loop, in terms of `Resume`: a retried attempt
      resumes with the next one after its delays; a final one ends the
      trace. */
  lemma ResumeStep(respond: nat -> Attempt, retryCount: int, attempt: nat, sleeps: seq<real>, requests: nat)
    requires attempt as int <= retryCount
    ensures var slept := sleeps + (if attempt > 0 then [RateLimitDelay] else []);
      match StepOf(respond(attempt), attempt, retryCount)
      case Retry(wait) =>
        Resume(respond, retryCount, attempt, sleeps, requests) ==
        Resume(respond, retryCount, attempt + 1, slept + wait, requests + 1)
      case Return(data) => Resume(respond, retryCount, attempt, sleeps, requests) == Trace(data, slept, requests + 1)
      case Stop => Resume(respond, retryCount, attempt, sleeps, requests) == Trace(None, slept, requests + 1)
  {
    var next := Attempts(respond, retryCount, attempt + 1);
    var pause := if attempt > 0 then [RateLimitDelay] else [];
    match StepOf(respond(attempt), attempt, retryCount)
    case Retry(wait) =>
      assert sleeps + (pause + wait + next.sleeps) == (sleeps + pause + wait) + next.sleeps;
    case Return(data) =>
    case Stop =>
  }

  /** The retry loop, storing a 200 response in the cache under `key` once
      the loop has returned it. */
  method RetryLoop(cache: ApiCache, key: string, respond: nat -> Attempt, retryCount: int, now: int) returns (t: Trace)
    modifies cache
    ensures t == Attempts(respond, retryCount, 0)
    ensures cache.entries == Stored(old(cache.entries), key, t.result, now)
  {
    var sleeps: seq<real> := [];
    var requests: nat := 0;
    var attempt: nat := 0;
    var result: Option<Json> := None;
    var done := false;
    assert Resume(respond, retryCount, 0, [], 0) == Attempts(respond, retryCount, 0);
    while !done && attempt as int <= retryCount
      invariant attempt == 0 || attempt as int <= retryCount + 1
      invariant done ==> Attempts(respond, retryCount, 0) == Trace(result, sleeps, requests)
      invariant !done ==> result == None
      invariant !done ==> Attempts(respond, retryCount, 0) == Resume(respond, retryCount, attempt, sleeps, requests)
      invariant cache.entries == old(cache.entries)
      decreases !done, retryCount + 1 - attempt
    {
      ResumeStep(respond, retryCount, attempt, sleeps, requests);
      if attempt > 0 {
        sleeps := sleeps + [RateLimitDelay];
      }
      requests := requests + 1;
      var step := HandleAttempt(respond(attempt), attempt, retryCount);
      match step {
        case Return(data) =>
          result, done := data, true;
        case Stop =>
          done := true;
        case Retry(wait) =>
          sleeps := sleeps + wait;
          attempt := attempt + 1;
      }
    }
    if !done {
      assert sleeps + [] == sleeps;
    }
    if result.Some? {
      cache.SetCache(key, result.value, now);
    }
    t := Trace(result, sleeps, requests);
  }

  /** The cache key of a Cloud API request; `paramsText` is `str(params or {})`. */
  function CloudKey(endpoint: string, paramsText: string): string {
    Url(ApiBaseUrl, endpoint) + "_" + paramsText
  }

  /** The cache key of a Robot API request. */
  function RobotKey(endpoint: string, paramsText: string): string {
    "robot_" + Url(RobotApiBaseUrl, endpoint) + "_" + paramsText
  }

  /** `make_api_request`: a cache hit is returned without any request;
      otherwise the retry loop runs, after the lookup has dropped an
      expired entry. */
  method MakeApiRequest(cache: ApiCache, endpoint: string, paramsText: string,
                        respond: nat -> Attempt, retryCount: int, now: int) returns (t: Trace)
    modifies cache
    ensures var key := CloudKey(endpoint, paramsText);
      if CacheHit(old(cache.entries), key, now) then
        t == Trace(Some(old(cache.entries)[key].0), [], 0) && cache.entries == old(cache.entries)
      else
        t == Attempts(respond, retryCount, 0) &&
        cache.entries == Stored(Pruned(old(cache.entries), key, now), key, t.result, now)
  {
    var key := CloudKey(endpoint, paramsText);
    var cached := cache.GetFromCache(key, now);
    if cached.Some? && cached.value != JNull {
      return Trace(cached, [], 0);
    }
    t := RetryLoop(cache, key, respond, retryCount, now);
  }

  /** `make_robot_api_request`: like `make_api_request`, but without both
      credentials it returns `None` after the cache lookup and before any
      request. */
  method MakeRobotApiRequest(cache: ApiCache, endpoint: string, paramsText: string,
                             user: string, password: string,
                             respond: nat -> Attempt, retryCount: int, now: int) returns (t: Trace)
    modifies cache
    ensures var key := RobotKey(endpoint, paramsText);
      if CacheHit(old(cache.entries), key, now) then
        t == Trace(Some(old(cache.entries)[key].0), [], 0) && cache.entries == old(cache.entries)
      else if user == "" || password == "" then
        t == Trace(None, [], 0) && cache.entries == Pruned(old(cache.entries), key, now)
      else
        t == Attempts(respond, retryCount, 0) &&
        cache.entries == Stored(Pruned(old(cache.entries), key, now), key, t.result, now)
  {
    var key := RobotKey(endpoint, paramsText);
    var cached := cache.GetFromCache(key, now);
    if cached.Some? && cached.value != JNull {
      return Trace(cached, [], 0);
    }
    if user == "" || password == "" {
      return Trace(None, [], 0);
    }
    t := RetryLoop(cache, key, respond, retryCount, now);
  }

  /** A stored response answers the same request until it is five minutes
      old, so a repeated request within that time sends nothing. */
  lemma StoredIsHit(entries: map<string, (Json, int)>, key: string, data: Json, now: int, later: int)
    requires data != JNull && now <= later < now + CacheDuration
    ensures CacheHit(Stored(entries, key, Some(data), now), key, later)
    ensures !FreshIn(Stored(entries, key, Some(data), now), key, now + CacheDuration)
  {
  }
}
