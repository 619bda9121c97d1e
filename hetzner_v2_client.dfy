/** `HetznerAPIClient` of the refactored Hetzner collector
    (`scripts/fetch_hetzner_v2.py`): a response cache that is never
    pruned, a request loop that rate-limits every attempt and retries most
    failures, and the credential guards of the Cloud and Robot requests.
    The clock is a parameter in whole seconds, sleeps are returned as a
    list of delays, and each attempt's outcome is given. */
module HetznerV2Client {

  import opened Wrappers
  import opened PyJson
  import opened Http

  const CloudApiUrl: string := "https://api.hetzner.cloud/v1"
  const RobotApiUrl: string := "https://robot.hetzner.com"
  /** Seconds slept before every attempt, the first included. */
  const RateLimitDelay: real := 0.1
  const ApiRetryCount: int := 3
  /** Seconds a cached response stays valid. */
  const CacheDuration: int := 300

  /** `2 ** attempt` seconds. */
  function Backoff(attempt: nat): real {
    Pow2(attempt) as real
  }

  /** Each later attempt backs off strictly longer, starting from one second. */
  lemma BackoffGrows(m: nat, n: nat)
    requires m < n
    ensures Backoff(0) == 1.0 && Backoff(m) < Backoff(n)
  {
    Pow2Grows(m, n);
  }

  /** An entry younger than the cache lifetime at `now`. */
  predicate FreshIn(entries: map<string, (Json, int)>, key: string, now: int) {
    key in entries && now - entries[key].1 < CacheDuration
  }

  /** The module-level `_api_cache`. */
  class ResponseCache {
    var entries: map<string, (Json, int)>

    constructor ()
      ensures entries == map[]
    {
      entries := map[];
    }

    /** `_get_from_cache`: the stored response while it is fresh. An
        expired entry is left in place. */
    method GetFromCache(key: string, now: int) returns (r: Option<Json>)
      ensures FreshIn(entries, key, now) ==> r == Some(entries[key].0)
      ensures !FreshIn(entries, key, now) ==> r.None?
    {
      if key in entries {
        var (data, timestamp) := entries[key];
        if now - timestamp < CacheDuration {
          return Some(data);
        }
      }
      return None;
    }

    /** `_set_cache`: store the response under the key, stamped `now`. */
    method SetCache(key: string, data: Json, now: int)
      modifies this
      ensures entries == old(entries)[key := (data, now)]
    {
      entries := entries[key := (data, now)];
    }
  }

  // ---------------------------------------------------------------------
  // The request loop of `_make_request`

  /** What the loop body does with the outcome of one attempt. */
  datatype Step =
    | Return(data: Option<Json>)  // the method returns `data`
    | Next(wait: seq<real>)       // the loop goes on after sleeping `wait`
    | Raise                       // an exception leaves the method

  /** One pass of the loop body after the request. Only 200 and 401 end
      the loop; 429 backs off `2 ** attempt` seconds even on the last
      attempt; every other status loops again at once. A `RequestException`
      (timeouts, connection errors, and a 200 body that does not decode)
      backs off only before the last attempt. Any other exception is not
      caught. */
  function StepOf(outcome: Attempt, attempt: nat, retryCount: int): Step {
    var transient := Next(if attempt < retryCount then [Backoff(attempt)] else []);
    match outcome
    case Reply(status, body) =>
      if status == 200 then (if body.Some? then Return(body) else transient)
      else if status == 401 then Return(None)
      else if status == 429 then Next([Backoff(attempt)])
      else Next([])
    case Timeout => transient
    case ConnectionError => transient
    case RequestFailed => transient
    case Crashed => Raise
  }

  /** The response returned (`None` also when the attempts run out),
      whether an exception escaped instead, the delays slept and the number
      of requests sent. */
  datatype Trace = Trace(result: Option<Json>, raised: bool, sleeps: seq<real>, requests: nat)

  /** The attempts from `attempt` on, given the outcome of every attempt. */
  function Attempts(respond: nat -> Attempt, retryCount: int, attempt: nat): Trace
    decreases retryCount + 1 - attempt
  {
    if attempt > retryCount then Trace(None, false, [], 0)
    else
      match StepOf(respond(attempt), attempt, retryCount)
      case Return(data) => Trace(data, false, [RateLimitDelay], 1)
      case Raise => Trace(None, true, [RateLimitDelay], 1)
      case Next(wait) =>
        var rest := Attempts(respond, retryCount, attempt + 1);
        Trace(rest.result, rest.raised, [RateLimitDelay] + wait + rest.sleeps, 1 + rest.requests)
  }

  /** At most `retryCount + 1` requests are sent, each after the
      rate-limit delay; a response is returned only as the decoded body of
      an attempt answered with 200, and never together with an exception. */
  lemma {:induction false} AttemptsBounded(respond: nat -> Attempt, retryCount: int, attempt: nat)
    ensures var t := Attempts(respond, retryCount, attempt);
      && (attempt <= retryCount ==> 1 <= t.requests <= retryCount + 1 - attempt)
      && (attempt > retryCount ==> t.requests == 0)
      && (t.requests > 0 ==> t.sleeps[0] == RateLimitDelay)
      && !(t.raised && t.result.Some?)
      && (t.result.Some? ==> exists i :: attempt <= i <= retryCount && respond(i) == Reply(200, t.result))
    decreases retryCount + 1 - attempt
  {
    if attempt <= retryCount && StepOf(respond(attempt), attempt, retryCount).Next? {
      AttemptsBounded(respond, retryCount, attempt + 1);
    }
  }

  /** A server that answers every attempt with a status other than 200,
      401 and 429 (403, 404 and 5xx included) gets every one of the
      `retryCount + 1` attempts, with nothing slept but the rate-limit
      delays. */
  lemma {:induction false} PlainStatusesRetried(respond: nat -> Attempt, retryCount: int, attempt: nat)
    requires forall i :: respond(i).Reply? && respond(i).status !in {200, 401, 429}
    requires attempt <= retryCount + 1
    ensures Attempts(respond, retryCount, attempt) ==
      Trace(None, false, seq(retryCount + 1 - attempt, _ => RateLimitDelay), retryCount + 1 - attempt)
    decreases retryCount + 1 - attempt
  {
    if attempt <= retryCount {
      PlainStatusesRetried(respond, retryCount, attempt + 1);
      var n := retryCount + 1 - attempt;
      assert seq(n, _ => RateLimitDelay) == [RateLimitDelay] + seq(n - 1, _ => RateLimitDelay);
    }
  }

  /** The sleeps of a request whose every attempt fails with a
      `RequestException`: the rate-limit delay before each attempt and the
      backoff after each attempt but the last. */
  function TransientSleeps(retryCount: int, attempt: nat): seq<real>
    decreases retryCount + 1 - attempt
  {
    if attempt > retryCount then []
    else [RateLimitDelay] + (if attempt < retryCount then [Backoff(attempt)] else []) + TransientSleeps(retryCount, attempt + 1)
  }

  lemma {:induction false} AlwaysTransient(respond: nat -> Attempt, retryCount: int, attempt: nat)
    requires forall i :: respond(i) in {Timeout, ConnectionError, RequestFailed}
    requires attempt <= retryCount + 1
    ensures Attempts(respond, retryCount, attempt) ==
      Trace(None, false, TransientSleeps(retryCount, attempt), retryCount + 1 - attempt)
    decreases retryCount + 1 - attempt
  {
    if attempt <= retryCount {
      AlwaysTransient(respond, retryCount, attempt + 1);
    }
  }

  /** 401 ends the request at once, after a single rate-limit delay; an
      exception from outside `requests` escapes likewise. */
  lemma FirstAttemptEnds(respond: nat -> Attempt, retryCount: int)
    requires retryCount >= 0
    ensures respond(0).Reply? && respond(0).status == 401 ==> Attempts(respond, retryCount, 0) == Trace(None, false, [RateLimitDelay], 1)
    ensures respond(0) == Crashed ==> Attempts(respond, retryCount, 0) == Trace(None, true, [RateLimitDelay], 1)
  {
  }

  /** The branches of the loop body on one attempt's outcome. */
  method HandleAttempt(outcome: Attempt, attempt: nat, retryCount: int) returns (step: Step)
    ensures step == StepOf(outcome, attempt, retryCount)
  {
    var transient := Next(if attempt < retryCount then [Backoff(attempt)] else []);
    match outcome {
      case Reply(status, body) =>
        if status == 200 && body.Some? {
          step := Return(body);
        } else if status == 200 {
          step := transient;
        } else if status == 401 {
          step := Return(None);
        } else if status == 429 {
          step := Next([Backoff(attempt)]);
        } else {
          step := Next([]);
        }
      case Crashed =>
        step := Raise;
      case _ =>
        step := transient;
    }
  }

  /** The trace of a request that has slept `sleeps` and sent `requests`
      requests so far and goes on with attempt `attempt`. */
  function Resume(respond: nat -> Attempt, retryCount: int, attempt: nat, sleeps: seq<real>, requests: nat): Trace {
    var rest := Attempts(respond, retryCount, attempt);
    Trace(rest.result, rest.raised, sleeps + rest.sleeps, requests + rest.requests)
  }

  /** One attempt of the loop, in terms of `Resume`: a repeated attempt
      resumes with the next one after its delays; a final one ends the
      trace. */
  lemma ResumeStep(respond: nat -> Attempt, retryCount: int, attempt: nat, sleeps: seq<real>, requests: nat)
    requires attempt as int <= retryCount
    ensures var slept := sleeps + [RateLimitDelay];
      match StepOf(respond(attempt), attempt, retryCount)
      case Next(wait) =>
        Resume(respond, retryCount, attempt, sleeps, requests) ==
        Resume(respond, retryCount, attempt + 1, slept + wait, requests + 1)
      case Return(data) => Resume(respond, retryCount, attempt, sleeps, requests) == Trace(data, false, slept, requests + 1)
      case Raise => Resume(respond, retryCount, attempt, sleeps, requests) == Trace(None, true, slept, requests + 1)
  {
    var next := Attempts(respond, retryCount, attempt + 1);
    match StepOf(respond(attempt), attempt, retryCount)
    case Next(wait) =>
      assert sleeps + ([RateLimitDelay] + wait + next.sleeps) == (sleeps + [RateLimitDelay] + wait) + next.sleeps;
    case Return(data) =>
    case Raise =>
  }

  /** The request loop, storing a 200 response in the cache under `key`
      once the loop has returned it. */
  method RequestLoop(cache: ResponseCache, key: string, respond: nat -> Attempt, retryCount: int, now: int)
    returns (t: Trace)
    modifies cache
    ensures t == Attempts(respond, retryCount, 0)
    ensures cache.entries == if t.result.Some? then old(cache.entries)[key := (t.result.value, now)] else old(cache.entries)
  {
    var sleeps: seq<real> := [];
    var requests: nat := 0;
    var attempt: nat := 0;
    var result: Option<Json> := None;
    var raised := false;
    var done := false;
    assert Resume(respond, retryCount, 0, [], 0) == Attempts(respond, retryCount, 0);
    while !done && attempt as int <= retryCount
      invariant attempt == 0 || attempt as int <= retryCount + 1
      invariant done ==> Attempts(respond, retryCount, 0) == Trace(result, raised, sleeps, requests)
      invariant !done ==> result == None && !raised
      invariant !done ==> Attempts(respond, retryCount, 0) == Resume(respond, retryCount, attempt, sleeps, requests)
      invariant cache.entries == old(cache.entries)
      decreases !done, retryCount + 1 - attempt
    {
      ResumeStep(respond, retryCount, attempt, sleeps, requests);
      sleeps := sleeps + [RateLimitDelay];
      requests := requests + 1;
      var step := HandleAttempt(respond(attempt), attempt, retryCount);
      match step {
        case Return(data) =>
          result, done := data, true;
        case Raise =>
          raised, done := true, true;
        case Next(wait) =>
          sleeps := sleeps + wait;
          attempt := attempt + 1;
      }
    }
    if !done {
      assert sleeps + [] == sleeps;
    }
    if result.Some? {
      cache.SetCache(key, result.value, now);
    }
    t := Trace(result, raised, sleeps, requests);
  }

  /** `_make_request`: the cache key is `http_<url>_<str(headers)>`; a
      fresh, non-null cached response is returned without any request. */
  method MakeRequest(cache: ResponseCache, url: string, headersText: string, respond: nat -> Attempt, now: int)
    returns (t: Trace)
    modifies cache
    ensures var key := "http_" + url + "_" + headersText;
      if FreshIn(old(cache.entries), key, now) && old(cache.entries)[key].0 != JNull then
        t == Trace(Some(old(cache.entries)[key].0), false, [], 0) && cache.entries == old(cache.entries)
      else
        t == Attempts(respond, ApiRetryCount, 0) &&
        cache.entries == if t.result.Some? then old(cache.entries)[key := (t.result.value, now)] else old(cache.entries)
  {
    var key := "http_" + url + "_" + headersText;
    var cached := cache.GetFromCache(key, now);
    if cached.Some? && cached.value != JNull {
      return Trace(cached, false, [], 0);
    }
    t := RequestLoop(cache, key, respond, ApiRetryCount, now);
  }

  /** `str(headers)` of a Cloud API request: the dict's repr, exact for a
      token without quote characters or backslashes, which Python's repr
      would escape or quote differently. Either way the key determines the
      token, so distinct tokens never share a cache entry. */
  function CloudHeadersText(token: string): string {
    "{'Authorization': 'Bearer " + token + "', 'Content-Type': 'application/json'}"
  }

  const RobotHeadersText: string := "{'Content-Type': 'application/json'}"

  /** `cloud_api_request`: without a token nothing is looked up or sent. */
  method CloudApiRequest(cache: ResponseCache, token: string, endpoint: string, respond: nat -> Attempt, now: int)
    returns (t: Trace)
    modifies cache
    ensures token == [] ==> t == Trace(None, false, [], 0) && cache.entries == old(cache.entries)
    ensures token != [] ==> var key := "http_" + Url(CloudApiUrl, endpoint) + "_" + CloudHeadersText(token);
      if FreshIn(old(cache.entries), key, now) && old(cache.entries)[key].0 != JNull then
        t == Trace(Some(old(cache.entries)[key].0), false, [], 0) && cache.entries == old(cache.entries)
      else
        t == Attempts(respond, ApiRetryCount, 0) &&
        cache.entries == if t.result.Some? then old(cache.entries)[key := (t.result.value, now)] else old(cache.entries)
  {
    if token == [] {
      return Trace(None, false, [], 0);
    }
    t := MakeRequest(cache, Url(CloudApiUrl, endpoint), CloudHeadersText(token), respond, now);
  }

  /** `robot_api_request`: without both user and password nothing is
      looked up or sent. The credentials are not part of the cache key. */
  method RobotApiRequest(cache: ResponseCache, user: string, password: string, endpoint: string,
                         respond: nat -> Attempt, now: int)
    returns (t: Trace)
    modifies cache
    ensures user == [] || password == [] ==> t == Trace(None, false, [], 0) && cache.entries == old(cache.entries)
    ensures user != [] && password != [] ==> var key := "http_" + Url(RobotApiUrl, endpoint) + "_" + RobotHeadersText;
      if FreshIn(old(cache.entries), key, now) && old(cache.entries)[key].0 != JNull then
        t == Trace(Some(old(cache.entries)[key].0), false, [], 0) && cache.entries == old(cache.entries)
      else
        t == Attempts(respond, ApiRetryCount, 0) &&
        cache.entries == if t.result.Some? then old(cache.entries)[key := (t.result.value, now)] else old(cache.entries)
  {
    if user == [] || password == [] {
      return Trace(None, false, [], 0);
    }
    t := MakeRequest(cache, Url(RobotApiUrl, endpoint), RobotHeadersText, respond, now);
  }
}
