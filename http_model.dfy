/** What one HTTP attempt of the Hetzner API clients can end in, as the
    `requests` library reports it. The network itself is not modelled: a
    client is given the outcome of each attempt. */
module Http {

  import opened Wrappers
  import opened PyJson

  /** The outcome of one `requests.get`: a response with a status code and,
      for a body that decodes as JSON, that value (`None` when
      `response.json()` raises); a timeout; a connection error; any other
      `RequestException`; or an exception from outside `requests`. */
  datatype Attempt =
    | Reply(status: int, body: Option<Json>)
    | Timeout
    | ConnectionError
    | RequestFailed
    | Crashed

  /** `2 ** n` for a non-negative exponent. */
  function Pow2(n: nat): (r: nat)
    ensures r >= 1
  {
    if n == 0 then 1 else 2 * Pow2(n - 1)
  }

  lemma {:induction false} Pow2Grows(m: nat, n: nat)
    requires m < n
    ensures Pow2(m) < Pow2(n)
  {
    if m + 1 < n {
      Pow2Grows(m, n - 1);
    }
  }

  /** 5xx: a server error. */
  predicate ServerError(status: int) {
    500 <= status < 600
  }

  /** `s.lstrip(c)`: `s` without its leading run of `c`. */
  function LStrip(s: string, c: char): (r: string)
    ensures |r| <= |s| && r == s[|s| - |r|..]
    ensures r == [] || r[0] != c
  {
    if s != [] && s[0] == c then LStrip(s[1..], c) else s
  }

  /** The URL a client builds from its base URL and an endpoint. */
  function Url(base: string, endpoint: string): string {
    base + "/" + LStrip(endpoint, '/')
  }
}
