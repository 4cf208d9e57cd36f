/** The resilient request executor shared by every upstream client: a bounded retry loop
    with exponential backoff that turns transport failures into data. The transport is a
    scripted sequence of outcomes, one per attempt, and the sleeps are returned as the
    schedule of delays the executor waits between attempts. */
module Resilience {
  import opened Wrappers
  import opened Json
  import opened Text

  /** The body of an HTTP response: JSON that parsed, or text that did not. */
  datatype Body = Parsed(value: Json) | Unparsable(text: string)

  /** What one attempt of the transport yields. The exception variants carry the name of
      the exception class (`ReadTimeout`, `ConnectError`, ...). */
  datatype Outcome =
    | Response(status: int, body: Body)
    | Timeout(className: string)
    | NetworkError(className: string)

  const FailurePrefix := "upstream communication failure: "
  const ExhaustedDetail := FailurePrefix + "exhausted retries"

  /** The body as it was decoded, before any wrapping. */
  function Raw(body: Body): Json
  {
    match body
    case Parsed(v) => v
    case Unparsable(t) => JStr(t)
  }

  /** `_response_payload`: always a mapping. A dict is kept as it is; anything else, parsed
      or not, ends up as the only entry of `{"detail": ...}`. */
  function ResponsePayload(body: Body): (p: Json)
    ensures p.JDict?
    ensures Raw(body).JDict? ==> p == Raw(body)
    ensures !Raw(body).JDict? ==> |p.entries| == 1 && Lookup(p.entries, JStr("detail")) == Some(Raw(body))
  {
    match body
    case Parsed(v) => if v.JDict? then v else DetailDict(v)
    case Unparsable(t) => DetailDict(JStr(t))
  }

  /** `retry_status_codes and status in retry_status_codes`: `None` and the empty set both
      switch status retries off. */
  predicate RetryableStatus(codes: Option<set<int>>, status: int)
  {
    codes.Some? && codes.value != {} && status in codes.value
  }

  /** An outcome after which the loop tries again, if an attempt is left. */
  predicate Retryable(o: Outcome, codes: Option<set<int>>)
  {
    o.Timeout? || o.NetworkError? || RetryableStatus(codes, o.status)
  }

  /** What the executor returns when `o` is the outcome of its last attempt. */
  function Final(o: Outcome): (int, Json)
  {
    match o
    case Response(s, b) => (s, ResponsePayload(b))
    case Timeout(c) => (503, DetailDict(JStr(FailurePrefix + c)))
    case NetworkError(c) => (503, DetailDict(JStr(FailurePrefix + c)))
  }

  /** How many attempts `range(max_retries + 1)` allows. */
  function Attempts(maxRetries: int): nat
  {
    if maxRetries < 0 then 0 else maxRetries + 1
  }

  function Pow2(k: nat): (r: nat)
    ensures r >= 1
  {
    if k == 0 then 1 else 2 * Pow2(k - 1)
  }

  /** The request one attempt sends: a GET carries the query parameters, any other
      method is sent as a POST with the JSON body and without the parameters. */
  datatype Call =
    | Get(url: string, params: Option<seq<Entry>>, headers: Option<map<string, string>>)
    | Post(url: string, headers: Option<map<string, string>>, jsonBody: Option<map<string, Json>>)

  function Dispatch(verb: string, url: string, params: Option<seq<Entry>>, headers: Option<map<string, string>>,
                    jsonBody: Option<map<string, Json>>): (c: Call)
    ensures c.url == url && c.headers == headers
    ensures c.Get? <==> Upper(verb) == "GET"
  {
    if Upper(verb) == "GET" then Get(url, params, headers) else Post(url, headers, jsonBody)
  }

  /** The verb is compared case-insensitively, and a POST never carries parameters. */
  lemma DispatchIgnoresCase(verb: string, url: string, params: Option<seq<Entry>>, headers: Option<map<string, string>>,
                            jsonBody: Option<map<string, Json>>)
    ensures Dispatch(Lower(verb), url, params, headers, jsonBody) == Dispatch(verb, url, params, headers, jsonBody)
    ensures Dispatch("get", url, params, headers, jsonBody) == Get(url, params, headers)
    ensures Dispatch("POST", url, params, headers, jsonBody) == Post(url, headers, jsonBody)
  {
    UpperIgnoresCase(verb);
    assert Upper("get") == "GET";
    assert Upper("POST") != "GET";
  }

  /** How many calls the executor makes when every attempt before `attempt` was retried:
      it goes on while the outcome is retryable and attempts remain. */
  function CallsFrom(maxRetries: int, codes: Option<set<int>>, transport: seq<Outcome>, attempt: nat): (n: nat)
    requires attempt <= maxRetries < |transport|
    ensures attempt < n <= maxRetries + 1
    ensures forall k :: attempt <= k < n - 1 ==> Retryable(transport[k], codes)
    ensures n <= maxRetries ==> !Retryable(transport[n - 1], codes)
    decreases maxRetries - attempt
  {
    if attempt < maxRetries && Retryable(transport[attempt], codes) then CallsFrom(maxRetries, codes, transport, attempt + 1)
    else attempt + 1
  }

  /** The sleeps after the first `n` failed attempts: `backoff * 2 ** k` after attempt `k`. */
  function Backoffs(backoff: real, n: nat): (r: seq<real>)
    ensures |r| == n
    ensures forall k :: 0 <= k < n ==> r[k] == backoff * Pow2(k) as real
  {
    if n == 0 then [] else Backoffs(backoff, n - 1) + [backoff * Pow2(n - 1) as real]
  }

  /** `request_with_retry`. `transport[k]` is what attempt `k` yields; `calls` is how many
      times the transport was invoked and `delays` the backoff slept after each failed
      attempt, in order. */
  method RequestWithRetry(maxRetries: int, backoff: real, codes: Option<set<int>>, transport: seq<Outcome>)
    returns (status: int, payload: Json, calls: nat, delays: seq<real>)
    requires Attempts(maxRetries) <= |transport|
    ensures payload.JDict?
    ensures maxRetries < 0 ==> calls == 0 && delays == [] && status == 503 && payload == DetailDict(JStr(ExhaustedDetail))
    ensures maxRetries >= 0 ==> calls == CallsFrom(maxRetries, codes, transport, 0)
    ensures maxRetries >= 0 ==> (status, payload) == Final(transport[calls - 1])
    ensures maxRetries >= 0 ==> delays == Backoffs(backoff, calls - 1)
  {
    var attempts := maxRetries + 1;
    var attempt := 0;
    calls, delays := 0, [];
    while attempt < attempts
      invariant 0 <= attempt <= Attempts(maxRetries)
      invariant calls == attempt && delays == Backoffs(backoff, attempt)
      invariant attempt <= maxRetries || maxRetries < 0
      invariant maxRetries >= 0 ==> CallsFrom(maxRetries, codes, transport, 0) == CallsFrom(maxRetries, codes, transport, attempt)
    {
      var outcome := transport[attempt];
      calls := calls + 1;
      if outcome.Response? {
        var shouldRetryStatus := RetryableStatus(codes, outcome.status);
        if shouldRetryStatus && attempt < maxRetries {
          delays := delays + [backoff * Pow2(attempt) as real];
          attempt := attempt + 1;
          continue;
        }
        return outcome.status, ResponsePayload(outcome.body), calls, delays;
      } else {
        if attempt >= maxRetries {
          return 503, DetailDict(JStr(FailurePrefix + outcome.className)), calls, delays;
        }
        delays := delays + [backoff * Pow2(attempt) as real];
        attempt := attempt + 1;
      }
    }
    return 503, DetailDict(JStr(ExhaustedDetail)), calls, delays;
  }

  /** What the executor promises about one request: it stops at the first outcome that is
      not retryable, or once `max_retries + 1` calls were made; every earlier call was
      retryable; it answers with the last outcome; and a first answer that is not retryable
      is returned after exactly one call. */
  lemma RetryContract(maxRetries: int, codes: Option<set<int>>, transport: seq<Outcome>)
    requires 0 <= maxRetries < |transport|
    ensures var n := CallsFrom(maxRetries, codes, transport, 0);
      && 1 <= n <= maxRetries + 1
      && (forall k :: 0 <= k < n - 1 ==> Retryable(transport[k], codes))
      && (Retryable(transport[n - 1], codes) ==> n == maxRetries + 1)
      && (!Retryable(transport[0], codes) ==> n == 1)
  {
  }

  /** The scenario of the executor's own unit test: one timeout, then `200 {"ok": true}`,
      with two retries allowed, is answered by the second call. */
  method TimeoutThenSuccess() returns (status: int, payload: Json, calls: nat)
    ensures status == 200 && payload == JDict([Entry(JStr("ok"), JBool(true))]) && calls == 2
  {
    var ok := JDict([Entry(JStr("ok"), JBool(true))]);
    var transport := [Timeout("TimeoutException"), Response(200, Parsed(ok)), Response(200, Parsed(ok))];
    var delays;
    status, payload, calls, delays := RequestWithRetry(2, 0.0, None, transport);
    assert Retryable(transport[0], None) && !Retryable(transport[1], None);
  }
}
