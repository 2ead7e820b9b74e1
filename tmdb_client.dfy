/** The backend's TMDB client: an axios instance with a base URL, an
    `Accept` header and a timeout; a request interceptor that adds the bearer
    token; and a response interceptor that re-issues a request once after a
    transient network error, marking its config with `_retryCount`. */
module TmdbClient {
  import opened Js
  import opened Options
  import opened Http
  import TvController

  const BaseUrl := "https://api.themoviedb.org/3"
  const TimeoutMs := 15000
  const DefaultHeaders: map<string, string> := map["Accept" := "application/json"]
  const RetryableCodes: seq<string> := ["ECONNRESET", "ETIMEDOUT", "ECONNABORTED", "ERR_NETWORK"]

  /** What the adapter is handed for one attempt: the request config as it
      stands when the request leaves. */
  datatype Sent = Sent(baseUrl: string, path: string, params: map<string, Value>,
                       headers: map<string, string>, timeout: int, retryCount: Value)

  /** The network: the outcome of attempt number `n` of a request. */
  type Transport = (Sent, nat) -> Result<Value, Failure>

  /** The request interceptor: `if (token) headers.Authorization = ...`. */
  function WithAuth(headers: map<string, string>, token: Value): (h: map<string, string>)
    ensures Truthy(token) ==> "Authorization" in h && h["Authorization"] == "Bearer " + ToStr(token)
    ensures !Truthy(token) ==> h == headers
    ensures forall k :: k != "Authorization" ==> (k in h <==> k in headers)
    ensures forall k :: k != "Authorization" && k in headers ==> h[k] == headers[k]
  {
    if Truthy(token) then headers["Authorization" := "Bearer " + ToStr(token)] else headers
  }

  /** Running the interceptor again on its own output changes nothing. */
  lemma WithAuthIdempotent(headers: map<string, string>, token: Value)
    ensures WithAuth(WithAuth(headers, token), token) == WithAuth(headers, token)
  {
  }

  /** `retryableErrors.includes(error.code)` */
  predicate IsRetryableCode(code: Value) {
    code.Str? && code.s in RetryableCodes
  }

  /** The response interceptor's test: the error has a config that has not
      been retried, no response arrived, and the code is a transient one. */
  predicate ShouldRetry(e: Failure, retryCount: Value) {
    e.hasConfig && !Truthy(retryCount) && e.response.None? && IsRetryableCode(e.code)
  }

  /** The request the interceptor sends: the config with the token added. */
  function Outbound(s: Sent, token: Value): Sent {
    s.(headers := WithAuth(s.headers, token))
  }

  /** What a request resolves to: the first attempt's outcome, unless that
      failed in a way `ShouldRetry` admits, in which case the outcome of one
      more attempt on the config marked as retried. */
  function Expected(s: Sent, token: Value, transport: Transport, n: nat): Result<Value, Failure> {
    var first := transport(Outbound(s, token), n);
    if first.Err? && ShouldRetry(first.error, s.retryCount)
    then transport(Outbound(s, token).(retryCount := Num(1)), n + 1)
    else first
  }

  /** How many attempts that takes. */
  function Attempts(s: Sent, token: Value, transport: Transport, n: nat): (k: nat)
    ensures 1 <= k <= 2
  {
    var first := transport(Outbound(s, token), n);
    if first.Err? && ShouldRetry(first.error, s.retryCount) then 2 else 1
  }

  /** A request config, which the response interceptor marks in place. */
  class RequestConfig {
    var path: string
    var params: map<string, Value>
    var headers: map<string, string>
    var retryCount: Value

    function Snapshot(): Sent
      reads this
    {
      Sent(BaseUrl, path, params, headers, TimeoutMs, retryCount)
    }

    /** `axiosInstance.get(path, {params})`: the instance defaults and no
        `_retryCount`. */
    constructor (u: Upstream)
      ensures Snapshot() == Sent(BaseUrl, u.path, u.params, DefaultHeaders, TimeoutMs, Undefined)
    {
      path, params, headers, retryCount := u.path, u.params, DefaultHeaders, Undefined;
    }

    /** One pass through the interceptors and the adapter; on a transient
        failure the config is marked and the request issued again. */
    method Dispatch(token: Value, transport: Transport, n: nat) returns (r: Result<Value, Failure>, attempts: nat)
      modifies this
      decreases if Truthy(retryCount) then 0 else 1
      ensures r == Expected(old(Snapshot()), token, transport, n)
      ensures attempts == Attempts(old(Snapshot()), token, transport, n)
      ensures headers == WithAuth(old(headers), token)
      ensures retryCount == (if attempts == 2 then Num(1) else old(retryCount))
      ensures path == old(path) && params == old(params)
    {
      ghost var s0 := Snapshot();
      headers := WithAuth(headers, token);
      var res := transport(Snapshot(), n);
      if res.Err? && ShouldRetry(res.error, retryCount) {
        retryCount := Num(1);
        ghost var s1 := Snapshot();
        WithAuthIdempotent(s0.headers, token);
        assert Outbound(s1, token) == Outbound(s0, token).(retryCount := Num(1));
        r, attempts := Dispatch(token, transport, n + 1);
        attempts := attempts + 1;
      } else {
        r, attempts := res, 1;
      }
    }
  }

  /** A retry happens exactly when the first attempt fails with a config,
      no earlier retry, no response, and one of the four transient codes. */
  lemma RetryIff(s: Sent, token: Value, transport: Transport, n: nat)
    ensures var first := transport(Outbound(s, token), n);
      Attempts(s, token, transport, n) == 2 <==>
        && first.Err? && first.error.hasConfig && !Truthy(s.retryCount) && first.error.response.None?
        && first.error.code in {Str("ECONNRESET"), Str("ETIMEDOUT"), Str("ECONNABORTED"), Str("ERR_NETWORK")}
  {
    var first := transport(Outbound(s, token), n);
    if first.Err? && IsRetryableCode(first.error.code) {
      assert first.error.code.s in RetryableCodes;
    }
    if first.Err? && first.error.code in {Str("ECONNRESET"), Str("ETIMEDOUT"), Str("ECONNABORTED"), Str("ERR_NETWORK")} {
      assert first.error.code.s in RetryableCodes by {
        assert RetryableCodes == ["ECONNRESET", "ETIMEDOUT", "ECONNABORTED", "ERR_NETWORK"];
      }
    }
  }

  /** A retried request carries `_retryCount = 1`, so its own failure is
      never retried: a request is issued at most twice. */
  lemma AtMostOneRetry(e: Failure, s: Sent, token: Value)
    ensures !ShouldRetry(e, Outbound(s, token).(retryCount := Num(1)).retryCount)
  {
  }

  /** An error that carries a response, such as a 404, is rejected as it
      came after one attempt. */
  lemma ResponseErrorsNotRetried(s: Sent, token: Value, transport: Transport, n: nat)
    requires transport(Outbound(s, token), n).Err? && transport(Outbound(s, token), n).error.response.Some?
    ensures Expected(s, token, transport, n) == transport(Outbound(s, token), n)
    ensures Attempts(s, token, transport, n) == 1
  {
  }

  /** Every request goes to the TMDB base URL with the 15 second timeout,
      and carries the bearer token whenever there is one. */
  lemma RequestsCarryDefaultsAndToken(u: Upstream, token: Value)
    ensures var s := Outbound(Sent(BaseUrl, u.path, u.params, DefaultHeaders, TimeoutMs, Undefined), token);
      && s.baseUrl == "https://api.themoviedb.org/3" && s.timeout == 15000
      && s.headers["Accept"] == "application/json"
      && (Truthy(token) ==> s.headers["Authorization"] == "Bearer " + ToStr(token))
      && (!Truthy(token) ==> "Authorization" !in s.headers)
  {
  }

  /** The controllers' view of the client: a request resolves as `Expected`
      says, starting from a fresh config. */
  function AsFetch(token: Value, transport: Transport): (fetch: Fetch)
    ensures forall u :: fetch(u) == Expected(Sent(BaseUrl, u.path, u.params, DefaultHeaders, TimeoutMs, Undefined), token, transport, 0)
  {
    (u: Upstream) => Expected(Sent(BaseUrl, u.path, u.params, DefaultHeaders, TimeoutMs, Undefined), token, transport, 0)
  }

  /** The tv details controller over the client: when the first attempt is
      reset by the network, the controller answers with what the second
      attempt, marked as retried, brings back. */
  lemma {:induction false} DetailsAnswerSecondAttempt(id: string, token: Value, transport: Transport, e: Failure)
    requires TvController.IsValidNum(Str(id))
    requires transport(Outbound(Sent(BaseUrl, "/tv/" + id, map[], DefaultHeaders, TimeoutMs, Undefined), token), 0) == Err(e)
    requires e.hasConfig && e.response.None? && e.code == Str("ECONNRESET")
    ensures var second := transport(Sent(BaseUrl, "/tv/" + id, map[], WithAuth(DefaultHeaders, token), TimeoutMs, Num(1)), 1);
      && (second.Ok? ==> ForwardResults(TvController.DetailsPlan(id), AsFetch(token, transport)) == Responded(Success(second.value)))
      && (second.Err? ==> ForwardResults(TvController.DetailsPlan(id), AsFetch(token, transport)) == Thrown(second.error))
  {
    var u := Get(ResourcePath("tv", id));
    assert u.path == "/tv/" + id by {
      assert ResourcePath("tv", id) == "/" + "tv" + "/" + id;
      assert "/" + "tv" + "/" + id == "/tv/" + id;
    }
    assert TvController.DetailsPlan(id) == Call(u);
    assert IsRetryableCode(e.code) by {
      assert RetryableCodes[0] == "ECONNRESET";
    }
    assert AsFetch(token, transport)(u) == Expected(Sent(BaseUrl, u.path, u.params, DefaultHeaders, TimeoutMs, Undefined), token, transport, 0);
  }
}
