/** The shared HTTP client (src/services/api.js) and the token store it reads
    (src/services/authToken, which is not part of this model beyond get/set/clear on one
    optional string).

    The request interceptor is a pure function of the request configuration and the
    stored token; the response interceptor changes the shared token store. The network
    itself is an input: `Send` is given the reply the backend produced. */
module Api {
  import opened Wrappers
  import opened Json
  import opened Effects

  const BaseUrl: string := "/api"
  const TimeoutMs: nat := 15000
  const Unauthorized: int := 401
  const LoginPath: string := "/login"
  const Authorization: string := "Authorization"
  const BearerPrefix: string := "Bearer "

  /** The single-cell credential store shared by the session manager and the client. */
  class TokenStore {
    var token: Option<string>

    constructor (initial: Option<string>)
      ensures token == initial
    {
      token := initial;
    }

    method Get() returns (t: Option<string>)
      ensures t == token
    {
      t := token;
    }

    method Set(t: string)
      modifies this
      ensures token == Some(t)
    {
      token := Some(t);
    }

    /** Idempotent: clearing an empty store leaves it empty. */
    method Clear()
      modifies this
      ensures token == None
    {
      token := None;
    }
  }

  /** `if (token)`: a stored empty string is falsy too. */
  predicate HasToken(t: Option<string>) {
    t.Some? && t.value != ""
  }

  /** An axios request configuration, reduced to what the pages set. */
  datatype Config = Config(
    verb: string,
    url: string,
    params: map<string, Json>,
    body: Option<Json>,
    headers: map<string, string>)

  function GetRequest(url: string, params: map<string, Json>): Config {
    Config("GET", url, params, None, map[])
  }

  function PostRequest(url: string, body: Option<Json>): Config {
    Config("POST", url, map[], body, map[])
  }

  /** Adds a query parameter the way the client serialises `params`: an undefined or
      null value is left out. */
  function WithParam(params: map<string, Json>, key: string, v: Option<Json>): (r: map<string, Json>)
    ensures v.Some? && v.value != JNull ==> r == params[key := v.value]
    ensures !(v.Some? && v.value != JNull) ==> r == params
  {
    if v.Some? && v.value != JNull then params[key := v.value] else params
  }

  /** The request interceptor: with a stored token, the headers gain (or have replaced)
      `Authorization: Bearer <token>` and keep every other header; without one the
      configuration is returned unchanged. */
  function WithBearer(config: Config, token: Option<string>): (r: Config)
    ensures r.verb == config.verb && r.url == config.url
    ensures r.params == config.params && r.body == config.body
    ensures HasToken(token) ==>
      Authorization in r.headers && r.headers[Authorization] == BearerPrefix + token.value
    ensures HasToken(token) ==> r.headers.Keys == config.headers.Keys + {Authorization}
    ensures forall k :: k in config.headers && k != Authorization ==>
      k in r.headers && r.headers[k] == config.headers[k]
    ensures !HasToken(token) ==> r == config
  {
    if HasToken(token) then
      config.(headers := config.headers[Authorization := BearerPrefix + token.value])
    else config
  }

  /** What a server reads back from the `Authorization` header. */
  function BearerOf(headers: map<string, string>): Option<string> {
    if Authorization in headers
       && |headers[Authorization]| > |BearerPrefix|
       && headers[Authorization][..|BearerPrefix|] == BearerPrefix
    then Some(headers[Authorization][|BearerPrefix|..])
    else None
  }

  /** The header the interceptor writes carries exactly the stored token. */
  lemma BearerRoundTrip(config: Config, t: string)
    requires t != ""
    ensures BearerOf(WithBearer(config, Some(t)).headers) == Some(t)
  {
    var h := BearerPrefix + t;
    assert h[..|BearerPrefix|] == BearerPrefix;
    assert h[|BearerPrefix|..] == t;
  }

  /** Running the interceptor again (a retried request) changes nothing more, and a
      later token overrides the header an earlier one wrote. */
  lemma WithBearerIdempotent(config: Config, t: Option<string>, u: Option<string>)
    ensures WithBearer(WithBearer(config, t), t) == WithBearer(config, t)
    ensures HasToken(u) ==> WithBearer(WithBearer(config, t), u) == WithBearer(config, u)
  {
  }

  datatype ErrorResponse = ErrorResponse(status: int, data: Json)

  /** An axios error: `response` is absent for network failures and timeouts. */
  datatype HttpError = HttpError(response: Option<ErrorResponse>)

  /** What the backend did with a request. */
  datatype Reply = Response(data: Json) | Rejected(error: HttpError)

  predicate IsUnauthorized(e: HttpError) {
    e.response.Some? && e.response.value.status == Unauthorized
  }

  /** `err.response?.data?.error`: the error message a backend attaches. */
  function ErrorMessage(e: HttpError): Option<Json> {
    if e.response.Some? then Get(e.response.value.data, "error") else None
  }

  class ApiClient {
    const baseUrl: string
    const timeoutMs: nat
    const store: TokenStore

    constructor (store: TokenStore)
      ensures baseUrl == BaseUrl && timeoutMs == TimeoutMs && this.store == store
    {
      baseUrl := BaseUrl;
      timeoutMs := TimeoutMs;
      this.store := store;
    }

    /** The response interceptor's error arm: a 401 empties the token store and
        sends the browser to the login page; the error is re-rejected unchanged. */
    method OnResponseError(error: HttpError) returns (rejected: HttpError, effects: seq<Effect>)
      modifies store
      ensures rejected == error
      ensures store.token == if IsUnauthorized(error) then None else old(store.token)
      ensures effects == if IsUnauthorized(error) then [Navigate(LoginPath)] else []
    {
      effects := [];
      if error.response.Some? && error.response.value.status == Unauthorized {
        store.Clear();
        effects := [Navigate(LoginPath)];
      }
      rejected := error;
    }

    /** One call through the client: the request interceptor decorates `config` with
        the token stored at dispatch time, the backend answers `reply`, and the
        response interceptor passes successes through and handles errors. */
    method Send(config: Config, reply: Reply) returns (sent: Config, result: Reply, effects: seq<Effect>)
      modifies store
      ensures sent == WithBearer(config, old(store.token))
      ensures result == reply
      ensures reply.Rejected? && IsUnauthorized(reply.error) ==>
        store.token == None && effects == [Navigate(LoginPath)]
      ensures !(reply.Rejected? && IsUnauthorized(reply.error)) ==>
        store.token == old(store.token) && effects == []
    {
      var token := store.Get();
      sent := WithBearer(config, token);
      effects := [];
      result := reply;
      if reply.Rejected? {
        var e;
        e, effects := OnResponseError(reply.error);
        result := Rejected(e);
      }
    }
  }
}
