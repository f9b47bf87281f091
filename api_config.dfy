/**
 * The HTTP client setup: the API defaults, the request interceptor that
 * stamps the auth token and the request time into the outgoing headers, and
 * the response interceptors that pass responses through and clear the stored
 * token on a 401.
 */
module ApiConfig {
  import opened Wrappers
  import opened Strings
  import EnvConfig
  import Browser

  const TOKEN_KEY: string := "auth_token"
  const AUTHORIZATION: string := "Authorization"
  const REQUEST_TIME: string := "X-Request-Time"
  const LOGIN_PATH: string := "/login"

  datatype ApiDefaults = ApiDefaults(baseUrl: string, timeout: nat, retryAttempts: nat, retryDelay: nat)

  /** The client's default headers. */
  const DEFAULT_HEADERS: map<string, string> := map["Content-Type" := "application/json"]

  /** What `axios.create` is given: base URL, timeout and default headers. */
  datatype ClientSettings = ClientSettings(baseURL: string, timeout: nat, headers: map<string, string>)

  /** `API_CONFIG`: the base URL from `VITE_API_BASE_URL` when set and non-empty. */
  function Defaults(vars: EnvConfig.EnvVars): (r: ApiDefaults)
    ensures r.timeout == 10000 && r.retryAttempts == 3 && r.retryDelay == 1000
    ensures Truthy(EnvConfig.Lookup(vars, "VITE_API_BASE_URL")) ==> r.baseUrl == vars["VITE_API_BASE_URL"]
    ensures !Truthy(EnvConfig.Lookup(vars, "VITE_API_BASE_URL")) ==> r.baseUrl == "https://api.example.com"
  {
    ApiDefaults(OrElse(EnvConfig.Lookup(vars, "VITE_API_BASE_URL"), "https://api.example.com"), 10000, 3, 1000)
  }

  /**
   * `apiClient`: the client takes its base URL and timeout from `API_CONFIG`
   * and sends JSON by default, with no other default header.
   */
  function Client(vars: EnvConfig.EnvVars): (r: ClientSettings)
    ensures r.baseURL == Defaults(vars).baseUrl && r.timeout == Defaults(vars).timeout
    ensures r.headers.Keys == {"Content-Type"} && r.headers["Content-Type"] == "application/json"
  {
    var d := Defaults(vars);
    ClientSettings(d.baseUrl, d.timeout, DEFAULT_HEADERS)
  }

  /** An outgoing request's configuration; `headers` may be absent. */
  class RequestConfig {
    var url: string
    var headers: Option<map<string, string>>

    constructor (url: string, headers: Option<map<string, string>>)
      ensures this.url == url && this.headers == headers
    {
      this.url, this.headers := url, headers;
    }
  }

  /** The headers after the request interceptor, given the stored token and the clock. */
  function StampedHeaders(headers: map<string, string>, token: Option<string>, nowMs: int): map<string, string>
  {
    var withAuth := if Truthy(token) then headers[AUTHORIZATION := "Bearer " + token.value] else headers;
    withAuth[REQUEST_TIME := IntToString(nowMs)]
  }

  /**
   * The stamp: the time header is always set; `Authorization` is set to
   * `Bearer <token>` exactly when a non-empty token is stored, and otherwise
   * keeps whatever it was; every other header is kept.
   */
  lemma StampedHeadersProperties(headers: map<string, string>, token: Option<string>, nowMs: int)
    ensures var h := StampedHeaders(headers, token, nowMs);
            REQUEST_TIME in h && h[REQUEST_TIME] == IntToString(nowMs)
            && (Truthy(token) ==> AUTHORIZATION in h && h[AUTHORIZATION] == "Bearer " + token.value)
            && (!Truthy(token) ==> (AUTHORIZATION in h <==> AUTHORIZATION in headers)
                                   && (AUTHORIZATION in headers ==> h[AUTHORIZATION] == headers[AUTHORIZATION]))
            && (forall k :: k in headers && k != AUTHORIZATION && k != REQUEST_TIME ==> k in h && h[k] == headers[k])
            && h.Keys == headers.Keys + {REQUEST_TIME} + (if Truthy(token) then {AUTHORIZATION} else {})
  {
  }

  /**
   * A request sent with the client's defaults goes out as JSON, stamped with
   * the clock, and with a bearer token exactly when one is stored.
   */
  lemma ClientRequestHeaders(vars: EnvConfig.EnvVars, token: Option<string>, nowMs: int)
    ensures var h := StampedHeaders(Client(vars).headers, token, nowMs);
            "Content-Type" in h && h["Content-Type"] == "application/json"
            && h.Keys == {"Content-Type", REQUEST_TIME} + (if Truthy(token) then {AUTHORIZATION} else {})
  {
    StampedHeadersProperties(Client(vars).headers, token, nowMs);
  }

  /** The time stamp is the clock in decimal: different instants give different stamps. */
  lemma StampDistinguishesInstants(headers: map<string, string>, token: Option<string>, a: int, b: int)
    requires StampedHeaders(headers, token, a)[REQUEST_TIME] == StampedHeaders(headers, token, b)[REQUEST_TIME]
    ensures a == b
  {
    IntToStringInjective(a, b);
  }

  /**
   * The request interceptor: stamps the headers in place when there are
   * any, leaves a configuration without headers alone, and hands back the
   * same configuration object.
   */
  method OnRequest(config: RequestConfig, storage: Browser.LocalStorage, nowMs: int) returns (forwarded: RequestConfig)
    modifies config`headers
    ensures forwarded == config
    ensures old(config.headers).None? ==> config.headers == None
    ensures old(config.headers).Some? ==> config.headers == Some(StampedHeaders(old(config.headers).value, storage.GetItem(TOKEN_KEY), nowMs))
  {
    var token := storage.GetItem(TOKEN_KEY);
    if Truthy(token) && config.headers.Some? {
      config.headers := Some(config.headers.value[AUTHORIZATION := "Bearer " + token.value]);
    }
    if config.headers.Some? {
      config.headers := Some(config.headers.value[REQUEST_TIME := IntToString(nowMs)]);
    }
    forwarded := config;
  }

  /** A failed request as the error interceptors see it. */
  datatype RequestError = RequestError(status: Option<int>, url: Option<string>, message: string)

  /** How an interceptor settles the promise it returns. */
  datatype Settled<T> = Resolved(value: T) | Rejected(error: RequestError)

  /** The request-error interceptor rejects with the error unchanged. */
  method OnRequestError<T>(error: RequestError) returns (settled: Settled<T>)
    ensures settled.Rejected? && settled.error == error
  {
    settled := Rejected(error);
  }

  /** The success interceptor resolves with each response unchanged. */
  method OnResponse<T>(response: T) returns (settled: Settled<T>)
    ensures settled.Resolved? && settled.value == response
  {
    settled := Resolved(response);
  }

  /**
   * The response-error interceptor: a 401 removes the stored token and sends
   * the browser to the login page (`redirect`); every error, 401 or not,
   * network failure or not, is rejected unchanged.
   */
  method OnResponseError<T>(storage: Browser.LocalStorage, error: RequestError) returns (settled: Settled<T>, redirect: Option<string>)
    modifies storage
    ensures settled.Rejected? && settled.error == error
    ensures error.status == Some(401) ==> storage.items == old(storage.items) - {TOKEN_KEY} && redirect == Some(LOGIN_PATH)
    ensures error.status == Some(401) ==> storage.GetItem(TOKEN_KEY) == None
    ensures error.status != Some(401) ==> storage.items == old(storage.items) && redirect == None
  {
    redirect := None;
    if error.status == Some(401) {
      storage.RemoveItem(TOKEN_KEY);
      redirect := Some(LOGIN_PATH);
    }
    settled := Rejected(error);
  }
}
