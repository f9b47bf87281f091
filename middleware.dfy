/**
 * Resilience helpers: error classification, retry with exponential backoff,
 * the loading wrapper, the TTL cache and the authorisation guard. Clocks,
 * the wrapped operation's outcomes and browser storage are parameters.
 */
module Middleware {
  import opened Wrappers

  /** `error.response` as the handlers read it; `status` may be absent. */
  datatype HttpResponse = HttpResponse(status: Option<int>, statusText: string)

  /** A thrown value, with the fields the handlers look at. */
  datatype JsError = JsError(
    response: Option<HttpResponse>,
    code: Option<string>,
    message: Option<string>,
    statusCode: Option<int>,
    stack: Option<string>)

  /** `new Error(message)`. */
  function PlainError(message: string): JsError
  {
    JsError(None, None, Some(message), None, None)
  }

  /** `error.response?.status`. */
  function ResponseStatus(e: JsError): Option<int>
  {
    if e.response.Some? then e.response.value.status else None
  }

  /** `status >= 400 && status < 500`; an absent status compares false. */
  predicate IsClientError(e: JsError)
  {
    var s := ResponseStatus(e);
    s.Some? && 400 <= s.value < 500
  }

  // ---------------------------------------------------------------------------
  // errorHandler
  // ---------------------------------------------------------------------------

  /** Which toast the browser branch of `errorHandler` shows. */
  datatype ClientNotice = AuthFailed | Forbidden | NotFound | ServerFailure | NetworkFailure | Generic(text: string)

  function ClassifyClientError(e: JsError): ClientNotice
  {
    var s := ResponseStatus(e);
    if s == Some(401) then AuthFailed
    else if s == Some(403) then Forbidden
    else if s == Some(404) then NotFound
    else if s.Some? && s.value >= 500 then ServerFailure
    else if e.code == Some("NETWORK_ERROR") then NetworkFailure
    else Generic(OrElse(e.message, "发生未知错误"))
  }

  function NoticeText(n: ClientNotice): string
  {
    match n
    case AuthFailed => "认证失败，请重新登录"
    case Forbidden => "权限不足"
    case NotFound => "请求的资源不存在"
    case ServerFailure => "服务器错误，请稍后重试"
    case NetworkFailure => "网络连接失败，请检查网络"
    case Generic(text) => text
  }

  /** The JSON body the server branch sends. */
  datatype ServerReply = ServerReply(status: int, success: bool, message: string, stack: Option<Option<string>>)

  /** Everything `errorHandler` does: a toast, a redirect and a server reply, each optional. */
  datatype HandlerEffects = HandlerEffects(toast: Option<string>, redirect: Option<string>, reply: Option<ServerReply>)

  /** `error.statusCode || 500`. */
  function ServerStatus(e: JsError): int
  {
    if e.statusCode.Some? && e.statusCode.value != 0 then e.statusCode.value else 500
  }

  /**
   * `errorHandler`: `inBrowser` is `typeof window !== 'undefined'`, `hasRes`
   * whether a server response object was passed, `isDevelopment` whether
   * `NODE_ENV` is `'development'` (then the stack is attached).
   */
  function ErrorHandler(e: JsError, inBrowser: bool, hasRes: bool, isDevelopment: bool): HandlerEffects
  {
    var notice := ClassifyClientError(e);
    HandlerEffects(
      toast := if inBrowser then Some(NoticeText(notice)) else None,
      redirect := if inBrowser && notice == AuthFailed then Some("/login") else None,
      reply := if hasRes
               then Some(ServerReply(ServerStatus(e), false, OrElse(e.message, "Internal Server Error"),
                                     if isDevelopment then Some(e.stack) else None))
               else None)
  }

  /**
   * The precedence 401 > 403 > 404 > 5xx > NETWORK_ERROR > message: each
   * notice is chosen exactly when its own test holds and no earlier one does.
   */
  lemma ClassificationPrecedence(e: JsError)
    ensures var n := ClassifyClientError(e);
            var s := ResponseStatus(e);
            (n == AuthFailed <==> s == Some(401))
            && (n == Forbidden <==> s == Some(403))
            && (n == NotFound <==> s == Some(404))
            && (n == ServerFailure <==> s.Some? && s.value >= 500)
            && (n == NetworkFailure <==> (s.None? || (s.value < 500 && s.value !in {401, 403, 404})) && e.code == Some("NETWORK_ERROR"))
            && (n.Generic? <==> (s.None? || (s.value < 500 && s.value !in {401, 403, 404})) && e.code != Some("NETWORK_ERROR"))
            && (n.Generic? ==> n.text == if Truthy(e.message) then e.message.value else "发生未知错误")
  {
  }

  /** The server reply defaults to status 500 and redirects happen only for a 401 in the browser. */
  lemma HandlerDefaults(e: JsError, inBrowser: bool, hasRes: bool, isDevelopment: bool)
    ensures var fx := ErrorHandler(e, inBrowser, hasRes, isDevelopment);
            (fx.reply.Some? <==> hasRes)
            && (hasRes && (e.statusCode.None? || e.statusCode == Some(0)) ==> fx.reply.value.status == 500)
            && (fx.redirect.Some? <==> inBrowser && ResponseStatus(e) == Some(401))
            && (fx.toast.Some? <==> inBrowser)
  {
  }

  // ---------------------------------------------------------------------------
  // retryMiddleware
  // ---------------------------------------------------------------------------

  /** What one call of the wrapped operation does. */
  datatype Attempt<T> = Succeeded(value: T) | Failed(error: JsError)

  /** How `retryMiddleware` settles; `Rethrown(None)` is `throw lastError` with nothing caught. */
  datatype RetryOutcome<T> = Returned(value: T) | Rethrown(error: Option<JsError>)

  /** The full record of a run: the outcome, how many times the operation ran, and each wait in ms. */
  datatype RetryRun<T> = RetryRun(outcome: RetryOutcome<T>, calls: nat, waits: seq<int>)

  function Pow2(i: nat): (r: nat)
    ensures r >= 1
  {
    if i == 0 then 1 else 2 * Pow2(i - 1)
  }

  /** The waits `delay * 2^0, delay * 2^1, ...` for n attempts. */
  function Backoff(delay: int, n: nat): (r: seq<int>)
  {
    seq(n, i requires 0 <= i < n => delay * Pow2(i))
  }

  /** The loop from attempt `i` on; `attempt(i)` is what the i-th call of `fn` does. */
  function RetryFrom<T>(attempt: nat -> Attempt<T>, maxRetries: int, delay: int, i: nat): RetryRun<T>
    requires i < maxRetries
    decreases maxRetries - i
  {
    match attempt(i)
    case Succeeded(v) => RetryRun(Returned(v), i + 1, [])
    case Failed(e) =>
      if IsClientError(e) || i == maxRetries - 1 then RetryRun(Rethrown(Some(e)), i + 1, [])
      else
        var rest := RetryFrom(attempt, maxRetries, delay, i + 1);
        RetryRun(rest.outcome, rest.calls, [delay * Pow2(i)] + rest.waits)
  }

  /** Reference meaning of `retryMiddleware(fn, maxRetries, delay)`. */
  function Retry<T>(attempt: nat -> Attempt<T>, maxRetries: int, delay: int): RetryRun<T>
  {
    if maxRetries <= 0 then RetryRun(Rethrown(None), 0, []) else RetryFrom(attempt, maxRetries, delay, 0)
  }

  /** The default number of attempts. */
  const DEFAULT_MAX_RETRIES: int := 3

  /** The default initial wait in ms. */
  const DEFAULT_DELAY: int := 1000

  /**
   * `retryMiddleware(fn, maxRetries?, delay?)`: a counted loop that returns on
   * success and rethrows on a 4xx or on the last attempt. An omitted argument
   * (`None`, i.e. `undefined`) takes its default, 3 attempts and 1000 ms.
   */
  method RetryMiddleware<T>(attempt: nat -> Attempt<T>, maxRetriesArg: Option<int>, delayArg: Option<int>)
    returns (outcome: RetryOutcome<T>, calls: nat, waits: seq<int>)
    ensures RetryRun(outcome, calls, waits)
            == Retry(attempt, maxRetriesArg.GetOr(DEFAULT_MAX_RETRIES), delayArg.GetOr(DEFAULT_DELAY))
  {
    outcome, calls, waits := RetryLoop(attempt, maxRetriesArg.GetOr(DEFAULT_MAX_RETRIES), delayArg.GetOr(DEFAULT_DELAY));
  }

  /** The `for` loop of `retryMiddleware` once both arguments are known. */
  method RetryLoop<T>(attempt: nat -> Attempt<T>, maxRetries: int, delay: int)
    returns (outcome: RetryOutcome<T>, calls: nat, waits: seq<int>)
    ensures RetryRun(outcome, calls, waits) == Retry(attempt, maxRetries, delay)
  {
    var lastError: Option<JsError> := None;
    calls, waits := 0, [];
    var i: nat := 0;
    while i < maxRetries
      invariant maxRetries > 0 ==> i < maxRetries
      invariant maxRetries <= 0 ==> i == 0
      invariant i == 0 ==> calls == 0 && waits == [] && lastError == None
      invariant calls == i
      invariant maxRetries > 0 ==>
        var rest := RetryFrom(attempt, maxRetries, delay, i);
        Retry(attempt, maxRetries, delay) == RetryRun(rest.outcome, rest.calls, waits + rest.waits)
      decreases maxRetries - i
    {
      calls := calls + 1;
      match attempt(i)
      case Succeeded(v) =>
        assert waits + [] == waits;
        return Returned(v), calls, waits;
      case Failed(e) =>
        lastError := Some(e);
        assert waits + [] == waits;
        if IsClientError(e) {
          return Rethrown(Some(e)), calls, waits;
        }
        if i == maxRetries - 1 {
          return Rethrown(Some(e)), calls, waits;
        }
        ghost var rest := RetryFrom(attempt, maxRetries, delay, i + 1);
        assert (waits + [delay * Pow2(i)]) + rest.waits == waits + ([delay * Pow2(i)] + rest.waits);
        waits := waits + [delay * Pow2(i)];
        i := i + 1;
    }
    outcome := Rethrown(lastError);
  }

  /** A run of persistent non-4xx failures from attempt i on. */
  lemma {:induction false} PersistentFailureFrom<T>(attempt: nat -> Attempt<T>, maxRetries: int, delay: int, i: nat)
    requires i < maxRetries
    requires forall j :: i <= j < maxRetries ==> attempt(j).Failed? && !IsClientError(attempt(j).error)
    ensures var run := RetryFrom(attempt, maxRetries, delay, i);
            run.calls == maxRetries
            && run.outcome == Rethrown(Some(attempt(maxRetries - 1).error))
            && run.waits == seq(maxRetries - 1 - i, k requires 0 <= k < maxRetries - 1 - i => delay * Pow2(i + k))
    decreases maxRetries - i
  {
    if i < maxRetries - 1 {
      PersistentFailureFrom(attempt, maxRetries, delay, i + 1);
    }
  }

  /**
   * An operation that keeps failing without a 4xx (also with no response
   * at all) runs exactly `maxRetries` times, the last attempt's error is
   * thrown, and the waits are `delay * 2^i` after every attempt but the last.
   */
  lemma RetryExhaustion<T>(attempt: nat -> Attempt<T>, maxRetries: int, delay: int)
    requires maxRetries >= 1
    requires forall j :: 0 <= j < maxRetries ==> attempt(j).Failed? && !IsClientError(attempt(j).error)
    ensures var run := Retry(attempt, maxRetries, delay);
            run.calls == maxRetries
            && run.outcome == Rethrown(Some(attempt(maxRetries - 1).error))
            && run.waits == Backoff(delay, maxRetries - 1)
  {
    PersistentFailureFrom(attempt, maxRetries, delay, 0);
  }

  /** With both arguments omitted, persistent failure runs 3 times and waits 1000 ms, then 2000 ms. */
  lemma RetryDefaultsExhaust<T>(attempt: nat -> Attempt<T>)
    requires forall j :: 0 <= j < DEFAULT_MAX_RETRIES ==> attempt(j).Failed? && !IsClientError(attempt(j).error)
    ensures var run := Retry(attempt, None.GetOr(DEFAULT_MAX_RETRIES), None.GetOr(DEFAULT_DELAY));
            run.calls == 3 && run.outcome == Rethrown(Some(attempt(2).error)) && run.waits == [1000, 2000]
  {
    RetryExhaustion(attempt, DEFAULT_MAX_RETRIES, DEFAULT_DELAY);
    assert Pow2(1) == 2;
  }

  /** A 4xx error on the first attempt ends the run after one call, rethrowing that error. */
  lemma ClientErrorNotRetried<T>(attempt: nat -> Attempt<T>, maxRetries: int, delay: int)
    requires maxRetries >= 1
    requires attempt(0).Failed? && IsClientError(attempt(0).error)
    ensures Retry(attempt, maxRetries, delay) == RetryRun(Rethrown(Some(attempt(0).error)), 1, [])
  {
  }

  /** A 4xx error at any attempt stops the retries right there. */
  lemma {:induction false} ClientErrorStopsAt<T>(attempt: nat -> Attempt<T>, maxRetries: int, delay: int, i: nat, k: nat)
    requires i <= k < maxRetries
    requires forall j :: i <= j < k ==> attempt(j).Failed? && !IsClientError(attempt(j).error)
    requires attempt(k).Failed? && IsClientError(attempt(k).error)
    ensures var run := RetryFrom(attempt, maxRetries, delay, i);
            run.calls == k + 1 && run.outcome == Rethrown(Some(attempt(k).error))
    decreases k - i
  {
    if i < k {
      ClientErrorStopsAt(attempt, maxRetries, delay, i + 1, k);
    }
  }

  lemma {:induction false} SuccessFrom<T>(attempt: nat -> Attempt<T>, maxRetries: int, delay: int, i: nat, k: nat)
    requires i <= k < maxRetries
    requires forall j :: i <= j < k ==> attempt(j).Failed? && !IsClientError(attempt(j).error)
    requires attempt(k).Succeeded?
    ensures var run := RetryFrom(attempt, maxRetries, delay, i);
            run.calls == k + 1
            && run.outcome == Returned(attempt(k).value)
            && run.waits == seq(k - i, j requires 0 <= j < k - i => delay * Pow2(i + j))
    decreases k - i
  {
    if i < k {
      SuccessFrom(attempt, maxRetries, delay, i + 1, k);
    }
  }

  /** Success at attempt k (k < maxRetries) after non-4xx failures returns its value after exactly k + 1 calls. */
  lemma RetrySucceedsAt<T>(attempt: nat -> Attempt<T>, maxRetries: int, delay: int, k: nat)
    requires k < maxRetries
    requires forall j :: 0 <= j < k ==> attempt(j).Failed? && !IsClientError(attempt(j).error)
    requires attempt(k).Succeeded?
    ensures Retry(attempt, maxRetries, delay) == RetryRun(Returned(attempt(k).value), k + 1, Backoff(delay, k))
  {
    SuccessFrom(attempt, maxRetries, delay, 0, k);
  }

  /** `maxRetries <= 0` never calls the operation and throws the still-undefined last error. */
  lemma RetryNeverRuns<T>(attempt: nat -> Attempt<T>, maxRetries: int, delay: int)
    requires maxRetries <= 0
    ensures Retry(attempt, maxRetries, delay) == RetryRun(Rethrown(None), 0, [])
  {
  }

  /** Whatever happens, the operation runs at most `maxRetries` times and one wait separates consecutive calls. */
  lemma {:induction false} RetryBounds<T>(attempt: nat -> Attempt<T>, maxRetries: int, delay: int, i: nat)
    requires i < maxRetries
    ensures var run := RetryFrom(attempt, maxRetries, delay, i);
            i < run.calls <= maxRetries && |run.waits| == run.calls - 1 - i
    decreases maxRetries - i
  {
    match attempt(i)
    case Succeeded(_) =>
    case Failed(e) =>
      if !IsClientError(e) && i < maxRetries - 1 {
        RetryBounds(attempt, maxRetries, delay, i + 1);
      }
  }

  // ---------------------------------------------------------------------------
  // loadingMiddleware
  // ---------------------------------------------------------------------------

  /** The flag that `loadingMiddleware`'s `setLoading` drives. */
  class LoadingFlag {
    var loading: bool

    constructor ()
      ensures !loading
    {
      loading := false;
    }

    /**
     * Runs one wrapped call: the flag is set while it runs (`busy`), the call's
     * result or error passes through unchanged, and the flag is cleared after.
     */
    method Run<T>(call: Attempt<T>) returns (r: Attempt<T>, busy: bool)
      modifies this
      ensures r == call
      ensures busy
      ensures !loading
    {
      loading := true;
      busy := loading;
      r := call;
      loading := false;
    }
  }

  // ---------------------------------------------------------------------------
  // CacheMiddleware
  // ---------------------------------------------------------------------------

  /** A cached JavaScript value, enough to decide truthiness. */
  datatype JsValue = Undefined | Null | Bool(b: bool) | Num(n: int) | Str(s: string) | Obj(ref: nat)

  predicate IsTruthy(v: JsValue)
  {
    match v
    case Undefined => false
    case Null => false
    case Bool(b) => b
    case Num(n) => n != 0
    case Str(s) => s != ""
    case Obj(_) => true
  }

  datatype CacheEntry = CacheEntry(data: JsValue, timestamp: int, ttl: int)

  /** Five minutes in milliseconds. */
  const DEFAULT_TTL: int := 5 * 60 * 1000

  /** Whether an entry read at `now` has outlived its ttl: strictly more than `ttl` ms old. */
  predicate Expired(entry: CacheEntry, now: int)
  {
    now - entry.timestamp > entry.ttl
  }

  /** `get` at time `now`: the value read and the map afterwards (an expired entry is deleted). */
  function Lookup(cache: map<string, CacheEntry>, key: string, now: int): (JsValue, map<string, CacheEntry>)
  {
    if key !in cache then (Null, cache)
    else if Expired(cache[key], now) then (Null, cache - {key})
    else (cache[key].data, cache)
  }

  /** `get` returns the stored value exactly while the entry is at most `ttl` old, and then keeps the map. */
  lemma LookupSemantics(cache: map<string, CacheEntry>, key: string, now: int)
    ensures var (v, after) := Lookup(cache, key, now);
            (key !in cache ==> v == Null && after == cache)
            && (key in cache && now - cache[key].timestamp <= cache[key].ttl ==> v == cache[key].data && after == cache)
            && (key in cache && now - cache[key].timestamp > cache[key].ttl ==>
                  v == Null && key !in after && forall k :: k != key ==> (k in after <==> k in cache) && (k in after ==> after[k] == cache[k]))
  {
  }

  /** Reading back what `set` stored: the boundary is inclusive, `ttl` ms later it is still there. */
  lemma SetThenLookup(cache: map<string, CacheEntry>, key: string, data: JsValue, ttl: int, t: int, later: int)
    ensures var (v, _) := Lookup(cache[key := CacheEntry(data, t, ttl)], key, later);
            (later - t <= ttl ==> v == data) && (later - t > ttl ==> v == Null)
  {
  }

  /** Removing one key does not disturb what any other key reads. */
  lemma DeleteOnlyThatKey(cache: map<string, CacheEntry>, key: string, other: string, now: int)
    requires other != key
    ensures Lookup(cache - {key}, other, now).0 == Lookup(cache, other, now).0
    ensures Lookup(cache - {key}, key, now).0 == Null
  {
  }

  class CacheMiddleware {
    var cache: map<string, CacheEntry>

    constructor ()
      ensures cache == map[]
    {
      cache := map[];
    }

    /** `get(key)` with `Date.now()` given as `now`. */
    method Get(key: string, now: int) returns (v: JsValue)
      modifies this
      ensures (v, cache) == Lookup(old(cache), key, now)
    {
      if key !in cache {
        return Null;
      }
      var item := cache[key];
      if now - item.timestamp > item.ttl {
        cache := cache - {key};
        return Null;
      }
      v := item.data;
    }

    /** `set(key, data, ttl)`: overwrites the key, stamped with `now`; an absent ttl is five minutes. */
    method Set(key: string, data: JsValue, ttl: Option<int>, now: int)
      modifies this
      ensures cache == old(cache)[key := CacheEntry(data, now, ttl.GetOr(DEFAULT_TTL))]
    {
      cache := cache[key := CacheEntry(data, now, ttl.GetOr(DEFAULT_TTL))];
    }

    method Clear()
      modifies this
      ensures cache == map[]
    {
      cache := map[];
    }

    method Delete(key: string)
      modifies this
      ensures cache == old(cache) - {key}
    {
      cache := cache - {key};
    }

    /**
     * One call of the function `withCache(key, ttl)(fn)` returns: a truthy
     * cached value is returned without running `fn`; otherwise `fn` runs
     * (`computed` is its outcome, `setAt` the time it finished): a result is
     * stored and returned, a rejection propagates and stores nothing, after
     * the read has already dropped an expired entry.
     */
    method WithCache(key: string, ttl: Option<int>, getAt: int, computed: Attempt<JsValue>, setAt: int)
      returns (r: Attempt<JsValue>, ranFn: bool)
      modifies this
      ensures var (cached, afterGet) := Lookup(old(cache), key, getAt);
              if IsTruthy(cached) then r == Succeeded(cached) && !ranFn && cache == afterGet
              else
                r == computed && ranFn
                && (computed.Succeeded? ==>
                      cache == afterGet[key := CacheEntry(computed.value, setAt, ttl.GetOr(DEFAULT_TTL))])
                && (computed.Failed? ==> cache == afterGet)
    {
      var cached := Get(key, getAt);
      if IsTruthy(cached) {
        return Succeeded(cached), false;
      }
      ranFn := true;
      match computed
      case Failed(_) =>
        r := computed;
      case Succeeded(result) =>
        Set(key, result, ttl, setAt);
        r := computed;
    }
  }

  // ---------------------------------------------------------------------------
  // authMiddleware
  // ---------------------------------------------------------------------------

  /**
   * One call of the guarded function for `authMiddleware(requiredRole)`:
   * `token` and `userRole` are the stored `auth_token` and `user_role`, `call`
   * what `fn` does if it runs. Also reports whether `fn` ran.
   */
  function Authorize<T>(token: Option<string>, userRole: Option<string>, requiredRole: Option<string>, call: Attempt<T>)
    : (Attempt<T>, bool)
  {
    if !Truthy(token) then (Failed(PlainError("未登录")), false)
    else if Truthy(requiredRole) && userRole != requiredRole then (Failed(PlainError("权限不足")), false)
    else (call, true)
  }

  /**
   * No token fails with '未登录' whatever the roles; with a token, a required
   * role that the stored role does not equal fails with '权限不足'; `fn` runs
   * exactly when both checks pass, and its outcome is passed through.
   */
  lemma AuthorizeChecks<T>(token: Option<string>, userRole: Option<string>, requiredRole: Option<string>, call: Attempt<T>)
    ensures var (r, ran) := Authorize(token, userRole, requiredRole, call);
            (!Truthy(token) ==> r == Failed(PlainError("未登录")))
            && (Truthy(token) && Truthy(requiredRole) && userRole != requiredRole ==> r == Failed(PlainError("权限不足")))
            && (ran <==> Truthy(token) && (!Truthy(requiredRole) || userRole == requiredRole))
            && (ran ==> r == call)
  {
  }
}
