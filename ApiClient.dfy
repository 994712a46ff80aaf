/**
 * The shared HTTP client: its list of base URLs, the token helpers over local
 * storage, the request interceptor that attaches the bearer token, and the
 * response interceptor that performs a one-shot token refresh on 401 Unauthorized
 * (section 15.5.2 of RFC 9110) and a one-shot base-URL fallback on other failures.
 *
 * The network is an oracle `net` from the attempt being dispatched to its reply, and
 * the refresh endpoint an oracle `refresh` from (URL, refresh token) to its reply.
 */
module ApiClient {
  import opened Common
  import opened Strings
  import opened Storage

  const ApiUrlVariable := "REACT_APP_NODE_API_URL"
  const NoBaseUrlsMessage := "No valid API base URLs configured."
  const RefreshPath := "/auth/refresh-token"
  const AuthorizationHeader := "Authorization"

  // ---------------------------------------------------------------- base URLs

  /** `/^https?:\/\//.test(s)` */
  predicate IsHttpUrl(s: string) {
    (|s| >= 7 && s[..7] == "http://") || (|s| >= 8 && s[..8] == "https://")
  }

  /** `process.env[name]` */
  function EnvLookup(env: map<string, string>, name: string): (r: Option<string>)
    ensures r.Some? <==> name in env
    ensures r.Some? ==> r.value == env[name]
  {
    if name in env then Some(env[name]) else None
  }

  /** `getApiBaseUrls`: the primary and the fallback entry are read from the same
      variable, so a usable configuration always yields two identical URLs. */
  method GetApiBaseUrls(env: map<string, string>) returns (r: Result<seq<string>>)
    ensures r.Ok? <==> ApiUrlVariable in env && IsHttpUrl(env[ApiUrlVariable])
    ensures r.Ok? ==> r.value == [env[ApiUrlVariable], env[ApiUrlVariable]]
    ensures r.Ok? ==> forall u :: u in r.value ==> IsHttpUrl(u)
    ensures r.Err? ==> r.error == NoBaseUrlsMessage
  {
    var urls: seq<string> := [];
    var envUrl := EnvLookup(env, ApiUrlVariable);
    if Truthy(envUrl) && IsHttpUrl(envUrl.value) {
      urls := urls + [envUrl.value];
    }
    var fallbackUrl := EnvLookup(env, ApiUrlVariable);
    if Truthy(fallbackUrl) && IsHttpUrl(fallbackUrl.value) {
      urls := urls + [fallbackUrl.value];
    }
    if |urls| == 0 {
      return Err(NoBaseUrlsMessage);
    }
    return Ok(urls);
  }

  /** `urls.indexOf(u)`: the first position of u, or -1. */
  function IndexOf(urls: seq<string>, u: string): (i: int)
    ensures -1 <= i < |urls|
    ensures i == -1 <==> u !in urls
    ensures i >= 0 ==> urls[i] == u && u !in urls[..i]
  {
    if urls == [] then -1
    else if urls[0] == u then 0
    else
      var j := IndexOf(urls[1..], u);
      assert urls[1..][..if j >= 0 then j else 0] == urls[1..if j >= 0 then j + 1 else 1];
      if j == -1 then -1 else j + 1
  }

  /** `(urls.indexOf(u) + 1) % urls.length`: the URL after u, wrapping around; a URL that is
      not in the list (index -1) moves to the first entry. */
  function NextUrlIndex(urls: seq<string>, u: string): (j: nat)
    requires |urls| > 0
    ensures j < |urls|
    ensures u !in urls ==> j == 0
    ensures u in urls && IndexOf(urls, u) < |urls| - 1 ==> j >= 1 && urls[j - 1] == u && u !in urls[..j - 1]
    ensures u in urls && IndexOf(urls, u) == |urls| - 1 ==> j == 0
  {
    var i := IndexOf(urls, u);
    var j := (i + 1) % |urls|;
    assert j == if i + 1 < |urls| then i + 1 else 0 by {
      WrapAround(i + 1, |urls|);
    }
    j
  }

  lemma WrapAround(x: int, n: int)
    requires 0 <= x <= n && n > 0
    ensures x % n == if x < n then x else 0
  {
  }

  // ---------------------------------------------------------------- bearer credentials

  /** The Authorization value of section 2.1 of RFC 6750: the scheme, one space, the token. */
  function BearerCredentials(token: string): string {
    "Bearer " + token
  }

  /** The characters of a b64token other than its trailing "=" padding. */
  predicate IsB64TokenChar(c: char) {
    IsLetter(c) || IsDigit(c) || c == '-' || c == '.' || c == '_' || c == '~' || c == '+' || c == '/'
  }

  /** The longest prefix of s made of b64token characters. */
  function TokenCharPrefix(s: string): (r: string)
    ensures |r| <= |s| && r == s[..|r|]
    ensures forall i :: 0 <= i < |r| ==> IsB64TokenChar(r[i])
  {
    if |s| > 0 && IsB64TokenChar(s[0]) then [s[0]] + TokenCharPrefix(s[1..]) else []
  }

  /** b64token = 1*( ALPHA / DIGIT / "-" / "." / "_" / "~" / "+" / "/" ) *"=" */
  predicate IsB64Token(t: string) {
    var p := TokenCharPrefix(t);
    |p| > 0 && forall i :: |p| <= i < |t| ==> t[i] == '='
  }

  function DropSpaces(s: string): (r: string)
    ensures |r| <= |s| && r == s[|s| - |r|..]
    ensures r == [] || r[0] != ' '
  {
    if |s| > 0 && s[0] == ' ' then DropSpaces(s[1..]) else s
  }

  function LowerAscii(c: char): char {
    if IsUpper(c) then (c as int + 32) as char else c
  }

  /** Reads the token back out of an Authorization value as section 2.1 of RFC 6750 defines it:
      the scheme "Bearer" in any letter case, one or more spaces, then a b64token. */
  function ParseBearer(h: string): Option<string> {
    if |h| >= 7 && (forall i :: 0 <= i < 6 ==> LowerAscii(h[i]) == "bearer"[i]) && h[6] == ' ' then
      var rest := DropSpaces(h[6..]);
      if IsB64Token(rest) then Some(rest) else None
    else None
  }

  /** The interceptor writes the scheme, in a letter case the parser accepts, and one space. */
  lemma BearerSchemeMatches(token: string)
    ensures var h := BearerCredentials(token);
      |h| >= 7 && (forall i :: 0 <= i < 6 ==> LowerAscii(h[i]) == "bearer"[i]) && h[6] == ' '
  {
    var h := BearerCredentials(token);
    forall i | 0 <= i < 6
      ensures LowerAscii(h[i]) == "bearer"[i]
    {
      assert h[i] == "Bearer"[i];
    }
  }

  /** After the scheme, dropping spaces removes the one written space and any the token starts with. */
  lemma BearerRestDropsSpaces(token: string)
    ensures DropSpaces(BearerCredentials(token)[6..]) == DropSpaces(token)
  {
    assert BearerCredentials(token)[6..] == [' '] + token;
    assert ([' '] + token)[1..] == token;
  }

  /** The parser reads the token the interceptor wrote with any leading spaces dropped. */
  lemma BearerPrefix(token: string)
    ensures var rest := DropSpaces(token);
      ParseBearer(BearerCredentials(token)) == if IsB64Token(rest) then Some(rest) else None
  {
    BearerSchemeMatches(token);
    BearerRestDropsSpaces(token);
  }

  /** A b64token starts with a token character, never with a space. */
  lemma B64TokenHasNoLeadingSpace(token: string)
    requires IsB64Token(token)
    ensures DropSpaces(token) == token
  {
    assert IsB64TokenChar(TokenCharPrefix(token)[0]);
  }

  /** The header the interceptor writes carries the token back out exactly when the stored
      token is a well-formed b64token. */
  lemma BearerRoundTrip(token: string)
    ensures ParseBearer(BearerCredentials(token)) == Some(token) <==> IsB64Token(token)
  {
    BearerPrefix(token);
    if IsB64Token(token) {
      B64TokenHasNoLeadingSpace(token);
    }
  }

  // ---------------------------------------------------------------- requests and replies

  /** A request config that the interceptors mutate in place. */
  class Request {
    var headers: Option<map<string, string>>
    var baseURL: Option<string>
    /** `_retry`: a token refresh was already attempted for this request */
    var retry: bool
    /** `_retried`: a base-URL fallback was already attempted for this request */
    var retried: bool

    constructor (baseURL: Option<string>, headers: Option<map<string, string>>)
      ensures this.baseURL == baseURL && this.headers == headers
      ensures !retry && !retried
    {
      this.baseURL := baseURL;
      this.headers := headers;
      retry := false;
      retried := false;
    }

    /** How many one-shot retries this request still has. */
    function RetriesLeft(): (n: nat)
      reads this
      ensures n <= 2
      ensures n == 0 <==> retry && retried
    {
      (if retry then 0 else 1) + (if retried then 0 else 1)
    }

    function Authorization(): Option<string>
      reads this
    {
      if headers.Some? && AuthorizationHeader in headers.value then Some(headers.value[AuthorizationHeader])
      else None
    }
  }

  /** What one network dispatch carried: its position in the call, base URL and credentials. */
  datatype Attempt = Attempt(index: nat, baseURL: Option<string>, authorization: Option<string>)

  /** An axios error: `status` is `error.response?.status` (None when no response arrived). */
  datatype HttpError = HttpError(status: Option<int>, message: string)

  datatype Reply = Success(data: string) | Failure(error: HttpError)

  /** The refresh endpoint's answer: `response.data` on success. */
  datatype RefreshReply = Refreshed(accessToken: string, newRefreshToken: Option<string>) | RefreshFailed

  /** What the response interceptor does with a failed request. */
  datatype Verdict =
    | Retry               // re-send the (mutated) request through the client
    | Reject(error: HttpError)
    | Crash               // a TypeError: the error carries no request config

  /** How one logical call through the client ends. */
  datatype Outcome = Resolved(data: string) | Rejected(error: HttpError) | Crashed

  /** Which branch the response interceptor takes. */
  datatype Branch = NoConfig | RefreshToken | FallbackUrl | Pass

  /** The branch selection of the response interceptor: 401 with `_retry` unset refreshes
      (reading `_retry` of a missing config throws); otherwise a config with `_retried` unset,
      more than one URL and a string `baseURL` falls back; everything else is rejected. */
  function SelectBranch(status: Option<int>, hasConfig: bool, retry: bool, retried: bool,
                        urlCount: nat, hasBaseUrl: bool): (b: Branch)
    ensures b == NoConfig <==> status == Some(401) && !hasConfig
    ensures b == RefreshToken <==> status == Some(401) && hasConfig && !retry
    ensures b == FallbackUrl <==>
      hasConfig && !retried && urlCount > 1 && hasBaseUrl && !(status == Some(401) && !retry)
  {
    if status == Some(401) && !hasConfig then NoConfig
    else if status == Some(401) && !retry then RefreshToken
    else if hasConfig && !retried && urlCount > 1 && hasBaseUrl then FallbackUrl
    else Pass
  }

  /** A branch that re-sends the request consumes the flag that guards it, so neither
      kind of retry can be selected twice for the same request. */
  lemma RetryConsumesItsFlag(status: Option<int>, status': Option<int>, retried: bool,
                             retry': bool, urlCount: nat, hasBaseUrl: bool, hasBaseUrl': bool)
    ensures SelectBranch(status, true, true, retried, urlCount, hasBaseUrl) != RefreshToken
    ensures SelectBranch(status', true, retry', true, urlCount, hasBaseUrl') != FallbackUrl
  {
  }

  // ---------------------------------------------------------------- the client

  class Client {
    /** `NODE_API_URLS` */
    const urls: seq<string>
    const storage: LocalStorage
    /** Calls made to the refresh endpoint. */
    ghost var refreshCalls: nat
    /** Times the page was sent to "/login" (`window.location.href`). */
    ghost var loginRedirects: nat
    /** Times a request was re-sent to the next configured URL. */
    ghost var fallbacks: nat

    predicate Valid() {
      |urls| > 0
    }

    /** `axios.create({ baseURL: NODE_API_URLS[0], ... })` */
    constructor (urls: seq<string>, storage: LocalStorage)
      requires |urls| > 0
      ensures Valid() && this.urls == urls && this.storage == storage
      ensures refreshCalls == 0 && loginRedirects == 0 && fallbacks == 0
    {
      this.urls := urls;
      this.storage := storage;
      refreshCalls := 0;
      loginRedirects := 0;
      fallbacks := 0;
    }

    /** `getToken()` */
    function GetToken(): (r: Option<string>)
      reads storage
      ensures r.Some? <==> AccessTokenKey in storage.items
      ensures r.Some? ==> r.value == storage.items[AccessTokenKey]
    {
      storage.GetItem(AccessTokenKey)
    }

    /** `getRefreshToken()` */
    function GetRefreshToken(): (r: Option<string>)
      reads storage
      ensures r.Some? <==> RefreshTokenKey in storage.items
      ensures r.Some? ==> r.value == storage.items[RefreshTokenKey]
    {
      storage.GetItem(RefreshTokenKey)
    }

    /** `setTokens(accessToken, refreshToken)` */
    method SetTokens(accessToken: string, refreshToken: string)
      modifies storage
      ensures storage.items == old(storage.items)[AccessTokenKey := accessToken][RefreshTokenKey := refreshToken]
    {
      storage.SetItem(AccessTokenKey, accessToken);
      storage.SetItem(RefreshTokenKey, refreshToken);
    }

    /** `clearTokens()`: removes exactly the three session keys and nothing else. */
    method ClearTokens()
      modifies storage
      ensures storage.items == old(storage.items) - {AccessTokenKey, RefreshTokenKey, UserDataKey}
    {
      storage.RemoveItem(AccessTokenKey);
      storage.RemoveItem(RefreshTokenKey);
      storage.RemoveItem(UserDataKey);
    }

    /** The request interceptor: with a stored (truthy) access token and a headers object, sets
        `Authorization` to the bearer credentials; otherwise the config is left as it was. */
    method AttachBearer(config: Request)
      modifies config`headers
      ensures var token := GetToken();
        if Truthy(token) && old(config.headers).Some? then
          config.headers == Some(old(config.headers).value[AuthorizationHeader := BearerCredentials(token.value)])
        else
          config.headers == old(config.headers)
    {
      var token := GetToken();
      if Truthy(token) && config.headers.Some? {
        config.headers := Some(config.headers.value[AuthorizationHeader := BearerCredentials(token.value)]);
      }
    }

    /** The response interceptor's error handler. */
    method HandleError(err: HttpError, config: Request?, refresh: (string, string) -> RefreshReply)
      returns (v: Verdict)
      requires Valid()
      modifies this, storage, config
      ensures var b := SelectBranch(err.status, config != null, config != null && old(config.retry),
                                    config != null && old(config.retried), |urls|,
                                    config != null && old(config.baseURL).Some?);
        && (b == NoConfig ==>
              (v == Crash && storage.items == old(storage.items)
               && refreshCalls == old(refreshCalls) && loginRedirects == old(loginRedirects)))
        && (b == RefreshToken ==> config.retry && RefreshDone(err, config, refresh, v))
        && (b == FallbackUrl ==>
              (v == Retry && config.retried && config.retry == old(config.retry)
               && config.baseURL == Some(urls[NextUrlIndex(urls, old(config.baseURL).value)])
               && config.headers == old(config.headers)
               && storage.items == old(storage.items)
               && refreshCalls == old(refreshCalls) && loginRedirects == old(loginRedirects)))
        && (b == Pass ==>
              (v == Reject(err) && storage.items == old(storage.items)
               && (config != null ==>
                     (config.retry == old(config.retry) && config.retried == old(config.retried)
                      && config.baseURL == old(config.baseURL) && config.headers == old(config.headers)))
               && refreshCalls == old(refreshCalls) && loginRedirects == old(loginRedirects)))
      ensures v.Crash? <==> config == null && err.status == Some(401)
      ensures v.Reject? ==> v.error == err
      ensures config != null ==> (old(config.retry) ==> config.retry) && (old(config.retried) ==> config.retried)
      ensures v.Retry? ==> config != null && config.RetriesLeft() < old(config.RetriesLeft())
      ensures storage.items - SessionKeys == old(storage.items) - SessionKeys
      ensures config == null ==>
                refreshCalls == old(refreshCalls) && loginRedirects == old(loginRedirects) && fallbacks == old(fallbacks)
      // Each counter moves only when the flag guarding its branch is consumed by this call.
      ensures config != null ==>
                && refreshCalls <= old(refreshCalls) + (if config.retry && !old(config.retry) then 1 else 0)
                && loginRedirects <= old(loginRedirects) + (if config.retry && !old(config.retry) then 1 else 0)
                && fallbacks == old(fallbacks) + (if config.retried && !old(config.retried) then 1 else 0)
    {
      if err.status == Some(401) && config == null {
        return Crash;
      }
      if err.status == Some(401) && !config.retry {
        config.retry := true;
        var refreshToken := GetRefreshToken();
        if !Truthy(refreshToken) {
          ClearTokens();
          loginRedirects := loginRedirects + 1;
          return Reject(err);
        }
        refreshCalls := refreshCalls + 1;
        var reply := refresh(urls[0] + RefreshPath, refreshToken.value);
        if reply.RefreshFailed? {
          ClearTokens();
          loginRedirects := loginRedirects + 1;
          return Reject(err);
        }
        SetTokens(reply.accessToken, OrElse(reply.newRefreshToken, refreshToken.value));
        if config.headers.Some? {
          config.headers := Some(config.headers.value[AuthorizationHeader := BearerCredentials(reply.accessToken)]);
        }
        return Retry;
      }
      if config != null && !config.retried && |urls| > 1 && config.baseURL.Some? {
        config.retried := true;
        fallbacks := fallbacks + 1;
        var next := NextUrlIndex(urls, config.baseURL.value);
        config.baseURL := Some(urls[next]);
        return Retry;
      }
      return Reject(err);
    }

    /** The effect of the refresh branch on storage, on the request and on the verdict:
        without a (truthy) refresh token, or when the refresh call fails, the session keys are
        cleared, the page is sent to login and the ORIGINAL error is rejected; on success the new
        access token is stored with the new refresh token if one came back (else the old one is
        kept), the request carries the new bearer credentials and is re-sent. */
    twostate predicate RefreshDone(err: HttpError, config: Request, refresh: (string, string) -> RefreshReply, v: Verdict)
      requires Valid()
      reads this, storage, config
    {
      var rt := old(storage.GetItem(RefreshTokenKey));
      && config.retried == old(config.retried) && config.baseURL == old(config.baseURL)
      && fallbacks == old(fallbacks)
      && if !Truthy(rt) then
           && v == Reject(err)
           && storage.items == old(storage.items) - {AccessTokenKey, RefreshTokenKey, UserDataKey}
           && refreshCalls == old(refreshCalls) && loginRedirects == old(loginRedirects) + 1
           && config.headers == old(config.headers)
         else
           && refreshCalls == old(refreshCalls) + 1
           && match refresh(urls[0] + RefreshPath, rt.value)
              case RefreshFailed =>
                && v == Reject(err)
                && storage.items == old(storage.items) - {AccessTokenKey, RefreshTokenKey, UserDataKey}
                && loginRedirects == old(loginRedirects) + 1
                && config.headers == old(config.headers)
              case Refreshed(access, newRefresh) =>
                && v == Retry
                && storage.items == old(storage.items)[AccessTokenKey := access]
                                                      [RefreshTokenKey := OrElse(newRefresh, rt.value)]
                && loginRedirects == old(loginRedirects)
                && config.headers == if old(config.headers).Some?
                                     then Some(old(config.headers).value[AuthorizationHeader := BearerCredentials(access)])
                                     else old(config.headers)
    }

    /** Whether the response interceptor re-sends a request whose dispatch failed with `err`,
        given the request's flags and base URL and the stored refresh token: it does after a
        refresh that succeeds and after a fallback to the next URL, and in no other case. */
    ghost predicate Resends(err: HttpError, retry: bool, retried: bool, baseURL: Option<string>,
                            refreshToken: Option<string>, refresh: (string, string) -> RefreshReply)
      requires Valid()
    {
      var b := SelectBranch(err.status, true, retry, retried, |urls|, baseURL.Some?);
      || b == FallbackUrl
      || (b == RefreshToken && Truthy(refreshToken) && refresh(urls[0] + RefreshPath, refreshToken.value).Refreshed?)
    }

    /** The request interceptor followed by one network dispatch: the attempt carries the
        request's base URL and, when a (truthy) access token is stored and the request has
        headers, the bearer credentials of that token. */
    method Transmit(config: Request, net: Attempt -> Reply, index: nat) returns (attempt: Attempt, reply: Reply)
      modifies config`headers
      ensures attempt.index == index && attempt.baseURL == config.baseURL && reply == net(attempt)
      ensures var token := GetToken();
        attempt.authorization ==
          if Truthy(token) && old(config.headers).Some? then Some(BearerCredentials(token.value))
          else old(config.Authorization())
      ensures attempt.authorization == config.Authorization()
      ensures config.headers.Some? == old(config.headers).Some?
    {
      AttachBearer(config);
      attempt := Attempt(index, config.baseURL, config.Authorization());
      reply := net(attempt);
    }

    /** One pass of a request through the client: the request interceptor, one network
        dispatch, and on failure the response interceptor, which may re-send the same request
        (`return createApiClient(originalRequest)`). Every re-send spends one of the request's
        two one-shot flags, so a logical call makes at most three dispatches and at most one
        refresh call, and when it is rejected the error is the last dispatch's own failure.
        Conversely, a successful refresh or a fallback is always followed by another dispatch. */
    method Dispatch(config: Request, net: Attempt -> Reply, refresh: (string, string) -> RefreshReply, index: nat)
      returns (o: Outcome, ghost trace: seq<Attempt>)
      requires Valid()
      modifies this, storage, config
      decreases config.RetriesLeft()
      ensures 1 <= |trace| <= 1 + old(config.RetriesLeft())
      ensures trace[0].baseURL == old(config.baseURL)
      ensures forall i :: 0 <= i < |trace| ==> trace[i].index == index + i
      ensures forall i :: 0 <= i < |trace| - 1 ==> net(trace[i]).Failure?
      ensures o.Resolved? <==> net(trace[|trace| - 1]).Success?
      ensures o.Resolved? ==> o.data == net(trace[|trace| - 1]).data
      ensures o.Rejected? ==> o.error == net(trace[|trace| - 1]).error
      ensures !o.Crashed?
      // The request is sent again exactly when the first dispatch failed and the interceptor
      // refreshed the token successfully or fell back to the next URL.
      ensures |trace| >= 2 <==>
                net(trace[0]).Failure?
                && Resends(net(trace[0]).error, old(config.retry), old(config.retried), old(config.baseURL),
                           old(GetRefreshToken()), refresh)
      ensures net(trace[0]).Failure?
              && SelectBranch(net(trace[0]).error.status, true, old(config.retry), old(config.retried),
                              |urls|, old(config.baseURL).Some?) == FallbackUrl
              ==> trace[1].baseURL == Some(urls[NextUrlIndex(urls, old(config.baseURL).value)])
      // Each dispatch carries the bearer credentials of the access token stored when it is made,
      // so the dispatch after a successful refresh carries the token the refresh returned.
      ensures var token := old(GetToken());
        trace[0].authorization ==
          if Truthy(token) && old(config.headers).Some? then Some(BearerCredentials(token.value))
          else old(config.Authorization())
      ensures var rt := old(GetRefreshToken());
        net(trace[0]).Failure? && old(config.headers).Some?
        && SelectBranch(net(trace[0]).error.status, true, old(config.retry), old(config.retried),
                        |urls|, old(config.baseURL).Some?) == RefreshToken
        && Truthy(rt) && refresh(urls[0] + RefreshPath, rt.value).Refreshed?
        ==> trace[1].authorization == Some(BearerCredentials(refresh(urls[0] + RefreshPath, rt.value).accessToken))
      ensures refreshCalls <= old(refreshCalls) + (if old(config.retry) then 0 else 1)
      ensures loginRedirects <= old(loginRedirects) + (if old(config.retry) then 0 else 1)
      ensures fallbacks <= old(fallbacks) + (if old(config.retried) then 0 else 1)
      ensures storage.items - SessionKeys == old(storage.items) - SessionKeys
      ensures (old(config.retry) ==> config.retry) && (old(config.retried) ==> config.retried)
    {
      var attempt, reply := Transmit(config, net, index);
      if reply.Success? {
        return Resolved(reply.data), [attempt];
      }
      var v := HandleError(reply.error, config, refresh);
      if v.Retry? {
        var o', rest := Dispatch(config, net, refresh, index + 1);
        o, trace := o', [attempt] + rest;
        assert trace[1..] == rest && trace[|trace| - 1] == rest[|rest| - 1];
      } else if v.Reject? {
        o, trace := Rejected(v.error), [attempt];
      } else {
        o, trace := Crashed, [attempt];
      }
    }

    /** A new request from the client: its base URL is the first configured URL, its headers
        the JSON content type, and neither retry flag is set. */
    method NewRequest() returns (config: Request)
      requires Valid()
      ensures fresh(config)
      ensures config.baseURL == Some(urls[0]) && config.headers == Some(map["Content-Type" := "application/json"])
      ensures !config.retry && !config.retried
    {
      config := new Request(Some(urls[0]), Some(map["Content-Type" := "application/json"]));
    }

    /** A logical call through the client: at most three dispatches, at most one refresh, at
        most one fallback and at most one redirect to login; storage outside the session keys
        is left as it was. */
    method Send(net: Attempt -> Reply, refresh: (string, string) -> RefreshReply)
      returns (o: Outcome, ghost trace: seq<Attempt>)
      requires Valid()
      modifies this, storage
      ensures 1 <= |trace| <= 3
      ensures trace[0].baseURL == Some(urls[0])
      ensures forall i :: 0 <= i < |trace| - 1 ==> net(trace[i]).Failure?
      ensures o.Resolved? <==> net(trace[|trace| - 1]).Success?
      ensures o.Resolved? ==> o.data == net(trace[|trace| - 1]).data
      ensures o.Rejected? ==> o.error == net(trace[|trace| - 1]).error
      ensures !o.Crashed?
      // The first dispatch carries the stored access token, if truthy; the call dispatches
      // again exactly after a successful refresh or a fallback, and then to the second URL or
      // with the refreshed token.
      ensures var token := old(GetToken());
        trace[0].authorization == if Truthy(token) then Some(BearerCredentials(token.value)) else None
      ensures |trace| >= 2 <==>
                net(trace[0]).Failure?
                && Resends(net(trace[0]).error, false, false, Some(urls[0]), old(GetRefreshToken()), refresh)
      ensures net(trace[0]).Failure? && net(trace[0]).error.status != Some(401) && |urls| > 1
              ==> |trace| >= 2 && trace[1].baseURL == Some(urls[1])
      ensures var rt := old(GetRefreshToken());
        net(trace[0]).Failure? && net(trace[0]).error.status == Some(401)
        && Truthy(rt) && refresh(urls[0] + RefreshPath, rt.value).Refreshed?
        ==> |trace| >= 2
            && trace[1].authorization == Some(BearerCredentials(refresh(urls[0] + RefreshPath, rt.value).accessToken))
      ensures refreshCalls <= old(refreshCalls) + 1
      ensures loginRedirects <= old(loginRedirects) + 1
      ensures fallbacks <= old(fallbacks) + 1
      ensures storage.items - SessionKeys == old(storage.items) - SessionKeys
    {
      var config := NewRequest();
      o, trace := Dispatch(config, net, refresh, 0);
    }
  }
}
