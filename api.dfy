/** The client's session handling (frontend/src/api/api.js): the token store
    in `localStorage`, the request interceptor that attaches the access token,
    the response interceptor that refreshes it once on a 401, and logout.
    The server and the refresh endpoint are parameters: functions from what is
    sent to the settled reply. */
module Api {
  import opened Wrappers
  import Text
  import opened Js

  /** The endpoints `authAPI` posts to and reads from, relative to the base URL. */
  const RegisterUrl := "/users/register/"
  const LoginUrl := "/users/login/"
  const LogoutUrl := "/users/logout/"
  const SubscriptionPlansUrl := "/users/subscription-plans/"
  const SubscriptionsUrl := "/users/subscriptions/"
  const RefreshUrl := "/users/token/refresh/"

  /** The marker `originalRequest.url.includes('/login/')` looks for. */
  const LoginUrlMarker := "/login/"

  /** Where a failed refresh sends the browser. */
  const LoginPath := "/login"

  /** `new Error('No refresh token available')`. */
  const NoRefreshTokenError := JsError("No refresh token available", None)

  /** The two stored strings, `access_token` and `refresh_token`. */
  datatype Tokens = Tokens(access: Option<string>, refresh: Option<string>)

  const NoTokens := Tokens(None, None)

  /** The request interceptor: a truthy stored access token becomes
      `Authorization: Bearer <token>`; otherwise the header is left as it was
      (unset on a fresh request). */
  function Authorization(access: Option<string>, header: Option<string>): (h: Option<string>)
    ensures Truthy(access) ==> h == Some("Bearer " + access.value)
    ensures !Truthy(access) ==> h == header
  {
    if Truthy(access) then Some("Bearer " + access.value) else header
  }

  /** How the response interceptor settles a failed request: rejected with an
      error, or re-issued with a new Authorization header. */
  datatype Settlement = Rejected(error: JsError) | Reissued(authorization: string)

  /** Everything one run of the error handler decides: the tokens afterwards,
      the request's `_retry` flag, the refresh token sent to the refresh
      endpoint (if any), the settlement, and the page the browser is sent to
      (if any). */
  datatype ErrorStep = ErrorStep(
    tokens: Tokens,
    retry: bool,
    refreshSent: Option<string>,
    settlement: Settlement,
    redirect: Option<string>)

  /** The response interceptor's error handler, for a request to `url` whose
      `_retry` flag is `retry`. The refresh endpoint is only called when a
      truthy refresh token is stored and the URL is not a login URL. */
  function OnResponseError(t: Tokens, url: string, retry: bool, error: JsError,
                           refreshEndpoint: string -> Result<string, JsError>): (s: ErrorStep)
    // Anything but a first 401 passes through untouched.
    ensures !(HasStatus(error, 401) && !retry) ==> s == ErrorStep(t, retry, None, Rejected(error), None)
    // A first 401 marks the request before anything else, so it is refreshed at most once.
    ensures HasStatus(error, 401) && !retry ==> s.retry
    // The refresh endpoint is called exactly for a first 401 outside login
    // URLs with a truthy refresh token stored, and is sent that token.
    ensures s.refreshSent.Some? ==>
              && HasStatus(error, 401) && !retry && Truthy(t.refresh) && s.refreshSent == t.refresh
              && !Text.Contains(url, LoginUrlMarker)
    ensures HasStatus(error, 401) && !retry && Truthy(t.refresh) && !Text.Contains(url, LoginUrlMarker) ==>
              s.refreshSent == t.refresh
    // A successful refresh replaces the access token only and re-issues the request with it.
    ensures s.settlement.Reissued? <==> s.refreshSent.Some? && refreshEndpoint(s.refreshSent.value).Success?
    ensures s.settlement.Reissued? ==>
              && s.tokens == Tokens(Some(refreshEndpoint(s.refreshSent.value).value), t.refresh)
              && s.settlement.authorization == "Bearer " + s.tokens.access.value
              && s.redirect.None?
    // Tokens change only by that refresh or by clearing both.
    ensures s.tokens != t ==> s.settlement.Reissued? || s.tokens == NoTokens
    ensures s.redirect.Some? ==> s.redirect == Some(LoginPath) && s.tokens == NoTokens
    // A first 401 elsewhere than login that is not re-issued clears the session,
    // redirects, and rejects with the refresh error, not the original one.
    ensures HasStatus(error, 401) && !retry && !Text.Contains(url, LoginUrlMarker) && s.settlement.Rejected? ==>
              && s.tokens == NoTokens && s.redirect == Some(LoginPath)
              && s.settlement.error == (if s.refreshSent.Some? then refreshEndpoint(s.refreshSent.value).error
                                        else NoRefreshTokenError)
    // A login URL is never refreshed, cleared or redirected; without a refresh
    // token the rejection is still the "no refresh token" error.
    ensures Text.Contains(url, LoginUrlMarker) ==> s.tokens == t && s.redirect.None? && s.refreshSent.None?
    ensures Text.Contains(url, LoginUrlMarker) && HasStatus(error, 401) && !retry ==>
              s.settlement == Rejected(if Truthy(t.refresh) then error else NoRefreshTokenError)
  {
    if !(HasStatus(error, 401) && !retry) then ErrorStep(t, retry, None, Rejected(error), None)
    else if !Truthy(t.refresh) then
      if !Text.Contains(url, LoginUrlMarker) then ErrorStep(NoTokens, true, None, Rejected(NoRefreshTokenError), Some(LoginPath))
      else ErrorStep(t, true, None, Rejected(NoRefreshTokenError), None)
    else if Text.Contains(url, LoginUrlMarker) then ErrorStep(t, true, None, Rejected(error), None)
    else
      match refreshEndpoint(t.refresh.value)
      case Success(access) =>
        ErrorStep(Tokens(Some(access), t.refresh), true, t.refresh, Reissued("Bearer " + access), None)
      case Failure(refreshError) =>
        ErrorStep(NoTokens, true, t.refresh, Rejected(refreshError), Some(LoginPath))
  }

  /** One call through `api`: the headers sent to the server, the refresh
      tokens sent to the refresh endpoint, the tokens, outcome and redirect
      at the end. */
  datatype Exchange = Exchange(
    tokens: Tokens,
    sent: seq<Option<string>>,
    refreshCalls: seq<string>,
    outcome: Result<HttpResponse, JsError>,
    redirect: Option<string>)

  /** `api(config)` from start to settlement: the request interceptor, the
      server's reply to the header it receives, and on an error the response
      interceptor, whose re-issue goes through `api` once more. */
  function Send(t: Tokens, url: string, retry: bool, header: Option<string>,
                server: Option<string> -> Result<HttpResponse, JsError>,
                refreshEndpoint: string -> Result<string, JsError>): (x: Exchange)
    decreases if retry then 0 else 1
    ensures 1 <= |x.sent| <= 2 && |x.refreshCalls| <= 1
    ensures x.sent[0] == Authorization(t.access, header)
    ensures |x.sent| == 2 <==> |x.refreshCalls| == 1 && refreshEndpoint(x.refreshCalls[0]).Success?
    ensures |x.refreshCalls| == 1 ==> Some(x.refreshCalls[0]) == t.refresh && !retry
    ensures |x.sent| == 2 ==> x.sent[1] == Some("Bearer " + refreshEndpoint(x.refreshCalls[0]).value)
    ensures |x.sent| == 2 ==> x.tokens.refresh == t.refresh
    ensures retry ==> |x.sent| == 1 && x.refreshCalls == [] && x.tokens == t && x.redirect.None?
    ensures x.redirect.Some? ==> x.tokens == NoTokens
    // A successful reply passes through: one request, nothing refreshed or cleared.
    ensures var h := Authorization(t.access, header);
            server(h).Success? ==> x == Exchange(t, [h], [], server(h), None)
    // An already-marked request gets the server's reply as it is.
    ensures retry ==> x.outcome == server(Authorization(t.access, header))
    // A failed one is settled by the error handler: rejected with its error,
    // or answered by the server's reply to the re-issued request, whatever
    // that reply is.
    ensures var h := Authorization(t.access, header);
            server(h).Failure? ==>
              var s := OnResponseError(t, url, retry, server(h).error, refreshEndpoint);
              && (s.settlement.Rejected? ==>
                    x.outcome == Failure(s.settlement.error) && x.tokens == s.tokens && x.redirect == s.redirect)
              && (s.settlement.Reissued? ==>
                    x.outcome == server(Some(s.settlement.authorization)) && x.tokens == s.tokens && x.redirect.None?)
    // The refresh call made is exactly the error handler's, and the request
    // is sent a second time exactly when the handler re-issues it.
    ensures var h := Authorization(t.access, header);
            server(h).Failure? ==>
              var s := OnResponseError(t, url, retry, server(h).error, refreshEndpoint);
              && x.refreshCalls == (if s.refreshSent.Some? then [s.refreshSent.value] else [])
              && (|x.sent| == 2 <==> s.settlement.Reissued?)
  {
    var h := Authorization(t.access, header);
    match server(h)
    case Success(response) => Exchange(t, [h], [], Success(response), None)
    case Failure(e) =>
      var s := OnResponseError(t, url, retry, e, refreshEndpoint);
      var calls := if s.refreshSent.Some? then [s.refreshSent.value] else [];
      match s.settlement
      case Rejected(err) => Exchange(s.tokens, [h], calls, Failure(err), s.redirect)
      case Reissued(auth) =>
        var y := Send(s.tokens, url, s.retry, Some(auth), server, refreshEndpoint);
        Exchange(y.tokens, [h] + y.sent, calls + y.refreshCalls, y.outcome, y.redirect)
  }

  /** `localStorage`, for the two keys the client uses. */
  class TokenStore {
    var access: Option<string>
    var refresh: Option<string>

    function Value(): Tokens
      reads this
    {
      Tokens(access, refresh)
    }

    constructor ()
      ensures Value() == NoTokens
    {
      access := None;
      refresh := None;
    }

    /** `localStorage.setItem('access_token', token)`. */
    method SetAccess(token: string)
      modifies this`access
      ensures access == Some(token)
    {
      access := Some(token);
    }

    /** `localStorage.setItem('refresh_token', token)`. */
    method SetRefresh(token: string)
      modifies this`refresh
      ensures refresh == Some(token)
    {
      refresh := Some(token);
    }

    /** `removeItem` on both keys. */
    method Clear()
      modifies this
      ensures Value() == NoTokens
    {
      access := None;
      refresh := None;
    }
  }

  /** The request object axios hands to the interceptors; they update its
      header and `_retry` flag in place. */
  class RequestConfig {
    const url: string
    var authorization: Option<string>
    var retry: bool

    constructor (url: string)
      ensures this.url == url && authorization == None && !retry
    {
      this.url := url;
      authorization := None;
      retry := false;
    }
  }

  /** The request interceptor. */
  method AttachToken(store: TokenStore, config: RequestConfig)
    modifies config`authorization
    ensures config.authorization == Authorization(store.access, old(config.authorization))
  {
    var token := store.access;
    if Truthy(token) {
      config.authorization := Some("Bearer " + token.value);
    }
  }

  /** The response interceptor's error handler, as written: a try block whose
      two throw sites (no refresh token, a failed refresh call) share one
      catch block. */
  method HandleResponseError(store: TokenStore, config: RequestConfig, error: JsError,
                             refreshEndpoint: string -> Result<string, JsError>)
    returns (settlement: Settlement, redirect: Option<string>, refreshSent: Option<string>)
    modifies store, config`retry, config`authorization
    ensures var s := OnResponseError(old(store.Value()), config.url, old(config.retry), error, refreshEndpoint);
            && store.Value() == s.tokens && config.retry == s.retry
            && settlement == s.settlement && redirect == s.redirect && refreshSent == s.refreshSent
    ensures settlement.Reissued? ==> config.authorization == Some(settlement.authorization)
    ensures settlement.Rejected? ==> config.authorization == old(config.authorization)
  {
    redirect, refreshSent := None, None;
    if HasStatus(error, 401) && !config.retry {
      config.retry := true;
      var thrown: Option<JsError> := None;
      var refreshToken := store.refresh;
      if !Truthy(refreshToken) {
        thrown := Some(NoRefreshTokenError);
      } else if !Text.Contains(config.url, LoginUrlMarker) {
        refreshSent := refreshToken;
        var reply := refreshEndpoint(refreshToken.value);
        match reply
        case Success(access) =>
          store.SetAccess(access);
          config.authorization := Some("Bearer " + access);
          return Reissued("Bearer " + access), None, refreshSent;
        case Failure(refreshError) =>
          thrown := Some(refreshError);
      }
      if thrown.Some? {
        if !Text.Contains(config.url, LoginUrlMarker) {
          store.Clear();
          redirect := Some(LoginPath);
        }
        return Rejected(thrown.value), redirect, refreshSent;
      }
    }
    settlement := Rejected(error);
  }

  /** `api(config)`: attach the token, send, and on an error let the response
      interceptor settle it; a re-issue is another `api(config)` with the
      request already marked. */
  method Request(store: TokenStore, config: RequestConfig,
                 server: Option<string> -> Result<HttpResponse, JsError>,
                 refreshEndpoint: string -> Result<string, JsError>)
    returns (outcome: Result<HttpResponse, JsError>, redirect: Option<string>)
    modifies store, config`retry, config`authorization
    decreases if config.retry then 0 else 1
    ensures var x := Send(old(store.Value()), config.url, old(config.retry), old(config.authorization),
                          server, refreshEndpoint);
            store.Value() == x.tokens && outcome == x.outcome && redirect == x.redirect
  {
    AttachToken(store, config);
    var reply := server(config.authorization);
    if reply.Success? {
      return reply, None;
    }
    var settlement, refreshSent;
    settlement, redirect, refreshSent := HandleResponseError(store, config, reply.error, refreshEndpoint);
    if settlement.Reissued? {
      outcome, redirect := Request(store, config, server, refreshEndpoint);
    } else {
      outcome := Failure(settlement.error);
    }
  }

  /** `authAPI.logout`: read the stored refresh token, post it through `api`
      (`server` answers a body's refresh token and a header), and clear both
      tokens in the `finally` block, whatever the request gave. A redirect
      to the login page set by the interceptor is returned as well. */
  method Logout(store: TokenStore,
                server: Option<string> -> Option<string> -> Result<HttpResponse, JsError>,
                refreshEndpoint: string -> Result<string, JsError>)
    returns (sent: Option<string>, result: Result<HttpResponse, JsError>, redirect: Option<string>)
    modifies store
    ensures sent == old(store.refresh)
    ensures var x := Send(old(store.Value()), LogoutUrl, false, None, server(sent), refreshEndpoint);
            result == x.outcome && redirect == x.redirect
    ensures store.Value() == NoTokens
  {
    sent := store.refresh;
    var config := new RequestConfig(LogoutUrl);
    result, redirect := Request(store, config, server(sent), refreshEndpoint);
    store.Clear();
  }

  /** The login endpoint's URL carries the login marker. */
  lemma LoginUrlIsExempt()
    ensures Text.Contains(LoginUrl, LoginUrlMarker)
  {
    assert Text.OccursAt(LoginUrl, LoginUrlMarker, 6);
  }

  /** No other endpoint the client calls carries it. */
  lemma OtherUrlsAreNotExempt(url: string)
    requires url in {RegisterUrl, LogoutUrl, RefreshUrl, SubscriptionPlansUrl, SubscriptionsUrl}
    ensures !Text.Contains(url, LoginUrlMarker)
  {
    if url == RegisterUrl {
      Text.AbsentCharacter(url, LoginUrlMarker, 'l');
    } else if url == LogoutUrl {
      Text.AbsentCharacter(url, LoginUrlMarker, 'i');
    } else {
      Text.AbsentCharacter(url, LoginUrlMarker, 'g');
    }
  }
}
