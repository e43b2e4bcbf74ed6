/** The login page's submit handler (frontend/src/pages/LoginPage.jsx): post
    the credentials, store both tokens, then either leave for the admin site,
    refuse a non-admin who asked for it, or go to /home. */
module Login {
  import opened Wrappers
  import Text
  import opened Js
  import opened Jwt
  import opened Api

  const NotAdminMessage := "You don't have administrator privileges"
  const InvalidCredentialsMessage := "Invalid credentials. Please try again."

  /** `localStorage.setItem` keeps the string form of its argument, so an
      absent token is stored as "undefined". */
  function Stored(v: Option<string>): (s: string)
    ensures v.Some? ==> s == v.value
    ensures v.None? ==> s == "undefined"
  {
    if v.Some? then v.value else "undefined"
  }

  /** `err.response?.data?.detail || "Invalid credentials. Please try again."`:
      never empty, so a failure always shows a message. */
  function LoginErrorMessage(e: JsError): (m: string)
    ensures m != ""
    ensures e.response.Some? && Truthy(e.response.value.data.detail) ==> m == e.response.value.data.detail.value
    ensures !(e.response.Some? && Truthy(e.response.value.data.detail)) ==> m == InvalidCredentialsMessage
  {
    if e.response.Some? && Truthy(e.response.value.data.detail) then e.response.value.data.detail.value
    else InvalidCredentialsMessage
  }

  /** The claims of the access token a successful login returned, when it has
      one with three segments whose payload decodes. */
  function LoginClaims(reply: Result<HttpResponse, JsError>, decode: string -> Option<Claims>): Option<Claims>
  {
    if reply.Success? && reply.value.data.access.Some?
       && ReadPayload(reply.value.data.access.value, decode).Decoded?
    then Some(ReadPayload(reply.value.data.access.value, decode).claims)
    else None
  }

  /** The tokens, navigation and error message a submission ends with. */
  datatype LoginResult = LoginResult(tokens: Tokens, nav: Nav, error: string)

  /** The handler once the login request has settled with `reply`, starting
      from the stored tokens `t`. */
  function AfterLogin(t: Tokens, reply: Result<HttpResponse, JsError>, adminRequested: bool,
                      decode: string -> Option<Claims>): (r: LoginResult)
    // A rejected request stores nothing and shows the server's detail or the fallback.
    ensures reply.Failure? ==> r == LoginResult(t, Stay, LoginErrorMessage(reply.error))
    // A successful one stores both tokens before anything is decided.
    ensures reply.Success? ==>
              r.tokens == Tokens(Some(Stored(reply.value.data.access)), Some(Stored(reply.value.data.refresh)))
    // The admin site exactly for a requested and granted admin login; /home
    // exactly when admin was not requested, whatever the flags say.
    ensures r.nav == Assign(AdminSiteUrl) <==>
              LoginClaims(reply, decode).Some? && adminRequested && FlagsSayAdmin(LoginClaims(reply, decode).value)
    ensures r.nav == Navigate("/home", None) <==> LoginClaims(reply, decode).Some? && !adminRequested
    ensures r.nav == Stay || r.nav == Assign(AdminSiteUrl) || r.nav == Navigate("/home", None)
    ensures reply.Success? ==>
              (r.error == NotAdminMessage <==>
                 LoginClaims(reply, decode).Some? && adminRequested && !FlagsSayAdmin(LoginClaims(reply, decode).value))
    // A token without three segments: no navigation and no error.
    ensures (reply.Success? && reply.value.data.access.Some?
             && ReadPayload(reply.value.data.access.value, decode).Malformed?) ==> r.nav == Stay && r.error == ""
    // An absent token or an undecodable payload throws into the catch block.
    ensures reply.Success? && (reply.value.data.access.None?
                               || ReadPayload(reply.value.data.access.value, decode).Unreadable?) ==>
              r.nav == Stay && r.error == InvalidCredentialsMessage
    ensures r.nav != Stay ==> r.error == ""
  {
    match reply
    case Failure(e) => LoginResult(t, Stay, LoginErrorMessage(e))
    case Success(response) =>
      var access := response.data.access;
      var stored := Tokens(Some(Stored(access)), Some(Stored(response.data.refresh)));
      if access.None? then LoginResult(stored, Stay, LoginErrorMessage(ThrownLocally))
      else
        match ReadPayload(access.value, decode)
        case Malformed => LoginResult(stored, Stay, "")
        case Unreadable => LoginResult(stored, Stay, LoginErrorMessage(ThrownLocally))
        case Decoded(claims) =>
          if adminRequested && FlagsSayAdmin(claims) then LoginResult(stored, Assign(AdminSiteUrl), "")
          else if adminRequested then LoginResult(stored, Stay, NotAdminMessage)
          else LoginResult(stored, Navigate("/home", None), "")
  }

  /** A whole submission: the login request through the interceptors, then
      the handler. The login URL is exempt from refreshing, so the request
      itself never changes the stored tokens. */
  function LoginOutcome(t: Tokens, adminRequested: bool,
                        server: Option<string> -> Result<HttpResponse, JsError>,
                        refreshEndpoint: string -> Result<string, JsError>,
                        decode: string -> Option<Claims>): (r: LoginResult)
    ensures var x := Send(t, LoginUrl, false, None, server, refreshEndpoint);
            && x.tokens == t && x.refreshCalls == [] && |x.sent| == 1 && x.redirect.None?
            && r == AfterLogin(t, x.outcome, adminRequested, decode)
  {
    LoginUrlIsExempt();
    var x := Send(t, LoginUrl, false, None, server, refreshEndpoint);
    AfterLogin(x.tokens, x.outcome, adminRequested, decode)
  }

  /** A failed login with no refresh token stored shows the fallback message,
      not the server's detail: the interceptor replaces a 401 by its own
      "No refresh token available" error before the login exemption applies.
      With a refresh token stored, the server's detail is shown. */
  lemma RejectedLoginMessage(t: Tokens, adminRequested: bool, detail: string,
                             refreshEndpoint: string -> Result<string, JsError>,
                             decode: string -> Option<Claims>)
    requires detail != ""
    ensures var server := (h: Option<string>) =>
              Failure(JsError("Request failed with status code 401",
                              Some(HttpResponse(401, NoData.(detail := Some(detail))))));
            var r := LoginOutcome(t, adminRequested, server, refreshEndpoint, decode);
            && r.tokens == t && r.nav == Stay
            && r.error == (if Truthy(t.refresh) then detail else InvalidCredentialsMessage)
  {
    var e := JsError("Request failed with status code 401", Some(HttpResponse(401, NoData.(detail := Some(detail)))));
    var server := (h: Option<string>) => Failure(e);
    LoginUrlIsExempt();
    var s := OnResponseError(t, LoginUrl, false, e, refreshEndpoint);
    assert s.settlement == Rejected(if Truthy(t.refresh) then e else NoRefreshTokenError);
    var x := Send(t, LoginUrl, false, None, server, refreshEndpoint);
    assert x.outcome == Failure(s.settlement.error);
  }

  /** The page's state: the error shown, and the two busy flags. */
  class LoginPage {
    var error: string
    var loading: bool
    var submitting: bool

    constructor ()
      ensures error == "" && !loading && !submitting
    {
      error := "";
      loading := false;
      submitting := false;
    }

    /** `onSubmit`: post the credentials, store both tokens, check the
        payload's admin flags against the admin checkbox; the `finally` block
        resets both busy flags on every path. */
    method OnSubmit(store: TokenStore, adminRequested: bool,
                    server: Option<string> -> Result<HttpResponse, JsError>,
                    refreshEndpoint: string -> Result<string, JsError>,
                    decode: string -> Option<Claims>) returns (nav: Nav)
      modifies this, store
      ensures var r := LoginOutcome(old(store.Value()), adminRequested, server, refreshEndpoint, decode);
              && store.Value() == r.tokens && nav == r.nav && error == r.error
      ensures !loading && !submitting
    {
      loading := true;
      error := "";
      nav := Stay;
      LoginUrlIsExempt();
      var config := new RequestConfig(LoginUrl);
      var reply, redirect := Request(store, config, server, refreshEndpoint);
      var thrown: Option<JsError> := None;
      if reply.Failure? {
        thrown := Some(reply.error);
      } else {
        var access := reply.value.data.access;
        store.SetAccess(Stored(access));
        store.SetRefresh(Stored(reply.value.data.refresh));
        if access.None? {
          thrown := Some(ThrownLocally);
        } else {
          var tokenParts := Text.Split(access.value, '.');
          if |tokenParts| == 3 {
            var payload := decode(tokenParts[1]);
            if payload.None? {
              thrown := Some(ThrownLocally);
            } else {
              var isAdmin := FlagsSayAdmin(payload.value);
              if adminRequested && isAdmin {
                nav := Assign(AdminSiteUrl);
              } else if adminRequested && !isAdmin {
                error := NotAdminMessage;
                loading := false;
                submitting := false;
              } else {
                nav := Navigate("/home", None);
              }
            }
          }
        }
      }
      if thrown.Some? {
        error := LoginErrorMessage(thrown.value);
      }
      loading := false;
      submitting := false;
    }
  }
}
