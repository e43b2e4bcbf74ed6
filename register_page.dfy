/** The registration page's submit handler and submit button
    (frontend/src/pages/RegisterPage.jsx). */
module Registration {
  import opened Wrappers
  import opened Js
  import opened Api

  const RegisteredMessage := "Registration successful! Please login with your credentials."
  const RegistrationFailedMessage := "Registration failed. Please try again."

  /** `list?.[0]`: the first message of a field's error list, if any. */
  function FirstMessage(messages: seq<string>): (m: Option<string>)
    ensures m.Some? <==> |messages| > 0
    ensures m.Some? ==> m.value == messages[0]
  {
    if |messages| > 0 then Some(messages[0]) else None
  }

  /** The `||` chain of the catch block: the first username error, else the
      first email error, else the fallback. Empty messages are skipped, and
      the result is never empty. */
  function RegisterErrorMessage(e: JsError): (m: string)
    ensures m != ""
    ensures e.response.Some? && Truthy(FirstMessage(e.response.value.data.username)) ==>
              m == e.response.value.data.username[0]
    ensures (&& e.response.Some? && !Truthy(FirstMessage(e.response.value.data.username))
             && Truthy(FirstMessage(e.response.value.data.email))) ==>
              m == e.response.value.data.email[0]
    ensures (|| e.response.None?
             || (!Truthy(FirstMessage(e.response.value.data.username))
                 && !Truthy(FirstMessage(e.response.value.data.email)))) ==>
              m == RegistrationFailedMessage
  {
    var username := if e.response.Some? then FirstMessage(e.response.value.data.username) else None;
    var email := if e.response.Some? then FirstMessage(e.response.value.data.email) else None;
    if Truthy(username) then username.value
    else if Truthy(email) then email.value
    else RegistrationFailedMessage
  }

  /** The submit button's `disabled`: while Formik submits, while the page is
      loading, or while the form is invalid. */
  function SubmitDisabled(submitting: bool, loading: bool, valid: bool): (d: bool)
    ensures !d ==> valid && !submitting && !loading
    ensures submitting || loading || !valid ==> d
  {
    submitting || loading || !valid
  }

  /** Where a submission leaves the page: the navigation and the error shown. */
  datatype RegisterResult = RegisterResult(nav: Nav, error: string)

  /** The handler once the register request has settled: on success, /login
      with the success message and no error; on failure, the chosen message,
      and the browser sent to /login only if the interceptor did so. */
  function AfterRegister(x: Exchange): (r: RegisterResult)
    ensures x.outcome.Success? <==> r.nav == Navigate("/login", Some(RegisteredMessage))
    ensures x.outcome.Success? ==> r.error == ""
    ensures x.outcome.Failure? ==>
              && r.error == RegisterErrorMessage(x.outcome.error) && r.error != ""
              && r.nav == (if x.redirect.Some? then Assign(x.redirect.value) else Stay)
  {
    match x.outcome
    case Success(_) => RegisterResult(Navigate("/login", Some(RegisteredMessage)), "")
    case Failure(e) => RegisterResult(if x.redirect.Some? then Assign(x.redirect.value) else Stay,
                                      RegisterErrorMessage(e))
  }

  /** The page's state: the error shown, and the two busy flags. */
  class RegisterPage {
    var error: string
    var loading: bool
    var submitting: bool

    constructor ()
      ensures error == "" && !loading && !submitting
    {
      error := "";
      loading := false;
      submitting := false;
    }

    /** The first two statements of every submission: loading on, error
        cleared. While Formik is submitting the button is disabled whatever
        the form's validity. */
    method Begin()
      modifies this`loading, this`error
      ensures loading && error == ""
      ensures forall valid: bool :: SubmitDisabled(submitting, loading, valid)
    {
      loading := true;
      error := "";
    }

    /** `onSubmit`: begin, post the form through `api`, navigate on success or
        choose a message on failure; the `finally` block resets both busy
        flags. The interceptor may change the stored tokens on the way. */
    method OnSubmit(store: TokenStore,
                    server: Option<string> -> Result<HttpResponse, JsError>,
                    refreshEndpoint: string -> Result<string, JsError>) returns (nav: Nav)
      modifies this, store
      ensures var x := Send(old(store.Value()), RegisterUrl, false, None, server, refreshEndpoint);
              && store.Value() == x.tokens
              && nav == AfterRegister(x).nav && error == AfterRegister(x).error
      ensures !loading && !submitting
    {
      Begin();
      var config := new RequestConfig(RegisterUrl);
      var reply, redirect := Request(store, config, server, refreshEndpoint);
      if reply.Success? {
        nav := Navigate("/login", Some(RegisteredMessage));
      } else {
        nav := if redirect.Some? then Assign(redirect.value) else Stay;
        error := RegisterErrorMessage(reply.error);
      }
      loading := false;
      submitting := false;
    }
  }
}
