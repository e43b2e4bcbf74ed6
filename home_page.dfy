/** The home page (frontend/src/pages/HomePage.jsx): reading the user from the
    stored access token, choosing a plan, the purchase sequence (payment
    intent, payment confirmation, subscription request, token replacement),
    and the rules of the plan cards. The payment gateway is a pair of
    function parameters: its delays and randomness are not modelled. */
module Home {
  import opened Wrappers
  import Text
  import opened Js
  import opened Jwt
  import opened Api

  const LoadUserFailedMessage := "Failed to load user information"
  const PaymentFailedMessage := "Payment failed. Please try again."
  const SubscribedMessage := "Successfully subscribed to plan!"

  /** `user` as the page keeps it: four fields copied from the payload. */
  datatype UserInfo = UserInfo(
    username: Option<string>,
    role: Option<string>,
    tenantName: Option<string>,
    subscription: Option<SubscriptionClaim>)

  function UserOf(c: Claims): UserInfo
  {
    UserInfo(c.username, c.role, c.tenantName, c.subscription)
  }

  /** A plan object as the listing endpoint sent it. */
  type PlanObject = map<string, Json>

  /** `object.key`: the field's value, or `undefined`. */
  function Field(o: PlanObject, key: string): (v: Option<Json>)
    ensures v.Some? <==> key in o
    ensures v.Some? ==> v.value == o[key]
  {
    if key in o then Some(o[key]) else None
  }

  /** The page's state variables (the plan list fetched alongside is not
      modelled). */
  datatype PageState = PageState(
    user: Option<UserInfo>,
    loading: bool,
    error: string,
    showPaymentModal: bool,
    processing: bool,
    selectedPlan: Option<PlanObject>)

  /** The state after `checkUserStatus`, and where it sends the browser. */
  datatype StatusResult = StatusResult(state: PageState, nav: Nav)

  /** `checkUserStatus` from state `v` with stored access token `access`: no
      token sends the browser to /login and changes nothing; a token without
      three segments only ends loading; an undecodable payload is caught and
      reported; a decoded one sets the user, and an admin role leaves for the
      admin site before loading ends. */
  function AfterStatusCheck(v: PageState, access: Option<string>, decode: string -> Option<Claims>): (r: StatusResult)
    ensures !Truthy(access) ==> r == StatusResult(v, Navigate("/login", None))
    ensures Truthy(access) && ReadPayload(access.value, decode).Malformed? ==>
              r == StatusResult(v.(loading := false), Stay)
    ensures Truthy(access) && ReadPayload(access.value, decode).Unreadable? ==>
              r == StatusResult(v.(loading := false, error := LoadUserFailedMessage), Stay)
    ensures Truthy(access) && ReadPayload(access.value, decode).Decoded? ==>
              var c := ReadPayload(access.value, decode).claims;
              && r.state.user == Some(UserOf(c))
              && (r.nav == Assign(AdminSiteUrl) <==> RoleSaysAdmin(c))
              && (r.nav == Stay <==> !RoleSaysAdmin(c))
              && r.state.loading == (v.loading && RoleSaysAdmin(c))
              && r.state.(user := v.user, loading := v.loading) == v
    ensures r.state.user != v.user ==> Truthy(access) && ReadPayload(access.value, decode).Decoded?
  {
    if !Truthy(access) then StatusResult(v, Navigate("/login", None))
    else
      match ReadPayload(access.value, decode)
      case Malformed => StatusResult(v.(loading := false), Stay)
      case Unreadable => StatusResult(v.(loading := false, error := LoadUserFailedMessage), Stay)
      case Decoded(c) =>
        if RoleSaysAdmin(c) then StatusResult(v.(user := Some(UserOf(c))), Assign(AdminSiteUrl))
        else StatusResult(v.(user := Some(UserOf(c)), loading := false), Stay)
  }

  /** One call of the purchase sequence, in the order they are made. */
  datatype Call =
    | CreateIntent(amount: Option<int>)               // `MockStripe.createPaymentIntent`
    | ConfirmPayment(clientSecret: string)            // `MockStripe.confirmPayment`
    | PostSubscription(plan: Option<Json>, paymentId: string)  // `authAPI.createSubscription`

  function Stage(c: Call): nat
  {
    match c
    case CreateIntent(_) => 0
    case ConfirmPayment(_) => 1
    case PostSubscription(_, _) => 2
  }

  /** `selectedPlan.price * 100` in cents; `None` stands for NaN (no price). */
  function AmountCents(plan: PlanObject): (a: Option<int>)
    ensures a.Some? ==> "price" in plan && !plan["price"].JString?
    ensures "price" in plan && plan["price"].JDecimal? ==> a == Some(plan["price"].cents)
    ensures "price" in plan && plan["price"].JInt? ==> a == Some(plan["price"].i * 100)
  {
    if "price" !in plan then None
    else
      match plan["price"]
      case JDecimal(cents) => Some(cents)
      case JInt(i) => Some(i * 100)
      case JString(_) => None
  }

  /** The purchase steps and what they leave behind: the calls made, the
      stored tokens after the subscription request (which goes through
      `api`), its settlement, and the interceptor's redirect. */
  datatype PaymentRun = PaymentRun(
    calls: seq<Call>,
    tokens: Tokens,
    outcome: Result<HttpResponse, JsError>,
    redirect: Option<string>)

  /** The steps of `handlePayment` inside its try block, up to the reply of
      the subscription request. Each step runs only when the one before it
      succeeded, and the first failure is the error that is caught. */
  function PaymentSteps(
    t: Tokens, selected: Option<PlanObject>,
    intent: Option<int> -> Result<string, JsError>,
    confirm: string -> Result<string, JsError>,
    server: (Option<Json>, string) -> Option<string> -> Result<HttpResponse, JsError>,
    refreshEndpoint: string -> Result<string, JsError>): (p: PaymentRun)
    ensures |p.calls| <= 3 && forall i :: 0 <= i < |p.calls| ==> Stage(p.calls[i]) == i
    ensures selected.None? <==> p.calls == []
    ensures selected.None? ==> p.outcome == Failure(ThrownLocally)
    ensures selected.Some? ==> p.calls[0] == CreateIntent(AmountCents(selected.value))
    ensures |p.calls| >= 2 <==> selected.Some? && intent(AmountCents(selected.value)).Success?
    ensures |p.calls| == 1 ==> p.outcome == Failure(intent(AmountCents(selected.value)).error)
    ensures |p.calls| >= 2 ==>
              var secret := intent(AmountCents(selected.value)).value;
              && p.calls[1] == ConfirmPayment(secret)
              && (|p.calls| == 3 <==> confirm(secret).Success?)
              && (|p.calls| == 2 ==> p.outcome == Failure(confirm(secret).error))
              && (|p.calls| == 3 ==>
                    var plan, paymentId := Field(selected.value, "id"), confirm(secret).value;
                    var x := Send(t, SubscriptionsUrl, false, None, server(plan, paymentId), refreshEndpoint);
                    && p.calls[2] == PostSubscription(plan, paymentId)
                    && p == PaymentRun(p.calls, x.tokens, x.outcome, x.redirect))
    ensures |p.calls| < 3 ==> p.outcome.Failure? && p.tokens == t && p.redirect.None?
  {
    if selected.None? then PaymentRun([], t, Failure(ThrownLocally), None)
    else
      var amount := AmountCents(selected.value);
      match intent(amount)
      case Failure(e) => PaymentRun([CreateIntent(amount)], t, Failure(e), None)
      case Success(secret) =>
        match confirm(secret)
        case Failure(e) => PaymentRun([CreateIntent(amount), ConfirmPayment(secret)], t, Failure(e), None)
        case Success(paymentId) =>
          var plan := Field(selected.value, "id");
          var x := Send(t, SubscriptionsUrl, false, None, server(plan, paymentId), refreshEndpoint);
          PaymentRun([CreateIntent(amount), ConfirmPayment(secret), PostSubscription(plan, paymentId)],
                     x.tokens, x.outcome, x.redirect)
  }

  /** The token write after a successful subscription request: both tokens
      are replaced when the reply carries both, and otherwise neither is. */
  function ReplaceTokens(t: Tokens, data: ResponseData): (r: Tokens)
    ensures Truthy(data.access) && Truthy(data.refresh) ==> r == Tokens(data.access, data.refresh)
    ensures !(Truthy(data.access) && Truthy(data.refresh)) ==> r == t
    ensures r.access != t.access || r.refresh != t.refresh ==> r == Tokens(data.access, data.refresh)
  {
    if Truthy(data.access) && Truthy(data.refresh) then Tokens(data.access, data.refresh) else t
  }

  /** `error.response?.data?.error || 'Payment failed. Please try again.'`. */
  function PaymentErrorMessage(e: JsError): (m: string)
    ensures m != ""
    ensures e.response.Some? && Truthy(e.response.value.data.error) ==> m == e.response.value.data.error.value
    ensures !(e.response.Some? && Truthy(e.response.value.data.error)) ==> m == PaymentFailedMessage
  {
    if e.response.Some? && Truthy(e.response.value.data.error) then e.response.value.data.error.value
    else PaymentFailedMessage
  }

  /** Everything `handlePayment` leaves behind. */
  datatype PaymentResult = PaymentResult(state: PageState, tokens: Tokens, nav: Nav, calls: seq<Call>)

  /** `handlePayment` from state `v` once its steps have settled as `p`. A
      failure at any step writes no token itself, shows the server's `error`
      or the fallback, and keeps the modal open on the same plan; a success
      replaces the tokens when both came back, re-reads the user from the
      stored token, reports success and closes the modal. `processing` ends
      false on every path. */
  function AfterPayment(v: PageState, p: PaymentRun, decode: string -> Option<Claims>): (r: PaymentResult)
    ensures r.calls == p.calls
    ensures !r.state.processing && r.state.selectedPlan == v.selectedPlan
    ensures p.outcome.Failure? ==>
              && r.tokens == p.tokens
              && r.state == v.(processing := false, error := PaymentErrorMessage(p.outcome.error))
              && r.nav == (if p.redirect.Some? then Assign(p.redirect.value) else Stay)
    ensures p.outcome.Success? ==>
              var s := AfterStatusCheck(v.(processing := true, error := ""), r.tokens.access, decode);
              && r.tokens == ReplaceTokens(p.tokens, p.outcome.value.data)
              && r.state == s.state.(error := SubscribedMessage, showPaymentModal := false, processing := false)
              && r.nav == s.nav
  {
    match p.outcome
    case Failure(e) =>
      PaymentResult(v.(processing := false, error := PaymentErrorMessage(e)), p.tokens,
                    if p.redirect.Some? then Assign(p.redirect.value) else Stay, p.calls)
    case Success(response) =>
      var tokens := ReplaceTokens(p.tokens, response.data);
      var s := AfterStatusCheck(v.(processing := true, error := ""), tokens.access, decode);
      PaymentResult(s.state.(error := SubscribedMessage, showPaymentModal := false, processing := false),
                    tokens, s.nav, p.calls)
  }

  /** `user?.subscription?.plan_id`, where `undefined` is `None`. */
  function CurrentPlanId(user: Option<UserInfo>): (id: Option<Json>)
    ensures id.Some? <==> user.Some? && user.value.subscription.Some?
    ensures id.Some? ==> id.value == JInt(user.value.subscription.value.planId)
  {
    if user.Some? && user.value.subscription.Some? then Some(JInt(user.value.subscription.value.planId))
    else None
  }

  /** A plan card's button is disabled (and labelled "Current Plan") when
      `user?.subscription?.plan_id === plan.id`; two `undefined`s compare
      equal, so a plan without an id is disabled for a user without a
      subscription. */
  function PlanButtonDisabled(user: Option<UserInfo>, plan: PlanObject): (d: bool)
    ensures d <==> CurrentPlanId(user) == Field(plan, "id")
    ensures "id" in plan ==> (d <==> user.Some? && user.value.subscription.Some?
                                     && plan["id"] == JInt(user.value.subscription.value.planId))
  {
    CurrentPlanId(user) == Field(plan, "id")
  }

  /** Among plans with distinct ids, at most one card's button is disabled. */
  lemma AtMostOneCurrentPlan(user: Option<UserInfo>, plans: seq<PlanObject>, i: nat, j: nat)
    requires i < |plans| && j < |plans|
    requires forall a, b :: 0 <= a < b < |plans| ==> Field(plans[a], "id") != Field(plans[b], "id")
    requires PlanButtonDisabled(user, plans[i]) && PlanButtonDisabled(user, plans[j])
    ensures i == j
  {
  }

  /** The feature lines of a plan card: `plan.features?.split(',')`, each
      piece trimmed; no lines when the plan has no features text. */
  function CardFeatures(plan: PlanObject): (lines: seq<string>)
    ensures !("features" in plan && plan["features"].JString?) ==> lines == []
    ensures "features" in plan && plan["features"].JString? ==>
              var pieces := Text.Split(plan["features"].s, ',');
              && |lines| == |pieces| == Text.Occurrences(plan["features"].s, ',') + 1
              && forall i :: 0 <= i < |lines| ==> lines[i] == Text.Trim(pieces[i])
  {
    if "features" in plan && plan["features"].JString? then
      var pieces := Text.Split(plan["features"].s, ',');
      seq(|pieces|, i requires 0 <= i < |pieces| => Text.Trim(pieces[i]))
    else []
  }

  /** The page's state variables, updated by its handlers. */
  class HomePage {
    var user: Option<UserInfo>
    var loading: bool
    var error: string
    var showPaymentModal: bool
    var processing: bool
    var selectedPlan: Option<PlanObject>

    function State(): PageState
      reads this
    {
      PageState(user, loading, error, showPaymentModal, processing, selectedPlan)
    }

    /** The initial `useState` values. */
    constructor ()
      ensures State() == PageState(None, true, "", false, false, None)
    {
      user := None;
      loading := true;
      error := "";
      showPaymentModal := false;
      processing := false;
      selectedPlan := None;
    }

    /** `checkUserStatus`. */
    method CheckUserStatus(store: TokenStore, decode: string -> Option<Claims>) returns (nav: Nav)
      modifies this
      ensures var r := AfterStatusCheck(old(State()), store.access, decode);
              State() == r.state && nav == r.nav
    {
      var token := store.access;
      if !Truthy(token) {
        return Navigate("/login", None);
      }
      nav := Stay;
      var tokenParts := Text.Split(token.value, '.');
      if |tokenParts| == 3 {
        var payload := decode(tokenParts[1]);
        if payload.None? {
          error := LoadUserFailedMessage;
          loading := false;
          return;
        }
        user := Some(UserOf(payload.value));
        if RoleSaysAdmin(payload.value) {
          return Assign(AdminSiteUrl);
        }
      }
      loading := false;
    }

    /** `handleSubscribe`: remember the plan and open the payment modal,
        nothing else. */
    method HandleSubscribe(plan: PlanObject)
      modifies this
      ensures State() == old(State()).(selectedPlan := Some(plan), showPaymentModal := true)
    {
      selectedPlan := Some(plan);
      showPaymentModal := true;
    }

    /** The try block of `handlePayment` up to the subscription request's
        reply: intent, confirmation and request in order, stopping at the
        first failure. Only the interceptors touch the stored tokens.
        `calls` records the gateway and server calls made. */
    method Pay(
      store: TokenStore,
      intent: Option<int> -> Result<string, JsError>,
      confirm: string -> Result<string, JsError>,
      server: (Option<Json>, string) -> Option<string> -> Result<HttpResponse, JsError>,
      refreshEndpoint: string -> Result<string, JsError>)
      returns (outcome: Result<HttpResponse, JsError>, redirect: Option<string>, ghost calls: seq<Call>)
      modifies store
      ensures var p := PaymentSteps(old(store.Value()), selectedPlan, intent, confirm, server, refreshEndpoint);
              && store.Value() == p.tokens && outcome == p.outcome && redirect == p.redirect && calls == p.calls
    {
      redirect := None;
      if selectedPlan.None? {
        return Failure(ThrownLocally), None, [];
      }
      var amount := AmountCents(selectedPlan.value);
      calls := [CreateIntent(amount)];
      var paymentIntent := intent(amount);
      if paymentIntent.Failure? {
        return Failure(paymentIntent.error), None, calls;
      }
      calls := calls + [ConfirmPayment(paymentIntent.value)];
      var payment := confirm(paymentIntent.value);
      if payment.Failure? {
        return Failure(payment.error), None, calls;
      }
      var plan := Field(selectedPlan.value, "id");
      calls := calls + [PostSubscription(plan, payment.value)];
      var config := new RequestConfig(SubscriptionsUrl);
      outcome, redirect := Request(store, config, server(plan, payment.value), refreshEndpoint);
    }

    /** The rest of the try block once the subscription request succeeded:
        store both returned tokens when both are there, re-read the user,
        report success and close the modal; the finally block ends
        `processing`. */
    method Subscribed(store: TokenStore, data: ResponseData, decode: string -> Option<Claims>) returns (nav: Nav)
      modifies this, store
      ensures store.Value() == ReplaceTokens(old(store.Value()), data)
      ensures var s := AfterStatusCheck(old(State()), store.access, decode);
              State() == s.state.(error := SubscribedMessage, showPaymentModal := false, processing := false)
              && nav == s.nav
    {
      if Truthy(data.access) && Truthy(data.refresh) {
        store.SetAccess(data.access.value);
        store.SetRefresh(data.refresh.value);
      }
      nav := CheckUserStatus(store, decode);
      error := SubscribedMessage;
      showPaymentModal := false;
      processing := false;
    }

    /** The catch and finally blocks after a failed step: the server's
        `error` or the fallback is shown, `processing` ends, and the browser
        is sent on only if the interceptor redirected it. */
    method Failed(e: JsError, redirect: Option<string>) returns (nav: Nav)
      modifies this
      ensures State() == old(State()).(processing := false, error := PaymentErrorMessage(e))
      ensures nav == if redirect.Some? then Assign(redirect.value) else Stay
    {
      nav := if redirect.Some? then Assign(redirect.value) else Stay;
      error := PaymentErrorMessage(e);
      processing := false;
    }

    /** `handlePayment`: the steps inside a try block, the token write and
        user re-read on success, the catch block choosing the message, and
        the finally block ending `processing`. */
    method HandlePayment(
      store: TokenStore,
      intent: Option<int> -> Result<string, JsError>,
      confirm: string -> Result<string, JsError>,
      server: (Option<Json>, string) -> Option<string> -> Result<HttpResponse, JsError>,
      refreshEndpoint: string -> Result<string, JsError>,
      decode: string -> Option<Claims>) returns (nav: Nav, ghost calls: seq<Call>)
      modifies this, store
      ensures var p := PaymentSteps(old(store.Value()), old(selectedPlan), intent, confirm, server, refreshEndpoint);
              var r := AfterPayment(old(State()), p, decode);
              && State() == r.state && store.Value() == r.tokens && nav == r.nav && calls == r.calls
    {
      processing := true;
      error := "";
      var outcome, redirect;
      outcome, redirect, calls := Pay(store, intent, confirm, server, refreshEndpoint);
      if outcome.Failure? {
        nav := Failed(outcome.error, redirect);
      } else {
        nav := Subscribed(store, outcome.value.data, decode);
      }
    }
  }
}
