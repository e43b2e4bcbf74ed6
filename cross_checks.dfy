/** Properties that hold only because server and client agree: the claims the
    server writes against the tests the client applies to them, and the plan
    listing against the cards that show it. */
module CrossChecks {
  import opened Wrappers
  import Text
  import opened Js
  import opened Jwt
  import opened Models
  import opened Serializers
  import opened Views
  import Api
  import Routes
  import Login
  import Home
  import Registration

  /** An access token whose payload decodes to the claims `get_token` wrote for
      a saved user: if the login page takes the user for an admin (a flag is
      set), the router does too (the role is "admin"), so any page load
      leaves for the admin site, and so does the home page's check. */
  lemma AdminLoginAgreesWithRouter(u: UserRow, subscriptions: map<string, Subscription>,
                                   plans: map<nat, Plan>, token: string, decode: string -> Option<Claims>)
    requires SavedUser(u) && PlansExist(subscriptions, plans)
    requires ReadPayload(token, decode) == Decoded(TokenClaims(u, subscriptions, plans))
    requires FlagsSayAdmin(TokenClaims(u, subscriptions, plans))
    ensures Routes.CheckIsAdmin(Some(token), decode) == Some(true)
    ensures forall path :: Routes.Load(path, Some(token), decode) == Routes.Leave(AdminSiteUrl)
    ensures forall v: Home.PageState :: Home.AfterStatusCheck(v, Some(token), decode).nav == Assign(AdminSiteUrl)
  {
    assert Text.Occurrences(token, '.') == 2;
    assert token != "";
  }

  /** A listed plan's button is disabled exactly when it is the user's current
      plan; a user without a subscription can pick any listed plan. */
  lemma ListedPlanButton(user: Option<Home.UserInfo>, p: Plan)
    ensures Home.PlanButtonDisabled(user, PlanListing(p)) <==>
              user.Some? && user.value.subscription.Some? && user.value.subscription.value.planId == p.id
  {
  }

  /** The listing carries no features text, so the plan cards list no
      features at all; only the current plan's features, from the token,
      are shown. */
  lemma ListedPlanCardsShowNoFeatures(p: Plan)
    ensures Home.CardFeatures(PlanListing(p)) == []
  {
    assert "features" !in PlanListing(p);
  }

  /** After a renewal, the claims of the access token in the response name
      the new plan, so once the home page has read them the card of that
      plan is the current one and its button is disabled. */
  lemma {:induction false} RenewedPlanBecomesCurrent(
    caller: UserRow, planParam: Option<int>, paymentParam: Option<string>,
    plans: map<nat, Plan>, subscriptions: map<string, Subscription>, users: seq<UserRow>, now: int)
    requires SavedUser(caller) && CatalogValid(plans) && PlansExist(subscriptions, plans)
    requires SubscribeDecision(caller, planParam, paymentParam, plans, subscriptions, users).Renew?
    ensures var d := SubscribeDecision(caller, planParam, paymentParam, plans, subscriptions, users);
            var renewed := subscriptions[d.tenant := Renewed(subscriptions[d.tenant], d.plan, now)];
            && PlansExist(renewed, plans)
            && var user := Home.UserOf(TokenClaims(caller, renewed, plans));
               Home.PlanButtonDisabled(Some(user), PlanListing(plans[d.plan]))
  {
    var d := SubscribeDecision(caller, planParam, paymentParam, plans, subscriptions, users);
    var renewed := subscriptions[d.tenant := Renewed(subscriptions[d.tenant], d.plan, now)];
    assert PlansExist(renewed, plans);
    var claims := TokenClaims(caller, renewed, plans);
    assert caller.tenant == Some(d.tenant) && d.tenant in renewed;
    assert claims.subscription.value.planId == plans[d.plan].id == d.plan;
    ListedPlanButton(Some(Home.UserOf(claims)), plans[d.plan]);
  }

  /** Django REST framework answers a `ValidationError` raised in
      `RegisterSerializer.create` with status 400 and a list of messages,
      which has neither a `username` nor an `email` field. The message list
      itself is not part of the model's response body. */
  function RegisterFailureReply(): (e: JsError)
    ensures e.response.Some? && e.response.value.status == 400
    ensures e.response.value.data.username == [] && e.response.value.data.email == []
  {
    JsError("Request failed with status code 400", Some(HttpResponse(400, NoData)))
  }

  /** What `RegisterView` (a `CreateAPIView`) sends back for the outcome of
      `RegisterSerializer.create`: 201 for a created user, the 400 above for
      the user limit's `ValidationError`. */
  function RegisterReply(r: Result<nat, RegisterError>): (reply: Result<HttpResponse, JsError>)
    ensures reply.Success? <==> r.Success?
    ensures reply.Success? ==> reply.value.status == 201
    ensures r.Failure? ==> reply == Failure(RegisterFailureReply())
  {
    if r.Success? then Success(HttpResponse(201, NoData)) else Failure(RegisterFailureReply())
  }

  /** A registration goes end to end from the server's user limit to the
      page. Refused, it reaches the page as a 400 that the interceptor passes
      on untouched: the page stays and shows its generic message, not the
      limit. Accepted, it takes the user to /login with the success message.
      The stored tokens are not touched either way. */
  lemma RegistrationOutcomeShown(
    subscriptions: map<string, Subscription>, plans: map<nat, Plan>,
    users: seq<UserRow>, tenantName: string, isTenantOwner: bool,
    t: Api.Tokens, refreshEndpoint: string -> Result<string, JsError>)
    requires PlansExist(subscriptions, plans)
    ensures var limit := UserLimitCheck(subscriptions, plans, users, tenantName, isTenantOwner);
            var reply := RegisterReply(if limit.Some? then Failure(UserLimitReached(limit.value)) else Success(|users|));
            var x := Api.Send(t, Api.RegisterUrl, false, None, (h: Option<string>) => reply, refreshEndpoint);
            && x.tokens == t && x.redirect.None? && x.refreshCalls == []
            && (limit.Some? <==>
                  Registration.AfterRegister(x) == Registration.RegisterResult(Stay, Registration.RegistrationFailedMessage))
            && (limit.None? <==>
                  Registration.AfterRegister(x).nav == Navigate("/login", Some(Registration.RegisteredMessage)))
  {
  }

  /** A refused subscription change is never a 401 (refusals are 400 or
      403), so the interceptor neither refreshes nor logs out: after a
      payment that went through at the gateway, the home page keeps its
      tokens, its modal and its plan, stays, and shows the reason the view
      sent. */
  lemma RefusalShownInModal(
    caller: UserRow, planParam: Option<int>, paymentParam: Option<string>,
    plans: map<nat, Plan>, subscriptions: map<string, Subscription>, users: seq<UserRow>,
    reason: string, v: Home.PageState, t: Api.Tokens,
    intent: Option<int> -> Result<string, JsError>,
    confirm: string -> Result<string, JsError>,
    refreshEndpoint: string -> Result<string, JsError>,
    decode: string -> Option<Claims>)
    requires SavedUser(caller)
    requires SubscribeDecision(caller, planParam, paymentParam, plans, subscriptions, users).Refuse?
    requires reason != ""
    requires v.selectedPlan.Some?
    requires intent(Home.AmountCents(v.selectedPlan.value)).Success?
    requires confirm(intent(Home.AmountCents(v.selectedPlan.value)).value).Success?
    ensures var d := SubscribeDecision(caller, planParam, paymentParam, plans, subscriptions, users);
            var refusal: Result<HttpResponse, JsError> :=
              Failure(JsError("Request failed", Some(HttpResponse(d.status, NoData.(error := Some(reason))))));
            var server := (plan: Option<Json>, paymentId: string) => (h: Option<string>) => refusal;
            var r := Home.AfterPayment(v, Home.PaymentSteps(t, v.selectedPlan, intent, confirm, server, refreshEndpoint), decode);
            && r.tokens == t && r.nav == Stay
            && r.state == v.(processing := false, error := reason)
  {
  }
}
