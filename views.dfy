/** The views of backend/users/api/views.py that hold rules: the subscription
    change (`CreateSubscriptionView.create`) and logout (`LogoutView.post`). */
module Views {
  import opened Wrappers
  import opened Js
  import opened Jwt
  import opened Models
  import opened Serializers

  /** An exception caught by the view's generic handler. */
  datatype Raised =
    | PlanDoesNotExist            // SubscriptionPlan.DoesNotExist from `objects.get`
    | UnexpectedKeyword(name: string)  // TypeError from a model constructor

  /** Why a subscription change was refused; each is sent as `{"error": ...}`. */
  datatype Refusal =
    | OnlyOwners                  // "Only tenant owners can manage subscriptions."
    | PlanAndPaymentRequired      // "Plan ID and payment ID are required."
    | DowngradeRefused(planName: string, userCount: nat, maxUsers: nat, surplus: nat)
    | Raised(exception: Raised)   // `str(e)` of the caught exception

  /** What the view decides for a request, before it writes anything:
      refuse with a status, renew the tenant's existing subscription, or
      create one (only the corrected twin below ever creates). */
  datatype Decision =
    | Refuse(status: int, reason: Refusal)
    | Renew(plan: nat, tenant: string)
    | Create(plan: nat, tenant: string)

  /** `if not plan_id`: a missing plan id or the id 0. */
  predicate PlanGiven(planParam: Option<int>)
  {
    planParam.Some? && planParam.value != 0
  }

  /** `CreateSubscriptionView.create` as written: only tenant owners; a plan id
      and a payment id are both required; an unknown plan raises; a tenant
      with strictly more users than the plan allows is refused with the
      surplus; an existing subscription is renewed; otherwise the
      `Subscription.objects.create` call passes `payment_id`, which is not a
      field of `Subscription`, and the TypeError it raises ends in the
      generic 400 handler. */
  function SubscribeDecision(
    caller: UserRow, planParam: Option<int>, paymentParam: Option<string>,
    plans: map<nat, Plan>, subscriptions: map<string, Subscription>, users: seq<UserRow>): (d: Decision)
    requires SavedUser(caller)
    ensures caller.role != OwnerRole <==> d == Refuse(403, OnlyOwners)
    ensures caller.role == OwnerRole && !(PlanGiven(planParam) && Truthy(paymentParam)) ==>
              d == Refuse(400, PlanAndPaymentRequired)
    ensures d.Refuse? ==> d.status == 400 || d.status == 403
    ensures !d.Create?
    // An unknown plan id makes `objects.get` raise, answered with 400.
    ensures (&& caller.role == OwnerRole && PlanGiven(planParam) && Truthy(paymentParam)
             && (planParam.value < 0 || planParam.value as nat !in plans))
            ==> d == Refuse(400, Raised(PlanDoesNotExist))
    // A known plan with strictly fewer places than the tenant has users is
    // refused with 400, naming the plan, both numbers and the surplus.
    ensures (&& caller.role == OwnerRole && PlanGiven(planParam) && Truthy(paymentParam)
             && planParam.value >= 0 && planParam.value as nat in plans && caller.tenant.Some?
             && UserCount(users, caller.tenant.value) > plans[planParam.value as nat].maxUsers)
            ==> var p := plans[planParam.value as nat];
                var n := UserCount(users, caller.tenant.value);
                d == Refuse(400, DowngradeRefused(p.name, n, p.maxUsers, n - p.maxUsers))
    ensures d.Refuse? && d.reason.DowngradeRefused? ==>
              && caller.tenant.Some?
              && planParam.Some? && planParam.value >= 0 && planParam.value as nat in plans
              && d.reason.userCount == UserCount(users, caller.tenant.value)
              && d.reason.maxUsers == plans[planParam.value as nat].maxUsers
              && d.reason.surplus == d.reason.userCount - d.reason.maxUsers > 0
    ensures d.Renew? <==>
              && caller.role == OwnerRole && PlanGiven(planParam) && Truthy(paymentParam)
              && planParam.value >= 0 && planParam.value as nat in plans
              && caller.tenant.Some? && caller.tenant.value in subscriptions
              && UserCount(users, caller.tenant.value) <= plans[planParam.value as nat].maxUsers
    ensures d.Renew? ==> d.plan as int == planParam.value && Some(d.tenant) == caller.tenant
    ensures (&& caller.role == OwnerRole && PlanGiven(planParam) && Truthy(paymentParam)
             && planParam.value >= 0 && planParam.value as nat in plans
             && caller.tenant.Some? && caller.tenant.value !in subscriptions
             && UserCount(users, caller.tenant.value) <= plans[planParam.value as nat].maxUsers)
            ==> d == Refuse(400, Raised(UnexpectedKeyword("payment_id")))
  {
    if caller.role != OwnerRole then Refuse(403, OnlyOwners)
    else if !PlanGiven(planParam) || !Truthy(paymentParam) then Refuse(400, PlanAndPaymentRequired)
    else if planParam.value < 0 || planParam.value as nat !in plans then Refuse(400, Raised(PlanDoesNotExist))
    else
      // A saved tenant owner is neither staff nor superuser, so it has a tenant.
      var plan := plans[planParam.value as nat];
      var tenant := caller.tenant.value;
      var count := UserCount(users, tenant);
      if count > plan.maxUsers then
        Refuse(400, DowngradeRefused(plan.name, count, plan.maxUsers, count - plan.maxUsers))
      else if tenant in subscriptions then Renew(planParam.value as nat, tenant)
      else Refuse(400, Raised(UnexpectedKeyword("payment_id")))
  }

  /** The response: 200 with both tokens (the access token's claims, and the
      user the refresh token is for), or a refusal with its status. */
  datatype SubscribeResponse =
    | Issued(access: Claims, refreshFor: string)
    | Refused(status: int, reason: Refusal)

  /** The renewal of the update branch: new plan, started now, ending 30 days
      from now. `active` is not touched. */
  function Renewed(s: Subscription, plan: nat, now: int): (r: Subscription)
    ensures r.plan == plan && r.start == now && r.end == Some(r.start + SubscriptionPeriod)
    ensures r.active == s.active
  {
    s.(plan := plan, start := now, end := Some(now + SubscriptionPeriod))
  }

  /** `CreateSubscriptionView.create` for the authenticated user `callerId`
      at time `now`. Refusals change nothing; a renewal rewrites the tenant's
      subscription in place through `Subscription.save` and answers with
      tokens whose claims already show the new plan. */
  method CreateSubscription(db: Database, callerId: nat, planParam: Option<int>,
                            paymentParam: Option<string>, now: int) returns (resp: SubscribeResponse)
    requires db.Valid() && callerId < |db.users|
    modifies db`subscriptions
    ensures db.Valid()
    ensures var d := SubscribeDecision(db.users[callerId], planParam, paymentParam,
                                       db.plans, old(db.subscriptions), db.users);
            && (d.Refuse? ==> resp == Refused(d.status, d.reason) && db.subscriptions == old(db.subscriptions))
            && (d.Renew? ==>
                  && db.subscriptions == old(db.subscriptions)[d.tenant := Renewed(old(db.subscriptions)[d.tenant], d.plan, now)]
                  && resp == Issued(TokenClaims(db.users[callerId], db.subscriptions, db.plans), db.users[callerId].username))
  {
    var user := db.users[callerId];
    if user.role != OwnerRole {
      return Refused(403, OnlyOwners);
    }
    if !PlanGiven(planParam) || !Truthy(paymentParam) {
      return Refused(400, PlanAndPaymentRequired);
    }
    if planParam.value < 0 || planParam.value as nat !in db.plans {
      return Refused(400, Raised(PlanDoesNotExist));
    }
    var plan := db.plans[planParam.value as nat];
    var tenant := user.tenant.value;
    var currentUserCount := UserCount(db.users, tenant);
    if currentUserCount > plan.maxUsers {
      return Refused(400, DowngradeRefused(plan.name, currentUserCount, plan.maxUsers,
                                           currentUserCount - plan.maxUsers));
    }
    if tenant !in db.subscriptions {
      return Refused(400, Raised(UnexpectedKeyword("payment_id")));
    }
    RenewSubscription(db, tenant, planParam.value as nat, now);
    var access := GetToken(db, callerId);
    resp := Issued(access, user.username);
  }

  /** The update branch: the tenant's subscription object gets the new plan
      and dates (`Renewed`), and `save` writes it back (its end date being set, the save
      keeps it). */
  method RenewSubscription(db: Database, tenant: string, plan: nat, now: int)
    requires db.Valid() && tenant in db.subscriptions && plan in db.plans
    modifies db`subscriptions
    ensures db.Valid()
    ensures db.subscriptions == old(db.subscriptions)[tenant := Renewed(old(db.subscriptions)[tenant], plan, now)]
  {
    var subscription := Renewed(db.subscriptions[tenant], plan, now);
    assert WithDefaultEnd(subscription, now) == subscription;
    subscription := db.SaveSubscription(tenant, subscription, now);
  }

  /** As written, a tenant owner whose tenant has no subscription yet can never
      get one: every request that passes the checks is refused. */
  lemma FirstSubscriptionAlwaysRefused(
    caller: UserRow, planId: nat, paymentId: string,
    plans: map<nat, Plan>, subscriptions: map<string, Subscription>, users: seq<UserRow>)
    requires SavedUser(caller) && caller.role == OwnerRole
    requires caller.tenant.Some? && caller.tenant.value !in subscriptions
    ensures SubscribeDecision(caller, Some(planId), Some(paymentId), plans, subscriptions, users).Refuse?
  {
  }

  /** The evidently intended decision: the create branch makes the tenant's
      first subscription instead of raising. Every other outcome is the code's. */
  function IntendedSubscribeDecision(
    caller: UserRow, planParam: Option<int>, paymentParam: Option<string>,
    plans: map<nat, Plan>, subscriptions: map<string, Subscription>, users: seq<UserRow>): (d: Decision)
    requires SavedUser(caller)
    ensures (&& caller.role == OwnerRole && PlanGiven(planParam) && Truthy(paymentParam)
             && planParam.value >= 0 && planParam.value as nat in plans
             && caller.tenant.Some?
             && UserCount(users, caller.tenant.value) <= plans[planParam.value as nat].maxUsers)
            ==> (d.Renew? || d.Create?) && d.plan as int == planParam.value && Some(d.tenant) == caller.tenant
    ensures d.Create? ==>
              && caller.role == OwnerRole && caller.tenant == Some(d.tenant) && d.tenant !in subscriptions
              && planParam.Some? && d.plan as int == planParam.value && d.plan in plans
              && UserCount(users, d.tenant) <= plans[d.plan].maxUsers
    ensures d.Refuse? ==> d.reason != Raised(UnexpectedKeyword("payment_id"))
  {
    var d := SubscribeDecision(caller, planParam, paymentParam, plans, subscriptions, users);
    if d == Refuse(400, Raised(UnexpectedKeyword("payment_id"))) then
      Create(planParam.value as nat, caller.tenant.value)
    else d
  }

  /** The row the create branch evidently means to write: the plan, started
      now, active, ending 30 days from now. `Subscription.save` keeps it as
      it is. */
  function Created(plan: nat, now: int): (s: Subscription)
    ensures s.plan == plan && s.start == now && s.active
    ensures s.end == Some(now + SubscriptionPeriod)
    ensures WithDefaultEnd(s, now) == s
  {
    Subscription(plan, now, Some(now + SubscriptionPeriod), true)
  }

  /** With the create branch corrected, a tenant owner without a subscription
      who passes the checks gets one: the tenant's new row is `Created`, every
      row still refers to a plan of the catalog, and the access token answered
      with it carries that plan, active, with the new end date. */
  lemma {:induction false} IntendedFirstSubscriptionIssued(
    caller: UserRow, planParam: Option<int>, paymentParam: Option<string>,
    plans: map<nat, Plan>, subscriptions: map<string, Subscription>, users: seq<UserRow>, now: int)
    requires SavedUser(caller) && CatalogValid(plans) && PlansExist(subscriptions, plans)
    requires IntendedSubscribeDecision(caller, planParam, paymentParam, plans, subscriptions, users).Create?
    ensures var d := IntendedSubscribeDecision(caller, planParam, paymentParam, plans, subscriptions, users);
            var created := subscriptions[d.tenant := Created(d.plan, now)];
            && PlansExist(created, plans)
            && var c := TokenClaims(caller, created, plans);
               && c.tenantName == Some(d.tenant)
               && c.subscription.Some?
               && c.subscription.value.planId == d.plan
               && c.subscription.value.planName == plans[d.plan].name
               && c.subscription.value.status == "active"
               && c.subscription.value.endDate == Some(now + SubscriptionPeriod)
  {
    var d := IntendedSubscribeDecision(caller, planParam, paymentParam, plans, subscriptions, users);
    var created := subscriptions[d.tenant := Created(d.plan, now)];
    assert PlansExist(created, plans);
    assert caller.tenant == Some(d.tenant) && d.tenant in created;
    assert created[d.tenant] == Created(d.plan, now);
  }

  /** The body of a logout request: a JSON object, or anything else (on which
      `request.data.get` raises). */
  datatype LogoutBody = Object(refresh: Option<string>) | NotAnObject

  /** `LogoutView.post`: 400 when an object body carries no refresh token,
      205 on every other path, whether or not blacklisting the token worked. */
  function LogoutStatus(body: LogoutBody, blacklistSucceeds: bool): (status: int)
    ensures status == 400 <==> body.Object? && !Truthy(body.refresh)
    ensures status != 400 ==> status == 205
  {
    match body
    case NotAnObject => 205
    case Object(refresh) =>
      if !Truthy(refresh) then 400
      else if blacklistSucceeds then 205
      else 205
  }
}
