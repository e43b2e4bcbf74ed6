/** The serializers of backend/users/api/serializers.py: registration (tenant
    get-or-create, the user limit, the role), the claims written into an
    access token, and the fields each serializer exposes. */
module Serializers {
  import opened Wrappers
  import Text
  import opened Js
  import opened Jwt
  import opened Models

  /** The user limit as registration applies it. `Some(max)` is the
      ValidationError "This tenant has reached its maximum user limit of
      {max}"; `None` lets the registration through. */
  function UserLimitCheck(
    subscriptions: map<string, Subscription>, plans: map<nat, Plan>,
    users: seq<UserRow>, tenantName: string, isTenantOwner: bool): (r: Option<nat>)
    requires PlansExist(subscriptions, plans)
    ensures isTenantOwner || tenantName !in subscriptions ==> r.None?
    ensures r.Some? ==> r.value == plans[subscriptions[tenantName].plan].maxUsers
                        && UserCount(users, tenantName) >= r.value
    ensures (&& !isTenantOwner && tenantName in subscriptions
             && UserCount(users, tenantName) >= plans[subscriptions[tenantName].plan].maxUsers) ==> r.Some?
  {
    if tenantName in subscriptions && !isTenantOwner then
      var maxUsers := plans[subscriptions[tenantName].plan].maxUsers;
      if UserCount(users, tenantName) >= maxUsers then Some(maxUsers) else None
    else None
  }

  /** A tenant whose plan has the field defaults (`max_users` 1) takes a
      member only while no user at all belongs to it; once one does (usually
      the owner, whom the check never stops), every member is refused with
      the limit 1. */
  lemma DefaultPlanAdmitsOneUser(
    subscriptions: map<string, Subscription>, plans: map<nat, Plan>,
    users: seq<UserRow>, tenantName: string, id: nat, name: string, features: string)
    requires PlansExist(subscriptions, plans)
    requires tenantName in subscriptions && plans[subscriptions[tenantName].plan] == NewPlan(id, name, features)
    ensures UserLimitCheck(subscriptions, plans, users, tenantName, true).None?
    ensures UserLimitCheck(subscriptions, plans, users, tenantName, false).None? <==>
              forall i :: 0 <= i < |users| ==> users[i].tenant != Some(tenantName)
    ensures UserLimitCheck(subscriptions, plans, users, tenantName, false).Some? ==>
              UserLimitCheck(subscriptions, plans, users, tenantName, false) == Some(1)
  {
  }

  /** A member who passes the check never takes a subscribed tenant past its
      plan's limit. */
  lemma MemberJoinStaysWithinLimit(
    subscriptions: map<string, Subscription>, plans: map<nat, Plan>,
    users: seq<UserRow>, u: UserRow, tenantName: string)
    requires PlansExist(subscriptions, plans)
    requires tenantName in subscriptions && u.tenant == Some(tenantName)
    requires UserLimitCheck(subscriptions, plans, users, tenantName, false).None?
    ensures UserCount(users + [u], tenantName) <= plans[subscriptions[tenantName].plan].maxUsers
  {
    UserCountAppend(users, u, tenantName);
  }

  /** The row a successful registration leaves in the table: the password
      hashed, not staff, the role from the owner flag, the named tenant. */
  function RegisteredRow(username: string, email: string, password: string,
                         tenantName: string, isTenantOwner: bool): (u: UserRow)
    ensures SavedUser(u)
    ensures u.role == OwnerRole <==> isTenantOwner
    ensures u.role == MemberRole <==> !isTenantOwner
    ensures u.tenant == Some(tenantName) && u.password == Hashed(password)
  {
    UserRow(username, email, Hashed(password), false, false,
            if isTenantOwner then OwnerRole else MemberRole, Some(tenantName))
  }

  datatype RegisterError = UserLimitReached(maxUsers: nat)

  /** `RegisterSerializer.create`: find or create the tenant by name, apply the
      user limit unless the new user owns the tenant, create the user and set
      its password. Returns the new user's primary key. */
  method Register(db: Database, username: string, email: string, password: string,
                  tenantName: string, isTenantOwner: bool) returns (r: Result<nat, RegisterError>)
    requires db.Valid()
    modifies db
    ensures db.Valid()
    ensures db.tenants == old(db.tenants) + {tenantName}
    ensures db.plans == old(db.plans) && db.subscriptions == old(db.subscriptions)
    ensures var limit := UserLimitCheck(old(db.subscriptions), old(db.plans), old(db.users), tenantName, isTenantOwner);
            && (limit.Some? ==> r == Failure(UserLimitReached(limit.value)) && db.users == old(db.users))
            && (limit.None? ==>
                  && r == Success(|old(db.users)|)
                  && db.users == old(db.users) + [RegisteredRow(username, email, password, tenantName, isTenantOwner)])
  {
    if tenantName !in db.tenants {
      db.tenants := db.tenants + {tenantName};
    }
    if tenantName in db.subscriptions && !isTenantOwner {
      var currentUserCount := UserCount(db.users, tenantName);
      var maxUsers := db.plans[db.subscriptions[tenantName].plan].maxUsers;
      if currentUserCount >= maxUsers {
        return Failure(UserLimitReached(maxUsers));
      }
    }
    r := CreateUser(db, username, email, password, tenantName, isTenantOwner);
  }

  /** `User.objects.create(...)`, `set_password` and `save` for a user of an
      existing tenant: the first save inserts the row, the second rewrites it
      with the hashed password. */
  method CreateUser(db: Database, username: string, email: string, password: string,
                    tenantName: string, isTenantOwner: bool) returns (r: Result<nat, RegisterError>)
    requires db.Valid() && tenantName in db.tenants
    modifies db
    ensures db.Valid()
    ensures db.tenants == old(db.tenants) && db.plans == old(db.plans) && db.subscriptions == old(db.subscriptions)
    ensures r == Success(|old(db.users)|)
    ensures db.users == old(db.users) + [RegisteredRow(username, email, password, tenantName, isTenantOwner)]
  {
    var user := new User(username, email, Some(tenantName),
                         Some(if isTenantOwner then OwnerRole else MemberRole));
    var err := user.Save(db);
    assert err.None?;
    ghost var inserted := db.users;
    user.SetPassword(password);
    err := user.Save(db);
    assert err.None?;
    assert db.users == inserted[|old(db.users)| := user.Row()];
    r := Success(user.id.value);
  }

  /** `CustomTokenObtainPairSerializer.get_token`: the user's name, flags and
      role always; the tenant's name when there is a tenant; the subscription
      when the tenant has one. The features claim is the stored text split on
      commas, untrimmed, so joining it with commas gives the text back. */
  function TokenClaims(u: UserRow, subscriptions: map<string, Subscription>, plans: map<nat, Plan>): (c: Claims)
    requires PlansExist(subscriptions, plans)
    ensures c.username == Some(u.username) && c.role == Some(u.role)
    ensures c.isSuperuser == Some(u.isSuperuser) && c.isStaff == Some(u.isStaff)
    ensures c.tenantName == u.tenant
    ensures c.subscription.Some? <==> u.tenant.Some? && u.tenant.value in subscriptions
    ensures c.subscription.Some? ==>
              var s := subscriptions[u.tenant.value];
              var claim := c.subscription.value;
              && claim.planId == plans[s.plan].id
              && claim.planName == plans[s.plan].name
              && (claim.status == "active" <==> s.active)
              && (claim.status == "inactive" <==> !s.active)
              && Text.Join(claim.features, ',') == plans[s.plan].features
              && |claim.features| == Text.Occurrences(plans[s.plan].features, ',') + 1
              && (forall i :: 0 <= i < |claim.features| ==> ',' !in claim.features[i])
              && claim.endDate == s.end
  {
    var base := NoClaims.(username := Some(u.username), isSuperuser := Some(u.isSuperuser),
                          isStaff := Some(u.isStaff), role := Some(u.role));
    if u.tenant.None? then base
    else if u.tenant.value !in subscriptions then base.(tenantName := u.tenant)
    else
      var s := subscriptions[u.tenant.value];
      var plan := plans[s.plan];
      Text.JoinSplit(plan.features, ',');
      base.(tenantName := u.tenant,
            subscription := Some(SubscriptionClaim(plan.id, plan.name, if s.active then "active" else "inactive",
                                                   Text.Split(plan.features, ','), s.end)))
  }

  /** `get_token` as written: the claims dictionary filled in one assignment
      after another. */
  method GetToken(db: Database, userId: nat) returns (claims: Claims)
    requires db.Valid() && userId < |db.users|
    ensures claims == TokenClaims(db.users[userId], db.subscriptions, db.plans)
  {
    var user := db.users[userId];
    claims := NoClaims;
    claims := claims.(username := Some(user.username));
    claims := claims.(isSuperuser := Some(user.isSuperuser));
    claims := claims.(isStaff := Some(user.isStaff));
    claims := claims.(role := Some(user.role));
    if user.tenant.Some? {
      claims := claims.(tenantName := Some(user.tenant.value));
      if user.tenant.value in db.subscriptions {
        var subscription := db.subscriptions[user.tenant.value];
        var plan := db.plans[subscription.plan];
        claims := claims.(subscription := Some(SubscriptionClaim(
          plan.id,
          plan.name,
          if subscription.active then "active" else "inactive",
          Text.Split(plan.features, ','),
          subscription.end)));
      }
    }
  }

  /** `SubscriptionPlanSerializer`: the fields a plan listing exposes. */
  const PlanListingFields: set<string> := {"id", "name", "price", "description", "max_users"}

  /** One plan as the listing endpoint sends it. The features text is not
      among the fields. */
  function PlanListing(p: Plan): (r: map<string, Json>)
    ensures r.Keys == PlanListingFields && "features" !in r
    ensures r["id"] == JInt(p.id) && r["name"] == JString(p.name) && r["price"] == JDecimal(p.priceCents)
    ensures r["description"] == JString(p.description) && r["max_users"] == JInt(p.maxUsers)
  {
    map["id" := JInt(p.id), "name" := JString(p.name), "price" := JDecimal(p.priceCents),
        "description" := JString(p.description), "max_users" := JInt(p.maxUsers)]
  }

  /** `RegisterSerializer` in a response: `password`, `tenant_name` and
      `is_tenant_owner` are write-only, so only the name and email come back. */
  function RegisterRepresentation(u: UserRow): (r: map<string, Json>)
    ensures r.Keys == {"username", "email"}
    ensures "password" !in r && "tenant_name" !in r && "is_tenant_owner" !in r
    ensures r["username"] == JString(u.username) && r["email"] == JString(u.email)
  {
    map["username" := JString(u.username), "email" := JString(u.email)]
  }
}
