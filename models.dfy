/** The database rows of the tenant/subscription backend (backend/users/models.py):
    users, tenants, plans and subscriptions, the normalisation that
    `User.save` and `Subscription.save` apply, and the field constraints. */
module Models {
  import opened Wrappers

  const AdminRole := "admin"
  const OwnerRole := "tenant_owner"
  const MemberRole := "tenant_user"

  /** The `choices` of `SubscriptionPlan.name`. */
  const PlanChoices: set<string> := {"free", "pro", "enterprise"}

  /** `timedelta(days=30)`, in seconds of the model's abstract clock. */
  const SubscriptionPeriod := 30 * 24 * 60 * 60

  /** A `DecimalField(max_digits=8, decimal_places=2)` holds less than 10^6 in
      absolute value, that is less than 10^8 cents. */
  const PriceLimit := 100_000_000

  /** A catalog entry. `priceCents` is the decimal price times 100;
      `features` is the comma-separated text as stored. */
  datatype Plan = Plan(
    id: nat,
    name: string,
    maxUsers: nat,
    priceCents: int,
    description: string,
    features: string)

  /** A new plan as the field defaults make it: one user, price 0. */
  function NewPlan(id: nat, name: string, features: string): (p: Plan)
    ensures p.maxUsers == 1 && p.priceCents == 0
    ensures p.id == id && p.name == name && p.features == features && p.description == ""
  {
    Plan(id, name, 1, 0, "", features)
  }

  predicate PlanFieldsValid(p: Plan)
  {
    p.name in PlanChoices && -PriceLimit < p.priceCents < PriceLimit
  }

  /** The plan table: each row under its own id, every row's fields valid, and
      names unique. */
  ghost predicate CatalogValid(plans: map<nat, Plan>)
  {
    && (forall id :: id in plans ==> plans[id].id == id && PlanFieldsValid(plans[id]))
    && (forall a, b :: a in plans && b in plans && a != b ==> plans[a].name != plans[b].name)
  }

  /** A subscription row; its tenant is the key it is stored under, so a tenant
      has at most one (the one-to-one field). */
  datatype Subscription = Subscription(plan: nat, start: int, end: Option<int>, active: bool)

  /** Every subscription refers to a plan of the catalog (the foreign key). */
  predicate PlansExist(subscriptions: map<string, Subscription>, plans: map<nat, Plan>)
  {
    forall t :: t in subscriptions ==> subscriptions[t].plan in plans
  }

  /** What `Subscription.save` writes: an absent end date becomes now + 30
      days, a present one is kept. */
  function WithDefaultEnd(s: Subscription, now: int): (r: Subscription)
    ensures r.end.Some?
    ensures r.plan == s.plan && r.start == s.start && r.active == s.active
    ensures s.end.Some? ==> r.end == s.end
    ensures s.end.None? ==> r.end == Some(now + SubscriptionPeriod)
  {
    if s.end.None? then s.(end := Some(now + SubscriptionPeriod)) else s
  }

  /** Saving again never moves an end date that a first save fixed. */
  lemma WithDefaultEndIdempotent(s: Subscription, now: int, later: int)
    ensures WithDefaultEnd(WithDefaultEnd(s, now), later) == WithDefaultEnd(s, now)
  {
  }

  /** The password column: empty, or the hash `set_password` computes from a
      plain-text password (the hash function itself is not modelled; the
      plain text is only its argument). */
  datatype Password = NoPassword | Hashed(plain: string)

  datatype UserRow = UserRow(
    username: string,
    email: string,
    password: Password,
    isStaff: bool,
    isSuperuser: bool,
    role: string,
    tenant: Option<string>)

  /** What `User.save` guarantees of every row it writes: staff and superusers
      are admins, and everyone else belongs to a tenant. */
  predicate SavedUser(u: UserRow)
  {
    && (u.isStaff || u.isSuperuser ==> u.role == AdminRole)
    && (!u.isStaff && !u.isSuperuser ==> u.tenant.Some?)
  }

  /** `tenant.user_set.count()`. */
  function UserCount(users: seq<UserRow>, tenant: string): (n: nat)
    ensures n <= |users|
    ensures n == 0 <==> forall i :: 0 <= i < |users| ==> users[i].tenant != Some(tenant)
  {
    if users == [] then 0
    else (if users[0].tenant == Some(tenant) then 1 else 0) + UserCount(users[1..], tenant)
  }

  /** A new row counts towards its own tenant and no other. */
  lemma {:induction false} UserCountAppend(users: seq<UserRow>, u: UserRow, tenant: string)
    ensures UserCount(users + [u], tenant) == UserCount(users, tenant) + (if u.tenant == Some(tenant) then 1 else 0)
  {
    if users != [] {
      assert (users + [u])[1..] == users[1..] + [u];
      UserCountAppend(users[1..], u, tenant);
    }
  }

  /** Rewriting a row without changing its tenant changes no count. */
  lemma {:induction false} UserCountUpdate(users: seq<UserRow>, i: nat, u: UserRow, tenant: string)
    requires i < |users| && users[i].tenant == u.tenant
    ensures UserCount(users[i := u], tenant) == UserCount(users, tenant)
  {
    if i > 0 {
      assert users[i := u][1..] == users[1..][i - 1 := u];
      UserCountUpdate(users[1..], i - 1, u, tenant);
    } else {
      assert users[i := u][1..] == users[1..];
    }
  }

  /** Why `User.save` refused to write. */
  datatype SaveError =
    | TenantRequired   // the ValueError "Tenant is required for non-admin users"
    | UnknownTenant    // the database's foreign-key constraint on `tenant`

  /** The database: the tenant names (unique, so a tenant is its name), the
      plan catalog, each tenant's subscription, and the user rows (a user's
      primary key is its index). */
  class Database {
    var tenants: set<string>
    var plans: map<nat, Plan>
    var subscriptions: map<string, Subscription>
    var users: seq<UserRow>

    ghost predicate Valid()
      reads this
    {
      && CatalogValid(plans)
      && PlansExist(subscriptions, plans)
      && (forall t :: t in subscriptions ==>
            t in tenants && subscriptions[t].end.Some?)
      && (forall i :: 0 <= i < |users| ==>
            SavedUser(users[i]) && (users[i].tenant.Some? ==> users[i].tenant.value in tenants))
    }

    /** An empty database over a plan catalog. */
    constructor (catalog: map<nat, Plan>)
      requires CatalogValid(catalog)
      ensures Valid()
      ensures tenants == {} && plans == catalog && subscriptions == map[] && users == []
    {
      tenants := {};
      plans := catalog;
      subscriptions := map[];
      users := [];
    }

    /** `Subscription.save` for the subscription of `tenant`: the end date
        default is applied, then the row is written. */
    method SaveSubscription(tenant: string, s: Subscription, now: int) returns (saved: Subscription)
      requires Valid()
      requires tenant in tenants && s.plan in plans
      modifies this`subscriptions
      ensures Valid()
      ensures saved == WithDefaultEnd(s, now)
      ensures subscriptions == old(subscriptions)[tenant := saved]
    {
      saved := s;
      if saved.end.None? {
        saved := saved.(end := Some(now + SubscriptionPeriod));
      }
      subscriptions := subscriptions[tenant := saved];
    }
  }

  /** A user instance: Django's `User` model object, whose fields `save`
      updates in place before writing them. */
  class User {
    var id: Option<nat>
    var username: string
    var email: string
    var password: Password
    var isStaff: bool
    var isSuperuser: bool
    var role: string
    var tenant: Option<string>

    function Row(): UserRow
      reads this
    {
      UserRow(username, email, password, isStaff, isSuperuser, role, tenant)
    }

    /** `User(username=..., email=..., tenant=..., role=...)`, not yet saved.
        Without a role the field default, tenant_user, applies. */
    constructor (username: string, email: string, tenant: Option<string>, role: Option<string>)
      ensures id == None
      ensures Row() == UserRow(username, email, NoPassword, false, false,
                               if role.Some? then role.value else MemberRole, tenant)
    {
      this.id := None;
      this.username := username;
      this.email := email;
      this.password := NoPassword;
      this.isStaff := false;
      this.isSuperuser := false;
      this.role := if role.Some? then role.value else MemberRole;
      this.tenant := tenant;
    }

    /** `set_password`: only the hash is kept. */
    method SetPassword(plain: string)
      modifies this`password
      ensures password == Hashed(plain)
    {
      password := Hashed(plain);
    }

    /** `User.save`: a staff member or superuser becomes an admin whatever role
        was set; anyone else without a tenant is refused and nothing is
        written. An unsaved instance is inserted and gets the next primary
        key; a saved one overwrites its row. */
    method Save(db: Database) returns (err: Option<SaveError>)
      requires db.Valid()
      requires id.Some? ==> id.value < |db.users|
      modifies this, db
      ensures db.Valid()
      ensures db.tenants == old(db.tenants) && db.plans == old(db.plans)
      ensures db.subscriptions == old(db.subscriptions)
      ensures Row() == old(Row()).(role := if isStaff || isSuperuser then AdminRole else old(role))
      ensures err == Some(TenantRequired) <==> !isStaff && !isSuperuser && tenant.None?
      ensures err == Some(UnknownTenant) <==> tenant.Some? && tenant.value !in db.tenants
      ensures err.None? <==> (isStaff || isSuperuser || tenant.Some?) && (tenant.Some? ==> tenant.value in db.tenants)
      ensures err.Some? ==> db.users == old(db.users) && id == old(id)
      ensures err.None? ==> SavedUser(Row())
      ensures err.None? && old(id).None? ==> id == Some(|old(db.users)|) && db.users == old(db.users) + [Row()]
      ensures err.None? && old(id).Some? ==> id == old(id) && db.users == old(db.users)[id.value := Row()]
    {
      if isSuperuser || isStaff {
        role := AdminRole;
      } else if tenant.None? {
        return Some(TenantRequired);
      }
      if tenant.Some? && tenant.value !in db.tenants {
        return Some(UnknownTenant);
      }
      if id.None? {
        id := Some(|db.users|);
        db.users := db.users + [Row()];
      } else {
        db.users := db.users[id.value := Row()];
      }
      err := None;
    }
  }
}
