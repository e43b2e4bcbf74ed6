/** The computed columns of the Django admin (backend/users/admin.py): a
    subscription's usage colour, a tenant's subscription status and its user
    count. The HTML markup around each value is not modelled. */
module Admin {
  import opened Wrappers
  import opened Models

  datatype Colour = Green | Orange | Red

  /** The usage column: colour, the two counts, and the whole percentage shown. */
  datatype Usage = Usage(colour: Colour, userCount: nat, maxUsers: nat, percent: nat)

  /** `usage_status`: the percentage is count / max_users * 100, or 0 when the
      plan allows no users; below 80 is green, below 100 orange, else red.
      The shown percentage is its whole part. */
  function UsageStatus(userCount: nat, maxUsers: nat): (u: Usage)
    ensures u.userCount == userCount && u.maxUsers == maxUsers
    ensures maxUsers == 0 ==> u.percent == 0 && u.colour == Green
    ensures maxUsers > 0 ==> u.percent * maxUsers <= userCount * 100 < (u.percent + 1) * maxUsers
    ensures u.colour == Green <==> maxUsers == 0 || userCount * 100 < 80 * maxUsers
    ensures u.colour == Red <==> maxUsers > 0 && userCount >= maxUsers
  {
    var percent := if maxUsers > 0 then userCount * 100 / maxUsers else 0;
    var colour := if percent < 80 then Green else if percent < 100 then Orange else Red;
    if maxUsers > 0 then
      FloorBounds(userCount * 100, maxUsers);
      BelowThreshold(userCount * 100, maxUsers, percent, 80);
      BelowThreshold(userCount * 100, maxUsers, percent, 100);
      Usage(colour, userCount, maxUsers, percent)
    else
      Usage(colour, userCount, maxUsers, percent)
  }

  /** The whole part of a quotient, characterised without division. */
  lemma FloorBounds(n: nat, d: nat)
    requires d > 0
    ensures (n / d) * d <= n < (n / d + 1) * d
  {
    var q, r := n / d, n % d;
    assert n == q * d + r;
    assert (q + 1) * d == q * d + d;
  }

  /** Comparing the whole part with a whole threshold is comparing the exact
      quotient with it. */
  lemma BelowThreshold(n: nat, d: nat, p: nat, k: nat)
    requires d > 0 && p * d <= n < (p + 1) * d
    ensures p < k <==> n < k * d
  {
    if p < k {
      MultiplyMonotone(p + 1, k, d);
    } else {
      MultiplyMonotone(k, p, d);
    }
  }

  lemma MultiplyMonotone(a: nat, b: nat, d: nat)
    requires a <= b
    ensures a * d <= b * d
  {
    assert b * d == a * d + (b - a) * d;
  }

  function Rank(c: Colour): nat
  {
    match c
    case Green => 0
    case Orange => 1
    case Red => 2
  }

  /** More users on the same plan never give a milder colour. */
  lemma {:induction false} UsageColourMonotone(fewer: nat, more: nat, maxUsers: nat)
    requires fewer <= more
    ensures Rank(UsageStatus(fewer, maxUsers).colour) <= Rank(UsageStatus(more, maxUsers).colour)
  {
    var a, b := UsageStatus(fewer, maxUsers), UsageStatus(more, maxUsers);
    if maxUsers > 0 {
      assert fewer * 100 <= more * 100;
    }
  }

  /** The status column. */
  datatype StatusCell = NoSubscription | StatusBadge(colour: Colour, caption: string, planName: string)

  /** `subscription_status`: "No subscription", or "Active"/"Inactive" in
      green/red followed by the plan's name. */
  function SubscriptionStatus(subscription: Option<Subscription>, plans: map<nat, Plan>): (c: StatusCell)
    requires subscription.Some? ==> subscription.value.plan in plans
    ensures c.NoSubscription? <==> subscription.None?
    ensures c.StatusBadge? ==> c.planName == plans[subscription.value.plan].name
    ensures c.StatusBadge? ==> (c.caption == "Active" <==> subscription.value.active)
    ensures c.StatusBadge? ==> (c.caption == "Inactive" <==> !subscription.value.active)
    ensures c.StatusBadge? ==> (c.colour == Green <==> subscription.value.active)
    ensures c.StatusBadge? ==> (c.colour == Red <==> !subscription.value.active)
  {
    match subscription
    case None => NoSubscription
    case Some(s) =>
      StatusBadge(if s.active then Green else Red, if s.active then "Active" else "Inactive",
                  plans[s.plan].name)
  }

  /** The user-count column: "count / max_users" or the bare count. */
  datatype CountCell = CountOfMax(count: nat, maxUsers: nat) | CountOnly(count: nat)

  /** `user_count` for a tenant: its number of users, against the plan's limit
      when the tenant is subscribed. */
  function UserCountCell(tenant: string, users: seq<UserRow>,
                         subscriptions: map<string, Subscription>, plans: map<nat, Plan>): (c: CountCell)
    requires PlansExist(subscriptions, plans)
    ensures c.count == UserCount(users, tenant)
    ensures c.CountOfMax? <==> tenant in subscriptions
    ensures c.CountOfMax? ==> c.maxUsers == plans[subscriptions[tenant].plan].maxUsers
  {
    var count := UserCount(users, tenant);
    if tenant in subscriptions then CountOfMax(count, plans[subscriptions[tenant].plan].maxUsers)
    else CountOnly(count)
  }
}
