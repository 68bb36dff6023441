/**
 * The admin page: with an admin marker in storage it folds `payments` and
 * `users` into revenue and plan statistics; it also renders each user's plan
 * badge and remaining attempts.
 */
module Admin {
  import opened Js
  import opened Records
  import PaymentSuccess

  datatype Stats = Stats(
    totalRevenue: int,
    monthlyRevenue: int,
    totalUsers: nat,
    freeUsers: nat,
    proUsers: nat,
    enterpriseUsers: nat)

  /** Either the page sends the visitor to `/login`, or it shows the statistics. */
  datatype AdminView = RedirectToLogin | Dashboard(stats: Stats)

  const BlueBadge: string := "bg-blue-500 text-white"
  const PurpleBadge: string := "bg-purple-500 text-white"
  const GrayBadge: string := "bg-gray-500 text-white"

  // ---------------------------------------------------------------------
  // Revenue

  /** `payments.reduce((sum, p) => sum + p.amount, 0)`. */
  function TotalRevenue(payments: seq<Payment>): (r: int)
    ensures |payments| == 0 ==> r == 0
    ensures NonNegativeAmounts(payments) ==> r >= 0
    decreases |payments|
  {
    if |payments| == 0 then 0
    else TotalRevenue(payments[..|payments| - 1]) + payments[|payments| - 1].amount
  }

  predicate InMonth(p: Payment, now: MonthYear) {
    p.date.month == now.month && p.date.year == now.year
  }

  /** `payments.filter(...)` keeping the payments dated in the current month of the current year. */
  function ThisMonth(payments: seq<Payment>, now: MonthYear): (r: seq<Payment>)
    ensures |r| <= |payments|
    ensures forall k :: 0 <= k < |r| ==> InMonth(r[k], now) && r[k] in payments
    ensures forall p :: p in payments && InMonth(p, now) ==> p in r
    ensures forall p :: multiset(r)[p] == if InMonth(p, now) then multiset(payments)[p] else 0
    decreases |payments|
  {
    if |payments| == 0 then []
    else
      var init := ThisMonth(payments[..|payments| - 1], now);
      var last := payments[|payments| - 1];
      assert payments == payments[..|payments| - 1] + [last];
      assert multiset(payments) == multiset(payments[..|payments| - 1]) + multiset{last};
      if InMonth(last, now) then init + [last] else init
  }

  function MonthlyRevenue(payments: seq<Payment>, now: MonthYear): int {
    TotalRevenue(ThisMonth(payments, now))
  }

  predicate NonNegativeAmounts(payments: seq<Payment>) {
    forall k :: 0 <= k < |payments| ==> payments[k].amount >= 0
  }

  /** Revenue is additive over concatenation. */
  lemma {:induction false} TotalRevenueAppend(a: seq<Payment>, b: seq<Payment>)
    ensures TotalRevenue(a + b) == TotalRevenue(a) + TotalRevenue(b)
    decreases |b|
  {
    if |b| > 0 {
      var b' := b[..|b| - 1];
      assert (a + b)[..|a + b| - 1] == a + b';
      assert (a + b)[|a + b| - 1] == b[|b| - 1];
      TotalRevenueAppend(a, b');
    } else {
      assert a + b == a;
    }
  }

  /** With non-negative amounts, this month's revenue is between 0 and the total. */
  lemma {:induction false} MonthlyAtMostTotal(payments: seq<Payment>, now: MonthYear)
    requires NonNegativeAmounts(payments)
    ensures 0 <= MonthlyRevenue(payments, now) <= TotalRevenue(payments)
    decreases |payments|
  {
    if |payments| > 0 {
      var init := payments[..|payments| - 1];
      var last := payments[|payments| - 1];
      MonthlyAtMostTotal(init, now);
      if InMonth(last, now) {
        TotalRevenueAppend(ThisMonth(init, now), [last]);
        assert TotalRevenue([last]) == TotalRevenue([]) + last.amount;
      }
    }
  }

  /**
   * After the payment-success page has run, the admin total has grown by the
   * recorded amount when a user was signed in, and is unchanged otherwise.
   */
  lemma RevenueAfterReconcile(before: StoreState, q: PaymentSuccess.Query, now: MonthYear)
    ensures var r := PaymentSuccess.Reconcile(before, q, now);
      TotalRevenue(r.after.payments) ==
        TotalRevenue(before.payments) +
        (if PaymentSuccess.Complete(q) && before.currentUser.Some?
         then PaymentSuccess.PaymentAmount(q.plan.value) else 0)
  {
    var r := PaymentSuccess.Reconcile(before, q, now);
    if PaymentSuccess.Complete(q) && before.currentUser.Some? {
      var p := r.after.payments[|before.payments|];
      TotalRevenueAppend(before.payments, [p]);
      assert TotalRevenue([p]) == TotalRevenue([]) + p.amount;
    }
  }

  /** One 99 payment this month and one 999 payment a year earlier give 1098 in all and 99 this month. */
  lemma RevenueExample()
    ensures var now := MonthYear(5, 2025);
      var recent := Payment("cs_1", "u1", "alice", "pro", 99, "INR", "completed", now, "cs_1");
      var earlier := Payment("cs_0", "u2", "bob", "enterprise", 999, "INR", "completed", MonthYear(5, 2024), "cs_0");
      TotalRevenue([recent, earlier]) == 1098 && MonthlyRevenue([recent, earlier], now) == 99
  {
    var now := MonthYear(5, 2025);
    var recent := Payment("cs_1", "u1", "alice", "pro", 99, "INR", "completed", now, "cs_1");
    var earlier := Payment("cs_0", "u2", "bob", "enterprise", 999, "INR", "completed", MonthYear(5, 2024), "cs_0");
    assert [recent, earlier][..1] == [recent];
    assert [recent][..0] == [];
    assert ThisMonth([recent, earlier], now) == [recent];
    assert TotalRevenue([recent]) == 99;
  }

  // ---------------------------------------------------------------------
  // Users per plan

  /** `user.plan || 'free'`. */
  function EffectivePlan(u: User): string {
    OrElse(u.plan, "free")
  }

  predicate KnownPlan(plan: string) {
    plan == "free" || plan == "pro" || plan == "enterprise"
  }

  /** How many users count under `plan`. */
  function PlanCount(users: seq<User>, plan: string): (r: nat)
    ensures r <= |users|
    decreases |users|
  {
    if |users| == 0 then 0
    else PlanCount(users[..|users| - 1], plan) + (if EffectivePlan(users[|users| - 1]) == plan then 1 else 0)
  }

  /** A plan's count is zero exactly when no user's effective plan is that plan. */
  lemma {:induction false} PlanCountZeroIffAbsent(users: seq<User>, plan: string)
    ensures PlanCount(users, plan) == 0 <==> forall k :: 0 <= k < |users| ==> EffectivePlan(users[k]) != plan
    decreases |users|
  {
    if |users| > 0 {
      var init := users[..|users| - 1];
      PlanCountZeroIffAbsent(init, plan);
      assert forall k :: 0 <= k < |init| ==> init[k] == users[k];
    }
  }

  /** `counts[plan] || 0`. */
  function Lookup(counts: map<string, nat>, plan: string): nat {
    if plan in counts then counts[plan] else 0
  }

  /**
   * The `reduce` that fills a dictionary from plan name to number of users,
   * one `counts[plan] = (counts[plan] || 0) + 1` per user.
   */
  method CountPlans(users: seq<User>) returns (counts: map<string, nat>)
    ensures forall plan :: Lookup(counts, plan) == PlanCount(users, plan)
    ensures forall plan :: plan in counts <==> PlanCount(users, plan) > 0
  {
    counts := map[];
    var i := 0;
    while i < |users|
      invariant 0 <= i <= |users|
      invariant forall plan :: Lookup(counts, plan) == PlanCount(users[..i], plan)
      invariant forall plan :: plan in counts <==> PlanCount(users[..i], plan) > 0
    {
      var plan := EffectivePlan(users[i]);
      counts := counts[plan := Lookup(counts, plan) + 1];
      assert users[..i + 1][..i] == users[..i];
      i := i + 1;
    }
    assert users[..|users|] == users;
  }

  /**
   * The three plan counts never exceed the number of users, and add up to it
   * exactly when every user's plan is one of "free", "pro" and "enterprise".
   */
  lemma {:induction false} PlanCountsWithinUsers(users: seq<User>)
    ensures PlanCount(users, "free") + PlanCount(users, "pro") + PlanCount(users, "enterprise") <= |users|
    ensures PlanCount(users, "free") + PlanCount(users, "pro") + PlanCount(users, "enterprise") == |users|
            <==> forall k :: 0 <= k < |users| ==> KnownPlan(EffectivePlan(users[k]))
    decreases |users|
  {
    if |users| > 0 {
      var init := users[..|users| - 1];
      PlanCountsWithinUsers(init);
      assert forall k :: 0 <= k < |init| ==> init[k] == users[k];
    }
  }

  /** `planCounts.free || 0`, `planCounts.pro || 0` and `planCounts.enterprise || 0`. */
  method CountKnownPlans(users: seq<User>) returns (free: nat, pro: nat, enterprise: nat)
    ensures free == PlanCount(users, "free")
    ensures pro == PlanCount(users, "pro")
    ensures enterprise == PlanCount(users, "enterprise")
  {
    var planCounts := CountPlans(users);
    free, pro, enterprise := Lookup(planCounts, "free"), Lookup(planCounts, "pro"), Lookup(planCounts, "enterprise");
  }

  /** The statistics the page shows. */
  method LoadAdminPage(store: Store, now: MonthYear) returns (view: AdminView)
    ensures !Truthy(store.adminUser) <==> view == RedirectToLogin
    ensures view.Dashboard? ==>
      view.stats == Stats(
        TotalRevenue(store.payments),
        MonthlyRevenue(store.payments, now),
        |store.users|,
        PlanCount(store.users, "free"),
        PlanCount(store.users, "pro"),
        PlanCount(store.users, "enterprise"))
  {
    if !Truthy(store.adminUser) {
      return RedirectToLogin;
    }
    var usersData := store.users;
    var paymentsData := store.payments;
    var totalRevenue := TotalRevenue(paymentsData);
    var monthlyRevenue := MonthlyRevenue(paymentsData, now);
    var free, pro, enterprise := CountKnownPlans(usersData);
    view := Dashboard(Stats(
      totalRevenue,
      monthlyRevenue,
      |usersData|,
      free,
      pro,
      enterprise));
  }

  // ---------------------------------------------------------------------
  // Per-user display

  /** `getPlanBadgeColor`: blue for "pro", purple for "enterprise", gray for anything else. */
  function BadgeColor(plan: string): (c: string)
    ensures c == BlueBadge <==> plan == "pro"
    ensures c == PurpleBadge <==> plan == "enterprise"
    ensures c == GrayBadge <==> plan != "pro" && plan != "enterprise"
  {
    match plan
    case "pro" => BlueBadge
    case "enterprise" => PurpleBadge
    case _ => GrayBadge
  }

  /** `user.attemptsRemaining || 0`. */
  function AttemptsShown(u: User): int {
    if u.attemptsRemaining.Some? then u.attemptsRemaining.value else 0
  }

  /** The quota the attempts column shows next to the count. */
  function AttemptsCap(u: User): string {
    if u.plan == Some("pro") then "100" else "5"
  }

  /** The attempts column: "Unlimited" for an enterprise user, otherwise count/cap. */
  function AttemptsDisplay(u: User): (s: string)
    ensures u.plan == Some("enterprise") <==> s == "Unlimited"
    ensures u.plan != Some("enterprise") ==> s == IntToString(AttemptsShown(u)) + "/" + AttemptsCap(u)
  {
    if u.plan == Some("enterprise") then "Unlimited"
    else
      var s := IntToString(AttemptsShown(u)) + "/" + AttemptsCap(u);
      assert s[0] != 'U';
      s
  }

  /** The count and the cap can be read back from the attempts column. */
  lemma AttemptsDisplayReadsBack(u: User)
    requires u.plan != Some("enterprise")
    ensures var parts := Split(AttemptsDisplay(u), '/');
      |parts| == 2 && ParseInt(parts[0]) == Some(AttemptsShown(u)) && parts[1] == AttemptsCap(u)
  {
    var count := IntToString(AttemptsShown(u));
    var pieces := [count, AttemptsCap(u)];
    assert forall k :: 0 <= k < |count| ==> count[k] != '/';
    SplitJoinRoundTrip(pieces, '/');
    assert Join(pieces, "/") == count + "/" + AttemptsCap(u);
    IntToStringRoundTrip(AttemptsShown(u));
  }
}
