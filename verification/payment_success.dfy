/**
 * The payment-success page: when the payment vendor redirects back, the page
 * checks the query parameters, upgrades the signed-in user's plan, writes the
 * user back into `currentUser` and into its slot of `users`, appends one
 * payment record, and reports success or failure.
 */
module PaymentSuccess {
  import opened Js
  import opened Records

  /** The page's status state. */
  datatype Status = Loading | Success | Error

  /** The query parameters of the redirect; each may be absent. */
  datatype Query = Query(sessionId: Option<string>, plan: Option<string>, userId: Option<string>)

  /** What the page ends with: its status, its message and the storage afterwards. */
  datatype Reconciliation = Reconciliation(status: Status, message: string, after: StoreState)

  const MissingInformation: string := "Missing payment information"
  const SuccessPrefix: string := "Successfully upgraded to "
  const SuccessSuffix: string := " plan!"

  /** All three parameters are present and non-empty. `user_id` is checked but never used. */
  predicate Complete(q: Query) {
    Truthy(q.sessionId) && Truthy(q.plan) && Truthy(q.userId)
  }

  /** The attempt quota after choosing `plan`: reset for the paid plans, kept otherwise. */
  function AttemptsFor(plan: string, current: Option<int>): Option<int> {
    if plan == "pro" then Some(100) else if plan == "enterprise" then Some(999) else current
  }

  /** The signed-in user after the upgrade: the plan taken verbatim, the quota reset. */
  function Upgrade(u: User, plan: string): (r: User)
    ensures r.plan == Some(plan)
    ensures plan == "pro" ==> r.attemptsRemaining == Some(100)
    ensures plan == "enterprise" ==> r.attemptsRemaining == Some(999)
    ensures plan != "pro" && plan != "enterprise" ==> r.attemptsRemaining == u.attemptsRemaining
    ensures r.id == u.id && r.username == u.username && r.password == u.password
  {
    u.(plan := Some(plan), attemptsRemaining := AttemptsFor(plan, u.attemptsRemaining))
  }

  /** The amount recorded for a plan: 99 for "pro" and 999 for every other plan name. */
  function PaymentAmount(plan: string): int {
    if plan == "pro" then 99 else 999
  }

  /** The record appended for the admin page. */
  function NewPayment(sessionId: string, u: User, plan: string, now: MonthYear): (p: Payment)
    ensures p.id == sessionId && p.stripeSessionId == sessionId
    ensures p.userId == u.id && p.username == u.username && p.plan == plan
    ensures p.amount == (if plan == "pro" then 99 else 999)
    ensures p.currency == "INR" && p.status == "completed" && p.date == now
  {
    Payment(sessionId, u.id, u.username, plan, PaymentAmount(plan), "INR", "completed", now, sessionId)
  }

  /** `s.charAt(0).toUpperCase() + s.slice(1)`. */
  function Capitalize(s: string): (r: string)
    ensures |r| == |s|
    ensures |s| > 0 ==> r[0] == UpperAscii(s[0]) && r[1..] == s[1..]
  {
    if |s| == 0 then "" else [UpperAscii(s[0])] + s[1..]
  }

  /** The success message names the plan with its first letter upper-cased. */
  function SuccessMessage(plan: string): (m: string)
    ensures |m| == |SuccessPrefix| + |plan| + |SuccessSuffix|
    ensures m[..|SuccessPrefix|] == SuccessPrefix
    ensures m[|SuccessPrefix|..|SuccessPrefix| + |plan|] == Capitalize(plan)
    ensures m[|SuccessPrefix| + |plan|..] == SuccessSuffix
  {
    var m := SuccessPrefix + Capitalize(plan) + SuccessSuffix;
    assert m[..|SuccessPrefix|] == SuccessPrefix;
    assert m[|SuccessPrefix|..|SuccessPrefix| + |plan|] == Capitalize(plan);
    assert m[|SuccessPrefix| + |plan|..] == SuccessSuffix;
    m
  }

  /**
   * The whole effect of the page on the store, as a function of the store before it.
   * Without a signed-in user nothing is written, yet the page still reports success.
   */
  function Reconcile(before: StoreState, q: Query, now: MonthYear): (r: Reconciliation)
    ensures !Complete(q) ==> r == Reconciliation(Error, MissingInformation, before)
    ensures Complete(q) ==> r.status == Success && r.message == SuccessMessage(q.plan.value)
    ensures before.currentUser.None? ==> r.after == before
    ensures r.after.adminUser == before.adminUser
    ensures |r.after.users| == |before.users|
    ensures Complete(q) && before.currentUser.Some? ==>
      var u := Upgrade(before.currentUser.value, q.plan.value);
      var k := FindIndex(before.users, ById(u.id));
      && r.after.currentUser == Some(u)
      && (k >= 0 ==> r.after.users[k] == u)
      && (forall j :: 0 <= j < |before.users| && j != k ==> r.after.users[j] == before.users[j])
      && r.after.payments == before.payments + [NewPayment(q.sessionId.value, u, q.plan.value, now)]
  {
    if !Complete(q) then Reconciliation(Error, MissingInformation, before)
    else
      var plan := q.plan.value;
      var after :=
        match before.currentUser
        case None => before
        case Some(cu) =>
          var u := Upgrade(cu, plan);
          var k := FindIndex(before.users, ById(u.id));
          before.(
            currentUser := Some(u),
            users := if k == -1 then before.users else before.users[k := u],
            payments := before.payments + [NewPayment(q.sessionId.value, u, plan, now)]);
      Reconciliation(Success, SuccessMessage(plan), after)
  }

  /**
   * The page's effect, step by step: parameter check, plan and quota update of
   * the parsed `currentUser`, its write-back, the `users` slot matched by id,
   * and the pushed payment record.
   */
  method ProcessPayment(store: Store, q: Query, now: MonthYear) returns (status: Status, message: string)
    modifies store
    ensures var r := Reconcile(old(store.State()), q, now);
      status == r.status && message == r.message && store.State() == r.after
  {
    status, message := Loading, "";
    if !Truthy(q.sessionId) || !Truthy(q.plan) || !Truthy(q.userId) {
      status := Error;
      message := MissingInformation;
      return;
    }
    var plan := q.plan.value;
    if store.currentUser.Some? {
      var userData := store.currentUser.value;
      userData := userData.(plan := Some(plan));
      userData := userData.(attemptsRemaining := AttemptsFor(plan, userData.attemptsRemaining));
      store.currentUser := Some(userData);

      var users := store.users;
      var userIndex := FindIndex(users, ById(userData.id));
      if userIndex != -1 {
        users := users[userIndex := userData];
        store.users := users;
      }

      var payments := store.payments;
      payments := payments + [NewPayment(q.sessionId.value, userData, plan, now)];
      store.payments := payments;
    }
    status := Success;
    message := SuccessMessage(plan);
  }

  /** Choosing the same plan again leaves the user, and so the quota, as the first time. */
  lemma UpgradeIdempotent(u: User, plan: string)
    ensures Upgrade(Upgrade(u, plan), plan) == Upgrade(u, plan)
    ensures Upgrade(Upgrade(u, plan), plan).attemptsRemaining == AttemptsFor(plan, u.attemptsRemaining)
  {
  }

  /**
   * Running the page twice with the same redirect (a reload) changes neither the
   * signed-in user nor `users` a second time, but appends a second payment
   * record with the same id.
   */
  lemma {:induction false} ReplayAppendsDuplicatePayment(before: StoreState, q: Query, now: MonthYear, later: MonthYear)
    requires Complete(q) && before.currentUser.Some?
    ensures var once := Reconcile(before, q, now);
      var twice := Reconcile(once.after, q, later);
      && twice.after.currentUser == once.after.currentUser
      && twice.after.users == once.after.users
      && |twice.after.payments| == |before.payments| + 2
      && twice.after.payments[|before.payments|].id == twice.after.payments[|before.payments| + 1].id
  {
    var once := Reconcile(before, q, now);
    var u := Upgrade(before.currentUser.value, q.plan.value);
    UpgradeIdempotent(before.currentUser.value, q.plan.value);
    assert once.after.currentUser == Some(u);
    var k := FindIndex(before.users, ById(u.id));
    var k2 := FindIndex(once.after.users, ById(u.id));
    if k == -1 {
      assert once.after.users == before.users;
    } else {
      assert once.after.users == before.users[k := u];
      assert k2 == k;
    }
  }

  /** A redirect for "pro" resets the quota to 100 and records 99 INR. */
  lemma ProUpgradeExample()
    ensures var before := StoreState([], [], Some(User("u1", "alice", "pw", None, Some(3))), None);
      var r := Reconcile(before, Query(Some("cs_1"), Some("pro"), Some("u1")), MonthYear(5, 2025));
      && r.status == Success
      && r.message == "Successfully upgraded to Pro plan!"
      && r.after.currentUser == Some(User("u1", "alice", "pw", Some("pro"), Some(100)))
      && r.after.users == []
      && r.after.payments == [Payment("cs_1", "u1", "alice", "pro", 99, "INR", "completed", MonthYear(5, 2025), "cs_1")]
  {
    assert Capitalize("pro") == "Pro";
  }
}
