/**
 * The records the browser pages keep in local storage, and the store itself.
 * Storage is abstract: each key holds a decoded value, a missing `users` or
 * `payments` key reads as the empty list, and no JSON encoding is modelled.
 */
module Records {
  import opened Js

  /** A registered account. `plan` and `attemptsRemaining` may be absent. */
  datatype User = User(
    id: string,
    username: string,
    password: string,
    plan: Option<string>,
    attemptsRemaining: Option<int>)

  /** A calendar month of a payment's date, as the admin page reads it. */
  datatype MonthYear = MonthYear(month: int, year: int)

  /** One record of the `payments` list, written once by the payment-success page. */
  datatype Payment = Payment(
    id: string,
    userId: string,
    username: string,
    plan: string,
    amount: int,
    currency: string,
    status: string,
    date: MonthYear,
    stripeSessionId: string)

  /** The predicates the pages pass to `find` / `findIndex` over `users`. */
  datatype Key =
    | ById(id: string)
    | ByUsername(name: string)
    | ByCredentials(name: string, password: string)

  predicate Matches(u: User, key: Key) {
    match key
    case ById(id) => u.id == id
    case ByUsername(name) => u.username == name
    case ByCredentials(name, password) => u.username == name && u.password == password
  }

  /** `users.findIndex(...)`: the first index whose user matches, or -1 when none does. */
  function FindIndex(users: seq<User>, key: Key): (r: int)
    ensures -1 <= r < |users|
    ensures r == -1 <==> forall j :: 0 <= j < |users| ==> !Matches(users[j], key)
    ensures r >= 0 ==> Matches(users[r], key) && forall j :: 0 <= j < r ==> !Matches(users[j], key)
    decreases |users|
  {
    if |users| == 0 then -1
    else if Matches(users[0], key) then 0
    else
      var r := FindIndex(users[1..], key);
      if r == -1 then -1 else r + 1
  }

  /** Everything the four storage keys hold at one moment. */
  datatype StoreState = StoreState(
    users: seq<User>,
    payments: seq<Payment>,
    currentUser: Option<User>,
    adminUser: Option<string>)

  /** The browser's local storage, restricted to the keys the pages use. */
  class Store {
    var users: seq<User>
    var payments: seq<Payment>
    var currentUser: Option<User>
    var adminUser: Option<string>

    constructor (s: StoreState)
      ensures State() == s
    {
      users, payments, currentUser, adminUser := s.users, s.payments, s.currentUser, s.adminUser;
    }

    function State(): StoreState
      reads this
    {
      StoreState(users, payments, currentUser, adminUser)
    }
  }
}
