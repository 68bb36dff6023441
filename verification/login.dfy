/**
 * The login page's submit handler: look up the stored user with the given
 * username and password, give a user without a plan the "free" plan and
 * write that back into `users`, then sign the user in as `currentUser`.
 */
module Login {
  import opened Js
  import opened Records

  datatype LoginOutcome = Rejected | LoggedIn(users: seq<User>, current: User)

  const InvalidCredentials: string := "Invalid username or password"

  /** A user without a (truthy) plan gets "free"; any other user is left as it is. */
  function Backfilled(u: User): (r: User)
    ensures Truthy(r.plan)
    ensures Truthy(u.plan) ==> r == u
    ensures !Truthy(u.plan) ==> r.plan == Some("free") && r == u.(plan := r.plan)
  {
    if Truthy(u.plan) then u else u.(plan := Some("free"))
  }

  /**
   * The outcome of a login attempt on the stored `users`. The chosen user is
   * the first whose username and password both match. In the backfill case
   * the new record lands in two slots: the chosen one (the found object is
   * the list's own, so changing its plan changes the list) and the first slot
   * whose username matches, which with duplicate usernames is another user's.
   */
  function Login(users: seq<User>, username: string, password: string): (r: LoginOutcome)
    ensures r.Rejected? <==> forall k :: 0 <= k < |users| ==> !Matches(users[k], ByCredentials(username, password))
    ensures r.LoggedIn? ==>
      var i := FindIndex(users, ByCredentials(username, password));
      var j := FindIndex(users, ByUsername(username));
      && 0 <= j <= i
      && r.current == Backfilled(users[i])
      && |r.users| == |users|
      && (Truthy(users[i].plan) ==> r.users == users)
      && (!Truthy(users[i].plan) ==> r.users[i] == r.current && r.users[j] == r.current)
      && (forall k :: 0 <= k < |users| && k != i && k != j ==> r.users[k] == users[k])
  {
    var i := FindIndex(users, ByCredentials(username, password));
    if i == -1 then Rejected
    else if Truthy(users[i].plan) then LoggedIn(users, users[i])
    else
      var user := users[i].(plan := Some("free"));
      var j := FindIndex(users, ByUsername(username));
      LoggedIn(if j == -1 then users else users[i := user][j := user], user)
  }

  /** Replacing a user by one with the same username does not move the first username match. */
  lemma {:induction false} FindUsernameAfterUpdate(users: seq<User>, i: nat, u: User, name: string)
    requires i < |users| && u.username == users[i].username
    ensures FindIndex(users[i := u], ByUsername(name)) == FindIndex(users, ByUsername(name))
  {
    var after := users[i := u];
    forall k | 0 <= k < |users|
      ensures Matches(after[k], ByUsername(name)) == Matches(users[k], ByUsername(name))
    {
    }
  }

  /**
   * The handler, step by step: on a match, the plan is backfilled on the found
   * object, `users` is written back at the first username match, and the user
   * becomes `currentUser`; otherwise only the error message is set.
   */
  method HandleLogin(store: Store, username: string, password: string) returns (error: string)
    modifies store
    ensures var r := Login(old(store.users), username, password);
      && (r.Rejected? ==> error == InvalidCredentials && store.State() == old(store.State()))
      && (r.LoggedIn? ==>
            error == "" &&
            store.State() == old(store.State()).(users := r.users, currentUser := Some(r.current)))
  {
    error := "";
    var users := store.users;
    var i := FindIndex(users, ByCredentials(username, password));
    if i != -1 {
      var user := users[i];
      if !Truthy(user.plan) {
        user := user.(plan := Some("free"));
        // `user` is the object stored at index i, so the list sees the new plan too.
        FindUsernameAfterUpdate(users, i, user, username);
        users := users[i := user];
        var userIndex := FindIndex(users, ByUsername(username));
        if userIndex != -1 {
          users := users[userIndex := user];
          store.users := users;
        }
      }
      store.currentUser := Some(user);
    } else {
      error := InvalidCredentials;
    }
  }

  /** Logging in again right after a successful login changes nothing and signs in the same user. */
  lemma {:induction false} LoginSettles(users: seq<User>, username: string, password: string)
    requires Login(users, username, password).LoggedIn?
    ensures var r := Login(users, username, password);
      Login(r.users, username, password) == LoggedIn(r.users, r.current)
  {
    var r := Login(users, username, password);
    var cred := ByCredentials(username, password);
    var i := FindIndex(users, cred);
    var j := FindIndex(users, ByUsername(username));
    if !Truthy(users[i].plan) {
      assert Matches(r.users[j], cred);
      forall k | 0 <= k < j
        ensures !Matches(r.users[k], cred)
      {
        assert r.users[k] == users[k];
        assert !Matches(users[k], ByUsername(username));
      }
      assert FindIndex(r.users, cred) == j;
    }
  }

  /** With unique usernames, only the chosen user's slot can change. */
  lemma {:induction false} UniqueUsernamesTouchOnlyChosen(users: seq<User>, username: string, password: string)
    requires forall a, b :: 0 <= a < b < |users| ==> users[a].username != users[b].username
    requires Login(users, username, password).LoggedIn?
    ensures var r := Login(users, username, password);
      r.users == users[FindIndex(users, ByCredentials(username, password)) := r.current]
  {
    var i := FindIndex(users, ByCredentials(username, password));
    var j := FindIndex(users, ByUsername(username));
    assert Matches(users[i], ByUsername(username));
    assert i == j;
  }

  /**
   * With two accounts named "alice", logging in to the second one without a
   * plan overwrites the first account's record with a copy of the second.
   */
  lemma DuplicateUsernameOverwritesOtherAccount()
    ensures var first := User("1", "alice", "old", Some("pro"), Some(100));
      var second := User("2", "alice", "pw", None, Some(5));
      var chosen := User("2", "alice", "pw", Some("free"), Some(5));
      Login([first, second], "alice", "pw") == LoggedIn([chosen, chosen], chosen)
  {
    var first := User("1", "alice", "old", Some("pro"), Some(100));
    var second := User("2", "alice", "pw", None, Some(5));
    assert !Matches(first, ByCredentials("alice", "pw"));
    assert FindIndex([first, second], ByCredentials("alice", "pw")) == 1;
    assert FindIndex([first, second], ByUsername("alice")) == 0;
  }

  /** A stored user without a plan is stored, and signed in, with plan "free". */
  lemma BackfillExample()
    ensures var alice := User("u1", "alice", "pw", None, Some(5));
      var freeAlice := User("u1", "alice", "pw", Some("free"), Some(5));
      Login([alice], "alice", "pw") == LoggedIn([freeAlice], freeAlice)
  {
  }
}
