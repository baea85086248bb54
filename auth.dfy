/** The mock authentication context: a module-wide map from email to the
    stored user and password, and the current user. Registration refuses a
    known email, login succeeds exactly on a matching password, logout
    clears the current user and never touches the stored accounts. */
module AuthContext {
  import opened Common

  datatype Role = USER | ADMIN

  datatype User = User(id: string, email: string, name: string, role: Role)

  /** One entry of the mock user database. */
  datatype Account = Account(user: User, password: string)

  /** `mockUsers.get(email)` followed by the password comparison. */
  predicate Accepts(users: map<string, Account>, email: string, password: string) {
    email in users && users[email].password == password
  }

  class Auth {
    var mockUsers: map<string, Account>
    var user: Option<User>

    /** Every stored user is filed under its own email. */
    ghost predicate Valid()
      reads this
    {
      forall e :: e in mockUsers ==> mockUsers[e].user.email == e
    }

    /** The provider starts signed out with no accounts. */
    constructor ()
      ensures mockUsers == map[] && user == None && Valid()
    {
      mockUsers := map[];
      user := None;
    }

    /** `isAuthenticated`: `!!user`. */
    function IsAuthenticated(): (b: bool)
      reads this
      ensures b <==> user.Some?
    {
      user.Some?
    }

    /** `login(email, password)`: true and the stored user becomes current
        exactly when an entry exists with that password; otherwise nothing changes. */
    method Login(email: string, password: string) returns (ok: bool)
      requires Valid()
      modifies this
      ensures Valid()
      ensures ok <==> Accepts(old(mockUsers), email, password)
      ensures ok ==> user.Some? && user.value.email == email
      ensures ok ==> user == Some(old(mockUsers)[email].user)
      ensures !ok ==> user == old(user)
      ensures mockUsers == old(mockUsers)
    {
      if email in mockUsers && mockUsers[email].password == password {
        user := Some(mockUsers[email].user);
        return true;
      }
      return false;
    }

    /** `register(name, email, password)`; `newId` is the value
        `crypto.randomUUID()` returned. A known email is refused with nothing
        changed; otherwise exactly one entry is added and its user becomes current. */
    method Register(name: string, email: string, password: string, newId: string) returns (ok: bool)
      requires Valid()
      modifies this
      ensures Valid()
      ensures ok <==> email !in old(mockUsers)
      ensures !ok ==> mockUsers == old(mockUsers) && user == old(user)
      ensures ok ==> mockUsers == old(mockUsers)[email := Account(User(newId, email, name, USER), password)]
      ensures ok ==> user == Some(User(newId, email, name, USER))
      ensures forall e :: e in old(mockUsers) ==> e in mockUsers && mockUsers[e] == old(mockUsers)[e]
    {
      if email in mockUsers {
        return false;
      }
      var newUser := User(newId, email, name, USER);
      mockUsers := mockUsers[email := Account(newUser, password)];
      user := Some(newUser);
      return true;
    }

    /** `logout()`. */
    method Logout()
      modifies this
      ensures user == None && mockUsers == old(mockUsers)
    {
      user := None;
    }
  }

  /** After a successful registration, logging in with the same email and
      password succeeds, even after a logout, and yields the registered user. */
  method RegisterThenLogin(auth: Auth, name: string, email: string, password: string, newId: string)
    returns (registered: bool, loggedIn: bool)
    requires auth.Valid()
    modifies auth
    ensures registered ==> loggedIn && auth.user == Some(User(newId, email, name, USER))
    ensures !registered ==> auth.user == old(auth.user)
  {
    registered := auth.Register(name, email, password, newId);
    if registered {
      auth.Logout();
      loggedIn := auth.Login(email, password);
    } else {
      loggedIn := false;
    }
  }

  /** A stored account keeps accepting its password whatever else is registered. */
  lemma RegistrationKeepsLogins(users: map<string, Account>, email: string, account: Account, e: string, p: string)
    requires email !in users
    requires Accepts(users, e, p)
    ensures Accepts(users[email := account], e, p)
  {
  }
}
