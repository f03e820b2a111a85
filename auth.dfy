/**
 * The mock sign-in of the dashboard (lib/auth-provider.tsx): a table of accounts keyed by email
 * that starts with the admin account, and the signed-in user that `login`, `register` and `logout` set.
 */
module Auth {
  import opened Common

  datatype Role = Admin | Member

  /** A user as the app sees it: an account without its password. */
  datatype User = User(id: string, name: string, email: string, role: Role)

  /** An entry of the account table (`User & { password: string }`). */
  datatype Account = Account(id: string, name: string, email: string, password: string, role: Role)

  /** The outcome of `login` or `register`: a value, or the message of the error they throw. */
  datatype Outcome<T> = Success(value: T) | Failure(message: string)

  const AdminAccount := Account("admin-123", "ABC Team", "admin@abc.org", "password123", Admin)

  /**
   * The properties every plain object literal inherits from `Object.prototype`: `MOCK_USERS[email]`
   * is truthy for these names although no account is stored under them.
   */
  const InheritedNames: set<string> := {
    "constructor", "hasOwnProperty", "isPrototypeOf", "propertyIsEnumerable", "toLocaleString",
    "toString", "valueOf", "__proto__", "__defineGetter__", "__defineSetter__", "__lookupGetter__",
    "__lookupSetter__"
  }

  const InvalidCredentials := "Invalid email or password"
  const EmailInUse := "Email already in use"

  /** `const { password: _, ...userWithoutPassword } = account`. */
  function WithoutPassword(a: Account): (u: User)
    ensures u.id == a.id && u.name == a.name && u.email == a.email && u.role == a.role
  {
    User(a.id, a.name, a.email, a.role)
  }

  /** `MOCK_USERS` as the module starts: the admin account under its email. */
  function InitialAccounts(): (t: map<string, Account>)
    ensures t.Keys == {"admin@abc.org"}
    ensures t["admin@abc.org"] == AdminAccount
  {
    map[AdminAccount.email := AdminAccount]
  }

  /** What `login(email, password)` yields against the table: the account's user, or the error. */
  function LoginResult(accounts: map<string, Account>, email: string, password: string): (r: Outcome<User>)
    ensures r.Failure? <==> email !in accounts || accounts[email].password != password
    ensures r.Failure? ==> r.message == InvalidCredentials
    ensures r.Success? ==> r.value == WithoutPassword(accounts[email])
  {
    if email !in accounts || accounts[email].password != password then Failure(InvalidCredentials)
    else Success(WithoutPassword(accounts[email]))
  }

  /** The table after `register(name, email, password)` with the account id `freshId`, or the error. */
  function RegisterResult(accounts: map<string, Account>, name: string, email: string, password: string, freshId: string)
    : (r: Outcome<map<string, Account>>)
    ensures r.Failure? <==> email in accounts || email in InheritedNames
    ensures r.Failure? ==> r.message == EmailInUse
    ensures r.Success? ==> r.value.Keys == accounts.Keys + {email}
    ensures r.Success? ==> r.value[email] == Account(freshId, name, email, password, Member)
    ensures r.Success? ==> forall e :: e in accounts ==> r.value[e] == accounts[e]
  {
    if email in accounts || email in InheritedNames then Failure(EmailInUse)
    else Success(accounts[email := Account(freshId, name, email, password, Member)])
  }

  /** Out of the box only the admin can sign in, with its password, and is shown as an admin. */
  lemma AdminSignsIn()
    ensures LoginResult(InitialAccounts(), "admin@abc.org", "password123")
            == Success(User("admin-123", "ABC Team", "admin@abc.org", Admin))
    ensures forall e, p :: LoginResult(InitialAccounts(), e, p).Success? ==> e == "admin@abc.org" && p == "password123"
  {
  }

  /** After a successful registration, signing in with the same email and password gives the new member. */
  lemma RegisterThenLogin(accounts: map<string, Account>, name: string, email: string, password: string, freshId: string)
    requires email !in accounts && email !in InheritedNames
    ensures RegisterResult(accounts, name, email, password, freshId).Success?
    ensures LoginResult(RegisterResult(accounts, name, email, password, freshId).value, email, password)
            == Success(User(freshId, name, email, Member))
  {
  }

  /** A registration changes no one else's sign-in, and the same email cannot be registered again. */
  lemma RegisterLeavesOthers(accounts: map<string, Account>, name: string, email: string, password: string, freshId: string)
    requires email !in accounts && email !in InheritedNames
    ensures var after := RegisterResult(accounts, name, email, password, freshId).value;
            && (forall e, p :: e != email ==> LoginResult(after, e, p) == LoginResult(accounts, e, p))
            && (forall n, p, id :: RegisterResult(after, n, email, p, id) == Failure(EmailInUse))
  {
  }

  /**
   * An inherited name such as "toString" can never be registered, so it is never a key of a table
   * that grows only by registration, and signing in with it fails whatever the password.
   */
  lemma InheritedNamesNeverStored(accounts: map<string, Account>, name: string, email: string, password: string, freshId: string, e: string)
    requires forall k :: k in accounts ==> k !in InheritedNames
    requires e in InheritedNames
    ensures RegisterResult(accounts, name, e, password, freshId) == Failure(EmailInUse)
    ensures RegisterResult(accounts, name, email, password, freshId).Success? ==>
              forall k :: k in RegisterResult(accounts, name, email, password, freshId).value ==> k !in InheritedNames
    ensures forall p :: LoginResult(accounts, e, p) == Failure(InvalidCredentials)
  {
  }

  class AuthProvider {
    /** `MOCK_USERS`, which `register` extends in place. */
    var accounts: map<string, Account>
    var user: Option<User>
    var isLoading: bool

    constructor ()
      ensures accounts == InitialAccounts() && user == None && isLoading
    {
      accounts := InitialAccounts();
      user := None;
      isLoading := true;
    }

    /** The mount effect: take the user kept by the browser, if any, and stop loading. */
    method Restore(stored: Option<User>)
      modifies this`user, this`isLoading
      ensures stored.Some? ==> user == stored
      ensures stored.None? ==> user == old(user)
      ensures !isLoading
    {
      if stored.Some? {
        user := stored;
      }
      isLoading := false;
    }

    /**
     * `login`: the table is not touched; success signs the account's user in, failure leaves the
     * current user as it was; loading ends either way.
     */
    method Login(email: string, password: string) returns (result: Outcome<User>)
      modifies this`user, this`isLoading
      ensures result == LoginResult(accounts, email, password)
      ensures result.Success? ==> user == Some(result.value)
      ensures result.Failure? ==> user == old(user)
      ensures !isLoading
    {
      isLoading := true;
      result := LoginResult(accounts, email, password);
      if result.Success? {
        user := Some(result.value);
      }
      isLoading := false;
    }

    /**
     * `register` with the account id `freshId` (`user-${Date.now()}`): a taken email fails and
     * changes nothing else; otherwise the member account is added and signed in, without its password.
     */
    method Register(name: string, email: string, password: string, freshId: string) returns (result: Outcome<User>)
      modifies this`accounts, this`user, this`isLoading
      ensures RegisterResult(old(accounts), name, email, password, freshId).Failure? ==>
                result == Failure(EmailInUse) && accounts == old(accounts) && user == old(user)
      ensures RegisterResult(old(accounts), name, email, password, freshId).Success? ==>
                && accounts == RegisterResult(old(accounts), name, email, password, freshId).value
                && result == Success(User(freshId, name, email, Member))
                && user == Some(result.value)
      ensures !isLoading
    {
      isLoading := true;
      var registered := RegisterResult(accounts, name, email, password, freshId);
      match registered {
        case Failure(m) =>
          result := Failure(m);
        case Success(table) =>
          accounts := table;
          result := Success(WithoutPassword(table[email]));
          user := Some(result.value);
      }
      isLoading := false;
    }

    /** `logout`. */
    method Logout()
      modifies this`user
      ensures user == None
    {
      user := None;
    }
  }
}
