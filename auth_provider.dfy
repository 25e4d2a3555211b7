/**
 * The session stub of the authentication context: a fixed table of demo accounts,
 * one shared password, and a session user mirrored into browser storage under
 * the key "help-user". Browser storage is an abstract key/value store of user
 * records; the simulated one-second network delay is not modelled.
 */
module Auth {
  import opened Wrappers

  datatype Role = UserRole | BusinessRole | AdminRole

  /** The role as the source spells it. */
  function RoleName(r: Role): string {
    match r
    case UserRole => "user"
    case BusinessRole => "business"
    case AdminRole => "admin"
  }

  datatype User = User(
    id: string,
    name: string,
    email: string,
    avatar: string,
    role: Role,
    isElite: Option<bool>,
    businessId: Option<string>)

  const Password: string := "password123"
  const StorageKey: string := "help-user"

  /** The demo account table `mockUsers`, keyed by email. */
  const MockUsers: map<string, User> := map[
    "user@help.com" := User("user_1", "Rahul Sharma", "user@help.com", "/placeholder.svg", UserRole, Some(true), None),
    "priya@help.com" := User("user_2", "Priya Singh", "priya@help.com", "/placeholder.svg", UserRole, Some(false), None),
    "amit@help.com" := User("user_3", "Amit Kumar", "amit@help.com", "/placeholder.svg", UserRole, Some(true), None),
    "business@help.com" := User("business_1", "Sharma Ji", "business@help.com", "/placeholder.svg", BusinessRole, None, Some("dhaba_1")),
    "cafe@help.com" := User("business_2", "Ravi Patel", "cafe@help.com", "/placeholder.svg", BusinessRole, None, Some("cafe_1")),
    "gym@help.com" := User("business_3", "Fitness Corp", "gym@help.com", "/placeholder.svg", BusinessRole, None, Some("gym_1")),
    "admin@help.com" := User("admin_1", "Admin User", "admin@help.com", "/placeholder.svg", AdminRole, None, None),
    "superadmin@help.com" := User("admin_2", "Super Admin", "superadmin@help.com", "/placeholder.svg", AdminRole, None, None)
  ]

  /** Every account is filed under its own email, and only business accounts name a business. */
  lemma MockUsersWellFormed()
    ensures forall e :: e in MockUsers ==> MockUsers[e].email == e
    ensures forall e :: e in MockUsers ==> (MockUsers[e].businessId.Some? <==> MockUsers[e].role == BusinessRole)
  {
  }

  /** The record `login` accepts for these credentials, or None when it answers false. */
  function Authenticate(email: string, password: string, role: Option<Role>): (r: Option<User>)
    ensures r.Some? <==> email in MockUsers && password == Password && (role.None? || role.value == MockUsers[email].role)
    ensures r.Some? ==> r.value == MockUsers[email] && r.value.email == email
    ensures r.Some? && role.Some? ==> r.value.role == role.value
  {
    MockUsersWellFormed();
    if email in MockUsers && password == Password then
      if role.Some? && MockUsers[email].role != role.value then None
      else Some(MockUsers[email])
    else None
  }

  /** Without a requested role, every table account is accepted with the shared password, whatever its role. */
  lemma AnyRoleWithoutRequest(email: string)
    requires email in MockUsers
    ensures Authenticate(email, Password, None) == Some(MockUsers[email])
  {
  }

  /** A wrong password is refused for every email and every requested role. */
  lemma WrongPasswordRefused(email: string, password: string, role: Option<Role>)
    requires password != Password
    ensures Authenticate(email, password, role) == None
  {
  }

  /** The user the mount effect restores from storage. */
  function Restore(storage: map<string, User>): Option<User> {
    if StorageKey in storage then Some(storage[StorageKey]) else None
  }

  /** Storage after a successful login is read back, on the next mount, as that login's user. */
  lemma RestoreAfterLogin(storage: map<string, User>, email: string, password: string, role: Option<Role>)
    requires Authenticate(email, password, role).Some?
    ensures Restore(storage[StorageKey := MockUsers[email]]) == Authenticate(email, password, role)
  {
  }

  /** Storage after logout restores nobody. */
  lemma RestoreAfterLogout(storage: map<string, User>)
    ensures Restore(storage - {StorageKey}) == None
  {
  }

  /** The authentication context's state. */
  class AuthProvider {
    var user: Option<User>
    var isLoading: bool
    var storage: map<string, User>

    /** The provider before its mount effect has run, over whatever the browser has stored. */
    constructor (stored: map<string, User>)
      ensures user == None && isLoading && storage == stored
    {
      user := None;
      isLoading := true;
      storage := stored;
    }

    /** The mount effect: a stored record becomes the session user. */
    method Mount()
      modifies this
      ensures user == (if StorageKey in old(storage) then Restore(old(storage)) else old(user))
      ensures storage == old(storage)
      ensures !isLoading
    {
      if StorageKey in storage {
        user := Some(storage[StorageKey]);
      }
      isLoading := false;
    }

    /** `login(email, password, role?)`. */
    method Login(email: string, password: string, role: Option<Role>) returns (ok: bool)
      modifies this
      ensures ok <==> Authenticate(email, password, role).Some?
      ensures ok ==> user == Some(MockUsers[email]) && storage == old(storage)[StorageKey := MockUsers[email]]
      ensures !ok ==> user == old(user) && storage == old(storage)
      ensures !isLoading
    {
      isLoading := true;
      if email in MockUsers && password == Password {
        var mockUser := MockUsers[email];
        if role.Some? && mockUser.role != role.value {
          isLoading := false;
          return false;
        }
        user := Some(mockUser);
        storage := storage[StorageKey := mockUser];
        isLoading := false;
        return true;
      }
      isLoading := false;
      return false;
    }

    /** `logout()`: the session and its stored copy are gone, whatever the state before. */
    method Logout()
      modifies this
      ensures user == None
      ensures storage == old(storage) - {StorageKey}
      ensures isLoading == old(isLoading)
    {
      user := None;
      storage := storage - {StorageKey};
    }
  }
}
