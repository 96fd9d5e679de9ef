/**
 * Sign-in state (store/authStore.ts). The credential directory is an
 * in-memory dictionary from e-mail to password and user, seeded with one
 * administrator; the store's own state is the signed-in user and two flags.
 * Both live in one class here. The clock reading that becomes a new user's id
 * is a parameter of Register.
 */
module Auth {
  import opened Wrappers
  import opened Types
  import opened JsString

  datatype Account = Account(password: string, user: User)

  const AdminEmail: string := "admin@shop.com"
  const AdminPassword: string := "admin123"
  const AdminUser: User := User("admin-1", AdminEmail, "관리자", None, None, "admin")
  const AdminAccount: Account := Account(AdminPassword, AdminUser)

  /** The directory as the module is loaded: only the administrator. */
  function SeededUsers(): (users: map<string, Account>)
    ensures users.Keys == {AdminEmail}
    ensures users[AdminEmail].user.role == "admin"
  {
    map[AdminEmail := AdminAccount]
  }

  /** The user login signs in: a known e-mail whose stored password is the one given. */
  function Authenticate(users: map<string, Account>, email: string, password: string): (r: Option<User>)
    ensures r.Some? <==> email in users && users[email].password == password
    ensures r.Some? ==> r.value == users[email].user && r.value in (set e | e in users :: users[e].user)
  {
    if email in users && users[email].password == password then Some(users[email].user) else None
  }

  /** The administrator signs in with the seeded credentials and with no other password. */
  lemma AdminCredentials(password: string)
    ensures Authenticate(SeededUsers(), AdminEmail, password) == if password == AdminPassword then Some(AdminUser) else None
  {
  }

  /** The user register creates: role 'user', no phone and no address. */
  function NewUser(email: string, name: string, now: nat): (u: User)
    ensures u.email == email && u.name == name && u.role == "user"
    ensures u.phone.None? && u.address.None?
    ensures u.id == DecimalString(now)
  {
    User(DecimalString(now), email, name, None, None, "user")
  }

  /** The directory after register: None when the e-mail is taken. */
  function Enroll(users: map<string, Account>, email: string, password: string, name: string, now: nat):
    (r: Option<map<string, Account>>)
    ensures r.None? <==> email in users
    ensures r.Some? ==> r.value.Keys == users.Keys + {email}
    ensures r.Some? ==> forall e :: e in users ==> r.value[e] == users[e]
    ensures r.Some? ==> r.value[email] == Account(password, NewUser(email, name, now))
  {
    if email in users then None else Some(users[email := Account(password, NewUser(email, name, now))])
  }

  /** Whoever registers can then sign in with the same e-mail and password. */
  lemma RegisterThenLogin(users: map<string, Account>, email: string, password: string, name: string, now: nat)
    requires email !in users
    ensures Authenticate(Enroll(users, email, password, name, now).value, email, password) == Some(NewUser(email, name, now))
  {
  }

  /** Registering never changes what an existing account signs in as. */
  lemma RegisterKeepsLogins(users: map<string, Account>, email: string, password: string, name: string, now: nat,
                            other: string, otherPassword: string)
    requires Enroll(users, email, password, name, now).Some?
    requires other != email
    ensures Authenticate(Enroll(users, email, password, name, now).value, other, otherPassword)
         == Authenticate(users, other, otherPassword)
  {
  }

  /** A `Partial<User>`: each present field overrides the current one. */
  datatype UserPatch = UserPatch(
    id: Option<string>,
    email: Option<string>,
    name: Option<string>,
    phone: Option<Option<string>>,
    address: Option<Option<Address>>,
    role: Option<string>)

  function MergeUser(u: User, patch: UserPatch): (r: User)
    ensures patch.id.Some? ==> r.id == patch.id.value
    ensures patch.id.None? ==> r.id == u.id
    ensures patch.email.Some? ==> r.email == patch.email.value
    ensures patch.email.None? ==> r.email == u.email
    ensures patch.name.Some? ==> r.name == patch.name.value
    ensures patch.name.None? ==> r.name == u.name
    ensures patch.phone.Some? ==> r.phone == patch.phone.value
    ensures patch.phone.None? ==> r.phone == u.phone
    ensures patch.address.Some? ==> r.address == patch.address.value
    ensures patch.address.None? ==> r.address == u.address
    ensures patch.role.Some? ==> r.role == patch.role.value
    ensures patch.role.None? ==> r.role == u.role
    ensures patch == UserPatch(None, None, None, None, None, None) ==> r == u
  {
    User(patch.id.GetOr(u.id), patch.email.GetOr(u.email), patch.name.GetOr(u.name),
         patch.phone.GetOr(u.phone), patch.address.GetOr(u.address), patch.role.GetOr(u.role))
  }

  /** The two flags agree with the signed-in user. */
  predicate SessionConsistent(user: Option<User>, isAuthenticated: bool, isAdmin: bool) {
    && isAuthenticated == user.Some?
    && isAdmin == (user.Some? && user.value.role == "admin")
  }

  /** The test every admin page makes before it renders: `isAuthenticated && isAdmin`. */
  predicate AdminView(isAuthenticated: bool, isAdmin: bool) {
    isAuthenticated && isAdmin
  }

  /** With consistent flags, the admin pages open exactly for a signed-in user whose role is 'admin'. */
  lemma AdminViewMeansAdminRole(user: Option<User>, isAuthenticated: bool, isAdmin: bool)
    requires SessionConsistent(user, isAuthenticated, isAdmin)
    ensures AdminView(isAuthenticated, isAdmin) <==> user.Some? && user.value.role == "admin"
  {
  }

  class AuthStore {
    var users: map<string, Account>
    var user: Option<User>
    var isAuthenticated: bool
    var isAdmin: bool

    /**
     * The flags follow the user, and the seeded administrator account is
     * never replaced, since register refuses a known e-mail.
     */
    predicate Valid()
      reads this
    {
      && SessionConsistent(user, isAuthenticated, isAdmin)
      && AdminEmail in users && users[AdminEmail] == AdminAccount
    }

    constructor()
      ensures Valid()
      ensures users == SeededUsers() && user.None? && !isAuthenticated && !isAdmin
    {
      users := SeededUsers();
      user := None;
      isAuthenticated := false;
      isAdmin := false;
    }

    method Login(email: string, password: string) returns (ok: bool)
      modifies this
      ensures ok <==> Authenticate(old(users), email, password).Some?
      ensures ok ==> user == Authenticate(old(users), email, password) && isAuthenticated
                     && isAdmin == (user.value.role == "admin")
      ensures !ok ==> user == old(user) && isAuthenticated == old(isAuthenticated) && isAdmin == old(isAdmin)
      ensures users == old(users)
      ensures old(Valid()) ==> Valid()
    {
      if email in users && users[email].password == password {
        var userData := users[email];
        user := Some(userData.user);
        isAuthenticated := true;
        isAdmin := userData.user.role == "admin";
        return true;
      }
      return false;
    }

    method Register(email: string, password: string, name: string, now: nat) returns (ok: bool)
      modifies this
      ensures ok <==> email !in old(users)
      ensures ok ==> Some(users) == Enroll(old(users), email, password, name, now)
                     && user == Some(NewUser(email, name, now)) && isAuthenticated && !isAdmin
      ensures !ok ==> users == old(users) && user == old(user)
                      && isAuthenticated == old(isAuthenticated) && isAdmin == old(isAdmin)
      ensures old(Valid()) ==> Valid()
    {
      if email in users {
        return false;
      }
      var newUser := NewUser(email, name, now);
      users := users[email := Account(password, newUser)];
      user := Some(newUser);
      isAuthenticated := true;
      isAdmin := false;
      return true;
    }

    method Logout()
      modifies this
      ensures user.None? && !isAuthenticated && !isAdmin
      ensures users == old(users)
      ensures old(Valid()) ==> Valid()
    {
      user := None;
      isAuthenticated := false;
      isAdmin := false;
    }

    /** Merges into the signed-in user and recomputes isAdmin; with nobody signed in, nothing happens. */
    method UpdateUser(updatedUser: UserPatch)
      modifies this
      ensures old(user).None? ==> user == old(user) && isAdmin == old(isAdmin)
      ensures old(user).Some? ==> user == Some(MergeUser(old(user).value, updatedUser))
                                  && isAdmin == (user.value.role == "admin")
      ensures isAuthenticated == old(isAuthenticated) && users == old(users)
      ensures old(Valid()) ==> Valid()
    {
      if user.Some? {
        var updated := MergeUser(user.value, updatedUser);
        user := Some(updated);
        isAdmin := updated.role == "admin";
      }
    }
  }
}
