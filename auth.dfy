/** The session: a login checked against two built-in accounts, the
    signed-in user kept in the provider and in the browser's storage
    under the key 'user', restored from there when the application starts,
    and removed on logout. */
module Auth {
  import opened Wrappers
  import opened Lists

  /** An account of the built-in list, password included. */
  datatype Account = Account(id: int, email: string, password: string, nombre: string, apellido: string)

  /** The signed-in user: the account without its password. */
  datatype User = User(id: int, email: string, nombre: string, apellido: string)

  /** The result handed back to the login form. */
  datatype LoginResult = LoginOk(user: User) | LoginFailed(message: string)

  const FailedMessage := "Usuario o contraseña incorrectos"

  const Accounts: seq<Account> := [
    Account(1, "admin@example.com", "123456", "Admin", "Usuario"),
    Account(2, "user@example.com", "123456", "Usuario", "Prueba")]

  /** The key under which the session is stored. */
  const UserKey := "user"

  /** `const { password, ...userWithoutPassword } = foundUser`. */
  function WithoutPassword(a: Account): (u: User)
    ensures u.id == a.id && u.email == a.email && u.nombre == a.nombre && u.apellido == a.apellido
  {
    User(a.id, a.email, a.nombre, a.apellido)
  }

  predicate HasCredentials(a: Account, email: string, password: string) {
    a.email == email && a.password == password
  }

  /** The first account with both the e-mail and the password given. */
  function FindAccount(email: string, password: string): (r: Option<Account>)
    ensures r.Some? ==> r.value in Accounts && HasCredentials(r.value, email, password)
    ensures r.None? <==> forall a :: a in Accounts ==> !HasCredentials(a, email, password)
  {
    Find(Accounts, (a: Account) => HasCredentials(a, email, password))
  }

  /** The check `login` makes: success with the matching account minus its
      password, or failure with the fixed message. */
  function Authenticate(email: string, password: string): (r: LoginResult)
    ensures r.LoginOk? <==> exists a :: a in Accounts && HasCredentials(a, email, password)
    ensures r.LoginOk? ==> exists a :: a in Accounts && HasCredentials(a, email, password) && r.user == WithoutPassword(a)
    ensures r.LoginFailed? ==> r.message == FailedMessage
  {
    match FindAccount(email, password)
    case Some(a) => LoginOk(WithoutPassword(a))
    case None => LoginFailed(FailedMessage)
  }

  /** A successful login signs in the first account of the list that has
      both credentials, without its password. */
  lemma LoginPicksFirstMatch(email: string, password: string)
    requires Authenticate(email, password).LoginOk?
    ensures exists i :: 0 <= i < |Accounts| && HasCredentials(Accounts[i], email, password) &&
              Authenticate(email, password).user == WithoutPassword(Accounts[i]) &&
              forall j :: 0 <= j < i ==> !HasCredentials(Accounts[j], email, password)
  {
    FindIsFirst(Accounts, (a: Account) => HasCredentials(a, email, password));
  }

  /** The accounts' e-mails differ, so a successful login identifies one
      account by its e-mail alone. */
  lemma LoginDeterminedByEmail(email: string, p1: string, p2: string)
    requires Authenticate(email, p1).LoginOk? && Authenticate(email, p2).LoginOk?
    ensures Authenticate(email, p1) == Authenticate(email, p2)
  {
  }

  lemma AdminLogin()
    ensures Authenticate("admin@example.com", "123456") == LoginOk(User(1, "admin@example.com", "Admin", "Usuario"))
  {
    assert HasCredentials(Accounts[0], "admin@example.com", "123456");
  }

  lemma WrongPasswordFails()
    ensures Authenticate("admin@example.com", "654321") == LoginFailed(FailedMessage)
  {
  }

  /** The session state. */
  class AuthProvider {
    var user: Option<User>
    var loading: bool
    /** The browser's storage; serialisation to text is not modelled. */
    var storage: map<string, User>

    /** The provider before its start-up effect has run. */
    constructor (stored: map<string, User>)
      ensures user == None && loading && storage == stored
    {
      user, loading, storage := None, true, stored;
    }

    /** The start-up effect: a stored user becomes the session. */
    method Restore()
      modifies this`user, this`loading
      ensures UserKey in storage ==> user == Some(storage[UserKey])
      ensures UserKey !in storage ==> user == old(user)
      ensures !loading
    {
      if UserKey in storage {
        user := Some(storage[UserKey]);
      }
      loading := false;
    }

    /** `login`: on success the user becomes the session and is stored; on
        failure nothing changes. */
    method Login(email: string, password: string) returns (r: LoginResult)
      modifies this`user, this`storage
      ensures r == Authenticate(email, password)
      ensures r.LoginOk? ==> user == Some(r.user) && storage == old(storage)[UserKey := r.user]
      ensures r.LoginFailed? ==> user == old(user) && storage == old(storage)
    {
      r := Authenticate(email, password);
      if r.LoginOk? {
        user := Some(r.user);
        storage := storage[UserKey := r.user];
      }
    }

    /** `logout`: the session ends and only its stored entry is removed. */
    method Logout()
      modifies this`user, this`storage
      ensures user == None
      ensures storage == old(storage) - {UserKey}
    {
      user := None;
      storage := storage - {UserKey};
    }
  }

  /** A successful login survives a reload: a provider started over the
      storage the login left behind restores the same user, and after a
      logout a fresh provider starts signed out. */
  method SessionSurvivesReload(stored: map<string, User>, email: string, password: string)
    returns (signedIn: Option<User>, afterLogout: Option<User>)
    ensures Authenticate(email, password).LoginOk? ==> signedIn == Some(Authenticate(email, password).user)
    ensures afterLogout == None
  {
    var first := new AuthProvider(stored);
    var r := first.Login(email, password);
    var second := new AuthProvider(first.storage);
    second.Restore();
    signedIn := second.user;
    second.Logout();
    var third := new AuthProvider(second.storage);
    third.Restore();
    afterLogout := third.user;
  }
}
