/**
 * Registration data and the login check (app.py:55-75). Password hashing
 * is a foreign call; the model takes it as a pair of functions of which it
 * assumes only that a hash verifies against the password it was made from.
 */
module Auth {
  import opened Wrappers
  import opened Records

  /** A password hashing scheme: `hash` makes the stored value, `check(stored, given)` verifies one. */
  datatype PasswordScheme = PasswordScheme(hash: string -> string, check: (string, string) -> bool)

  /** The one property the model relies on: the hash of a password verifies against it. */
  ghost predicate Sound(scheme: PasswordScheme) {
    forall p :: scheme.check(scheme.hash(p), p)
  }

  /** `k` is the position of the first user called `username`. */
  predicate FirstNamed(users: seq<User>, username: string, k: int) {
    && 0 <= k < |users|
    && users[k].username == username
    && forall j :: 0 <= j < k ==> users[j].username != username
  }

  /** The first user with the given name, as `filter_by(username=...).first()` finds it (app.py:70). */
  function FindUser(users: seq<User>, username: string): (k: Option<nat>)
    ensures k.Some? ==> FirstNamed(users, username, k.value)
    ensures k.None? ==> forall j :: 0 <= j < |users| ==> users[j].username != username
  {
    if |users| == 0 then None
    else if users[0].username == username then Some(0)
    else match FindUser(users[1..], username)
      case None => None
      case Some(k) => Some(k + 1)
  }

  /** The first user with a name is unique, so the search finds exactly that one. */
  lemma FindUserIs(users: seq<User>, username: string, k: nat)
    requires FirstNamed(users, username, k)
    ensures FindUser(users, username) == Some(k)
  {
  }

  const BadCredentials: string := "Credenciales incorrectas"

  /** The outcome of a login attempt: a session for a user, or the login form with a message. */
  datatype LoginOutcome = LoggedIn(userId: int) | Rejected(flash: string)

  /**
   * The POST branch of login (app.py:69-74): only the first user with the
   * given name is considered, and the attempt succeeds when that user's
   * stored hash verifies against the given password.
   */
  function Login(users: seq<User>, username: string, password: string, scheme: PasswordScheme): (r: LoginOutcome)
    ensures r.LoggedIn? <==>
      exists k :: FirstNamed(users, username, k) && scheme.check(users[k].password, password)
    ensures r.LoggedIn? ==> exists k :: FirstNamed(users, username, k) && users[k].id == r.userId
    ensures r.Rejected? ==> r.flash == BadCredentials
  {
    match FindUser(users, username)
    case Some(k) =>
      if scheme.check(users[k].password, password) then LoggedIn(users[k].id) else Rejected(BadCredentials)
    case None => Rejected(BadCredentials)
  }

  /**
   * With a sound scheme, a user registered under a free name can log in
   * at once with the same password, as that user.
   */
  lemma RegisterThenLogin(users: seq<User>, username: string, password: string, scheme: PasswordScheme)
    requires Sound(scheme)
    requires FindUser(users, username).None?
    ensures Login(users + [User(|users| + 1, username, scheme.hash(password))], username, password, scheme)
            == LoggedIn(|users| + 1)
  {
    var after := users + [User(|users| + 1, username, scheme.hash(password))];
    assert FirstNamed(after, username, |users|);
    FindUserIs(after, username, |users|);
  }

  /** A name nobody registered never logs in, whatever the password. */
  lemma LoginUnknownUser(users: seq<User>, username: string, password: string, scheme: PasswordScheme)
    requires forall j :: 0 <= j < |users| ==> users[j].username != username
    ensures Login(users, username, password, scheme) == Rejected(BadCredentials)
  {
  }
}
