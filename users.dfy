/** Registration, login, session status and logout. */
module Users {
  import opened Common
  import opened Database
  import opened Middleware

  const ReservedNameError: string := "The username 'admin' is reserved."
  const DuplicateNameError: string := "Username already exists."
  const InvalidCredentialsError: string := "Invalid username or password."
  const LogoutError: string := "Could not log out, please try again."

  /** `Username.toLowerCase() === 'admin'`. Lower-casing ASCII letters only
      decides this exactly: no other character lower-cases to a lone
      `a`, `d`, `m`, `i` or `n`. */
  predicate IsAdminName(name: string): (admin: bool)
    ensures admin <==> |name| == 5 && forall i :: 0 <= i < 5 ==> LowerChar(name[i]) == "admin"[i]
  {
    ToLower(name) == "admin"
  }

  predicate NameTaken(users: seq<User>, name: string)
  {
    exists u :: u in users && u.username == name
  }

  /** `Unanswered`: the handler threw before its `try` (a body without a
      `Username` string), so the route sends no response of its own. */
  datatype RegisterResponse =
    | Registered(id: int, username: string)
    | RegisterFailed(failure: Failure)
    | Unanswered

  /** `POST /register`: refuses the reserved name, then inserts the user
      with the bcrypt hash of its password (`hashOf` stands for
      `bcrypt.hash`); `Username` is `VARCHAR(255) UNIQUE`. A missing
      `Username` is `None`: `Username.toLowerCase()` throws outside the
      `try`. A missing `Password` makes `bcrypt.hash` throw inside it. */
  method Register(db: Store, username: Option<string>, password: Option<string>,
                  hashOf: string -> string, storageFails: bool)
    returns (r: RegisterResponse)
    requires db.Valid()
    modifies db
    ensures db.Valid()
    ensures username.None? ==> r == Unanswered
    ensures username.Some? && IsAdminName(username.value) ==> r == RegisterFailed(HttpError(403, ReservedNameError))
    ensures username.Some? && !IsAdminName(username.value)
            && (password.None? || storageFails || !FitsVarchar(username.value, 255)) ==>
              r == RegisterFailed(InternalError)
    ensures username.Some? && !IsAdminName(username.value) && password.Some? && !storageFails
            && FitsVarchar(username.value, 255) && NameTaken(old(db.users), username.value) ==>
              r == RegisterFailed(HttpError(409, DuplicateNameError))
    ensures r.Registered? <==>
              && username.Some? && !IsAdminName(username.value) && password.Some? && !storageFails
              && FitsVarchar(username.value, 255) && !NameTaken(old(db.users), username.value)
    ensures r.Registered? ==>
              && r == Registered(old(db.nextUserId), username.value)
              && db.users == old(db.users) + [User(r.id, username.value, hashOf(password.value))]
              && db.nextUserId == old(db.nextUserId) + 1
    ensures r.Registered? ==> db.Snapshot() == old(db.Snapshot()).(users := db.users, nextUserId := db.nextUserId)
    ensures !r.Registered? ==> db.Snapshot() == old(db.Snapshot())
  {
    if username.None? {
      return Unanswered;
    }
    var name := username.value;
    if IsAdminName(name) {
      return RegisterFailed(HttpError(403, ReservedNameError));
    }
    if password.None? || storageFails || !FitsVarchar(name, 255) {
      return RegisterFailed(InternalError);
    }
    if NameTaken(db.users, name) {
      return RegisterFailed(HttpError(409, DuplicateNameError));
    }
    var user := User(db.nextUserId, name, hashOf(password.value));
    NewUserKeepsKeys(db.users, user);
    db.users := db.users + [user];
    db.nextUserId := db.nextUserId + 1;
    r := Registered(user.id, name);
    assert forall u :: u in db.users ==> u in old(db.users) || u == user;
    assert forall d :: d in db.donations ==> ForeignKeysHold(d, old(db.users), db.campaigns);
  }

  /** Appending a user with a fresh id and a free name keeps both keys
      unique, and every user that existed before still exists. */
  lemma NewUserKeepsKeys(users: seq<User>, u: User)
    requires UserIdsUnique(users) && UsernamesUnique(users)
    requires forall v :: v in users ==> v.id < u.id
    requires !NameTaken(users, u.username)
    ensures UserIdsUnique(users + [u]) && UsernamesUnique(users + [u])
    ensures forall id :: UserExists(users, id) ==> UserExists(users + [u], id)
  {
    var s := users + [u];
    forall i, j | 0 <= i < j < |s|
      ensures s[i].id != s[j].id && s[i].username != s[j].username
    {
      if j == |users| {
        assert s[i] in users;
      }
    }
  }

  /** The session user a login stores: `isAdmin` is derived from the name. */
  function SessionUserOf(u: User): (s: SessionUser)
    ensures s.id == u.id && s.username == u.username
    ensures s.isAdmin <==> IsAdminName(u.username)
  {
    SessionUser(u.id, u.username, IsAdminName(u.username))
  }

  datatype LoginResponse = LoggedIn(user: SessionUser) | LoginFailed(failure: Failure)

  /** `POST /login`: looks the user up by name and compares the password
      with the stored hash (`passwordMatches` stands for `bcrypt.compare`,
      which throws when `Password` is missing). */
  method Login(db: Store, session: Session, username: string, password: Option<string>,
               passwordMatches: (string, string) -> bool, storageFails: bool)
    returns (r: LoginResponse)
    modifies session
    ensures storageFails ==> r == LoginFailed(InternalError)
    ensures !storageFails && FindUserByName(db.users, username).None? ==>
              r == LoginFailed(HttpError(401, InvalidCredentialsError))
    ensures !storageFails && FindUserByName(db.users, username).Some? && password.None? ==>
              r == LoginFailed(InternalError)
    ensures !storageFails && FindUserByName(db.users, username).Some? && password.Some? &&
            !passwordMatches(password.value, FindUserByName(db.users, username).value.passwordHash) ==>
              r == LoginFailed(HttpError(401, InvalidCredentialsError))
    ensures r.LoggedIn? <==>
              && !storageFails
              && FindUserByName(db.users, username).Some?
              && password.Some?
              && passwordMatches(password.value, FindUserByName(db.users, username).value.passwordHash)
    ensures r.LoggedIn? ==>
              r.user == SessionUserOf(FindUserByName(db.users, username).value) && session.user == Some(r.user)
    ensures !r.LoggedIn? ==> session.user == old(session.user)
  {
    if storageFails {
      return LoginFailed(InternalError);
    }
    var found := FindUserByName(db.users, username);
    if found.None? {
      return LoginFailed(HttpError(401, InvalidCredentialsError));
    }
    var user := found.value;
    if password.None? {
      return LoginFailed(InternalError);
    }
    if passwordMatches(password.value, user.passwordHash) {
      session.user := Some(SessionUserOf(user));
      r := LoggedIn(session.user.value);
    } else {
      r := LoginFailed(HttpError(401, InvalidCredentialsError));
    }
  }

  /** With unique names, the user a login finds is the only one of that name. */
  lemma LoginFindsTheNamedUser(users: seq<User>, name: string, u: User)
    requires UsernamesUnique(users)
    requires u in users && u.username == name
    ensures FindUserByName(users, name) == Some(u)
  {
    var found := FindUserByName(users, name).value;
    var i :| 0 <= i < |users| && users[i] == u;
    var j :| 0 <= j < |users| && users[j] == found;
    assert i == j;
  }

  /** A name that registration accepts never yields an administrator session. */
  lemma RegisteredNameIsNotAdmin(id: int, name: string, hash: string)
    requires !IsAdminName(name)
    ensures !SessionUserOf(User(id, name, hash)).isAdmin
  {
  }

  datatype StatusResponse = StatusLoggedIn(user: SessionUser) | StatusLoggedOut

  /** `GET /status`. */
  function Status(session: Session): (r: StatusResponse)
    reads session
    ensures r.StatusLoggedIn? <==> session.user.Some?
    ensures r.StatusLoggedIn? ==> r.user == session.user.value
  {
    match session.user
    case Some(u) => StatusLoggedIn(u)
    case None => StatusLoggedOut
  }

  datatype LogoutResponse = LoggedOut | LogoutFailed(failure: Failure)

  /** `POST /logout`: destroys the session (`destroyFails` is the store's error). */
  method Logout(session: Session, destroyFails: bool) returns (r: LogoutResponse)
    modifies session
    ensures destroyFails ==> r == LogoutFailed(HttpError(500, LogoutError)) && session.user == old(session.user)
    ensures !destroyFails ==> r == LoggedOut && session.user == None
  {
    if destroyFails {
      return LogoutFailed(HttpError(500, LogoutError));
    }
    session.user := None;
    r := LoggedOut;
  }
}
