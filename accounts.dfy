/** Sign-up, log-in and the `/me` view. The user collection is a sequence
    in natural order (a `findOne` returns its first match); password hashing
    and the token signature are functions given by the caller, and the
    `JWT_SECRET` environment variable is a parameter. */
module Accounts {
  import opened Wrappers
  import opened Schema

  // ---------------------------------------------------------- directory

  predicate IdsUnique(users: seq<User>) {
    forall i, j :: 0 <= i < j < |users| ==> users[i].id != users[j].id
  }

  /** The unique index on `username`. */
  predicate UsernamesUnique(users: seq<User>) {
    forall i, j :: 0 <= i < j < |users| ==> users[i].username != users[j].username
  }

  predicate AtMostOneAdmin(users: seq<User>) {
    forall i, j :: 0 <= i < |users| && 0 <= j < |users| && users[i].role == Admin && users[j].role == Admin ==> i == j
  }

  /** `User.findOne({ username })`. */
  function FindByUsername(users: seq<User>, username: string): (r: Option<User>)
    ensures r.Some? ==> r.value in users && r.value.username == username
    ensures r.None? <==> forall u :: u in users ==> u.username != username
  {
    if users == [] then None
    else if users[0].username == username then Some(users[0])
    else FindByUsername(users[1..], username)
  }

  /** `User.findOne({ role: 'admin' })`. */
  function FindAdmin(users: seq<User>): (r: Option<User>)
    ensures r.Some? ==> r.value in users && r.value.role == Admin
    ensures r.None? <==> forall u :: u in users ==> u.role != Admin
  {
    if users == [] then None
    else if users[0].role == Admin then Some(users[0])
    else FindAdmin(users[1..])
  }

  // ------------------------------------------------------------ signing

  /** The error `jwt.sign` throws when the secret is empty or unset. */
  const NoSecret := "secretOrPrivateKey must have a value"

  /** `signToken(user)`: this file reads `JWT_SECRET` with no fallback (an
      unset variable is the empty string here), and signing with no secret
      throws; `sign` stands for the signature itself. */
  function SignToken(u: User, secret: string, sign: (User, string) -> string): (r: Result<string, string>)
    ensures r.Err? <==> secret == ""
    ensures r.Err? ==> r.error == NoSecret
    ensures r.Ok? ==> r.value == sign(u, secret)
  {
    if secret == "" then Err(NoSecret) else Ok(sign(u, secret))
  }

  // ------------------------------------------------------------- signup

  /** The request body; a missing field is the empty string (both are
      falsy). */
  datatype SignupForm = SignupForm(username: string, password: string, role: string)

  datatype SignupResponse =
    | SignupRejected(error: string)
    | SignupPending(user: User)
    | SignupApproved(user: User, token: string)
      /** 500: the user was created, then signing its token threw. */
    | SignupFailed(user: User, error: string)

  /** The request passes every check of the sign-up route. */
  predicate SignupChecksPass(users: seq<User>, form: SignupForm) {
    && form.username != [] && form.password != []
    && ParseRole(form.role).Some?
    && FindByUsername(users, form.username).None?
    && !(form.role == "admin" && FindAdmin(users).Some?)
  }

  /** `POST /signup`: the checks in order, then the new user, approved
      exactly when it is the admin, with a token only when approved; the
      token is signed after the user is created. */
  function Signup(users: seq<User>, form: SignupForm, newId: UserId, now: int,
                  hash: string -> string, secret: string, sign: (User, string) -> string): (r: SignupResponse)
    ensures form.username == [] || form.password == [] || form.role == [] ==>
      r == SignupRejected("username, password, role are required")
    ensures form.username != [] && form.password != [] && form.role != [] && ParseRole(form.role).None? ==>
      r == SignupRejected("Invalid role")
    ensures form.username != [] && form.password != [] && ParseRole(form.role).Some?
            && FindByUsername(users, form.username).Some? ==>
      r == SignupRejected("Username already exists")
    ensures form.username != [] && form.password != [] && FindByUsername(users, form.username).None?
            && form.role == "admin" && FindAdmin(users).Some? ==>
      r == SignupRejected("Admin already exists")
    ensures r.SignupRejected? <==> !SignupChecksPass(users, form)
    ensures !r.SignupRejected? ==>
      && r.user.id == newId && r.user.username == form.username && r.user.passwordHash == hash(form.password)
      && Some(r.user.role) == ParseRole(form.role) && r.user.createdAt == now
      && r.user.telegramConfig == TelegramConfig("", "", "")
      && r.user.approvalStatus == (if form.role == "admin" then Approved else Pending)
    ensures r.SignupPending? <==> !r.SignupRejected? && form.role != "admin"
    ensures r.SignupApproved? <==> !r.SignupRejected? && form.role == "admin" && secret != ""
    ensures r.SignupApproved? ==> r.token == sign(r.user, secret)
    ensures r.SignupFailed? ==> r.error == NoSecret
  {
    if form.username == [] || form.password == [] || form.role == [] then
      SignupRejected("username, password, role are required")
    else if ParseRole(form.role).None? then SignupRejected("Invalid role")
    else if FindByUsername(users, form.username).Some? then SignupRejected("Username already exists")
    else if form.role == "admin" && FindAdmin(users).Some? then SignupRejected("Admin already exists")
    else
      var role := ParseRole(form.role).value;
      var user := NewUser(newId, form.username, hash(form.password), role, now);
      if role == Admin then
        var approved := user.(approvalStatus := Approved);
        match SignToken(approved, secret, sign)
        case Ok(token) => SignupApproved(approved, token)
        case Err(e) => SignupFailed(approved, e)
      else SignupPending(user)
  }

  /** The collection after a sign-up: every answer but a rejection comes
      after `User.create`. */
  function AfterSignup(users: seq<User>, r: SignupResponse): seq<User> {
    if r.SignupRejected? then users else users + [r.user]
  }

  /** Sign-up keeps at most one admin and usernames unique, and with a
      fresh id keeps ids unique. */
  lemma SignupKeepsInvariants(users: seq<User>, form: SignupForm, newId: UserId, now: int,
                              hash: string -> string, secret: string, sign: (User, string) -> string)
    requires AtMostOneAdmin(users) && UsernamesUnique(users) && IdsUnique(users)
    requires forall u :: u in users ==> u.id != newId
    ensures var after := AfterSignup(users, Signup(users, form, newId, now, hash, secret, sign));
      AtMostOneAdmin(after) && UsernamesUnique(after) && IdsUnique(after)
  {
    var r := Signup(users, form, newId, now, hash, secret, sign);
    if !r.SignupRejected? {
      var after := users + [r.user];
      assert after[|users|] == r.user;
      assert forall k :: 0 <= k < |users| ==> after[k] == users[k];
      if r.user.role == Admin {
        assert forall k :: 0 <= k < |users| ==> users[k] in users && users[k].role != Admin;
      }
      assert AtMostOneAdmin(after);
      forall i, j | 0 <= i < j < |after| ensures after[i].username != after[j].username && after[i].id != after[j].id {
        if j == |users| {
          assert after[i] in users;
        }
      }
    }
  }

  /** Without a secret the first admin's sign-up answers 500, yet the admin
      is stored: no admin sign-up is accepted afterwards, and the stored
      admin cannot log in either. */
  lemma AdminSignupWithoutSecret(users: seq<User>, form: SignupForm, newId: UserId, now: int,
                                 hash: string -> string, sign: (User, string) -> string,
                                 again: SignupForm, againId: UserId, later: int,
                                 matches: (string, string) -> bool)
    requires SignupChecksPass(users, form) && form.role == "admin"
    requires again.role == "admin"
    ensures var r := Signup(users, form, newId, now, hash, "", sign);
      && r == SignupFailed(r.user, NoSecret)
      && Signup(AfterSignup(users, r), again, againId, later, hash, "", sign).SignupRejected?
      && !Login(AfterSignup(users, r), form.username, form.password, matches, "", sign).LoggedIn?
  {
    var r := Signup(users, form, newId, now, hash, "", sign);
    var after := AfterSignup(users, r);
    assert after[|users|] == r.user && r.user in after;
  }

  // -------------------------------------------------------------- login

  datatype LoginResponse =
    | LoginRejected(status: nat, error: string)
    | NotApproved(approvalStatus: ApprovalStatus)
    | LoggedIn(user: User, token: string)

  /** `POST /login`: 400 for missing fields, 401 for an unknown user, 403
      for an account not approved (before the password is looked at), 401
      for a wrong password, and 500 when the token cannot be signed. */
  function Login(users: seq<User>, username: string, password: string,
                 matches: (string, string) -> bool, secret: string, sign: (User, string) -> string): (r: LoginResponse)
    ensures username == [] || password == [] ==> r == LoginRejected(400, "username and password are required")
    ensures username != [] && password != [] && FindByUsername(users, username).None? ==>
      r == LoginRejected(401, "Invalid credentials")
    ensures username != [] && password != [] && FindByUsername(users, username).Some? ==>
      var u := FindByUsername(users, username).value;
      && (u.approvalStatus != Approved ==> r == NotApproved(u.approvalStatus))
      && (u.approvalStatus == Approved && !matches(password, u.passwordHash) ==> r == LoginRejected(401, "Invalid credentials"))
      && (u.approvalStatus == Approved && matches(password, u.passwordHash) && secret == "" ==>
            r == LoginRejected(500, NoSecret))
    ensures r.LoggedIn? <==>
      && username != [] && password != []
      && FindByUsername(users, username).Some?
      && FindByUsername(users, username).value.approvalStatus == Approved
      && matches(password, FindByUsername(users, username).value.passwordHash)
      && secret != ""
    ensures r.LoggedIn? ==> r.user == FindByUsername(users, username).value && r.token == sign(r.user, secret)
  {
    if username == [] || password == [] then LoginRejected(400, "username and password are required")
    else
      var found := FindByUsername(users, username);
      if found.None? then LoginRejected(401, "Invalid credentials")
      else if found.value.approvalStatus != Approved then NotApproved(found.value.approvalStatus)
      else if !matches(password, found.value.passwordHash) then LoginRejected(401, "Invalid credentials")
      else
        match SignToken(found.value, secret, sign)
        case Ok(token) => LoggedIn(found.value, token)
        case Err(e) => LoginRejected(500, e)
  }

  lemma {:induction false} FindAppended(users: seq<User>, u: User)
    requires forall v :: v in users ==> v.username != u.username
    ensures FindByUsername(users + [u], u.username) == Some(u)
  {
    if users != [] {
      assert (users + [u])[1..] == users[1..] + [u];
      FindAppended(users[1..], u);
    } else {
      assert users + [u] == [u];
    }
  }

  /** With a hash the comparison accepts and the same secret, whoever signs
      up can log in with the same password exactly when the sign-up was
      approved; a pending sign-up is answered 403. */
  lemma SignupThenLogin(users: seq<User>, form: SignupForm, newId: UserId, now: int,
                        hash: string -> string, matches: (string, string) -> bool,
                        secret: string, sign: (User, string) -> string)
    requires forall p :: matches(p, hash(p))
    ensures var r := Signup(users, form, newId, now, hash, secret, sign);
      var l := Login(AfterSignup(users, r), form.username, form.password, matches, secret, sign);
      && (r.SignupApproved? ==> l == LoggedIn(r.user, sign(r.user, secret)))
      && (r.SignupPending? ==> l == NotApproved(Pending))
  {
    var r := Signup(users, form, newId, now, hash, secret, sign);
    if !r.SignupRejected? {
      FindAppended(users, r.user);
    }
  }

  // ----------------------------------------------------------------- me

  /** `telegramConfigured` on `/me`: all three credentials are set. */
  predicate TelegramConfigured(u: User) {
    u.telegramConfig.apiId != [] && u.telegramConfig.apiHash != [] && u.telegramConfig.botToken != []
  }

  /** An account fresh from sign-up is not configured. */
  lemma SignupNotConfigured(users: seq<User>, form: SignupForm, newId: UserId, now: int,
                            hash: string -> string, secret: string, sign: (User, string) -> string)
    ensures var r := Signup(users, form, newId, now, hash, secret, sign);
      !r.SignupRejected? ==> !TelegramConfigured(r.user)
  {
  }
}
