/** The bearer-token guards in front of the API. Token verification is an
    outcome function from (token, secret) to the subject it names, or
    `None` when verification throws. */
module Auth {
  import opened Wrappers
  import opened Text
  import opened Schema

  const DevSecret := "dev-jwt-secret"
  const BearerPrefix := "Bearer "

  /** `getJwtSecret`: the environment value unless absent or empty. */
  function JwtSecret(env: Option<string>): (secret: string)
    ensures env.Some? && env.value != [] ==> secret == env.value
    ensures env.None? || env.value == [] ==> secret == DevSecret
    ensures secret != []
  {
    if env.Some? && env.value != [] then env.value else DevSecret
  }

  /** The token carried by an `Authorization` header: present only for a
      header starting with `Bearer `, and trimmed. */
  function BearerToken(header: Option<string>): (token: Option<string>)
    ensures token.Some? <==> header.Some? && StartsWith(header.value, BearerPrefix)
    ensures token.Some? ==> token.value == Trim(header.value[|BearerPrefix|..])
  {
    if header.Some? && StartsWith(header.value, BearerPrefix) then Some(Trim(header.value[|BearerPrefix|..]))
    else None
  }

  /** A client that sends `Bearer <token>` gets its token back. */
  lemma BearerRoundTrip(token: string)
    requires Trim(token) == token
    ensures BearerToken(Some(BearerPrefix + token)) == Some(token)
  {
    var h := BearerPrefix + token;
    assert h[..|BearerPrefix|] == BearerPrefix;
    assert h[|BearerPrefix|..] == token;
  }

  datatype AuthOutcome = Unauthorized(error: string) | Authenticated(user: User)

  /** `requireAuth`: 401 without a bearer header, when verification fails,
      or when the token's subject is not a known user. */
  function RequireAuth(header: Option<string>, secretEnv: Option<string>,
                       verify: (string, string) -> Option<UserId>, users: map<UserId, User>): (r: AuthOutcome)
    ensures r.Authenticated? <==>
      var token := BearerToken(header);
      token.Some? && verify(token.value, JwtSecret(secretEnv)).Some?
      && verify(token.value, JwtSecret(secretEnv)).value in users
    ensures r.Authenticated? ==> r.user == users[verify(BearerToken(header).value, JwtSecret(secretEnv)).value]
    ensures BearerToken(header).None? ==> r == Unauthorized("Missing Authorization header")
  {
    var token := BearerToken(header);
    if token.None? then Unauthorized("Missing Authorization header")
    else
      var sub := verify(token.value, JwtSecret(secretEnv));
      if sub.None? then Unauthorized("Unauthorized")
      else if sub.value !in users then Unauthorized("Invalid token (user not found)")
      else Authenticated(users[sub.value])
  }

  /** `optionalAuth`: never rejects; the request proceeds with the user
      when one is found and anonymously otherwise. */
  function OptionalAuth(header: Option<string>, secretEnv: Option<string>,
                        verify: (string, string) -> Option<UserId>, users: map<UserId, User>): Option<User>
  {
    var token := BearerToken(header);
    if token.None? then None
    else
      var sub := verify(token.value, JwtSecret(secretEnv));
      if sub.Some? && sub.value in users then Some(users[sub.value]) else None
  }

  /** Both guards accept the same requests as the same user. */
  lemma OptionalAgreesWithRequired(header: Option<string>, secretEnv: Option<string>,
                                   verify: (string, string) -> Option<UserId>, users: map<UserId, User>)
    ensures var opt := OptionalAuth(header, secretEnv, verify, users);
      var req := RequireAuth(header, secretEnv, verify, users);
      (opt.Some? <==> req.Authenticated?) && (opt.Some? ==> opt.value == req.user)
  {
  }

  datatype RoleCheck = NoUser | Forbidden | Allowed

  /** `requireRole(...roles)`: 401 without a user, 403 when the user's role
      is not listed. */
  function RequireRole(user: Option<User>, roles: seq<Role>): (r: RoleCheck)
    ensures r == Allowed <==> user.Some? && user.value.role in roles
    ensures r == NoUser <==> user.None?
  {
    if user.None? then NoUser
    else if user.value.role !in roles then Forbidden
    else Allowed
  }
}
