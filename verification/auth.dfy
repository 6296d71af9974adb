/** The authentication routes: registration, login, token issuance and the
    `/me` check, over one seeded account. Password hashing and token
    signing are library code; they enter as values of `Hasher` and `Jwt`,
    and what the proofs assume of them is stated by `HasherSound`,
    `HasherBinding` and `JwtSound`. */
module Auth {
  import opened Http
  import Text

  /** The seeded account (`MOCK_USER`): the only identity the service knows. */
  const SeededEmail: string := "test@example.com"
  const SeededUsername: string := "testuser"
  const SeededPassword: string := "testpass"

  const AccessTokenExpireMinutes: int := 30
  /** Lifetime of an access token in seconds; time is counted in seconds. */
  const TokenTtl: int := AccessTokenExpireMinutes * 60

  /** A claim value in a token payload: a string, an integer (the expiry
      timestamp) or JSON null. */
  datatype Claim = Str(s: string) | Number(n: int) | Null

  type Claims = map<string, Claim>

  /** Python truthiness of a claim value. */
  predicate Truthy(c: Claim) {
    match c
    case Str(s) => s != []
    case Number(n) => n != 0
    case Null => false
  }

  /** `payload.get(key)`: the claim, or null when absent. */
  function ClaimOf(p: Claims, key: string): Claim {
    if key in p then p[key] else Null
  }

  /** The password hashing context: `hash` is `pwd_context.hash`, `verify`
      is `pwd_context.verify(plain, hashed)`, which answers Some(match) or
      None where the library raises instead (a password it refuses to
      hash, such as one containing NUL). */
  datatype Hasher = Hasher(hash: string -> string, verify: (string, string) -> Option<bool>)

  /** The seeded password verifies against the seeded hash. */
  ghost predicate HasherSound(h: Hasher) {
    h.verify(SeededPassword, SeededHash(h)) == Some(true)
  }

  /** The seeded hash verifies no password but the seeded one. */
  ghost predicate HasherBinding(h: Hasher) {
    forall p :: h.verify(p, SeededHash(h)) == Some(true) ==> p == SeededPassword
  }

  /** Token signing with the process-wide secret: `encode` signs a payload,
      `decode(token, now)` checks signature and expiry at time `now` and
      yields the payload, or None where the library raises `JWTError`. */
  datatype Jwt = Jwt(encode: Claims -> string, decode: (string, int) -> Option<Claims>)

  /** The payloads this service signs: a string `sub`, an optional string
      `username` and an integer `exp`, and no other claim. */
  ghost predicate Signable(c: Claims) {
    && c.Keys <= {"sub", "username", "exp"}
    && "sub" in c && c["sub"].Str?
    && ("username" in c ==> c["username"].Str?)
    && "exp" in c && c["exp"].Number?
  }

  /** A signed payload of the shape this service signs decodes to itself up
      to and including its expiry second and is refused after it. */
  ghost predicate JwtSound(jwt: Jwt) {
    forall c: Claims, now: int {:trigger jwt.decode(jwt.encode(c), now)} ::
      Signable(c) ==>
        jwt.decode(jwt.encode(c), now) == (if now <= c["exp"].n then Some(c) else None)
  }

  /** The seeded account's stored password hash. */
  function SeededHash(h: Hasher): string {
    h.hash(SeededPassword)
  }

  datatype UserCreate = UserCreate(email: string, password: string, username: Option<string>)
  datatype LoginRequest = LoginRequest(username: string, password: string)
  datatype TokenResponse = TokenResponse(token: string, tokenType: string)
  datatype CurrentUser = CurrentUser(username: Claim, email: string)

  /** The payload `create_access_token` signs: the caller's claims with
      `exp` set to `now` plus the token lifetime, replacing any `exp` the
      caller gave. The caller's map is a value and is left as it was. */
  function AccessTokenClaims(data: Claims, now: int): (r: Claims)
    ensures r.Keys == data.Keys + {"exp"}
    ensures r["exp"] == Number(now + TokenTtl)
    ensures forall k :: k in data && k != "exp" ==> r[k] == data[k]
  {
    data["exp" := Number(now + TokenTtl)]
  }

  /** `create_access_token`: the signed token for `data` issued at `now`. */
  function CreateAccessToken(jwt: Jwt, data: Claims, now: int): string {
    jwt.encode(AccessTokenClaims(data, now))
  }

  /** The display name registration uses: the supplied username when it is
      non-empty, else the part of the email before its first `@`. */
  function DisplayName(email: string, username: Option<string>): (r: string)
    ensures username.Some? && username.value != [] ==> r == username.value
    ensures username.None? || username.value == [] ==>
      |r| <= |email| && r == email[..|r|] && '@' !in r && (|r| == |email| || email[|r|] == '@')
  {
    if username.Some? && username.value != [] then username.value
    else Text.BeforeFirst(email, '@')
  }

  /** The claims a registration token carries. */
  function RegisterClaims(user: UserCreate): Claims {
    map["sub" := Str(user.email), "username" := Str(DisplayName(user.email, user.username))]
  }

  /** `POST /register`: refuses the seeded email with 400; for any other
      email issues a token for it without storing anything. */
  function Register(jwt: Jwt, user: UserCreate, now: int): (r: Result<TokenResponse>)
    ensures r.Err? <==> user.email == SeededEmail
    ensures r.Err? ==> r.error.status == BadRequest
    ensures r.Ok? ==> r.value.tokenType == "bearer"
  {
    if user.email == SeededEmail then
      Err(HttpError(BadRequest, "Email already registered"))
    else
      Ok(TokenResponse(CreateAccessToken(jwt, RegisterClaims(user), now), "bearer"))
  }

  /** The claims every successful login signs. */
  function LoginClaims(): Claims {
    map["sub" := Str(SeededEmail), "username" := Str(SeededUsername)]
  }

  /** `POST /login`: the `username` field carries the email. Succeeds only
      for the seeded email with a password that verifies against the seeded
      hash, and then always signs the seeded identity. Any other email is
      401 without the password being looked at; for the seeded email a
      password that does not match is 401 and one the hasher refuses is an
      uncaught error (500). */
  function Login(h: Hasher, jwt: Jwt, form: LoginRequest, now: int): (r: Result<TokenResponse>)
    ensures r.Ok? <==> form.username == SeededEmail && h.verify(form.password, SeededHash(h)) == Some(true)
    ensures form.username != SeededEmail ==> r.Err? && r.error.status == Unauthorized
    ensures form.username == SeededEmail && h.verify(form.password, SeededHash(h)) == Some(false) ==>
      r.Err? && r.error.status == Unauthorized
    ensures form.username == SeededEmail && h.verify(form.password, SeededHash(h)).None? ==>
      r.Err? && r.error.status == InternalServerError
    ensures r.Ok? ==> r.value == TokenResponse(CreateAccessToken(jwt, LoginClaims(), now), "bearer")
  {
    if form.username != SeededEmail then
      Err(HttpError(Unauthorized, "Incorrect email or password"))
    else
      match h.verify(form.password, SeededHash(h))
      case None => Err(HttpError(InternalServerError, UncaughtDetail))
      case Some(false) => Err(HttpError(Unauthorized, "Incorrect email or password"))
      case Some(true) => Ok(TokenResponse(CreateAccessToken(jwt, LoginClaims(), now), "bearer"))
  }

  /** `GET /me`: 401 when the token does not decode at `now` or its `sub`
      is not the seeded email; otherwise that email with the `username`
      claim, or the seeded username when that claim is missing or falsy. */
  function GetCurrentUser(jwt: Jwt, token: string, now: int): (r: Result<CurrentUser>)
    ensures r.Ok? <==> jwt.decode(token, now).Some? && ClaimOf(jwt.decode(token, now).value, "sub") == Str(SeededEmail)
    ensures r.Err? ==> r.error.status == Unauthorized
    ensures r.Ok? ==> r.value.email == SeededEmail && Truthy(r.value.username)
    ensures r.Ok? && Truthy(ClaimOf(jwt.decode(token, now).value, "username")) ==>
      r.value.username == ClaimOf(jwt.decode(token, now).value, "username")
    ensures r.Ok? && !Truthy(ClaimOf(jwt.decode(token, now).value, "username")) ==>
      r.value.username == Str(SeededUsername)
  {
    match jwt.decode(token, now)
    case None => Err(HttpError(Unauthorized, "Invalid token"))
    case Some(payload) =>
      var email := ClaimOf(payload, "sub");
      var username := ClaimOf(payload, "username");
      if email == Null || email != Str(SeededEmail) then
        Err(HttpError(Unauthorized, "Invalid token"))
      else
        Ok(CurrentUser(if Truthy(username) then username else Str(SeededUsername), SeededEmail))
  }

  /** A registration token decodes, until it expires, to exactly the
      submitted email, the derived display name and an expiry 30 minutes
      after issue. */
  lemma RegisterTokenClaims(jwt: Jwt, user: UserCreate, now: int, at: int)
    requires JwtSound(jwt)
    requires Register(jwt, user, now).Ok?
    requires now <= at <= now + TokenTtl
    ensures jwt.decode(Register(jwt, user, now).value.token, at)
      == Some(map["sub" := Str(user.email),
                  "username" := Str(DisplayName(user.email, user.username)),
                  "exp" := Number(now + TokenTtl)])
  {
  }

  /** No token `/register` issues is ever accepted by `/me`, at any time:
      registration refuses exactly the one `sub` that `/me` accepts. */
  lemma RegisterTokenNeverAccepted(jwt: Jwt, user: UserCreate, now: int, at: int)
    requires JwtSound(jwt)
    requires Register(jwt, user, now).Ok?
    ensures GetCurrentUser(jwt, Register(jwt, user, now).value.token, at).Err?
  {
  }

  /** With the seeded credentials login succeeds, and `/me` accepts its
      token for 30 minutes, reporting the seeded identity. */
  lemma LoginThenMe(h: Hasher, jwt: Jwt, now: int, at: int)
    requires HasherSound(h) && JwtSound(jwt)
    requires now <= at <= now + TokenTtl
    ensures Login(h, jwt, LoginRequest(SeededEmail, SeededPassword), now).Ok?
    ensures GetCurrentUser(jwt, Login(h, jwt, LoginRequest(SeededEmail, SeededPassword), now).value.token, at)
      == Ok(CurrentUser(Str(SeededUsername), SeededEmail))
  {
  }

  /** Once 30 minutes have passed, `/me` refuses a login token. */
  lemma LoginTokenExpires(h: Hasher, jwt: Jwt, form: LoginRequest, now: int, at: int)
    requires JwtSound(jwt)
    requires Login(h, jwt, form, now).Ok?
    requires at > now + TokenTtl
    ensures GetCurrentUser(jwt, Login(h, jwt, form, now).value.token, at).Err?
  {
  }

  /** When the seeded hash binds its password, login accepts exactly one pair of
      credentials: the seeded email and the seeded password. */
  lemma LoginExactlySeeded(h: Hasher, jwt: Jwt, form: LoginRequest, now: int)
    requires HasherSound(h) && HasherBinding(h)
    ensures Login(h, jwt, form, now).Ok? <==> form == LoginRequest(SeededEmail, SeededPassword)
  {
  }
}
