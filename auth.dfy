/** Session guards and the two login handlers. Token signing and checking
    (JWT) and password hashing (bcrypt) are passed in as functions: `sign`
    turns claims into a token, `verify` gives back the claims of a token it
    accepts, `compare` is the bcrypt comparison of a password with a hash. */
module Auth {
  import opened JsValues
  import opened ServerHelpers
  import opened Tables

  /** The payload of a session token: `{id, email, role}`. */
  datatype Claims = Claims(id: int, email: string, role: JsVal)

  /** What a guard decides: let the request through with its user, or
      answer with a status code and an error message. */
  datatype Gate = Pass(user: Claims) | Deny(status: int, error: string)

  const BEARER := "Bearer "

  /** The token of an `Authorization` header: `h.startsWith("Bearer ") ?
      h.slice(7) : null`, where a missing header reads as "". */
  function BearerToken(header: Option<string>): (r: Option<string>)
    ensures r.Some? <==> header.Some? && |header.value| >= |BEARER| && header.value[..|BEARER|] == BEARER
    ensures r.Some? ==> header.value == BEARER + r.value
  {
    var h := if header.Some? then header.value else "";
    if |h| >= |BEARER| && h[..|BEARER|] == BEARER then Some(h[|BEARER|..]) else None
  }

  /** `authRequired`: 401 unless the header carries a non-empty bearer
      token that `verify` accepts; the request's user is that token's claims. */
  function AuthRequired(header: Option<string>, verify: string -> Option<Claims>): (r: Gate)
    ensures r.Deny? ==> r.status == 401
    ensures r.Pass? <==> BearerToken(header).Some? && BearerToken(header).value != ""
                         && verify(BearerToken(header).value).Some?
    ensures r.Pass? ==> verify(BearerToken(header).value) == Some(r.user)
  {
    match BearerToken(header)
    case None => Deny(401, "Token faltante")
    case Some(token) =>
      if token == "" then Deny(401, "Token faltante")
      else
        match verify(token)
        case None => Deny(401, "Token inválido")
        case Some(claims) => Pass(claims)
  }

  /** `requireAdmin`: 401 without a user, 403 unless `(role || "user")` is
      exactly "admin". */
  function RequireAdmin(user: Option<Claims>): (r: Gate)
    ensures r.Pass? <==> user.Some? && user.value.role == Str("admin")
    ensures r.Pass? ==> r.user == user.value
    ensures r.Deny? ==> (r.status == 401 <==> user.None?) && (r.status == 403 <==> user.Some?)
  {
    match user
    case None => Deny(401, "No autenticado")
    case Some(u) =>
      if Or(u.role, Str("user")) != Str("admin") then Deny(403, "Solo admin") else Pass(u)
  }

  /** `requireDriver`: 401 without a user, 403 unless `(role || "")` is
      exactly "driver". */
  function RequireDriver(user: Option<Claims>): (r: Gate)
    ensures r.Pass? <==> user.Some? && user.value.role == Str("driver")
    ensures r.Pass? ==> r.user == user.value
    ensures r.Deny? ==> (r.status == 401 <==> user.None?) && (r.status == 403 <==> user.Some?)
  {
    match user
    case None => Deny(401, "No autenticado")
    case Some(u) =>
      if Or(u.role, Str("")) != Str("driver") then Deny(403, "Solo motoristas") else Pass(u)
  }

  /** `authRequired` followed by a role guard, as the routes chain them. */
  function Guarded(header: Option<string>, verify: string -> Option<Claims>, admin: bool): Gate
  {
    match AuthRequired(header, verify)
    case Deny(s, e) => Deny(s, e)
    case Pass(u) => if admin then RequireAdmin(Some(u)) else RequireDriver(Some(u))
  }

  /** A protected route lets a request through exactly when its bearer token
      verifies and its role is exactly the route's role; a bad or missing
      token is 401 and a wrong role 403. */
  lemma GuardedSpec(header: Option<string>, verify: string -> Option<Claims>, admin: bool)
    ensures var g := Guarded(header, verify, admin);
            var auth := AuthRequired(header, verify);
            && (g.Pass? <==> auth.Pass? && auth.user.role == Str(if admin then "admin" else "driver"))
            && (g.Deny? && g.status == 401 <==> auth.Deny?)
            && (g.Deny? && g.status == 403 <==> auth.Pass? && auth.user.role != Str(if admin then "admin" else "driver"))
  {
  }

  // ---------------------------------------------------------------------
  // POST /api/login (administrator)

  /** The administrator identity from the environment; None is an unset variable. */
  datatype AdminEnv = AdminEnv(adminEmail: Option<string>, adminPass: Option<string>)

  datatype AdminLoginResponse =
    | AdminSession(token: string, user: Claims)
    | AdminRejected(status: int, error: string)
    /** `(password || "").trim()` threw because the password is not a string. */
    | AdminTypeError

  /** `process.env.X || ""` */
  function EnvText(v: Option<string>): string
  {
    if v.Some? then v.value else ""
  }

  /** The admin login: a session with id 1 and role "admin" exactly when the
      normalised email equals the normalised ADMIN_EMAIL and the trimmed
      password equals the trimmed ADMIN_PASS; otherwise 401 BAD_CREDENTIALS. */
  function AdminLogin(email: JsVal, password: JsVal, env: AdminEnv, sign: Claims -> string): (r: AdminLoginResponse)
    ensures r.AdminTypeError? <==> Truthy(password) && !password.Str?
    ensures r.AdminSession? <==>
              && TrimmedOrEmpty(password).Some?
              && SafeEmail(email) == ToLower(Trim(EnvText(env.adminEmail)))
              && TrimmedOrEmpty(password).value == Trim(EnvText(env.adminPass))
    ensures r.AdminSession? ==> r.user == Claims(1, SafeEmail(email), Str("admin")) && r.token == sign(r.user)
    ensures r.AdminRejected? ==> r == AdminRejected(401, "BAD_CREDENTIALS")
  {
    var e := SafeEmail(email);
    match TrimmedOrEmpty(password)
    case None => AdminTypeError
    case Some(thePassword) =>
      var adminEmail := SafeEmail(Str(EnvText(env.adminEmail)));
      var adminPass := Trim(EnvText(env.adminPass));
      if e == adminEmail && thePassword == adminPass then
        var user := Claims(1, e, Str("admin"));
        AdminSession(sign(user), user)
      else AdminRejected(401, "BAD_CREDENTIALS")
  }

  /** With ADMIN_EMAIL and ADMIN_PASS unset, a login that sends neither an
      email nor a password is given an administrator session. */
  lemma AdminLoginUnconfiguredAcceptsEmpty(sign: Claims -> string)
    ensures AdminLogin(Undefined, Undefined, AdminEnv(None, None), sign).AdminSession?
  {
    assert SafeEmail(Undefined) == "";
    assert SafeEmail(Str("")) == "";
    assert Trim("") == "";
  }

  /** The admin login with the evidently intended extra condition that an
      administrator identity is configured at all. */
  function AdminLoginConfigured(email: JsVal, password: JsVal, env: AdminEnv, sign: Claims -> string): (r: AdminLoginResponse)
    ensures r.AdminSession? ==> SafeEmail(email) != "" && TrimmedOrEmpty(password) != Some("")
    ensures r.AdminSession? <==>
              && ToLower(Trim(EnvText(env.adminEmail))) != "" && Trim(EnvText(env.adminPass)) != ""
              && AdminLogin(email, password, env, sign).AdminSession?
  {
    var configured := SafeEmail(Str(EnvText(env.adminEmail))) != "" && Trim(EnvText(env.adminPass)) != "";
    if configured then AdminLogin(email, password, env, sign)
    else if Truthy(password) && !password.Str? then AdminTypeError
    else AdminRejected(401, "BAD_CREDENTIALS")
  }

  /** A token the admin login issues passes the admin guard, given that
      `verify` gives back the claims `sign` was given. */
  lemma AdminSessionPassesAdminGuard(email: JsVal, password: JsVal, env: AdminEnv,
                                     sign: Claims -> string, verify: string -> Option<Claims>)
    requires forall c :: verify(sign(c)) == Some(c) && sign(c) != ""
    requires AdminLogin(email, password, env, sign).AdminSession?
    ensures var r := AdminLogin(email, password, env, sign);
            Guarded(Some(BEARER + r.token), verify, true) == Pass(r.user)
  {
    var r := AdminLogin(email, password, env, sign);
    BearerTokenAccepted(r.token, verify, r.user);
  }

  /** A non-empty token that `verify` accepts, sent as `Bearer <token>`,
      passes `authRequired` with its claims. */
  lemma BearerTokenAccepted(token: string, verify: string -> Option<Claims>, claims: Claims)
    requires token != "" && verify(token) == Some(claims)
    ensures AuthRequired(Some(BEARER + token), verify) == Pass(claims)
  {
    var h := BEARER + token;
    assert h[..|BEARER|] == BEARER && h[|BEARER|..] == token;
  }

  // ---------------------------------------------------------------------
  // POST /api/driver/login

  datatype DriverUser = DriverUser(id: int, email: string, role: string, nombreCompleto: string, dpi: string)

  datatype DriverLoginResponse =
    | DriverSession(token: string, user: DriverUser)
    /** `dbgErr` is the `dbg.err` tag the response body carries ("" when unset). */
    | DriverRejected(status: int, error: string, dbgErr: string)

  /** bcrypt hashes shorter than this are refused before comparing. */
  const MIN_HASH_LENGTH := 50

  /** `String(req.body?.password || "")` */
  function LoginPassword(password: JsVal): string
  {
    if Truthy(password) then ToJsString(password) else ""
  }

  /** A non-empty string password is read as it is. */
  lemma LoginPasswordOfString(p: string)
    requires p != ""
    ensures LoginPassword(Str(p)) == p
  {
  }

  /** The driver login ladder: 400 when the email or the password is
      missing, 500 when the lookup fails, 401 BAD_CREDENTIALS for an unknown
      email, 500 for a stored hash under 50 characters, 401 BAD_CREDENTIALS
      when the comparison fails, and only then a session with role "driver". */
  function DriverLogin(ds: seq<DriverRow>, email: JsVal, password: JsVal, readFault: bool,
                       compare: (string, string) -> bool, sign: Claims -> string): (r: DriverLoginResponse)
    ensures var e := SafeEmail(email);
            var pw := LoginPassword(password);
            var m := FindDriverByEmail(ds, e);
            && (r.DriverRejected? && r.status == 400 <==> e == "" || pw == "")
            && (r.DriverRejected? && r.error == "LOGIN_FAILED" <==> e != "" && pw != "" && readFault)
            && (r.DriverRejected? && r.error == "BAD_CREDENTIALS" <==>
                  e != "" && pw != "" && !readFault
                  && (m.None? || (|m.value.passwordHash| >= MIN_HASH_LENGTH && !compare(pw, m.value.passwordHash))))
            && (r.DriverRejected? && r.error == "PASSWORD_HASH_INVALID" <==>
                  e != "" && pw != "" && !readFault && m.Some? && |m.value.passwordHash| < MIN_HASH_LENGTH)
            && (r.DriverSession? <==>
                  e != "" && pw != "" && !readFault
                  && m.Some? && |m.value.passwordHash| >= MIN_HASH_LENGTH && compare(pw, m.value.passwordHash))
            && (r.DriverSession? ==>
                  && r.user == DriverUser(m.value.id, m.value.email, "driver", m.value.nombreCompleto, m.value.dpi)
                  && r.token == sign(Claims(m.value.id, m.value.email, Str("driver"))))
    ensures r.DriverRejected? && r.error == "BAD_CREDENTIALS" ==> r.status == 401
    ensures r.DriverRejected? && (r.error == "LOGIN_FAILED" || r.error == "PASSWORD_HASH_INVALID") ==> r.status == 500
  {
    var e := SafeEmail(email);
    var pw := LoginPassword(password);
    if e == "" || pw == "" then DriverRejected(400, "EMAIL_OR_PASSWORD_MISSING", "MISSING_FIELDS")
    else if readFault then DriverRejected(500, "LOGIN_FAILED", "")
    else
      match FindDriverByEmail(ds, e)
      case None => DriverRejected(401, "BAD_CREDENTIALS", "NOT_FOUND")
      case Some(m) =>
        if |m.passwordHash| < MIN_HASH_LENGTH then DriverRejected(500, "PASSWORD_HASH_INVALID", "PASSWORD_HASH_INVALID")
        else if !compare(pw, m.passwordHash) then DriverRejected(401, "BAD_CREDENTIALS", "COMPARE_FALSE")
        else DriverSession(sign(Claims(m.id, m.email, Str("driver"))),
                           DriverUser(m.id, m.email, "driver", m.nombreCompleto, m.dpi))
  }

  /** The `dbg.err` tag of a rejected driver login tells an unknown email
      ("NOT_FOUND") from a registered one whose password is wrong
      ("COMPARE_FALSE"), although status and error are the same. */
  lemma DriverLoginDebugRevealsAccount(ds: seq<DriverRow>, known: string, unknown: string, password: string,
                                       compare: (string, string) -> bool, sign: Claims -> string)
    requires known != "" && IsTrimmed(known) && IsLowerCase(known)
    requires unknown != "" && IsTrimmed(unknown) && IsLowerCase(unknown)
    requires password != ""
    requires FindDriverByEmail(ds, known).Some?
    requires |FindDriverByEmail(ds, known).value.passwordHash| >= MIN_HASH_LENGTH
    requires !compare(password, FindDriverByEmail(ds, known).value.passwordHash)
    requires FindDriverByEmail(ds, unknown).None?
    ensures var k := DriverLogin(ds, Str(known), Str(password), false, compare, sign);
            var u := DriverLogin(ds, Str(unknown), Str(password), false, compare, sign);
            && k == DriverRejected(401, "BAD_CREDENTIALS", "COMPARE_FALSE")
            && u == DriverRejected(401, "BAD_CREDENTIALS", "NOT_FOUND")
  {
    DriverLoginWrongPassword(ds, known, password, compare, sign);
    DriverLoginUnknownEmail(ds, unknown, password, compare, sign);
  }

  lemma DriverLoginWrongPassword(ds: seq<DriverRow>, email: string, password: string,
                                 compare: (string, string) -> bool, sign: Claims -> string)
    requires email != "" && IsTrimmed(email) && IsLowerCase(email)
    requires password != ""
    requires FindDriverByEmail(ds, email).Some?
    requires |FindDriverByEmail(ds, email).value.passwordHash| >= MIN_HASH_LENGTH
    requires !compare(password, FindDriverByEmail(ds, email).value.passwordHash)
    ensures DriverLogin(ds, Str(email), Str(password), false, compare, sign) == DriverRejected(401, "BAD_CREDENTIALS", "COMPARE_FALSE")
  {
    SafeEmailOfNormal(email);
    LoginPasswordOfString(password);
  }

  lemma DriverLoginUnknownEmail(ds: seq<DriverRow>, email: string, password: string,
                                compare: (string, string) -> bool, sign: Claims -> string)
    requires email != "" && IsTrimmed(email) && IsLowerCase(email)
    requires password != ""
    requires FindDriverByEmail(ds, email).None?
    ensures DriverLogin(ds, Str(email), Str(password), false, compare, sign) == DriverRejected(401, "BAD_CREDENTIALS", "NOT_FOUND")
  {
    SafeEmailOfNormal(email);
    LoginPasswordOfString(password);
  }

  /** The driver login with the debugging detail dropped from rejections:
      an unknown email and a wrong password give the very same answer. */
  function DriverLoginWithoutDebug(ds: seq<DriverRow>, email: JsVal, password: JsVal, readFault: bool,
                                   compare: (string, string) -> bool, sign: Claims -> string): (r: DriverLoginResponse)
    ensures var e := SafeEmail(email);
            var pw := LoginPassword(password);
            var m := FindDriverByEmail(ds, e);
            e != "" && pw != "" && !readFault
            && (m.None? || (|m.value.passwordHash| >= MIN_HASH_LENGTH && !compare(pw, m.value.passwordHash)))
            ==> r == DriverRejected(401, "BAD_CREDENTIALS", "")
    ensures r.DriverSession? <==> DriverLogin(ds, email, password, readFault, compare, sign).DriverSession?
  {
    match DriverLogin(ds, email, password, readFault, compare, sign)
    case DriverSession(t, u) => DriverSession(t, u)
    case DriverRejected(s, err, _) => DriverRejected(s, err, "")
  }

  /** A token the driver login issues passes the driver guard with the
      driver's own id, and is refused (403) by the admin guard. */
  lemma DriverSessionPassesDriverGuardOnly(ds: seq<DriverRow>, email: JsVal, password: JsVal,
                                           compare: (string, string) -> bool,
                                           sign: Claims -> string, verify: string -> Option<Claims>)
    requires forall c :: verify(sign(c)) == Some(c) && sign(c) != ""
    requires DriverLogin(ds, email, password, false, compare, sign).DriverSession?
    ensures var r := DriverLogin(ds, email, password, false, compare, sign);
            && Guarded(Some(BEARER + r.token), verify, false).Pass?
            && Guarded(Some(BEARER + r.token), verify, false).user.id == r.user.id
            && Guarded(Some(BEARER + r.token), verify, true) == Deny(403, "Solo admin")
  {
    var r := DriverLogin(ds, email, password, false, compare, sign);
    var claims := Claims(r.user.id, r.user.email, Str("driver"));
    assert r.token == sign(claims);
    BearerTokenAccepted(r.token, verify, claims);
  }
}
