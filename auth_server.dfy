/** The auth service: `/signup` validates the JSON body in a fixed order and
    inserts `(email, sha256(password))` into the `user` table when the email is
    new; `/login` compares the hash of the basic-auth password with the stored
    one and answers with a token from `createJWT`. The table is a map from
    email to password hash; the hash and the token encoding are abstract. */
module AuthServer {
  import opened PyRuntime

  const MinPasswordLength: nat := 6
  /** `datetime.timedelta(days=1)` in seconds. */
  const TokenLifetime: int := 86400

  const Required: Reply := Reply("email and password are required", 400)
  const InvalidEmailFormat: Reply := Reply("invalid email format", 400)
  const PasswordTooShort: Reply := Reply("password must be at least 6 characters long", 400)
  const UserExists: Reply := Reply("user already exists", 409)
  const UserCreated: Reply := Reply("user created successfully", 201)
  const ServerError: Reply := Reply("internal server error", 500)
  const MissingCredentials: Reply := Reply("missing credentials", 401)
  const InvalidCredentials: Reply := Reply("invalid credentials", 401)

  /** The checks `signup` makes before it touches the database. */
  datatype Check = Rejected(reply: Reply) | Passed(email: Json, password: Json)

  /** Presence, then email format, then password length. `data` is None when
      `request.get_json()` raises (no JSON content type, or a malformed
      body); that, a body that is not a dict, and values on which `in` or
      `len` raise all end in the catch-all 500. */
  function CheckSignup(data: Option<Json>): (c: Check)
    ensures data.None? ==> c == Rejected(ServerError)
    ensures c.Passed? <==>
              && data.Some? && data.value.JDict?
              && "email" in data.value.fields && "password" in data.value.fields
              && Truthy(data.value.fields["email"]) && Truthy(data.value.fields["password"])
              && ContainsChar(data.value.fields["email"], '@') == Some(true)
              && ContainsChar(data.value.fields["email"], '.') == Some(true)
              && Len(data.value.fields["password"]).Some?
              && Len(data.value.fields["password"]).value >= MinPasswordLength
    ensures c.Passed? ==>
              data.Some? && data.value.JDict? && "email" in data.value.fields && "password" in data.value.fields
              && c.email == data.value.fields["email"] && c.password == data.value.fields["password"]
    ensures c.Rejected? ==> c.reply in {Required, InvalidEmailFormat, PasswordTooShort, ServerError}
  {
    if data.None? then Rejected(ServerError)
    else if !Truthy(data.value) then Rejected(Required)
    else if !data.value.JDict? then Rejected(ServerError)
    else
      var d := data.value.fields;
      if !Truthy(GetOr(d, "email", JNull)) || !Truthy(GetOr(d, "password", JNull)) then Rejected(Required)
      else
        var email, password := d["email"], d["password"];
        match (ContainsChar(email, '@'), ContainsChar(email, '.'), Len(password))
        case (None, _, _) => Rejected(ServerError)
        case (Some(hasAt), Some(hasDot), len) =>
          if !hasAt || !hasDot then Rejected(InvalidEmailFormat)
          else if len.None? then Rejected(ServerError)
          else if len.value < MinPasswordLength then Rejected(PasswordTooShort)
          else Passed(email, password)
  }

  datatype SignupResult = SignupResult(reply: Reply, users: map<string, string>)

  /** `signup()` against the table `users`, with `hash` standing for
      `sha256(...).hexdigest()` and `dbUp` for whether MySQL answers. */
  function SignupEffect(users: map<string, string>, data: Option<Json>, hash: string -> string, dbUp: bool): SignupResult {
    match CheckSignup(data)
    case Rejected(reply) => SignupResult(reply, users)
    case Passed(email, password) =>
      if !dbUp || !email.JStr? then SignupResult(ServerError, users)
      else if email.s in users then SignupResult(UserExists, users)
      else if !password.JStr? then SignupResult(ServerError, users)
      else SignupResult(UserCreated, users[email.s := hash(password.s)])
  }

  /** The basic-auth credentials of a request. */
  datatype Credentials = Credentials(username: string, password: string)

  /** The claims `createJWT` signs; the HS256 encoding itself is abstract. */
  datatype JwtPayload = JwtPayload(username: string, exp: int, iat: int, admin: bool)
  datatype Jwt = Jwt(payload: JwtPayload, secret: string, algorithm: string)

  /** `createJWT(username, secret, authz)` at time `now` (seconds). */
  function CreateJwt(username: string, secret: string, authz: bool, now: int): (t: Jwt)
    ensures t.payload.username == username && t.payload.admin == authz
    ensures t.payload.iat == now && t.payload.exp == now + TokenLifetime
    ensures t.secret == secret && t.algorithm == "HS256"
  {
    Jwt(JwtPayload(username, now + TokenLifetime, now, authz), secret, "HS256")
  }

  /** What `/login` answers; a database failure is not caught there. */
  datatype LoginResponse = Token(jwt: Jwt) | Denied(reply: Reply) | Crashed(exc: Exc)

  function LoginResult(users: map<string, string>, auth: Option<Credentials>, hash: string -> string,
                       secret: string, now: int, dbUp: bool): LoginResponse
  {
    if auth.None? then Denied(MissingCredentials)
    else if !dbUp then Crashed(DatabaseError)
    else if auth.value.username !in users then Denied(InvalidCredentials)
    else if hash(auth.value.password) != users[auth.value.username] then Denied(InvalidCredentials)
    else Token(CreateJwt(auth.value.username, secret, true, now))
  }

  /** The `user` table, keyed by email. */
  class UserTable {
    var users: map<string, string>

    constructor (rows: map<string, string>)
      ensures users == rows
    {
      users := rows;
    }

    method Signup(data: Option<Json>, hash: string -> string, dbUp: bool) returns (r: Reply)
      modifies this
      ensures SignupResult(r, users) == SignupEffect(old(users), data, hash, dbUp)
    {
      var check := CheckSignup(data);
      if check.Rejected? {
        return check.reply;
      }
      var email, password := check.email, check.password;
      if !dbUp || !email.JStr? {
        return ServerError;
      }
      if email.s in users {
        return UserExists;
      }
      if !password.JStr? {
        return ServerError;
      }
      users := users[email.s := hash(password.s)];
      return UserCreated;
    }

    method Login(auth: Option<Credentials>, hash: string -> string, secret: string, now: int, dbUp: bool)
      returns (r: LoginResponse)
      ensures r == LoginResult(users, auth, hash, secret, now, dbUp)
    {
      if auth.None? {
        return Denied(MissingCredentials);
      }
      if !dbUp {
        return Crashed(DatabaseError);
      }
      var username, password := auth.value.username, auth.value.password;
      if username !in users {
        return Denied(InvalidCredentials);
      }
      var stored := users[username];
      if hash(password) != stored {
        return Denied(InvalidCredentials);
      }
      return Token(CreateJwt(username, secret, true, now));
    }
  }

  /** A request whose body `get_json` cannot produce gets the catch-all 500
      and leaves the table unchanged. */
  lemma SignupWithoutJsonFails(users: map<string, string>, hash: string -> string, dbUp: bool)
    ensures SignupEffect(users, None, hash, dbUp) == SignupResult(ServerError, users)
  {
  }

  /** A falsy JSON body (`null`, `{}`, `[]`, `""`, `0`, `false`), or a dict
      whose email or password is missing or falsy, gets 400 before anything
      else is looked at. */
  lemma SignupRequiresBoth(users: map<string, string>, body: Json, hash: string -> string, dbUp: bool)
    requires || !Truthy(body)
             || (body.JDict? && (!Truthy(GetOr(body.fields, "email", JNull)) || !Truthy(GetOr(body.fields, "password", JNull))))
    ensures SignupEffect(users, Some(body), hash, dbUp) == SignupResult(Required, users)
  {
  }

  /** Past presence, an email string lacking '@' or '.' gets
      ("invalid email format", 400), whatever the password, the other keys
      and the table. */
  lemma SignupRejectsBadEmail(users: map<string, string>, d: map<string, Json>, hash: string -> string, dbUp: bool)
    requires "email" in d && d["email"].JStr? && d["email"].s != ""
    requires "password" in d && Truthy(d["password"])
    requires '@' !in d["email"].s || '.' !in d["email"].s
    ensures SignupEffect(users, Some(JDict(d)), hash, dbUp) == SignupResult(InvalidEmailFormat, users)
  {
  }

  /** Past the format check, a password shorter than 6 characters gets 400,
      whether or not the email is taken. */
  lemma SignupRejectsShortPassword(users: map<string, string>, d: map<string, Json>, hash: string -> string, dbUp: bool)
    requires "email" in d && d["email"].JStr? && '@' in d["email"].s && '.' in d["email"].s
    requires "password" in d && d["password"].JStr? && 0 < |d["password"].s| < MinPasswordLength
    ensures SignupEffect(users, Some(JDict(d)), hash, dbUp) == SignupResult(PasswordTooShort, users)
  {
  }

  /** A well-formed request for an email already in the table gets 409 and
      leaves the table as it was. */
  lemma SignupRejectsDuplicate(users: map<string, string>, d: map<string, Json>, hash: string -> string)
    requires "email" in d && d["email"].JStr? && '@' in d["email"].s && '.' in d["email"].s
    requires "password" in d && d["password"].JStr? && |d["password"].s| >= MinPasswordLength
    requires d["email"].s in users
    ensures SignupEffect(users, Some(JDict(d)), hash, true) == SignupResult(UserExists, users)
  {
  }

  /** 201 is answered exactly for a dict body whose email is a string holding
      '@' and '.', not yet in the table, and whose password is a string of at
      least 6 characters, with the database up; it inserts exactly the row
      `(email, hash(password))`. Every other answer leaves the table unchanged. */
  lemma {:induction false} SignupCreatesIff(users: map<string, string>, data: Option<Json>, hash: string -> string, dbUp: bool)
    ensures var r := SignupEffect(users, data, hash, dbUp);
      && (r.reply == UserCreated <==>
            && dbUp && data.Some? && data.value.JDict?
            && var d := data.value.fields;
               && "email" in d && d["email"].JStr? && "password" in d && d["password"].JStr?
               && var email, password := d["email"].s, d["password"].s;
                  && '@' in email && '.' in email && |password| >= MinPasswordLength
                  && email !in users)
      && (r.reply == UserCreated ==>
            var d := data.value.fields;
            r.users == users[d["email"].s := hash(d["password"].s)] && |r.users| == |users| + 1)
      && (r.reply != UserCreated ==> r.users == users)
  {
    var r := SignupEffect(users, data, hash, dbUp);
    if r.reply == UserCreated {
      var d := data.value.fields;
      assert CheckSignup(data).Passed?;
      assert d["email"].JStr? && d["email"].s != "";
    }
  }

  /** `/login` issues a token exactly when credentials were sent, the database
      answers, a row exists for the username and the hash of the given
      password equals the stored hash; the token is for that username with
      `admin` set. Missing credentials and mismatches get 401. */
  lemma LoginIssuesTokenIff(users: map<string, string>, auth: Option<Credentials>, hash: string -> string,
                            secret: string, now: int, dbUp: bool)
    ensures var r := LoginResult(users, auth, hash, secret, now, dbUp);
      && (r.Token? <==>
            dbUp && auth.Some? && auth.value.username in users && hash(auth.value.password) == users[auth.value.username])
      && (r.Token? ==> r.jwt.payload.username == auth.value.username && r.jwt.payload.admin)
      && (auth.None? ==> r == Denied(MissingCredentials))
      && (auth.Some? && dbUp && !r.Token? ==> r == Denied(InvalidCredentials))
  {
  }

  /** Signing up and then logging in with the same email and password yields
      a token for that email with `admin = True`. */
  lemma SignupThenLogin(users: map<string, string>, d: map<string, Json>, hash: string -> string,
                        secret: string, now: int)
    requires "email" in d && d["email"].JStr? && "password" in d && d["password"].JStr?
    requires SignupEffect(users, Some(JDict(d)), hash, true).reply == UserCreated
    ensures var email, password := d["email"].s, d["password"].s;
      var after := SignupEffect(users, Some(JDict(d)), hash, true).users;
      LoginResult(after, Some(Credentials(email, password)), hash, secret, now, true)
        == Token(Jwt(JwtPayload(email, now + TokenLifetime, now, true), secret, "HS256"))
  {
    SignupCreatesIff(users, Some(JDict(d)), hash, true);
  }
}
