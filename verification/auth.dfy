/**
  `AuthService` of the core service: registration, login, refresh-token
  rotation and logout over the database service's user table. Password and
  token hashing (bcrypt) and token signing and verification (JWT) are
  uninterpreted functions passed in as a `Crypto` value.
*/
module Auth {
  import opened Wrappers
  import opened Database
  import Decimal

  const Father := "FATHER"
  /** 15 minutes, in seconds. */
  const AccessTokenTtl := 15 * 60
  /** 7 days, in seconds. */
  const RefreshTokenTtl := 7 * 24 * 60 * 60
  const InvalidRefreshToken := "Invalid refresh token"
  const InvalidCredentials := "Invalid credentials"

  /** The claims of both tokens. */
  datatype JwtPayload = JwtPayload(sub: string, email: string, role: string)

  datatype TokenKind = AccessToken | RefreshToken

  /**
    The cryptographic collaborators: `hash` and `compare` stand for bcrypt,
    `sign` for signing a payload with the secret and lifetime of a token
    kind, `verify` for checking a refresh token against the refresh secret.
  */
  datatype Crypto = Crypto(
    hash: string -> string,
    compare: (string, string) -> bool,
    sign: (JwtPayload, TokenKind) -> string,
    verify: string -> Option<JwtPayload>)

  /**
    What the model relies on about the collaborators: a text matches its own
    hash, a hash is never empty, and a signed refresh token verifies to its payload.
  */
  ghost predicate Sound(c: Crypto) {
    && (forall t :: c.compare(t, c.hash(t)))
    && (forall t :: c.hash(t) != "")
    && (forall p :: c.verify(c.sign(p, RefreshToken)) == Some(p))
  }

  datatype AuthError =
    | Forbidden(message: string)
    | Conflict(message: string)
    | Unauthorized(message: string)
    | Rpc(error: RpcError)

  /** `TokensResponse` */
  datatype Tokens = Tokens(accessToken: string, refreshToken: string, expiresIn: nat)

  datatype AuthUser = AuthUser(id: string, email: string, name: string, role: string)

  /** `AuthResponse` */
  datatype AuthResponse = AuthResponse(tokens: Tokens, user: AuthUser)

  datatype RegisterRequest = RegisterRequest(email: string, name: Option<string>, password: string)

  /** `generateTokens`: both tokens carry the same claims; `expiresIn` is the access lifetime. */
  function GenerateTokens(c: Crypto, p: JwtPayload): (t: Tokens)
    ensures t.expiresIn == AccessTokenTtl == 900
    ensures t.accessToken == c.sign(p, AccessToken) && t.refreshToken == c.sign(p, RefreshToken)
  {
    Tokens(c.sign(p, AccessToken), c.sign(p, RefreshToken), AccessTokenTtl)
  }

  /** The database client's `getUserByEmail`: `null` on NOT_FOUND, any other error thrown. */
  function FindUserByEmail(db: Db, email: string): (r: Result<Option<UserView>, RpcError>)
    requires UserStoreValid(db.users)
    ensures r.Err? <==> email == ""
    ensures r == Ok(None) <==> (email != "" && email !in db.users.emails)
  {
    match GetUserByEmail(db, email)
    case Ok(u) => Ok(Some(u))
    case Err(e) => if e.code == NotFound then Ok(None) else Err(e)
  }

  /** The database client's `getUserById`: `null` on NOT_FOUND, any other error thrown. */
  function FindUserById(db: Db, id: string): (r: Result<Option<UserView>, RpcError>)
    ensures r.Err? <==> id == ""
    ensures r == Ok(None) <==> (id != "" && id !in db.users.rows)
    ensures r.Ok? && r.value.Some? ==> id in db.users.rows && r.value.value == MapUser(id, db.users.rows[id])
  {
    match GetUserById(db, id)
    case Ok(u) => Ok(Some(u))
    case Err(e) => if e.code == NotFound then Ok(None) else Err(e)
  }

  /** Issues tokens for a user and stores the hash of the refresh token. */
  function Issue(db: Db, c: Crypto, u: UserView): (r: Result<(Db, Tokens), RpcError>)
    ensures r.Err? <==> u.id !in db.users.rows
    ensures r.Ok? ==>
      && r.value.1 == GenerateTokens(c, JwtPayload(u.id, u.email, u.role))
      && r.value.0 == UpdateUserRefreshToken(db, u.id, c.hash(r.value.1.refreshToken)).value.0
  {
    var tokens := GenerateTokens(c, JwtPayload(u.id, u.email, u.role));
    match UpdateUserRefreshToken(db, u.id, c.hash(tokens.refreshToken))
    case Err(e) => Err(e)
    case Ok((db', _)) => Ok((db', tokens))
  }

  /** The tail of `register`: create the user, then issue its tokens. */
  function CreateAndIssue(db: Db, c: Crypto, req: CreateUserRequest): (r: Result<(Db, AuthResponse), AuthError>)
    requires db.users.rows.Keys <= IssuedIds(db.users.next)
    ensures r.Err? <==> req.email in db.users.emails
  {
    match CreateUser(db, req)
    case Err(e) => Err(Rpc(e))
    case Ok((db1, u)) =>
      match Issue(db1, c, u)
      case Err(e) => Err(Rpc(e))
      case Ok((db2, tokens)) => Ok((db2, AuthResponse(tokens, AuthUser(u.id, u.email, u.name, u.role))))
  }

  /** A successful create-and-issue adds one user under the request's email and changes no other user. */
  lemma CreateAndIssueFrame(db: Db, c: Crypto, req: CreateUserRequest)
    requires db.users.rows.Keys <= IssuedIds(db.users.next)
    requires req.email !in db.users.emails
    ensures var (db', resp) := CreateAndIssue(db, c, req).value;
      var id := resp.user.id;
      && id !in db.users.rows && id in db'.users.rows
      && db'.users.emails == db.users.emails[req.email := id]
      && db'.users.rows == db.users.rows[id := db'.users.rows[id]]
  {
    var created := CreateUser(db, req).value;
    var issued := Issue(created.0, c, created.1).value;
    assert issued.0.users.rows == db.users.rows[created.1.id := issued.0.users.rows[created.1.id]];
  }

  /**
    The user a successful create-and-issue adds holds the request's email,
    password hash and role, is active, and stores the hash of the refresh
    token handed out.
  */
  lemma CreateAndIssueStores(db: Db, c: Crypto, req: CreateUserRequest)
    requires db.users.rows.Keys <= IssuedIds(db.users.next)
    requires req.email !in db.users.emails
    ensures var (db', resp) := CreateAndIssue(db, c, req).value;
      var id := resp.user.id;
      var refreshHash := c.hash(resp.tokens.refreshToken);
      && id in db'.users.rows
      && db'.users.rows[id].email == req.email
      && db'.users.rows[id].passwordHash == req.passwordHash
      && db'.users.rows[id].isActive
      && db'.users.rows[id].refreshTokenHash == (if refreshHash == "" then None else Some(refreshHash))
      && resp.user.role == (if Truthy(req.role) then req.role.value else DefaultUserRole)
      && resp.tokens == GenerateTokens(c, JwtPayload(id, req.email, resp.user.role))
  {
    var created := CreateUser(db, req).value;
    var issued := Issue(created.0, c, created.1).value;
    var h := c.hash(issued.1.refreshToken);
    assert issued.0.users.rows[created.1.id] == NewUserRow(req).(refreshTokenHash := if h == "" then None else Some(h));
  }

  /** `register` */
  function Register(db: Db, allowRegistration: bool, c: Crypto, req: RegisterRequest): (r: Result<(Db, AuthResponse), AuthError>)
    requires UserStoreValid(db.users)
    ensures !allowRegistration ==> r == Err(Forbidden("Registration is currently disabled"))
    ensures allowRegistration && req.email != "" && req.email in db.users.emails ==>
      r == Err(Conflict("User with this email already exists"))
    ensures r.Ok? <==> allowRegistration && req.email != "" && req.email !in db.users.emails
    ensures r.Ok? ==>
      var (db', resp) := r.value;
      var id := resp.user.id;
      var refreshHash := c.hash(resp.tokens.refreshToken);
      && id !in db.users.rows && id in db'.users.rows
      && db'.users.emails == db.users.emails[req.email := id]
      && db'.users.rows == db.users.rows[id := db'.users.rows[id]]
      && db'.users.rows[id].email == req.email
      && db'.users.rows[id].passwordHash == c.hash(req.password)
      && db'.users.rows[id].isActive
      && db'.users.rows[id].refreshTokenHash == (if refreshHash == "" then None else Some(refreshHash))
      && resp.tokens == GenerateTokens(c, JwtPayload(id, req.email, resp.user.role))
  {
    if !allowRegistration then Err(Forbidden("Registration is currently disabled"))
    else match FindUserByEmail(db, req.email)
      case Err(e) => Err(Rpc(e))
      case Ok(Some(_)) => Err(Conflict("User with this email already exists"))
      case Ok(None) =>
        var role := if CountUsers(db) == 0 then Father else DefaultUserRole;
        var creq := CreateUserRequest(req.email, req.name, c.hash(req.password), Some(role));
        CreateAndIssueFrame(db, c, creq);
        CreateAndIssueStores(db, c, creq);
        CreateAndIssue(db, c, creq)
  }

  /** `login` */
  function Login(db: Db, c: Crypto, email: string, password: string): (r: Result<(Db, AuthResponse), AuthError>)
    requires UserStoreValid(db.users)
    ensures email != "" && email !in db.users.emails ==> r == Err(Unauthorized(InvalidCredentials))
    ensures r.Ok? ==> email in db.users.emails && db.users.rows[db.users.emails[email]].isActive
    ensures r.Ok? ==> c.compare(password, db.users.rows[db.users.emails[email]].passwordHash)
  {
    match FindUserByEmail(db, email)
    case Err(e) => Err(Rpc(e))
    case Ok(None) => Err(Unauthorized(InvalidCredentials))
    case Ok(Some(u)) =>
      if !u.isActive then Err(Unauthorized("Account is deactivated"))
      else if !c.compare(password, u.passwordHash) then Err(Unauthorized(InvalidCredentials))
      else match Issue(db, c, u)
        case Err(e) => Err(Rpc(e))
        case Ok((db', tokens)) => Ok((db', AuthResponse(tokens, AuthUser(u.id, u.email, u.name, u.role))))
  }

  /**
    `refresh`: the token must verify, name an active user whose stored hash is
    not empty and matches it; the stored hash is then rotated. Every failure
    is reported as the same `Invalid refresh token`.
  */
  function Refresh(db: Db, c: Crypto, token: string): (r: Result<(Db, Tokens), AuthError>)
    ensures r.Err? ==> r.error == Unauthorized(InvalidRefreshToken)
    ensures r.Ok? ==>
      && c.verify(token).Some?
      && var id := c.verify(token).value.sub;
      && id in db.users.rows
      && db.users.rows[id].isActive
      && db.users.rows[id].refreshTokenHash.Some? && db.users.rows[id].refreshTokenHash.value != ""
      && c.compare(token, db.users.rows[id].refreshTokenHash.value)
  {
    match RefreshSteps(db, c, token)
    case Ok(x) => Ok(x)
    case Err(_) => Err(Unauthorized(InvalidRefreshToken))
  }

  /** The body of the `try` block of `refresh`, with its own messages. */
  function RefreshSteps(db: Db, c: Crypto, token: string): (r: Result<(Db, Tokens), AuthError>)
  {
    match c.verify(token)
    case None => Err(Unauthorized("jwt verification failed"))
    case Some(p) =>
      match FindUserById(db, p.sub)
      case Err(e) => Err(Rpc(e))
      case Ok(found) =>
        if found.None? || !found.value.isActive then Err(Unauthorized(InvalidRefreshToken))
        else if found.value.refreshTokenHash == "" then Err(Unauthorized("Refresh token has been revoked"))
        else if !c.compare(token, found.value.refreshTokenHash) then Err(Unauthorized(InvalidRefreshToken))
        else match Issue(db, c, found.value)
          case Err(e) => Err(Rpc(e))
          case Ok(x) => Ok(x)
  }

  /** `logout`: the stored hash is cleared (stored as null). */
  function Logout(db: Db, userId: string): (r: Result<Db, AuthError>)
    ensures r.Err? <==> userId !in db.users.rows
    ensures r.Ok? ==> userId in r.value.users.rows && r.value.users.rows[userId].refreshTokenHash.None?
  {
    match UpdateUserRefreshToken(db, userId, "")
    case Err(e) => Err(Rpc(e))
    case Ok((db', _)) => Ok(db')
  }

  // ---------------------------------------------------------------------------
  // Properties

  /** The first registered user gets FATHER, every later one USER. */
  lemma FirstUserIsFather(db: Db, c: Crypto, req: RegisterRequest)
    requires UserStoreValid(db.users)
    requires Register(db, true, c, req).Ok?
    ensures var resp := Register(db, true, c, req).value.1;
      (resp.user.role == Father <==> db.users.rows == map[])
      && (db.users.rows != map[] ==> resp.user.role == DefaultUserRole)
  {
  }

  /**
    A successful login stores the hash of the refresh token it hands out, and
    nothing else of the user changes.
  */
  lemma IssuedRefreshTokenStored(db: Db, c: Crypto, email: string, password: string)
    requires UserStoreValid(db.users) && Sound(c)
    requires Login(db, c, email, password).Ok?
    ensures var (db', resp) := Login(db, c, email, password).value;
      var id := resp.user.id;
      && id == db.users.emails[email] && id in db'.users.rows
      && db'.users.rows[id] == db.users.rows[id].(refreshTokenHash := Some(c.hash(resp.tokens.refreshToken)))
      && db'.users.rows == db.users.rows[id := db'.users.rows[id]]
  {
  }

  /**
    A successful register stores one new user under the requested email, with
    the hash of the password and the hash of the refresh token it hands out.
  */
  lemma RegisterStoresHashes(db: Db, c: Crypto, req: RegisterRequest)
    requires UserStoreValid(db.users) && Sound(c)
    requires Register(db, true, c, req).Ok?
    ensures var (db', resp) := Register(db, true, c, req).value;
      var id := resp.user.id;
      && id in db'.users.rows && db'.users.emails[req.email] == id
      && db'.users.rows[id].passwordHash == c.hash(req.password)
      && db'.users.rows[id].refreshTokenHash == Some(c.hash(resp.tokens.refreshToken))
  {
  }

  /** A successful register keeps the user table's invariant. */
  lemma RegisterKeepsUsersValid(db: Db, c: Crypto, req: RegisterRequest)
    requires UserStoreValid(db.users)
    requires Register(db, true, c, req).Ok?
    ensures UserStoreValid(Register(db, true, c, req).value.0.users)
  {
    var role := if CountUsers(db) == 0 then Father else DefaultUserRole;
    var creq := CreateUserRequest(req.email, req.name, c.hash(req.password), Some(role));
    CreateAndIssueKeepsUsersValid(db, c, creq);
    assert Register(db, true, c, req) == CreateAndIssue(db, c, creq);
  }

  /** Creating a user with a free email and issuing its tokens keeps the user table's invariant. */
  lemma CreateAndIssueKeepsUsersValid(db: Db, c: Crypto, req: CreateUserRequest)
    requires UserStoreValid(db.users)
    requires req.email !in db.users.emails
    ensures UserStoreValid(CreateAndIssue(db, c, req).value.0.users)
  {
    InsertUserValid(db.users, req);
    var created := CreateUser(db, req).value;
    var issued := Issue(created.0, c, created.1).value;
    var h := c.hash(issued.1.refreshToken);
    RefreshHashKeepsUsersValid(created.0.users, created.1.id, if h == "" then None else Some(h));
    assert CreateAndIssue(db, c, req).value.0.users == issued.0.users;
  }

  /** Replacing one user's refresh hash keeps the user table's invariant. */
  lemma RefreshHashKeepsUsersValid(us: UserStore, id: string, h: Option<string>)
    requires UserStoreValid(us) && id in us.rows
    ensures UserStoreValid(us.(rows := us.rows[id := us.rows[id].(refreshTokenHash := h)]))
  {
    assert us.rows[id := us.rows[id].(refreshTokenHash := h)].Keys == us.rows.Keys;
  }

  /** The registered credentials log in straight away. */
  lemma RegisterThenLogin(db: Db, c: Crypto, req: RegisterRequest)
    requires UserStoreValid(db.users) && Sound(c)
    requires Register(db, true, c, req).Ok?
    ensures var (db', resp) := Register(db, true, c, req).value;
      UserStoreValid(db'.users) && Login(db', c, req.email, req.password).Ok?
  {
    var db' := Register(db, true, c, req).value.0;
    RegisterKeepsUsersValid(db, c, req);
    LoginRejections(db', c, req.email, req.password);
    assert c.compare(req.password, c.hash(req.password));
  }

  /** The refresh token a register hands out is accepted by the next refresh. */
  lemma RegisterThenRefresh(db: Db, c: Crypto, req: RegisterRequest)
    requires UserStoreValid(db.users) && Sound(c)
    requires Register(db, true, c, req).Ok?
    ensures var (db', resp) := Register(db, true, c, req).value;
      Refresh(db', c, resp.tokens.refreshToken).Ok?
  {
    var (db', resp) := Register(db, true, c, req).value;
    var id := resp.user.id;
    var t := resp.tokens.refreshToken;
    assert id == Decimal.NatToString(db.users.next);
    assert c.verify(t) == Some(JwtPayload(id, req.email, resp.user.role));
    assert c.compare(t, c.hash(t));
    assert db'.users.rows[id].refreshTokenHash == Some(c.hash(t));
  }

  /** Login is refused exactly for an unknown email, an inactive account or a wrong password. */
  lemma LoginRejections(db: Db, c: Crypto, email: string, password: string)
    requires UserStoreValid(db.users) && email != ""
    ensures Login(db, c, email, password).Ok? <==>
      email in db.users.emails &&
      db.users.rows[db.users.emails[email]].isActive &&
      c.compare(password, db.users.rows[db.users.emails[email]].passwordHash)
    ensures email in db.users.emails && !db.users.rows[db.users.emails[email]].isActive ==>
      Login(db, c, email, password) == Err(Unauthorized("Account is deactivated"))
  {
  }

  /**
    A refresh succeeds exactly for a token that verifies and names an active
    user whose stored, non-empty refresh hash matches the token.
  */
  lemma RefreshAccepts(db: Db, c: Crypto, token: string)
    requires UserStoreValid(db.users)
    ensures Refresh(db, c, token).Ok? <==>
      && c.verify(token).Some?
      && var id := c.verify(token).value.sub;
      && id in db.users.rows
      && db.users.rows[id].isActive
      && db.users.rows[id].refreshTokenHash.Some? && db.users.rows[id].refreshTokenHash.value != ""
      && c.compare(token, db.users.rows[id].refreshTokenHash.value)
  {
    if c.verify(token).Some? && c.verify(token).value.sub in db.users.rows {
      IssuedIdNonEmpty(db.users.next, c.verify(token).value.sub);
    }
  }

  /** A login's refresh token can be used once the login is stored: the rotation round trip. */
  lemma LoginThenRefresh(db: Db, c: Crypto, email: string, password: string)
    requires UserStoreValid(db.users) && Sound(c)
    requires Login(db, c, email, password).Ok?
    ensures var (db', resp) := Login(db, c, email, password).value;
      Refresh(db', c, resp.tokens.refreshToken).Ok?
  {
    var (db', resp) := Login(db, c, email, password).value;
    var id := db.users.emails[email];
    var u := db.users.rows[id];
    var t := resp.tokens.refreshToken;
    assert c.verify(t) == Some(JwtPayload(id, u.email, u.role));
    assert c.compare(t, c.hash(t));
    IssuedIdNonEmpty(db.users.next, id);
    assert db'.users.rows[id].refreshTokenHash == Some(c.hash(t));
  }

  /** After logout no refresh token of that user is accepted. */
  lemma LogoutRevokes(db: Db, c: Crypto, userId: string, token: string)
    requires Logout(db, userId).Ok?
    requires c.verify(token).Some? && c.verify(token).value.sub == userId
    ensures Refresh(Logout(db, userId).value, c, token) == Err(Unauthorized(InvalidRefreshToken))
  {
  }

  /** Refresh rotates: the stored hash becomes that of the new refresh token. */
  lemma RefreshRotates(db: Db, c: Crypto, token: string)
    requires Refresh(db, c, token).Ok?
    ensures var (db', tokens) := Refresh(db, c, token).value;
      var id := c.verify(token).value.sub;
      && db'.users.rows[id].refreshTokenHash == (if c.hash(tokens.refreshToken) == "" then None else Some(c.hash(tokens.refreshToken)))
      && db'.users.rows.Keys == db.users.rows.Keys
  {
  }
}
