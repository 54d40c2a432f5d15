/** The authentication routes of backend/src/routes/auth.routes.ts, the
    older server: registration issues tokens at once, there is no e-mail
    verification, and login changes no user field. Inputs are passed as in
    ApiAuthRoutes. */
module BackendAuthRoutes {
  import opened Common
  import opened Crypto
  import opened AuthLib
  import opened RefreshStore
  import BackendAuthLib
  import Jwt

  datatype User = User(email: string, password: PasswordDigest, name: string, role: Role,
                       avatar: Option<string>, bio: Option<string>, createdAt: int)

  datatype RegisterBody = RegisterBody(email: string, password: string, name: string, role: Role)

  datatype UserView = UserView(id: string, email: string, name: string, role: Role, avatar: Option<string>)

  datatype Registered = Registered(user: UserView, createdAt: int, tokens: AuthTokens)
  datatype LoggedIn = LoggedIn(user: UserView, tokens: AuthTokens)
  datatype Profile = Profile(user: UserView, bio: Option<string>, createdAt: int)

  function View(id: string, u: User): UserView
  {
    UserView(id, u.email, u.name, u.role, u.avatar)
  }

  const EmailTaken := HttpError(409, "User with this email already exists")
  const InvalidCredentials := HttpError(401, "Invalid credentials")
  const UserNotFound := HttpError(404, "User not found")
  const LoggedOutMessage := "Logged out successfully"

  ghost predicate EmailsUnique(users: map<string, User>)
  {
    forall a, b :: a in users && b in users && users[a].email == users[b].email ==> a == b
  }

  ghost function UserWithEmail(users: map<string, User>, email: string): (r: Option<string>)
    ensures r.Some? ==> r.value in users && users[r.value].email == email
    ensures r.None? ==> forall id :: id in users ==> users[id].email != email
  {
    if exists id :: id in users && users[id].email == email then
      Some(var id :| id in users && users[id].email == email; id)
    else None
  }

  lemma UniqueEmail(users: map<string, User>, id: string)
    requires EmailsUnique(users) && id in users
    ensures UserWithEmail(users, users[id].email) == Some(id)
  {
  }

  /** A new user whose e-mail nobody has keeps the e-mails unique. */
  lemma AddUserUnique(users: map<string, User>, id: string, u: User)
    requires EmailsUnique(users) && id !in users
    requires forall x :: x in users ==> users[x].email != u.email
    ensures EmailsUnique(users[id := u])
  {
  }

  /** `findUnique({ where: { email } })`. */
  method FindByEmail(users: map<string, User>, email: string) returns (r: Option<string>)
    ensures r.Some? ==> r.value in users && users[r.value].email == email
    ensures r.None? ==> forall id :: id in users ==> users[id].email != email
  {
    var unseen := users.Keys;
    while unseen != {}
      invariant unseen <= users.Keys
      invariant forall id :: id in users && id !in unseen ==> users[id].email != email
      decreases unseen
    {
      var id :| id in unseen;
      if users[id].email == email {
        return Some(id);
      }
      unseen := unseen - {id};
    }
    return None;
  }

  function NewUser(body: RegisterBody, salt: seq<Byte>, now: int): User
  {
    User(body.email, BackendAuthLib.HashPassword(body.password, salt), body.name, body.role, None, None, now)
  }

  /** The claims a user's tokens carry. */
  function ClaimsFor(id: string, u: User): Jwt.Claims
  {
    Jwt.Claims(id, u.email, u.role)
  }

  class AuthDb {
    const cfg: Config
    var users: map<string, User>
    var refreshTokens: map<string, RefreshRecord>

    ghost predicate Valid()
      reads this
    {
      EmailsUnique(users)
    }

    constructor(cfg: Config)
      ensures Valid()
      ensures this.cfg == cfg && users == map[] && refreshTokens == map[]
    {
      this.cfg := cfg;
      users := map[];
      refreshTokens := map[];
    }

    /** POST /auth/register: 409 for a taken e-mail; otherwise the user is
        created, tokens are issued for it and its refresh record is saved.
        The user row stays even when a later step fails. */
    method Register(body: RegisterBody, newId: string, salt: seq<Byte>, now: nat) returns (r: Result<Registered>)
      requires Valid()
      modifies this
      ensures Valid()
      ensures UserWithEmail(old(users), body.email).Some? ==>
                r == Err(EmailTaken) && users == old(users) && refreshTokens == old(refreshTokens)
      ensures UserWithEmail(old(users), body.email).None? && newId in old(users) ==>
                r == Err(InternalServerError) && users == old(users) && refreshTokens == old(refreshTokens)
      ensures UserWithEmail(old(users), body.email).None? && newId !in old(users) ==>
                var u := NewUser(body, salt, now);
                var t := GenerateAuthTokens(cfg, Jwt.Fresh(ClaimsFor(newId, u)), now);
                users == old(users)[newId := u]
                && if t.Failure? || t.value.refreshToken in old(refreshTokens) then
                     r == Err(InternalServerError) && refreshTokens == old(refreshTokens)
                   else
                     r == Ok(Registered(View(newId, u), now, t.value))
                     && refreshTokens == old(refreshTokens)[t.value.refreshToken := RefreshRecord(newId, RefreshTokenExpiration(cfg, now))]
    {
      var existing := FindByEmail(users, body.email);
      if existing.Some? {
        UniqueEmail(users, existing.value);
        return Err(EmailTaken);
      }
      if newId in users {
        return Err(InternalServerError);
      }
      var u := NewUser(body, salt, now);
      AddUserUnique(users, newId, u);
      users := users[newId := u];
      var tokens := GenerateAuthTokens(cfg, Jwt.Fresh(ClaimsFor(newId, u)), now);
      if tokens.Failure? || tokens.value.refreshToken in refreshTokens {
        return Err(InternalServerError);
      }
      refreshTokens := refreshTokens[tokens.value.refreshToken := RefreshRecord(newId, RefreshTokenExpiration(cfg, now))];
      return Ok(Registered(View(newId, u), now, tokens.value));
    }

    /** POST /auth/login: the same 401 for an unknown e-mail and a wrong
        password; otherwise tokens and one new refresh record, and no user
        field changes. */
    method Login(email: string, password: string, now: nat) returns (r: Result<LoggedIn>)
      requires Valid()
      modifies this
      ensures Valid()
      ensures users == old(users)
      ensures var found := UserWithEmail(old(users), email);
              if found.None? || !BackendAuthLib.VerifyPassword(password, users[found.value].password) then
                r == Err(InvalidCredentials) && refreshTokens == old(refreshTokens)
              else
                var id := found.value;
                var t := GenerateAuthTokens(cfg, Jwt.Fresh(ClaimsFor(id, users[id])), now);
                if t.Failure? || t.value.refreshToken in old(refreshTokens) then
                  r == Err(InternalServerError) && refreshTokens == old(refreshTokens)
                else
                  r == Ok(LoggedIn(View(id, users[id]), t.value))
                  && refreshTokens == old(refreshTokens)[t.value.refreshToken := RefreshRecord(id, RefreshTokenExpiration(cfg, now))]
    {
      var found := FindByEmail(users, email);
      if found.None? {
        return Err(InvalidCredentials);
      }
      var id := found.value;
      UniqueEmail(users, id);
      var u := users[id];
      if !BackendAuthLib.VerifyPassword(password, u.password) {
        return Err(InvalidCredentials);
      }
      var tokens := GenerateAuthTokens(cfg, Jwt.Fresh(ClaimsFor(id, u)), now);
      if tokens.Failure? || tokens.value.refreshToken in refreshTokens {
        return Err(InternalServerError);
      }
      refreshTokens := refreshTokens[tokens.value.refreshToken := RefreshRecord(id, RefreshTokenExpiration(cfg, now))];
      return Ok(LoggedIn(View(id, u), tokens.value));
    }

    /** POST /auth/refresh, re-signing only the claims (see
        RefreshStore.RefreshAsWritten for the handler as written). */
    method Refresh(token: string, now: nat) returns (r: Result<AuthTokens>)
      requires Valid()
      modifies this
      ensures Valid()
      ensures users == old(users)
      ensures var rot := Rotate(cfg, old(refreshTokens), token, now, old(users).Keys);
              r == rot.result && refreshTokens == rot.store
    {
      var check := CheckRefresh(cfg, refreshTokens, token, now);
      if check.Err? {
        return Err(check.error);
      }
      var payload := check.value;
      var tokens := GenerateAuthTokens(cfg, ClaimsOf(payload), now);
      if tokens.Failure? {
        return Err(InternalServerError);
      }
      refreshTokens := map t | t in refreshTokens && t != token :: refreshTokens[t];
      if payload.claims.userId !in users || tokens.value.refreshToken in refreshTokens {
        return Err(InternalServerError);
      }
      refreshTokens := refreshTokens[tokens.value.refreshToken := RefreshRecord(payload.claims.userId, RefreshTokenExpiration(cfg, now))];
      return Ok(tokens.value);
    }

    /** POST /auth/logout. */
    method Logout(caller: Jwt.Payload) returns (message: string)
      requires Valid()
      modifies this
      ensures Valid()
      ensures users == old(users)
      ensures refreshTokens == WithoutUser(old(refreshTokens), caller.claims.userId)
      ensures message == LoggedOutMessage
    {
      refreshTokens := WithoutUser(refreshTokens, caller.claims.userId);
      return LoggedOutMessage;
    }

    /** GET /auth/me: 404 when the token's user has no row. */
    method Me(caller: Jwt.Payload) returns (r: Result<Profile>)
      ensures r.Ok? <==> caller.claims.userId in users
      ensures r.Ok? ==> var u := users[caller.claims.userId];
                        r.value == Profile(View(caller.claims.userId, u), u.bio, u.createdAt)
      ensures r.Err? ==> r.error == UserNotFound
    {
      var id := caller.claims.userId;
      if id !in users {
        return Err(UserNotFound);
      }
      var u := users[id];
      return Ok(Profile(View(id, u), u.bio, u.createdAt));
    }
  }

  /** The refresh token handed out at registration is accepted by the
      refresh check exactly while both the token and its record are
      unexpired. */
  method RegisterThenRefreshCheck(db: AuthDb, body: RegisterBody, newId: string, salt: seq<Byte>, now: nat, later: nat)
    returns (r: Result<Registered>)
    requires db.Valid()
    requires db.cfg.jwtSecret != "" && db.cfg.refreshSecret != "" && db.cfg.jwtSecret != db.cfg.refreshSecret
    requires ValidLifetimes(db.cfg)
    modifies db
    ensures r.Ok? ==>
              var t := r.value.tokens.refreshToken;
              CheckRefresh(db.cfg, db.refreshTokens, t, later).Ok?
              <==> later / 1000 < Jwt.ExpiryOf(t) && later <= RefreshTokenExpiration(db.cfg, now)
  {
    r := db.Register(body, newId, salt, now);
    if r.Ok? {
      AuthTokensFromClaims(db.cfg, ClaimsFor(newId, NewUser(body, salt, now)), now, later);
    }
  }
}
