/** The authentication routes of apps/api/src/routes/auth.routes.ts over
    the two tables they change: users, and the refresh-token allow-list.

    Each handler is a method of AuthDb. It receives the request body after
    validation (or, for the routes that read the JSON body directly, its
    fields as optional strings), the clock, and whatever the libraries
    would draw at random: the id Prisma gives a new row, a password salt,
    the 32 bytes of a one-time token. Handlers behind `authMiddleware`
    receive the payload the gate stored in the context. E-mail is
    recorded in an outbox; whether delivery succeeds never changes a
    handler's answer. */
module ApiAuthRoutes {
  import opened Common
  import opened Crypto
  import opened AuthLib
  import opened RefreshStore
  import ApiAuthLib
  import Jwt

  /** A row of the user table, as far as these routes read or write it. */
  datatype User = User(
    email: string,
    password: PasswordDigest,
    name: string,
    role: Role,
    avatar: Option<string>,
    bio: Option<string>,
    isEmailVerified: bool,
    verifyDigest: Option<Digest>,
    verifyExpires: Option<int>,
    resetDigest: Option<Digest>,
    resetExpires: Option<int>,
    lastLoginAt: Option<int>,
    createdAt: int)

  datatype Mail =
    | VerificationMail(to: string, token: string, name: string)
    | ResetMail(to: string, token: string, name: string)
    | WelcomeMail(to: string, name: string)

  /** The body of POST /auth/register once `registerSchema` accepted it. */
  datatype RegisterBody = RegisterBody(email: string, password: string, name: string, role: Role)

  /** The public fields of a user that the responses carry. */
  datatype UserView = UserView(id: string, email: string, name: string, role: Role, avatar: Option<string>, isEmailVerified: bool)

  datatype Registered = Registered(user: UserView, createdAt: int, message: string)
  datatype LoggedIn = LoggedIn(user: UserView, tokens: AuthTokens)
  datatype Profile = Profile(user: UserView, bio: Option<string>, createdAt: int)

  function View(id: string, u: User): UserView
  {
    UserView(id, u.email, u.name, u.role, u.avatar, u.isEmailVerified)
  }

  const EmailTaken := HttpError(409, "User with this email already exists")
  const InvalidCredentials := HttpError(401, "Invalid credentials")
  const UserNotFound := HttpError(404, "User not found")
  const VerificationTokenRequired := HttpError(400, "Verification token is required")
  const InvalidVerificationToken := HttpError(400, "Invalid verification token")
  const VerificationTokenExpired := HttpError(400, "Verification token has expired")
  const EmailRequired := HttpError(400, "Email is required")
  const AlreadyVerified := HttpError(400, "Email is already verified")
  const TokenAndPasswordRequired := HttpError(400, "Token and password are required")
  const PasswordTooShort := HttpError(400, "Password must be at least 8 characters")
  const InvalidResetToken := HttpError(400, "Invalid reset token")
  const ResetTokenExpired := HttpError(400, "Reset token has expired")

  const RegisteredMessage := "Registration successful. Please check your email to verify your account."
  const LoggedOutMessage := "Logged out successfully"
  const EmailVerifiedMessage := "Email verified successfully"
  const ResendMessage := "If your email exists, you will receive a verification email"
  const ForgotMessage := "If your email exists, you will receive a password reset email"
  const PasswordResetMessage := "Password reset successfully"

  // ---------------------------------------------------------------------
  // Lookups.

  ghost predicate EmailsUnique(users: map<string, User>)
  {
    forall a, b :: a in users && b in users && users[a].email == users[b].email ==> a == b
  }

  /** The user with the given e-mail, if any (there is at most one while
      emails are unique). */
  ghost function UserWithEmail(users: map<string, User>, email: string): (r: Option<string>)
    ensures r.Some? ==> r.value in users && users[r.value].email == email
    ensures r.None? ==> forall id :: id in users ==> users[id].email != email
  {
    if exists id :: id in users && users[id].email == email then
      Some(var id :| id in users && users[id].email == email; id)
    else None
  }

  lemma UniqueEmail(users: map<string, User>, id: string)
    requires EmailsUnique(users) && id in users
    ensures UserWithEmail(users, users[id].email) == Some(id)
  {
  }

  /** `findFirst`/`findUnique`: some row satisfying the condition, or none
      when no row does. Which of several matching rows comes back is left
      open, as the database leaves it. */
  method FindFirst(users: map<string, User>, matches: User -> bool) returns (r: Option<string>)
    ensures r.Some? ==> r.value in users && matches(users[r.value])
    ensures r.None? ==> forall id :: id in users ==> !matches(users[id])
  {
    var unseen := users.Keys;
    while unseen != {}
      invariant unseen <= users.Keys
      invariant forall id :: id in users && id !in unseen ==> !matches(users[id])
      decreases unseen
    {
      var id :| id in unseen;
      if matches(users[id]) {
        return Some(id);
      }
      unseen := unseen - {id};
    }
    return None;
  }

  // ---------------------------------------------------------------------
  // Row updates.

  function NewUser(body: RegisterBody, salt: seq<Byte>, vt: OneTimeToken, now: int): User
  {
    User(body.email, ApiAuthLib.HashPassword(body.password, salt), body.name, body.role, None, None,
         false, Some(HashToken(vt.token)), Some(vt.expiresAt), None, None, None, now)
  }

  predicate HoldsVerification(u: User, token: string)
  {
    u.verifyDigest == Some(HashToken(token))
  }

  predicate VerificationLapsed(u: User, now: int)
  {
    u.verifyExpires.Some? && IsTokenExpired(u.verifyExpires.value, now)
  }

  predicate HoldsReset(u: User, token: string)
  {
    u.resetDigest == Some(HashToken(token))
  }

  predicate ResetLapsed(u: User, now: int)
  {
    u.resetExpires.Some? && IsTokenExpired(u.resetExpires.value, now)
  }

  function Verified(u: User): User
  {
    u.(isEmailVerified := true, verifyDigest := None, verifyExpires := None)
  }

  function WithVerification(u: User, vt: OneTimeToken): User
  {
    u.(verifyDigest := Some(HashToken(vt.token)), verifyExpires := Some(vt.expiresAt))
  }

  function WithReset(u: User, rt: OneTimeToken): User
  {
    u.(resetDigest := Some(HashToken(rt.token)), resetExpires := Some(rt.expiresAt))
  }

  function WithNewPassword(u: User, password: string, salt: seq<Byte>): User
  {
    u.(password := ApiAuthLib.HashPassword(password, salt), resetDigest := None, resetExpires := None)
  }

  // ---------------------------------------------------------------------
  // The tables and the handlers.

  class AuthDb {
    const cfg: Config
    var users: map<string, User>
    var refreshTokens: map<string, RefreshRecord>
    var outbox: seq<Mail>

    ghost predicate Valid()
      reads this
    {
      EmailsUnique(users)
    }

    constructor(cfg: Config)
      ensures Valid()
      ensures this.cfg == cfg && users == map[] && refreshTokens == map[] && outbox == []
    {
      this.cfg := cfg;
      users := map[];
      refreshTokens := map[];
      outbox := [];
    }

    /** POST /auth/register: 409 for a taken e-mail; otherwise a new,
        unverified user holding the digest of a fresh verification token,
        which is mailed out. No tokens are issued. */
    method Register(body: RegisterBody, newId: string, salt: seq<Byte>, random: RandomBytes32, now: nat)
      returns (r: Result<Registered>)
      requires Valid()
      modifies this
      ensures Valid()
      ensures refreshTokens == old(refreshTokens)
      ensures UserWithEmail(old(users), body.email).Some? ==>
                r == Err(EmailTaken) && users == old(users) && outbox == old(outbox)
      ensures UserWithEmail(old(users), body.email).None? && newId in old(users) ==>
                r == Err(InternalServerError) && users == old(users) && outbox == old(outbox)
      ensures UserWithEmail(old(users), body.email).None? && newId !in old(users) ==>
                var vt := GenerateVerificationToken(random, now);
                users == old(users)[newId := NewUser(body, salt, vt, now)]
                && outbox == old(outbox) + [VerificationMail(body.email, vt.token, body.name)]
                && r == Ok(Registered(View(newId, users[newId]), now, RegisteredMessage))
    {
      var existing := FindFirst(users, (u: User) => u.email == body.email);
      if existing.Some? {
        UniqueEmail(users, existing.value);
        return Err(EmailTaken);
      }
      var vt := GenerateVerificationToken(random, now);
      if newId in users {
        return Err(InternalServerError);
      }
      var u := NewUser(body, salt, vt, now);
      users := users[newId := u];
      outbox := outbox + [VerificationMail(body.email, vt.token, body.name)];
      return Ok(Registered(View(newId, u), now, RegisteredMessage));
    }

    /** POST /auth/login: the same 401 for an unknown e-mail and for a
        wrong password; otherwise `lastLoginAt` is stamped and one refresh
        record is added for the user. Email verification is not required. */
    method Login(email: string, password: string, now: nat) returns (r: Result<LoggedIn>)
      requires Valid()
      modifies this
      ensures Valid()
      ensures outbox == old(outbox)
      ensures var found := UserWithEmail(old(users), email);
              if found.None? || !ApiAuthLib.VerifyPassword(password, old(users)[found.value].password) then
                r == Err(InvalidCredentials) && users == old(users) && refreshTokens == old(refreshTokens)
              else
                var id := found.value;
                var u := old(users)[id];
                var t := GenerateAuthTokens(cfg, Jwt.Fresh(Jwt.Claims(id, u.email, u.role)), now);
                users == old(users)[id := u.(lastLoginAt := Some(now))]
                && if t.Failure? || t.value.refreshToken in old(refreshTokens) then
                     r == Err(InternalServerError) && refreshTokens == old(refreshTokens)
                   else
                     r == Ok(LoggedIn(View(id, u), t.value))
                     && refreshTokens == old(refreshTokens)[t.value.refreshToken := RefreshRecord(id, RefreshTokenExpiration(cfg, now))]
    {
      var found := FindFirst(users, (u: User) => u.email == email);
      if found.None? {
        return Err(InvalidCredentials);
      }
      var id := found.value;
      UniqueEmail(users, id);
      var u := users[id];
      if !ApiAuthLib.VerifyPassword(password, u.password) {
        return Err(InvalidCredentials);
      }
      users := users[id := u.(lastLoginAt := Some(now))];
      var tokens := GenerateAuthTokens(cfg, Jwt.Fresh(Jwt.Claims(id, u.email, u.role)), now);
      if tokens.Failure? || tokens.value.refreshToken in refreshTokens {
        return Err(InternalServerError);
      }
      refreshTokens := refreshTokens[tokens.value.refreshToken := RefreshRecord(id, RefreshTokenExpiration(cfg, now))];
      return Ok(LoggedIn(View(id, u), tokens.value));
    }

    /** POST /auth/refresh, with the payload re-signed as login signs it
        (the handler as written never succeeds; see
        RefreshStore.RefreshAsWritten): the checks, then the old record is
        deleted before the new one is created. */
    method Refresh(token: string, now: nat) returns (r: Result<AuthTokens>)
      requires Valid()
      modifies this
      ensures Valid()
      ensures users == old(users) && outbox == old(outbox)
      ensures var rot := Rotate(cfg, old(refreshTokens), token, now, old(users).Keys);
              r == rot.result && refreshTokens == rot.store
    {
      var check := CheckRefresh(cfg, refreshTokens, token, now);
      if check.Err? {
        return Err(check.error);
      }
      var payload := check.value;
      var tokens := GenerateAuthTokens(cfg, ClaimsOf(payload), now);
      if tokens.Failure? {
        return Err(InternalServerError);
      }
      refreshTokens := map t | t in refreshTokens && t != token :: refreshTokens[t];
      if payload.claims.userId !in users || tokens.value.refreshToken in refreshTokens {
        return Err(InternalServerError);
      }
      refreshTokens := refreshTokens[tokens.value.refreshToken := RefreshRecord(payload.claims.userId, RefreshTokenExpiration(cfg, now))];
      return Ok(tokens.value);
    }

    /** POST /auth/logout: every refresh record of the caller goes, and no
        other. */
    method Logout(caller: Jwt.Payload) returns (message: string)
      requires Valid()
      modifies this
      ensures Valid()
      ensures users == old(users) && outbox == old(outbox)
      ensures refreshTokens == WithoutUser(old(refreshTokens), caller.claims.userId)
      ensures message == LoggedOutMessage
    {
      refreshTokens := WithoutUser(refreshTokens, caller.claims.userId);
      return LoggedOutMessage;
    }

    /** GET /auth/me: the caller's profile, or 404 when the token names no
        user. */
    method Me(caller: Jwt.Payload) returns (r: Result<Profile>)
      ensures r.Ok? <==> caller.claims.userId in users
      ensures r.Ok? ==> var u := users[caller.claims.userId];
                        r.value == Profile(View(caller.claims.userId, u), u.bio, u.createdAt)
      ensures r.Err? ==> r.error == UserNotFound
    {
      var id := caller.claims.userId;
      if id !in users {
        return Err(UserNotFound);
      }
      var u := users[id];
      return Ok(Profile(View(id, u), u.bio, u.createdAt));
    }

    /** POST /auth/verify-email: 400 without a token, 400 when no user holds
        its digest, 400 when that user's expiry has passed; otherwise the
        user is verified and the token and expiry are cleared. */
    method VerifyEmail(token: Option<string>, now: nat) returns (r: Result<string>)
      requires Valid()
      modifies this
      ensures Valid()
      ensures refreshTokens == old(refreshTokens)
      ensures r.Err? ==> users == old(users) && outbox == old(outbox)
      ensures !Truthy(token) ==> r == Err(VerificationTokenRequired)
      ensures Truthy(token) && (forall id :: id in old(users) ==> !HoldsVerification(old(users)[id], token.value))
              ==> r == Err(InvalidVerificationToken)
      ensures Truthy(token)
              && (exists id :: id in old(users) && HoldsVerification(old(users)[id], token.value))
              && (forall id :: id in old(users) && HoldsVerification(old(users)[id], token.value)
                               ==> !VerificationLapsed(old(users)[id], now))
              ==> r.Ok?
      ensures r == Err(VerificationTokenExpired) ==>
                exists id :: id in old(users) && HoldsVerification(old(users)[id], token.value)
                             && VerificationLapsed(old(users)[id], now)
      ensures r.Ok? ==>
                r.value == EmailVerifiedMessage && Truthy(token)
                && exists id :: id in old(users) && HoldsVerification(old(users)[id], token.value)
                                && !VerificationLapsed(old(users)[id], now)
                                && users == old(users)[id := Verified(old(users)[id])]
                                && outbox == old(outbox) + [WelcomeMail(old(users)[id].email, old(users)[id].name)]
    {
      if !Truthy(token) {
        return Err(VerificationTokenRequired);
      }
      var t := token.value;
      var found := FindFirst(users, (u: User) => HoldsVerification(u, t));
      if found.None? {
        return Err(InvalidVerificationToken);
      }
      var id := found.value;
      var u := users[id];
      if VerificationLapsed(u, now) {
        return Err(VerificationTokenExpired);
      }
      users := users[id := Verified(u)];
      outbox := outbox + [WelcomeMail(u.email, u.name)];
      return Ok(EmailVerifiedMessage);
    }

    /** POST /auth/resend-verification: the same answer whether or not the
        e-mail is known; 400 for an already verified user; otherwise a new
        verification token replaces the old one and is mailed. */
    method ResendVerification(email: Option<string>, random: RandomBytes32, now: nat) returns (r: Result<string>)
      requires Valid()
      modifies this
      ensures Valid()
      ensures refreshTokens == old(refreshTokens)
      ensures !Truthy(email) ==> r == Err(EmailRequired) && users == old(users) && outbox == old(outbox)
      ensures Truthy(email) ==>
                var found := UserWithEmail(old(users), email.value);
                if found.None? then r == Ok(ResendMessage) && users == old(users) && outbox == old(outbox)
                else
                  var u := old(users)[found.value];
                  var vt := GenerateVerificationToken(random, now);
                  if u.isEmailVerified then r == Err(AlreadyVerified) && users == old(users) && outbox == old(outbox)
                  else r == Ok(ResendMessage)
                       && users == old(users)[found.value := WithVerification(u, vt)]
                       && outbox == old(outbox) + [VerificationMail(u.email, vt.token, u.name)]
    {
      if !Truthy(email) {
        return Err(EmailRequired);
      }
      var e := email.value;
      var found := FindFirst(users, (u: User) => u.email == e);
      if found.None? {
        return Ok(ResendMessage);
      }
      var id := found.value;
      UniqueEmail(users, id);
      var u := users[id];
      if u.isEmailVerified {
        return Err(AlreadyVerified);
      }
      var vt := GenerateVerificationToken(random, now);
      users := users[id := WithVerification(u, vt)];
      outbox := outbox + [VerificationMail(u.email, vt.token, u.name)];
      return Ok(ResendMessage);
    }

    /** POST /auth/forgot-password: the same answer whether or not the
        e-mail is known; for a known one a reset token valid for an hour is
        stored as a digest and mailed. */
    method ForgotPassword(email: Option<string>, random: RandomBytes32, now: nat) returns (r: Result<string>)
      requires Valid()
      modifies this
      ensures Valid()
      ensures refreshTokens == old(refreshTokens)
      ensures !Truthy(email) ==> r == Err(EmailRequired) && users == old(users) && outbox == old(outbox)
      ensures Truthy(email) ==>
                r == Ok(ForgotMessage)
                && var found := UserWithEmail(old(users), email.value);
                   if found.None? then users == old(users) && outbox == old(outbox)
                   else
                     var u := old(users)[found.value];
                     var rt := GenerateResetToken(random, now);
                     users == old(users)[found.value := WithReset(u, rt)]
                     && outbox == old(outbox) + [ResetMail(u.email, rt.token, u.name)]
    {
      if !Truthy(email) {
        return Err(EmailRequired);
      }
      var e := email.value;
      var found := FindFirst(users, (u: User) => u.email == e);
      if found.None? {
        return Ok(ForgotMessage);
      }
      var id := found.value;
      UniqueEmail(users, id);
      var u := users[id];
      var rt := GenerateResetToken(random, now);
      users := users[id := WithReset(u, rt)];
      outbox := outbox + [ResetMail(u.email, rt.token, u.name)];
      return Ok(ForgotMessage);
    }

    /** POST /auth/reset-password: 400 without a token or a password, for a
        password under 8 characters, for a digest no user holds, or for a
        lapsed reset; otherwise the password is replaced, the reset fields
        cleared and every refresh record of the user deleted. */
    method ResetPassword(token: Option<string>, password: Option<string>, salt: seq<Byte>, now: nat)
      returns (r: Result<string>)
      requires Valid()
      modifies this
      ensures Valid()
      ensures outbox == old(outbox)
      ensures r.Err? ==> users == old(users) && refreshTokens == old(refreshTokens)
      ensures !Truthy(token) || !Truthy(password) ==> r == Err(TokenAndPasswordRequired)
      ensures Truthy(token) && Truthy(password) && |password.value| < 8 ==> r == Err(PasswordTooShort)
      ensures Truthy(token) && Truthy(password) && |password.value| >= 8
              && (forall id :: id in old(users) ==> !HoldsReset(old(users)[id], token.value))
              ==> r == Err(InvalidResetToken)
      ensures Truthy(token) && Truthy(password) && |password.value| >= 8
              && (exists id :: id in old(users) && HoldsReset(old(users)[id], token.value))
              && (forall id :: id in old(users) && HoldsReset(old(users)[id], token.value)
                               ==> !ResetLapsed(old(users)[id], now))
              ==> r.Ok?
      ensures r == Err(ResetTokenExpired) ==>
                exists id :: id in old(users) && HoldsReset(old(users)[id], token.value)
                             && ResetLapsed(old(users)[id], now)
      ensures r.Ok? ==>
                r.value == PasswordResetMessage && Truthy(token) && Truthy(password) && |password.value| >= 8
                && exists id :: id in old(users) && HoldsReset(old(users)[id], token.value)
                                && !ResetLapsed(old(users)[id], now)
                                && users == old(users)[id := WithNewPassword(old(users)[id], password.value, salt)]
                                && refreshTokens == WithoutUser(old(refreshTokens), id)
    {
      if !Truthy(token) || !Truthy(password) {
        return Err(TokenAndPasswordRequired);
      }
      var t := token.value;
      var p := password.value;
      if |p| < 8 {
        return Err(PasswordTooShort);
      }
      var found := FindFirst(users, (u: User) => HoldsReset(u, t));
      if found.None? {
        return Err(InvalidResetToken);
      }
      var id := found.value;
      var u := users[id];
      if ResetLapsed(u, now) {
        return Err(ResetTokenExpired);
      }
      users := users[id := WithNewPassword(u, p, salt)];
      refreshTokens := WithoutUser(refreshTokens, id);
      return Ok(PasswordResetMessage);
    }
  }

  // ---------------------------------------------------------------------
  // Sequences of requests.

  /** Presenting a refresh token again after it was rotated into a
      different one is refused. */
  method RefreshReplayRefused(db: AuthDb, token: string, now: nat, later: nat)
    returns (first: Result<AuthTokens>, second: Result<AuthTokens>)
    requires db.Valid()
    modifies db
    ensures first.Ok? && first.value.refreshToken != token ==> second.Err?
  {
    ghost var before := db.refreshTokens;
    ghost var ids := db.users.Keys;
    first := db.Refresh(token, now);
    second := db.Refresh(token, later);
    if first.Ok? && first.value.refreshToken != token {
      RotationIsOneShot(db.cfg, before, token, now, ids, later);
    }
  }

  /** After logout none of the caller's refresh tokens is accepted. */
  method LogoutEndsRefresh(db: AuthDb, caller: Jwt.Payload, token: string, now: nat)
    returns (r: Result<AuthTokens>)
    requires db.Valid()
    requires token in db.refreshTokens && db.refreshTokens[token].userId == caller.claims.userId
    modifies db
    ensures r.Err?
  {
    var _ := db.Logout(caller);
    r := db.Refresh(token, now);
  }

  /** A verification token works once: when it was the only one of its
      kind, using it again is answered "Invalid verification token". */
  method VerifyEmailOnce(db: AuthDb, token: string, now: nat, later: nat)
    returns (first: Result<string>, second: Result<string>)
    requires db.Valid() && token != ""
    requires forall a, b ::
               (a in db.users && b in db.users && HoldsVerification(db.users[a], token)
                && HoldsVerification(db.users[b], token)) ==> a == b
    modifies db
    ensures first.Ok? ==> second == Err(InvalidVerificationToken)
  {
    first := db.VerifyEmail(Some(token), now);
    second := db.VerifyEmail(Some(token), later);
  }

  /** A password reset ends every session of the user: a refresh token the
      user held before is refused afterwards, and the reset token itself
      cannot be used again. */
  method ResetEndsSessions(db: AuthDb, id: string, resetToken: string, password: string, salt: seq<Byte>,
                           refresh: string, now: nat, later: nat)
    returns (reset: Result<string>, again: Result<string>, r: Result<AuthTokens>)
    requires db.Valid() && resetToken != ""
    requires id in db.users && HoldsReset(db.users[id], resetToken)
    requires forall other :: other in db.users && HoldsReset(db.users[other], resetToken) ==> other == id
    requires refresh in db.refreshTokens && db.refreshTokens[refresh].userId == id
    modifies db
    ensures reset.Ok? ==> again == Err(InvalidResetToken) && r.Err?
  {
    reset := db.ResetPassword(Some(resetToken), Some(password), salt, now);
    again := db.ResetPassword(Some(resetToken), Some(password), salt, later);
    r := db.Refresh(refresh, later);
  }
}
