/** The refresh-token allow-list both API servers keep in the database
    (`db.refreshToken`): a record per issued refresh token, naming its owner
    and when it stops being accepted. The checks and the rotation step are
    the same in apps/api/src/routes/auth.routes.ts and
    backend/src/routes/auth.routes.ts. */
module RefreshStore {
  import opened Common
  import opened AuthLib
  import Jwt

  datatype RefreshRecord = RefreshRecord(userId: string, expiresAt: int)

  /** `deleteMany({ where: { userId } })`. */
  function WithoutUser(store: map<string, RefreshRecord>, userId: string): (r: map<string, RefreshRecord>)
    ensures forall t :: t in r <==> t in store && store[t].userId != userId
    ensures forall t :: t in r ==> r[t] == store[t]
  {
    map t | t in store && store[t].userId != userId :: store[t]
  }

  /** After a purge the user owns no record, and the records of every other
      user are all still there. */
  lemma WithoutUserPurges(store: map<string, RefreshRecord>, userId: string, other: string)
    requires other != userId
    ensures forall t :: t in WithoutUser(store, userId) ==> WithoutUser(store, userId)[t].userId != userId
    ensures forall t :: t in store && store[t].userId == other ==> t in WithoutUser(store, userId)
  {
  }

  const InvalidRefreshToken := HttpError(401, "Invalid refresh token")
  const RefreshExpiredOrInvalid := HttpError(401, "Refresh token expired or invalid")

  /** The two checks of POST /auth/refresh: the token must verify under
      the refresh secret, and its record must be present with an expiry not
      before now. */
  function CheckRefresh(cfg: Config, store: map<string, RefreshRecord>, token: string, now: nat): (r: Result<Jwt.Payload>)
    ensures r.Ok? <==> VerifyRefreshToken(cfg, token, now).Success? && token in store && store[token].expiresAt >= now
    ensures r.Ok? ==> r.value == VerifyRefreshToken(cfg, token, now).value
    ensures VerifyRefreshToken(cfg, token, now).Failure? ==> r == Err(InvalidRefreshToken)
    ensures VerifyRefreshToken(cfg, token, now).Success? && r.Err? ==> r == Err(RefreshExpiredOrInvalid)
  {
    var v := VerifyRefreshToken(cfg, token, now);
    if v.Failure? then Err(InvalidRefreshToken)
    else if token !in store || store[token].expiresAt < now then Err(RefreshExpiredOrInvalid)
    else Ok(v.value)
  }

  /** POST /auth/refresh as written: it passes the verified payload, which
      carries `iat` and `exp`, back to `generateAuthTokens`, and jsonwebtoken
      refuses to sign a payload that has `exp` when `expiresIn` is given. So
      every request that passes the checks ends in a 500 before the old
      record is deleted, and no request ever gets new tokens. */
  function RefreshAsWritten(cfg: Config, store: map<string, RefreshRecord>, token: string, now: nat): (r: Result<AuthTokens>)
    ensures r.Err?
    ensures CheckRefresh(cfg, store, token, now).Err? ==> r.error == CheckRefresh(cfg, store, token, now).error
    ensures CheckRefresh(cfg, store, token, now).Ok? ==> r.error == InternalServerError
  {
    match CheckRefresh(cfg, store, token, now)
    case Err(e) => Err(e)
    case Ok(payload) =>
      ReissueVerifiedFails(cfg, token, now, now);
      match GenerateAuthTokens(cfg, payload, now)
      case Failure(_) => Err(InternalServerError)
      case Success(tokens) => Ok(tokens)
  }

  /** The claims the corrected handler signs again: only userId, email and
      role, as login does. */
  function ClaimsOf(p: Jwt.Payload): Jwt.Payload
  {
    Jwt.Fresh(p.claims)
  }

  /** What the corrected rotation leaves in the store: the old record
      deleted first, then the new one created, which fails (a 500) when its
      owner is not among the user ids or its token is already a key. */
  datatype Rotation = Rotation(result: Result<AuthTokens>, store: map<string, RefreshRecord>)

  function Rotate(cfg: Config, store: map<string, RefreshRecord>, token: string, now: nat, userIds: set<string>): (r: Rotation)
    ensures CheckRefresh(cfg, store, token, now).Err? ==> r == Rotation(Err(CheckRefresh(cfg, store, token, now).error), store)
    ensures r.result.Ok? ==> token in store && r.store.Keys == store.Keys - {token} + {r.result.value.refreshToken}
    ensures r.result.Ok? ==>
              r.store[r.result.value.refreshToken]
              == RefreshRecord(VerifyRefreshToken(cfg, token, now).value.claims.userId, RefreshTokenExpiration(cfg, now))
    ensures r.result.Err? ==> r.store == store || r.store == map t | t in store && t != token :: store[t]
  {
    match CheckRefresh(cfg, store, token, now)
    case Err(e) => Rotation(Err(e), store)
    case Ok(payload) =>
      match GenerateAuthTokens(cfg, ClaimsOf(payload), now)
      case Failure(_) => Rotation(Err(InternalServerError), store)
      case Success(tokens) =>
        var rest := map t | t in store && t != token :: store[t];
        if payload.claims.userId !in userIds || tokens.refreshToken in rest then
          Rotation(Err(InternalServerError), rest)
        else
          Rotation(Ok(tokens), rest[tokens.refreshToken := RefreshRecord(payload.claims.userId, RefreshTokenExpiration(cfg, now))])
  }

  /** Rotation is one-shot: once it has answered with a new refresh token
      different from the presented one, presenting the old token again is
      refused. */
  lemma RotationIsOneShot(cfg: Config, store: map<string, RefreshRecord>, token: string, now: nat,
                          userIds: set<string>, later: nat)
    requires Rotate(cfg, store, token, now, userIds).result.Ok?
    requires Rotate(cfg, store, token, now, userIds).result.value.refreshToken != token
    ensures CheckRefresh(cfg, Rotate(cfg, store, token, now, userIds).store, token, later)
         == Err(if VerifyRefreshToken(cfg, token, later).Success? then RefreshExpiredOrInvalid else InvalidRefreshToken)
  {
  }

  /** The tokens a rotation hands out carry the claims of the presented
      token: they verify, until their own expiry, as the same user. */
  lemma RotationKeepsClaims(cfg: Config, store: map<string, RefreshRecord>, token: string, now: nat,
                            userIds: set<string>, later: nat)
    requires cfg.jwtSecret != "" && cfg.refreshSecret != "" && cfg.jwtSecret != cfg.refreshSecret
    requires Rotate(cfg, store, token, now, userIds).result.Ok?
    ensures var c := VerifyRefreshToken(cfg, token, now).value.claims;
            var t := Rotate(cfg, store, token, now, userIds).result.value;
            var a := VerifyAccessToken(cfg, t.accessToken, later);
            var f := VerifyRefreshToken(cfg, t.refreshToken, later);
            (a.Success? ==> a.value.claims == c) && (f.Success? ==> f.value.claims == c)
            && (later / 1000 < Jwt.ExpiryOf(t.accessToken) ==> a.Success?)
            && (later / 1000 < Jwt.ExpiryOf(t.refreshToken) ==> f.Success?)
  {
    var c := VerifyRefreshToken(cfg, token, now).value.claims;
    assert GenerateAuthTokens(cfg, Jwt.Fresh(c), now).Success?;
    assert ValidLifetimes(cfg);
    AuthTokensFromClaims(cfg, c, now, later);
  }
}
