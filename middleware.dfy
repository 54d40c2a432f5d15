/** The request gate of apps/api/src/middleware/auth.middleware.ts.

    A request context holds the Authorization header and, once a gate has
    set it, the verified token payload (`c.get('user')`). What `next()`
    does is not modelled: the handlers after a gate are another part of
    the model, and a gate is told only whether `next()` returned or threw. */
module Middleware {
  import opened Common
  import opened AuthLib
  import Jwt

  class RequestContext {
    const authorization: Option<string>
    var user: Option<Jwt.Payload>

    constructor(authorization: Option<string>)
      ensures this.authorization == authorization && user == None
    {
      this.authorization := authorization;
      user := None;
    }
  }

  /** How the rest of the chain ended. */
  datatype NextOutcome = Returned | Threw

  /** What a gate does with the request: let it through (having run the
      rest of the chain) or answer with an error. */
  datatype Gate = Passed | Rejected(error: HttpError)

  const NoToken := HttpError(401, "Unauthorized - No token provided")
  const InvalidToken := HttpError(401, "Unauthorized - Invalid token")
  const NoUser := HttpError(401, "Unauthorized")
  const InsufficientPermissions := HttpError(403, "Forbidden - Insufficient permissions")

  const BearerPrefix := "Bearer "

  /** The credential of an `Authorization: Bearer <token>` header: the
      header without its first seven characters, when it starts with
      "Bearer " (case and spacing exactly so). */
  function ExtractBearer(header: Option<string>): (t: Option<string>)
    ensures t.Some? <==> header.Some? && |header.value| >= 7 && header.value[..7] == BearerPrefix
    ensures t.Some? ==> header.value == BearerPrefix + t.value
  {
    if header.Some? && |header.value| >= 7 && header.value[..7] == BearerPrefix then
      Some(header.value[7..])
    else None
  }

  lemma ExtractBearerRoundTrip(token: string)
    ensures ExtractBearer(Some(BearerPrefix + token)) == Some(token)
  {
    assert (BearerPrefix + token)[..7] == BearerPrefix;
    assert (BearerPrefix + token)[7..] == token;
  }

  /** `authMiddleware`. On a verified access token the payload is stored
      in the context before the rest of the chain runs; because `next()`
      runs inside the same try, a throw from the rest of the chain is also
      answered with "Invalid token". */
  method AuthMiddleware(ctx: RequestContext, cfg: Config, now: nat, next: NextOutcome) returns (g: Gate)
    modifies ctx
    ensures ExtractBearer(ctx.authorization).None? ==> g == Rejected(NoToken) && ctx.user == old(ctx.user)
    ensures ExtractBearer(ctx.authorization).Some? ==>
              var v := VerifyAccessToken(cfg, ExtractBearer(ctx.authorization).value, now);
              if v.Failure? then g == Rejected(InvalidToken) && ctx.user == old(ctx.user)
              else ctx.user == Some(v.value) && g == (if next == Threw then Rejected(InvalidToken) else Passed)
  {
    var token := ExtractBearer(ctx.authorization);
    if token.None? {
      return Rejected(NoToken);
    }
    var payload := VerifyAccessToken(cfg, token.value, now);
    if payload.Failure? {
      return Rejected(InvalidToken);
    }
    ctx.user := Some(payload.value);
    if next == Threw {
      return Rejected(InvalidToken);
    }
    return Passed;
  }

  /** `optionalAuth`: never rejects; sets the user only for a well-formed
      header carrying a verifying access token. */
  method OptionalAuth(ctx: RequestContext, cfg: Config, now: nat)
    modifies ctx
    ensures var t := ExtractBearer(ctx.authorization);
            if t.Some? && VerifyAccessToken(cfg, t.value, now).Success?
            then ctx.user == Some(VerifyAccessToken(cfg, t.value, now).value)
            else ctx.user == old(ctx.user)
  {
    var token := ExtractBearer(ctx.authorization);
    if token.Some? {
      var payload := VerifyAccessToken(cfg, token.value, now);
      if payload.Success? {
        ctx.user := Some(payload.value);
      }
    }
  }

  /** `requireRole(...roles)` on the user a previous gate set. */
  function RequireRole(roles: seq<Role>, user: Option<Jwt.Payload>): (g: Gate)
    ensures g == Passed <==> user.Some? && user.value.claims.role in roles
    ensures user.None? ==> g == Rejected(NoUser)
    ensures user.Some? && user.value.claims.role !in roles ==> g == Rejected(InsufficientPermissions)
  {
    if user.None? then Rejected(NoUser)
    else if user.value.claims.role !in roles then Rejected(InsufficientPermissions)
    else Passed
  }

  function RequireAdmin(user: Option<Jwt.Payload>): (g: Gate)
    ensures g == Passed <==> user.Some? && user.value.claims.role == ADMIN
  {
    RequireRole([ADMIN], user)
  }

  function RequireInstructor(user: Option<Jwt.Payload>): (g: Gate)
    ensures g == Passed <==> user.Some? && (user.value.claims.role == ADMIN || user.value.claims.role == INSTRUCTOR)
  {
    RequireRole([ADMIN, INSTRUCTOR], user)
  }

  /** `requireAdmin` admits exactly ADMIN, `requireInstructor` exactly ADMIN
      and INSTRUCTOR. */
  lemma RoleGates(user: Option<Jwt.Payload>)
    ensures RequireAdmin(user) == Passed <==> user.Some? && user.value.claims.role == ADMIN
    ensures RequireInstructor(user) == Passed
        <==> user.Some? && (user.value.claims.role == ADMIN || user.value.claims.role == INSTRUCTOR)
    ensures user.Some? && user.value.claims.role == LEARNER
        ==> RequireAdmin(user) == Rejected(InsufficientPermissions)
            && RequireInstructor(user) == Rejected(InsufficientPermissions)
  {
  }

  /** The payload the gates would store for a header: the access token it
      carries, verified. */
  function BearerPayload(cfg: Config, header: Option<string>, now: nat): Option<Jwt.Payload>
  {
    var t := ExtractBearer(header);
    if t.None? then None
    else
      var v := VerifyAccessToken(cfg, t.value, now);
      if v.Success? then Some(v.value) else None
  }

  /** A client presenting the access token issued for some claims is let in
      as those claims until the token's expiry; presenting the refresh
      token instead is refused. */
  lemma IssuedTokensAtTheGate(cfg: Config, c: Jwt.Claims, issuedAt: nat, now: nat)
    requires cfg.jwtSecret != "" && cfg.refreshSecret != "" && cfg.jwtSecret != cfg.refreshSecret
    requires ValidLifetimes(cfg)
    ensures var t := GenerateAuthTokens(cfg, Jwt.Fresh(c), issuedAt).value;
            var p := BearerPayload(cfg, Some(BearerPrefix + t.accessToken), now);
            (p.Some? <==> now / 1000 < Jwt.ExpiryOf(t.accessToken))
            && (p.Some? ==> p.value.claims == c)
            && BearerPayload(cfg, Some(BearerPrefix + t.refreshToken), now).None?
  {
    AuthTokensFromClaims(cfg, c, issuedAt, now);
    var t := GenerateAuthTokens(cfg, Jwt.Fresh(c), issuedAt).value;
    BearerOf(cfg, t.accessToken, now);
    BearerOf(cfg, t.refreshToken, now);
  }

  lemma BearerOf(cfg: Config, token: string, now: nat)
    ensures BearerPayload(cfg, Some(BearerPrefix + token), now) ==
              if VerifyAccessToken(cfg, token, now).Success? then Some(VerifyAccessToken(cfg, token, now).value) else None
  {
    ExtractBearerRoundTrip(token);
  }
}
