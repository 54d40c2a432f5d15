/** The token helpers of `lib/auth.ts`. Both API servers define them the
    same way (apps/api/src/lib/auth.ts and backend/src/lib/auth.ts); they
    differ only in the password hash, which ApiAuthLib and BackendAuthLib
    model. The process environment and the clock are parameters; the
    clock is the number of milliseconds since the epoch. */
module AuthLib {
  import opened Common
  import opened Decimal
  import opened Crypto
  import Jwt

  // ---------------------------------------------------------------------
  // Settings read from the environment.

  datatype Config = Config(jwtSecret: string, refreshSecret: string, expiresIn: string, refreshExpiresIn: string)

  /** `process.env[key] || fallback`: an unset or empty variable gives the
      fallback. */
  function Setting(env: map<string, string>, key: string, fallback: string): string
  {
    if key in env && env[key] != "" then env[key] else fallback
  }

  function ConfigFrom(env: map<string, string>): (cfg: Config)
    ensures cfg.jwtSecret != "" && cfg.refreshSecret != ""
    ensures cfg.expiresIn != "" && cfg.refreshExpiresIn != ""
  {
    Config(Setting(env, "JWT_SECRET", "your-secret-key"),
           Setting(env, "JWT_REFRESH_SECRET", "your-refresh-secret-key"),
           Setting(env, "JWT_EXPIRES_IN", "15m"),
           Setting(env, "JWT_REFRESH_EXPIRES_IN", "7d"))
  }

  /** Both lifetimes are texts that read as a number of milliseconds. */
  predicate ValidLifetimes(cfg: Config)
  {
    Jwt.TimespanMs(cfg.expiresIn).Some? && Jwt.TimespanMs(cfg.refreshExpiresIn).Some?
  }

  const MsPerHour := 3600000
  const MsPerDay := 24 * MsPerHour

  /** With nothing set, the two secrets differ, access tokens live 15
      minutes and refresh tokens 7 days. */
  lemma DefaultConfig()
    ensures var cfg := ConfigFrom(map[]);
            cfg.jwtSecret != cfg.refreshSecret
            && Jwt.TimespanMs(cfg.expiresIn) == Some(15 * 60000)
            && Jwt.TimespanMs(cfg.refreshExpiresIn) == Some(7 * MsPerDay)
  {
    var cfg := ConfigFrom(map[]);
    assert cfg.jwtSecret == "your-secret-key" && cfg.refreshSecret == "your-refresh-secret-key";
    assert cfg.jwtSecret[5] != cfg.refreshSecret[5];
    Jwt.DefaultLifetimes();
  }

  // ---------------------------------------------------------------------
  // Access and refresh tokens.

  datatype AuthTokens = AuthTokens(accessToken: string, refreshToken: string)

  /** `generateAccessToken`: throws exactly when the payload already has
      `exp` or the lifetime cannot be read. */
  function GenerateAccessToken(cfg: Config, p: Jwt.Payload, now: nat): (r: Outcome<string, Jwt.SignError>)
    ensures r.Success? <==> cfg.jwtSecret != "" && p.exp.None? && Jwt.TimespanMs(cfg.expiresIn).Some?
  {
    Jwt.Sign(cfg.jwtSecret, p, cfg.expiresIn, now)
  }

  function GenerateRefreshToken(cfg: Config, p: Jwt.Payload, now: nat): (r: Outcome<string, Jwt.SignError>)
    ensures r.Success? <==> cfg.refreshSecret != "" && p.exp.None? && Jwt.TimespanMs(cfg.refreshExpiresIn).Some?
  {
    Jwt.Sign(cfg.refreshSecret, p, cfg.refreshExpiresIn, now)
  }

  /** Signs the access token, then the refresh token; a throwing sign stops
      the pair. */
  function GenerateAuthTokens(cfg: Config, p: Jwt.Payload, now: nat): (r: Outcome<AuthTokens, Jwt.SignError>)
    ensures r.Success? <==> GenerateAccessToken(cfg, p, now).Success? && GenerateRefreshToken(cfg, p, now).Success?
    ensures r.Success? ==> r.value.accessToken == GenerateAccessToken(cfg, p, now).value
                           && r.value.refreshToken == GenerateRefreshToken(cfg, p, now).value
    ensures GenerateAccessToken(cfg, p, now).Failure? ==> r == Failure(GenerateAccessToken(cfg, p, now).error)
  {
    match GenerateAccessToken(cfg, p, now)
    case Failure(e) => Failure(e)
    case Success(access) =>
      match GenerateRefreshToken(cfg, p, now)
      case Failure(e) => Failure(e)
      case Success(refresh) => Success(AuthTokens(access, refresh))
  }

  /** `verifyAccessToken`: a payload it returns is unexpired and names the
      claims the token was signed with. */
  function VerifyAccessToken(cfg: Config, token: string, now: nat): (r: Outcome<Jwt.Payload, Jwt.VerifyError>)
    ensures r.Success? ==> r.value.exp.Some? && now / 1000 < r.value.exp.value
  {
    Jwt.Verify(cfg.jwtSecret, token, now)
  }

  function VerifyRefreshToken(cfg: Config, token: string, now: nat): (r: Outcome<Jwt.Payload, Jwt.VerifyError>)
    ensures r.Success? ==> r.value.exp.Some? && now / 1000 < r.value.exp.value
  {
    Jwt.Verify(cfg.refreshSecret, token, now)
  }

  /** For a payload built from the claims, a configuration with usable
      lifetimes issues both tokens; each verifies, under its own secret
      only, until its own expiry and gives back the claims; the access
      token expires `expiresIn` after the signing second. */
  lemma AuthTokensFromClaims(cfg: Config, c: Jwt.Claims, now: nat, later: nat)
    requires cfg.jwtSecret != "" && cfg.refreshSecret != "" && cfg.jwtSecret != cfg.refreshSecret
    requires ValidLifetimes(cfg)
    ensures GenerateAuthTokens(cfg, Jwt.Fresh(c), now).Success?
    ensures var t := GenerateAuthTokens(cfg, Jwt.Fresh(c), now).value;
            var a := VerifyAccessToken(cfg, t.accessToken, later);
            var r := VerifyRefreshToken(cfg, t.refreshToken, later);
            (a.Success? <==> later / 1000 < Jwt.ExpiryOf(t.accessToken))
            && (a.Success? ==> a.value.claims == c)
            && (r.Success? <==> later / 1000 < Jwt.ExpiryOf(t.refreshToken))
            && (r.Success? ==> r.value.claims == c)
            && VerifyAccessToken(cfg, t.refreshToken, later).Failure?
            && VerifyRefreshToken(cfg, t.accessToken, later).Failure?
            && Jwt.ExpiryOf(t.accessToken) == now / 1000 + Jwt.TimespanMs(cfg.expiresIn).value / 1000
  {
    var iat := now / 1000;
    var accessExp := iat + Jwt.TimespanMs(cfg.expiresIn).value / 1000;
    var refreshExp := iat + Jwt.TimespanMs(cfg.refreshExpiresIn).value / 1000;
    GeneratedPair(cfg, c, now);
    PairVerifies(cfg, Jwt.Token(cfg.jwtSecret, c, iat, accessExp), Jwt.Token(cfg.refreshSecret, c, iat, refreshExp),
                 c, iat, accessExp, refreshExp, later);
  }

  /** The pair signed over fresh claims, written out. */
  lemma GeneratedPair(cfg: Config, c: Jwt.Claims, now: nat)
    requires cfg.jwtSecret != "" && cfg.refreshSecret != ""
    requires ValidLifetimes(cfg)
    ensures GenerateAuthTokens(cfg, Jwt.Fresh(c), now) ==
              Success(AuthTokens(
                Jwt.Token(cfg.jwtSecret, c, now / 1000, now / 1000 + Jwt.TimespanMs(cfg.expiresIn).value / 1000),
                Jwt.Token(cfg.refreshSecret, c, now / 1000, now / 1000 + Jwt.TimespanMs(cfg.refreshExpiresIn).value / 1000)))
  {
    AccessSigned(cfg, c, now);
    RefreshSigned(cfg, c, now);
    PairOfSigned(cfg, Jwt.Fresh(c), now,
                 Jwt.Token(cfg.jwtSecret, c, now / 1000, now / 1000 + Jwt.TimespanMs(cfg.expiresIn).value / 1000),
                 Jwt.Token(cfg.refreshSecret, c, now / 1000, now / 1000 + Jwt.TimespanMs(cfg.refreshExpiresIn).value / 1000));
  }

  lemma AccessSigned(cfg: Config, c: Jwt.Claims, now: nat)
    requires cfg.jwtSecret != "" && Jwt.TimespanMs(cfg.expiresIn).Some?
    ensures GenerateAccessToken(cfg, Jwt.Fresh(c), now)
            == Success(Jwt.Token(cfg.jwtSecret, c, now / 1000, now / 1000 + Jwt.TimespanMs(cfg.expiresIn).value / 1000))
  {
    Jwt.SignFresh(cfg.jwtSecret, c, cfg.expiresIn, now, now / 1000, Jwt.TimespanMs(cfg.expiresIn).value);
  }

  lemma RefreshSigned(cfg: Config, c: Jwt.Claims, now: nat)
    requires cfg.refreshSecret != "" && Jwt.TimespanMs(cfg.refreshExpiresIn).Some?
    ensures GenerateRefreshToken(cfg, Jwt.Fresh(c), now)
            == Success(Jwt.Token(cfg.refreshSecret, c, now / 1000, now / 1000 + Jwt.TimespanMs(cfg.refreshExpiresIn).value / 1000))
  {
    Jwt.SignFresh(cfg.refreshSecret, c, cfg.refreshExpiresIn, now, now / 1000, Jwt.TimespanMs(cfg.refreshExpiresIn).value);
  }

  lemma PairOfSigned(cfg: Config, p: Jwt.Payload, now: nat, access: string, refresh: string)
    requires GenerateAccessToken(cfg, p, now) == Success(access)
    requires GenerateRefreshToken(cfg, p, now) == Success(refresh)
    ensures GenerateAuthTokens(cfg, p, now) == Success(AuthTokens(access, refresh))
  {
  }

  /** The verification facts about a pair of tokens signed over the same
      claims under the two secrets. */
  lemma PairVerifies(cfg: Config, access: string, refresh: string, c: Jwt.Claims, iat: nat,
                     accessExp: nat, refreshExp: nat, later: nat)
    requires cfg.jwtSecret != "" && cfg.refreshSecret != "" && cfg.jwtSecret != cfg.refreshSecret
    requires access == Jwt.Token(cfg.jwtSecret, c, iat, accessExp)
    requires refresh == Jwt.Token(cfg.refreshSecret, c, iat, refreshExp)
    ensures var a := VerifyAccessToken(cfg, access, later);
            var r := VerifyRefreshToken(cfg, refresh, later);
            (a.Success? <==> later / 1000 < Jwt.ExpiryOf(access))
            && (a.Success? ==> a.value.claims == c)
            && (r.Success? <==> later / 1000 < Jwt.ExpiryOf(refresh))
            && (r.Success? ==> r.value.claims == c)
            && VerifyAccessToken(cfg, refresh, later).Failure?
            && VerifyRefreshToken(cfg, access, later).Failure?
            && Jwt.ExpiryOf(access) == accessExp
  {
    Jwt.VerifyToken(cfg.jwtSecret, cfg.jwtSecret, c, iat, accessExp, later);
    Jwt.VerifyToken(cfg.refreshSecret, cfg.refreshSecret, c, iat, refreshExp, later);
    Jwt.VerifyToken(cfg.refreshSecret, cfg.jwtSecret, c, iat, refreshExp, later);
    Jwt.VerifyToken(cfg.jwtSecret, cfg.refreshSecret, c, iat, accessExp, later);
  }

  /** Signing a payload that came out of a verification throws, whatever
      the configuration. */
  lemma ReissueVerifiedFails(cfg: Config, token: string, now: nat, later: nat)
    requires VerifyRefreshToken(cfg, token, now).Success?
    ensures GenerateAuthTokens(cfg, VerifyRefreshToken(cfg, token, now).value, later).Failure?
  {
    var p := VerifyRefreshToken(cfg, token, now).value;
    assert p.exp.Some?;
    assert GenerateAccessToken(cfg, p, later).Failure?;
  }

  // ---------------------------------------------------------------------
  // Expiry of the stored refresh record.

  /** `s.replace(c, "")`: removes the first occurrence of c. */
  function RemoveFirst(s: string, c: char): (r: string)
    ensures c !in s ==> r == s
    ensures c in s ==> |r| == |s| - 1
  {
    if s == [] then s
    else if s[0] == c then s[1..]
    else [s[0]] + RemoveFirst(s[1..], c)
  }

  /** The whole days `getRefreshTokenExpiration` reads from the setting:
      the leading integer once the first `d` is removed, or 7 when that is
      NaN or 0. */
  function RefreshLifetimeDays(setting: string): (d: int)
    ensures d != 0
    ensures d == 7 || ParseInt(RemoveFirst(setting, 'd')) == Some(d)
    ensures ParseInt(RemoveFirst(setting, 'd')) in {None, Some(0), Some(7)} ==> d == 7
  {
    var days := ParseInt(RemoveFirst(setting, 'd'));
    if days.None? || days.value == 0 then 7 else days.value
  }

  /** `getRefreshTokenExpiration`: never the present instant, and 7 days
      from now when the setting does not read as a non-zero day count. */
  function RefreshTokenExpiration(cfg: Config, now: nat): (t: int)
    ensures t != now
    ensures ParseInt(RemoveFirst(cfg.refreshExpiresIn, 'd')) in {None, Some(0), Some(7)} ==> t == now + 7 * MsPerDay
  {
    var d := RefreshLifetimeDays(cfg.refreshExpiresIn);
    DaysOffsetNonZero(d);
    now + d * MsPerDay
  }

  lemma DaysOffsetNonZero(d: int)
    requires d != 0
    ensures d * MsPerDay != 0
  {
  }

  /** A setting "<n>d" gives a record that expires n days from now, except
      that "0d" gives 7 days. */
  lemma RefreshExpirationInDays(cfg: Config, n: nat, now: nat)
    requires cfg.refreshExpiresIn == NatToString(n) + "d"
    ensures RefreshTokenExpiration(cfg, now) == now + (if n == 0 then 7 else n) * MsPerDay
  {
    var s := NatToString(n);
    RemoveFirstNoOccurrence(s, "d");
    assert RemoveFirst(s + "d", 'd') == s by {
      assert s + "d" == s + "d" + "";
      RemoveFirstNoOccurrence(s, "");
    }
    ParseIntOfNatToString(n, "");
    assert s + "" == s;
  }

  /** Removing the first `d` from a digit text followed by "d"+rest gives the
      digits followed by rest. */
  lemma {:induction false} RemoveFirstNoOccurrence(s: string, rest: string)
    requires AllDigits(s)
    ensures RemoveFirst(s + "d" + rest, 'd') == s + rest
  {
    if s != [] {
      assert (s + "d" + rest)[1..] == s[1..] + "d" + rest;
      RemoveFirstNoOccurrence(s[1..], rest);
      assert [s[0]] + (s[1..] + rest) == s + rest;
    }
  }

  /** A setting in hours, "<n>h", is read as n days for the stored record
      while the refresh JWT itself lives n hours: the two lifetimes agree
      only for settings in days. */
  lemma HourSettingReadAsDays(cfg: Config, n: nat, now: nat)
    requires n > 0 && cfg.refreshExpiresIn == NatToString(n) + "h" && |NatToString(n)| < 100
    ensures RefreshTokenExpiration(cfg, now) == now + n * MsPerDay
    ensures Jwt.TimespanMs(cfg.refreshExpiresIn) == Some(n * MsPerHour)
  {
    var s := NatToString(n);
    NoDigitD(s);
    assert 'd' !in s + "h";
    ParseIntOfNatToString(n, "h");
    Jwt.LetterUnits();
    Jwt.TimespanOfDigits(s, "h", MsPerHour);
    NatToStringRoundTrip(n);
  }

  lemma NoDigitD(s: string)
    requires AllDigits(s)
    ensures 'd' !in s
  {
    assert forall i :: 0 <= i < |s| ==> s[i] != 'd';
  }

  // ---------------------------------------------------------------------
  // One-time tokens for e-mail verification and password reset.

  /** `generateSecureToken`: 32 random bytes as 64 lower-case hex digits. */
  function GenerateSecureToken(random: RandomBytes32): (t: string)
    ensures |t| == 64 && forall i :: 0 <= i < |t| ==> IsHexChar(t[i])
    ensures HexDecode(t) == Some(random)
  {
    HexRoundTrip(random);
    HexEncode(random)
  }

  datatype OneTimeToken = OneTimeToken(token: string, expiresAt: int)

  function GenerateVerificationToken(random: RandomBytes32, now: int): (t: OneTimeToken)
    ensures HexDecode(t.token) == Some(random) && t.expiresAt == now + 24 * MsPerHour
  {
    OneTimeToken(GenerateSecureToken(random), now + 24 * MsPerHour)
  }

  function GenerateResetToken(random: RandomBytes32, now: int): (t: OneTimeToken)
    ensures HexDecode(t.token) == Some(random) && t.expiresAt == now + MsPerHour
  {
    OneTimeToken(GenerateSecureToken(random), now + MsPerHour)
  }

  /** `new Date() > expiresAt`. */
  predicate IsTokenExpired(expiresAt: int, now: int)
  {
    now > expiresAt
  }

  /** A verification token is accepted up to and including the instant
      24 hours after it was issued, a reset token up to and including the
      instant one hour after; so the reset token runs out first. */
  lemma OneTimeTokenWindows(random: RandomBytes32, issued: int, now: int)
    ensures !IsTokenExpired(GenerateVerificationToken(random, issued).expiresAt, now)
            <==> now <= issued + 24 * MsPerHour
    ensures !IsTokenExpired(GenerateResetToken(random, issued).expiresAt, now)
            <==> now <= issued + MsPerHour
    ensures GenerateResetToken(random, issued).expiresAt < GenerateVerificationToken(random, issued).expiresAt
  {
  }

  /** Once expired, a one-time token stays expired. */
  lemma ExpiryIsFinal(expiresAt: int, now: int, later: int)
    requires IsTokenExpired(expiresAt, now) && now <= later
    ensures IsTokenExpired(expiresAt, later)
  {
  }

  /** `hashToken`: the SHA-256 digest kept instead of the token. */
  function HashToken(token: string): Digest
  {
    Sha256(token)
  }

  /** Looking a token up by its digest finds exactly the rows whose digest
      was taken of that same token. */
  lemma HashTokenMatches(a: string, b: string)
    ensures HashToken(a) == HashToken(b) <==> a == b
  {
  }
}
