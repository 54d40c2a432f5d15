/** The JSON Web Token library (RFC 7519, HS256 signatures) as the auth
    helpers use it: `jwt.sign(payload, secret, { expiresIn })` and
    `jwt.verify(token, secret)`.

    The model is symbolic. A token is a string: the length-prefixed texts
    of the claims (userId, email, role, iat, exp) followed by a signature
    that is a function of the secret and of those texts, injective in the
    secret. Base64url, JSON and HMAC-SHA256 themselves are not modelled, and
    nothing here says that a token cannot be forged by someone who does not
    hold the secret. */
module Jwt {
  import opened Common
  import opened Decimal

  // ---------------------------------------------------------------------
  // Length-prefixed texts: "<length>:<text>".

  function Net(s: string): (r: string)
    ensures |r| > |s|
  {
    NatToString(|s|) + ":" + s
  }

  /** Reads one length-prefixed text from the front of s, returning it and
      what follows. */
  function ReadNet(s: string): (r: Option<(string, string)>)
    ensures r.Some? ==> |r.value.1| < |s|
  {
    var k := DigitRun(s);
    if k == 0 || k >= |s| || s[k] != ':' then None
    else
      var len := DigitsValue(s[..k]);
      if k + 1 + len > |s| then None
      else Some((s[k + 1..k + 1 + len], s[k + 1 + len..]))
  }

  lemma NetRoundTrip(f: string, rest: string)
    ensures ReadNet(Net(f) + rest) == Some((f, rest))
  {
    var d := NatToString(|f|);
    var s := Net(f) + rest;
    assert s == d + (":" + f + rest);
    DigitRunOfDigits(d, ":" + f + rest);
    assert s[..|d|] == d;
    NatToStringRoundTrip(|f|);
    assert s[|d| + 1..|d| + 1 + |f|] == f;
    assert s[|d| + 1 + |f|..] == rest;
  }

  function EncodeFields(fs: seq<string>): string
  {
    if fs == [] then "" else Net(fs[0]) + EncodeFields(fs[1..])
  }

  function DecodeFields(s: string): Option<seq<string>>
    decreases |s|
  {
    if s == [] then Some([])
    else
      match ReadNet(s)
      case None => None
      case Some((f, rest)) =>
        match DecodeFields(rest)
        case None => None
        case Some(fs) => Some([f] + fs)
  }

  lemma {:induction false} FieldsRoundTrip(fs: seq<string>)
    ensures DecodeFields(EncodeFields(fs)) == Some(fs)
  {
    if fs != [] {
      var rest := EncodeFields(fs[1..]);
      NetRoundTrip(fs[0], rest);
      FieldsRoundTrip(fs[1..]);
      assert [fs[0]] + fs[1..] == fs;
    }
  }

  // ---------------------------------------------------------------------
  // Payloads and tokens.

  /** `TokenPayload` of the auth helpers. */
  datatype Claims = Claims(userId: string, email: string, role: Role)

  /** A payload object as jsonwebtoken sees it: the claims plus the
      registered `iat` and `exp` claims (seconds since the epoch), which are
      absent from a freshly built payload and present in a verified one. */
  datatype Payload = Payload(claims: Claims, iat: Option<nat>, exp: Option<nat>)

  function Fresh(c: Claims): Payload
  {
    Payload(c, None, None)
  }

  /** The signature over the claims' text; a different secret gives a
      different signature. */
  function Signature(secret: string, body: string): string
  {
    Net(secret) + body
  }

  lemma SignatureDeterminesSecret(s1: string, s2: string, body: string)
    requires Signature(s1, body) == Signature(s2, body)
    ensures s1 == s2
  {
    NetRoundTrip(s1, body);
    NetRoundTrip(s2, body);
  }

  function Body(c: Claims, iat: nat, exp: nat): string
  {
    EncodeFields([c.userId, c.email, RoleName(c.role), NatToString(iat), NatToString(exp)])
  }

  function Token(secret: string, c: Claims, iat: nat, exp: nat): string
  {
    var body := Body(c, iat, exp);
    Net(body) + Net(Signature(secret, body))
  }

  /** Splits a token string into the claims' text and the signature. */
  function SplitToken(t: string): Option<(string, string)>
  {
    match ReadNet(t)
    case None => None
    case Some((body, rest)) =>
      match ReadNet(rest)
      case None => None
      case Some((sig, tail)) => if tail == [] then Some((body, sig)) else None
  }

  datatype Decoded = Decoded(claims: Claims, iat: nat, exp: nat)

  function DecodeBody(body: string): Option<Decoded>
  {
    match DecodeFields(body)
    case None => None
    case Some(fs) =>
      if |fs| != 5 then None
      else
        match RoleFromName(fs[2])
        case None => None
        case Some(role) =>
          if fs[3] == [] || !AllDigits(fs[3]) || fs[4] == [] || !AllDigits(fs[4]) then None
          else Some(Decoded(Claims(fs[0], fs[1], role), DigitsValue(fs[3]), DigitsValue(fs[4])))
  }

  lemma TokenDecodes(secret: string, c: Claims, iat: nat, exp: nat)
    ensures SplitToken(Token(secret, c, iat, exp))
         == Some((Body(c, iat, exp), Signature(secret, Body(c, iat, exp))))
    ensures DecodeBody(Body(c, iat, exp)) == Some(Decoded(c, iat, exp))
  {
    var body := Body(c, iat, exp);
    var sig := Signature(secret, body);
    NetRoundTrip(body, Net(sig));
    NetRoundTrip(sig, "");
    assert Net(sig) + "" == Net(sig);
    var fs := [c.userId, c.email, RoleName(c.role), NatToString(iat), NatToString(exp)];
    FieldsRoundTrip(fs);
    RoleNameRoundTrip(c.role);
    NatToStringRoundTrip(iat);
    NatToStringRoundTrip(exp);
  }

  // ---------------------------------------------------------------------
  // Lifetimes ("15m", "7d", "2 days", ...) read by the `ms` package:
  // a number, spaces, and an optional unit name in any case.

  /** Milliseconds in a unit name, matched without regard to case; no unit
      means milliseconds. A year is 365.25 days. */
  function UnitMs(unit: string): (r: Option<nat>)
  {
    var u := Lower(unit);
    if u in ["", "ms", "msec", "msecs", "millisecond", "milliseconds"] then Some(1)
    else if u in ["s", "sec", "secs", "second", "seconds"] then Some(1000)
    else if u in ["m", "min", "mins", "minute", "minutes"] then Some(60000)
    else if u in ["h", "hr", "hrs", "hour", "hours"] then Some(3600000)
    else if u in ["d", "day", "days"] then Some(86400000)
    else if u in ["w", "week", "weeks"] then Some(604800000)
    else if u in ["y", "yr", "yrs", "year", "years"] then Some(31557600000)
    else None
  }

  /** The number of spaces (U+0020 only) that open `s`. */
  function SpaceRun(s: string): (n: nat)
    ensures n <= |s| && (n == |s| || s[n] != ' ')
    ensures forall i :: 0 <= i < n ==> s[i] == ' '
  {
    if s != [] && s[0] == ' ' then 1 + SpaceRun(s[1..]) else 0
  }

  /** Milliseconds denoted by a lifetime text of at most 100 characters:
      digits, then spaces, then an optional unit. */
  function TimespanMs(s: string): (r: Option<nat>)
  {
    var k := DigitRun(s);
    if k == 0 || |s| > 100 then None
    else
      match UnitMs(s[k + SpaceRun(s[k..])..])
      case None => None
      case Some(unit) => Some(DigitsValue(s[..k]) * unit)
  }

  /** A digit text followed directly by a unit name reads as that many
      units. */
  lemma TimespanOfDigits(d: string, unit: string, ms: nat)
    requires d != [] && AllDigits(d) && |d| + |unit| <= 100
    requires unit == [] || (unit[0] != ' ' && !IsDigit(unit[0]))
    requires UnitMs(unit) == Some(ms)
    ensures TimespanMs(d + unit) == Some(DigitsValue(d) * ms)
  {
    DigitRunOfDigits(d, unit);
    var s := d + unit;
    assert s[..|d|] == d && s[|d|..] == unit;
  }

  /** The one-letter units of the configured lifetimes. */
  lemma LetterUnits()
    ensures UnitMs("m") == Some(60000) && UnitMs("h") == Some(3600000) && UnitMs("d") == Some(86400000)
  {
    assert Lower("m") == "m" && Lower("h") == "h" && Lower("d") == "d";
  }

  /** The lifetimes used when none is configured: "15m" and "7d". */
  lemma DefaultLifetimes()
    ensures TimespanMs("15m") == Some(15 * 60000)
    ensures TimespanMs("7d") == Some(7 * 86400000)
  {
    LetterUnits();
    TimespanOfDigits("15", "m", 60000);
    assert "15" + "m" == "15m";
    assert DigitsValue("15") == 15 by { assert "15"[..1] == "1"; }
    TimespanOfDigits("7", "d", 86400000);
    assert "7" + "d" == "7d";
    assert DigitsValue("7") == 7 by { assert "7"[..0] == ""; }
  }

  // ---------------------------------------------------------------------
  // sign and verify.

  datatype SignError = MissingSecret | ExpAlreadySet | BadExpiresIn

  /** The `iat` second sign writes: the payload's own when non-zero, else
      the clock's. */
  function IssuedAt(p: Payload, now: nat): nat
  {
    if p.iat.Some? && p.iat.value != 0 then p.iat.value else now / 1000
  }

  /** What a successful sign returns. */
  lemma SignIsToken(secret: string, p: Payload, expiresIn: string, now: nat)
    requires Sign(secret, p, expiresIn, now).Success?
    ensures TimespanMs(expiresIn).Some?
    ensures Sign(secret, p, expiresIn, now).value
         == Token(secret, p.claims, IssuedAt(p, now), IssuedAt(p, now) + TimespanMs(expiresIn).value / 1000)
  {
  }

  /** Signing a fresh payload stamps the clock's second. */
  lemma SignFresh(secret: string, c: Claims, expiresIn: string, now: nat, iat: nat, ms: nat)
    requires secret != "" && TimespanMs(expiresIn) == Some(ms) && iat == now / 1000
    ensures Sign(secret, Fresh(c), expiresIn, now) == Success(Token(secret, c, iat, iat + ms / 1000))
  {
    assert IssuedAt(Fresh(c), now) == iat;
  }

  /** `jwt.sign(payload, secret, { expiresIn })` at clock `now` (ms). The
      library refuses a payload that already carries `exp` when `expiresIn`
      is given; `iat` is kept when the payload has a non-zero one. */
  function Sign(secret: string, p: Payload, expiresIn: string, now: nat): (r: Outcome<string, SignError>)
    ensures r.Success? <==> secret != "" && p.exp.None? && TimespanMs(expiresIn).Some?
    ensures r == Failure(ExpAlreadySet) <==> secret != "" && p.exp.Some?
  {
    if secret == "" then Failure(MissingSecret)
    else if p.exp.Some? then Failure(ExpAlreadySet)
    else
      var timestamp := IssuedAt(p, now);
      match TimespanMs(expiresIn)
      case None => Failure(BadExpiresIn)
      case Some(ms) => Success(Token(secret, p.claims, timestamp, timestamp + ms / 1000))
  }

  datatype VerifyError = NoSecret | Malformed | InvalidSignature | Expired

  /** `jwt.verify(token, secret)` at clock `now` (ms): the decoded payload,
      or the error the library throws. */
  function Verify(secret: string, token: string, now: nat): (r: Outcome<Payload, VerifyError>)
    ensures r.Success? ==> r.value.iat.Some? && r.value.exp.Some?
    ensures r.Success? ==> now / 1000 < r.value.exp.value
  {
    if secret == "" then Failure(NoSecret)
    else
      match SplitToken(token)
      case None => Failure(Malformed)
      case Some((body, sig)) =>
        match DecodeBody(body)
        case None => Failure(Malformed)
        case Some(d) =>
          if sig != Signature(secret, body) then Failure(InvalidSignature)
          else if now / 1000 >= d.exp then Failure(Expired)
          else Success(Payload(d.claims, Some(d.iat), Some(d.exp)))
  }

  // ---------------------------------------------------------------------
  // What the helpers rely on.

  /** The `exp` second written into a well-formed token (0 otherwise). */
  function ExpiryOf(t: string): nat
  {
    match SplitToken(t)
    case None => 0
    case Some((body, _)) =>
      match DecodeBody(body)
      case None => 0
      case Some(d) => d.exp
  }

  /** Verifying a token built by Token. */
  lemma VerifyToken(signer: string, checker: string, c: Claims, iat: nat, exp: nat, now: nat)
    requires checker != ""
    ensures var v := Verify(checker, Token(signer, c, iat, exp), now);
            v == if checker != signer then Failure(InvalidSignature)
                 else if now / 1000 >= exp then Failure(Expired)
                 else Success(Payload(c, Some(iat), Some(exp)))
    ensures ExpiryOf(Token(signer, c, iat, exp)) == exp
  {
    var body := Body(c, iat, exp);
    TokenDecodes(signer, c, iat, exp);
    if Signature(signer, body) == Signature(checker, body) {
      SignatureDeterminesSecret(signer, checker, body);
    }
  }

  /** A token verifies under the secret it was signed with, until its `exp`
      second, and gives back the signed claims. */
  lemma VerifySigned(secret: string, p: Payload, expiresIn: string, signedAt: nat, now: nat)
    requires Sign(secret, p, expiresIn, signedAt).Success?
    ensures var t := Sign(secret, p, expiresIn, signedAt).value;
            var v := Verify(secret, t, now);
            (v.Success? <==> now / 1000 < ExpiryOf(t))
            && (v.Success? ==> v.value.claims == p.claims)
  {
    SignIsToken(secret, p, expiresIn, signedAt);
    var timestamp := IssuedAt(p, signedAt);
    VerifyOwnToken(secret, Sign(secret, p, expiresIn, signedAt).value, p.claims,
                   timestamp, timestamp + TimespanMs(expiresIn).value / 1000, now);
  }

  lemma VerifyOwnToken(secret: string, t: string, c: Claims, iat: nat, exp: nat, now: nat)
    requires secret != "" && t == Token(secret, c, iat, exp)
    ensures var v := Verify(secret, t, now);
            (v.Success? <==> now / 1000 < ExpiryOf(t)) && (v.Success? ==> v.value.claims == c)
  {
    VerifyToken(secret, secret, c, iat, exp, now);
  }

  /** Verification under one secret rejects every token signed under
      another. */
  lemma VerifyRejectsOtherSecret(s1: string, s2: string, p: Payload, expiresIn: string, signedAt: nat, now: nat)
    requires Sign(s1, p, expiresIn, signedAt).Success?
    requires s1 != s2
    ensures Verify(s2, Sign(s1, p, expiresIn, signedAt).value, now).Failure?
  {
    SignIsToken(s1, p, expiresIn, signedAt);
    var timestamp := IssuedAt(p, signedAt);
    VerifyForeignToken(s1, s2, Sign(s1, p, expiresIn, signedAt).value, p.claims,
                       timestamp, timestamp + TimespanMs(expiresIn).value / 1000, now);
  }

  lemma VerifyForeignToken(signer: string, checker: string, t: string, c: Claims, iat: nat, exp: nat, now: nat)
    requires signer != checker && t == Token(signer, c, iat, exp)
    ensures Verify(checker, t, now).Failure?
  {
    if checker != "" {
      VerifyToken(signer, checker, c, iat, exp, now);
    }
  }

  /** Whatever verify returns cannot be signed again with an `expiresIn`. */
  lemma ResignVerifiedFails(secret: string, s2: string, token: string, expiresIn: string, now: nat, later: nat)
    requires Verify(secret, token, now).Success?
    ensures Sign(s2, Verify(secret, token, now).value, expiresIn, later).Failure?
  {
  }
}
