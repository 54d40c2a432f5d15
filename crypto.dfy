/** The cryptographic primitives the auth helpers call, kept abstract:
    random bytes and their hex text, SHA-256 digests of one-time tokens and
    the Argon2id and bcrypt password digests.

    A digest is represented by the data it was computed from. This makes
    every digest function deterministic and, in the model, free of
    collisions; nothing about the difficulty of inverting a digest is
    modelled. */
module Crypto {
  import opened Common

  type Byte = b: int | 0 <= b < 256

  /** What `crypto.randomBytes(32)` returns. */
  type RandomBytes32 = bs: seq<Byte> | |bs| == 32 witness seq(32, _ => 0)

  // ---------------------------------------------------------------------
  // `buffer.toString('hex')`: two lower-case hex digits per byte.

  predicate IsHexChar(c: char)
  {
    '0' <= c <= '9' || 'a' <= c <= 'f'
  }

  function HexDigit(n: nat): (c: char)
    requires n < 16
    ensures IsHexChar(c)
  {
    if n < 10 then ('0' as int + n) as char else ('a' as int + n - 10) as char
  }

  function HexValue(c: char): (n: nat)
    requires IsHexChar(c)
    ensures n < 16 && HexDigit(n) == c
  {
    if c <= '9' then (c as int - '0' as int) as nat else (c as int - 'a' as int + 10) as nat
  }

  function HexEncode(bs: seq<Byte>): (s: string)
    ensures |s| == 2 * |bs|
    ensures forall i :: 0 <= i < |s| ==> IsHexChar(s[i])
  {
    if bs == [] then "" else [HexDigit(bs[0] / 16), HexDigit(bs[0] % 16)] + HexEncode(bs[1..])
  }

  function HexDecode(s: string): Option<seq<Byte>>
    decreases |s|
  {
    if s == [] then Some([])
    else if |s| == 1 || !IsHexChar(s[0]) || !IsHexChar(s[1]) then None
    else
      match HexDecode(s[2..])
      case None => None
      case Some(rest) => Some([HexValue(s[0]) * 16 + HexValue(s[1])] + rest)
  }

  lemma HexDigitValue(n: nat)
    requires n < 16
    ensures HexValue(HexDigit(n)) == n
  {
    var c := HexDigit(n);
    if c <= '9' {
      assert n < 10;
    } else {
      assert n >= 10;
    }
  }

  lemma ByteDigits(b: Byte)
    ensures HexValue(HexDigit(b / 16)) * 16 + HexValue(HexDigit(b % 16)) == b
  {
    HexDigitValue(b / 16);
    HexDigitValue(b % 16);
  }

  /** The hex text of a byte string determines the bytes. */
  lemma {:induction false} HexRoundTrip(bs: seq<Byte>)
    ensures HexDecode(HexEncode(bs)) == Some(bs)
  {
    if bs != [] {
      var s := HexEncode(bs);
      var tail := HexEncode(bs[1..]);
      assert s == [HexDigit(bs[0] / 16), HexDigit(bs[0] % 16)] + tail;
      assert s[2..] == tail;
      HexRoundTrip(bs[1..]);
      HexDecodePair(s, bs[1..]);
      ByteDigits(bs[0]);
      assert [bs[0]] + bs[1..] == bs;
    }
  }

  lemma HexDecodePair(s: string, rest: seq<Byte>)
    requires |s| >= 2 && IsHexChar(s[0]) && IsHexChar(s[1]) && HexDecode(s[2..]) == Some(rest)
    ensures HexDecode(s) == Some([HexValue(s[0]) * 16 + HexValue(s[1])] + rest)
  {
  }

  // ---------------------------------------------------------------------
  // SHA-256 of a token, stored in place of the token itself.

  datatype Digest = Sha256(input: string)

  // ---------------------------------------------------------------------
  // Password digests.

  /** A stored password digest: one the argon2 library wrote, one bcrypt
      wrote, or text that is neither. */
  datatype PasswordDigest =
    | Argon2id(password: string, salt: seq<Byte>, memoryCost: nat, timeCost: nat, parallelism: nat)
    | Bcrypt(password: string, salt: seq<Byte>, cost: nat)
    | Unrecognised(text: string)

  datatype HashError = UnsupportedDigest

  /** `argon2.verify(digest, password)`: compares for an Argon2id digest and
      throws for a bcrypt digest or unrecognised text. The library also
      compares Argon2i and Argon2d digests, which this system never writes
      and the model does not represent. */
  function Argon2Verify(digest: PasswordDigest, password: string): (r: Outcome<bool, HashError>)
    ensures r.Success? <==> digest.Argon2id?
    ensures r == Success(true) <==> digest.Argon2id? && digest.password == password
  {
    if digest.Argon2id? then Success(digest.password == password) else Failure(UnsupportedDigest)
  }

  /** `bcrypt.compare(password, digest)`: compares for a bcrypt digest and
      answers false, without throwing, for any other text. */
  function BcryptCompare(password: string, digest: PasswordDigest): bool
  {
    digest.Bcrypt? && digest.password == password
  }
}
