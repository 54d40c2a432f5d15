/** The password hash of apps/api/src/lib/auth.ts: Argon2id with fixed
    parameters, and a verify that turns every failure into `false`. The
    salt, drawn at random by the library, is a parameter. */
module ApiAuthLib {
  import opened Common
  import opened Crypto

  function HashPassword(password: string, salt: seq<Byte>): (d: PasswordDigest)
    ensures d.Argon2id? && d.memoryCost == 65536 && d.timeCost == 3 && d.parallelism == 4
  {
    Argon2id(password, salt, 65536, 3, 4)
  }

  /** `verifyPassword`: never throws. */
  function VerifyPassword(password: string, digest: PasswordDigest): (ok: bool)
    ensures ok <==> digest.Argon2id? && digest.password == password
  {
    var v := Argon2Verify(digest, password);
    v.Success? && v.value
  }

  /** A digest of this server accepts exactly its own password; a digest
      the argon2 library cannot read, such as a bcrypt one, accepts none. */
  lemma VerifyHashedPassword(password: string, attempt: string, salt: seq<Byte>, other: PasswordDigest)
    ensures VerifyPassword(attempt, HashPassword(password, salt)) <==> attempt == password
    ensures !other.Argon2id? ==> !VerifyPassword(attempt, other)
  {
  }
}

/** The password hash of backend/src/lib/auth.ts: bcrypt with cost 10,
    verified by a direct compare. */
module BackendAuthLib {
  import opened Common
  import opened Crypto

  const SaltRounds := 10

  function HashPassword(password: string, salt: seq<Byte>): (d: PasswordDigest)
    ensures d.Bcrypt? && d.cost == SaltRounds
  {
    Bcrypt(password, salt, SaltRounds)
  }

  function VerifyPassword(password: string, digest: PasswordDigest): (ok: bool)
    ensures ok <==> digest.Bcrypt? && digest.password == password
  {
    BcryptCompare(password, digest)
  }

  /** A digest of this server accepts exactly its own password, and an
      Argon2id digest accepts none. */
  lemma VerifyHashedPassword(password: string, attempt: string, salt: seq<Byte>, other: PasswordDigest)
    ensures VerifyPassword(attempt, HashPassword(password, salt)) <==> attempt == password
    ensures !other.Bcrypt? ==> !VerifyPassword(attempt, other)
  {
  }
}
