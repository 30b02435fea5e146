/**
 * Password storage as the account schemas' pre-save hook and `comparePassword` method use it
 * (bcrypt with cost factor 10). bcrypt itself is foreign code; what the server relies on is
 * kept: a digest records its cost and salt, only the first 72 bytes of a password take part,
 * and comparing a candidate with a digest succeeds exactly when those prefixes agree.
 */
module Credentials {

  /** bcrypt ignores everything after the 72nd byte of a password. */
  const BcryptMaxBytes: nat := 72

  /** The cost factor `bcrypt.genSalt(10)` asks for. */
  const CostFactor: nat := 10

  /**
   * A stored bcrypt digest. `key` stands for the one-way derivation from the (truncated)
   * password; the model only ever consults it through `Compare`.
   */
  datatype Digest = Digest(cost: nat, salt: string, key: string)

  /** The part of a password bcrypt reads (characters stand for bytes). */
  function Truncate(password: string): (r: string)
    ensures |r| <= BcryptMaxBytes && |r| <= |password| && r == password[..|r|]
    ensures |password| <= BcryptMaxBytes ==> r == password
  {
    if |password| <= BcryptMaxBytes then password else password[..BcryptMaxBytes]
  }

  /** `bcrypt.hash(password, salt)` with a salt from `genSalt(10)`. */
  function Hash(password: string, salt: string): (d: Digest)
    ensures d.cost == CostFactor && d.salt == salt
  {
    Digest(CostFactor, salt, Truncate(password))
  }

  /** `bcrypt.compare(candidate, digest)`. */
  predicate Compare(candidate: string, d: Digest) {
    Truncate(candidate) == d.key
  }

  /** A password always matches its own digest, whatever salt was drawn. */
  lemma CompareHash(password: string, salt: string)
    ensures Compare(password, Hash(password, salt))
  {
  }

  /** A candidate matches a digest exactly when it agrees with the password on bcrypt's 72-byte window. */
  lemma CompareHashIff(candidate: string, password: string, salt: string)
    ensures Compare(candidate, Hash(password, salt)) <==> Truncate(candidate) == Truncate(password)
  {
  }

  /**
   * The schemas' pre-save hook: a password assigned since the last save is replaced by its
   * digest under a fresh salt; otherwise the stored digest is kept as it is (never hashed twice).
   */
  function PreSave(stored: Digest, newPassword: string, modified: bool, salt: string): (r: Digest)
    ensures modified ==> Compare(newPassword, r) && r.salt == salt
    ensures !modified ==> r == stored
  {
    if modified then Hash(newPassword, salt) else stored
  }
}
