/** bcryptjs and jsonwebtoken, as the routes use them. The key-derivation
    function and the signature are foreign code: the first is a parameter
    (given to the user table when it is made), the second is left out and a
    token is the claims record it is built from. */
module Crypto {

  import opened Common

  /** bcrypt's cost factor, `bcrypt.genSalt(10)`. */
  const SALT_ROUNDS: nat := 10

  /** bcrypt's one-way key derivation: password, cost and salt to a digest. */
  type Kdf = (string, nat, nat) -> string

  /** A bcrypt hash string: it records the cost and the salt beside the digest,
      and never the password. */
  datatype PasswordHash = PasswordHash(rounds: nat, salt: nat, digest: string)

  /** `bcrypt.compare(password, hash)`: derive again with the stored cost and salt. */
  predicate Compare(kdf: Kdf, password: string, h: PasswordHash) {
    kdf(password, h.rounds, h.salt) == h.digest
  }

  /** `bcrypt.hash(password, await bcrypt.genSalt(10))`; the random salt is a
      parameter. The hash keeps the cost and the salt, which is what lets
      `compare` accept the password later. */
  function Hash(kdf: Kdf, password: string, salt: nat): (h: PasswordHash)
    ensures h.rounds == SALT_ROUNDS && h.salt == salt
    ensures Compare(kdf, password, h)
  {
    PasswordHash(SALT_ROUNDS, salt, kdf(password, SALT_ROUNDS, salt))
  }

  /** The right password is always accepted, and when the derivation tells
      passwords apart, no other password is. */
  lemma CompareHash(kdf: Kdf, password: string, other: string, salt: nat)
    ensures Compare(kdf, password, Hash(kdf, password, salt))
    ensures (forall p, q, r, s :: kdf(p, r, s) == kdf(q, r, s) ==> p == q) ==>
              (Compare(kdf, other, Hash(kdf, password, salt)) <==> other == password)
  {
  }

  /** The claims a JSON web token carries. `isHost` is absent from the tokens
      that registration issues. */
  datatype Claims = Claims(id: UserId, isHost: Option<bool>)

  /** `expiresIn: "1d"` */
  const EXPIRES_IN: string := "1d"

  /** A signed token, seen through the claims it was built from. */
  datatype Token = Token(claims: Claims, expiresIn: string)

  /** `jwt.sign(claims, process.env.JWT_SECRET, { expiresIn: "1d" })` */
  function Sign(claims: Claims): (t: Token)
    ensures t.claims == claims && t.expiresIn == "1d"
  {
    Token(claims, EXPIRES_IN)
  }

  /** `req.user.isHost` is truthy. The authentication middleware puts the
      verified claims in `req.user`. */
  predicate IsHost(caller: Claims)
    ensures IsHost(caller) ==> caller.isHost.Some? && caller.isHost.value
    ensures caller.isHost.None? ==> !IsHost(caller)
    ensures caller.isHost == Some(true) ==> IsHost(caller)
  {
    caller.isHost == Some(true)
  }
}
