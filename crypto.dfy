/** bcrypt as the servers use it (`bcrypt.hash(password, 10)` and
    `bcrypt.compare`), modelled as an ideal one-way hash. */
module Crypto {

  const BCRYPT_COST: nat := 10

  /** An ideal password hash: the salt and the secret it was made from. Only
      `Matches` looks inside it, so nothing else can use the plaintext. */
  datatype PasswordHash = Bcrypt(cost: nat, salt: nat, secret: string)

  /** `bcrypt.compare(password, hash)`. */
  predicate Matches(password: string, h: PasswordHash) {
    h.secret == password
  }

  /** `bcrypt.hash(password, BCRYPT_COST)` with the random salt `salt`. */
  function Hash(password: string, salt: nat): (h: PasswordHash)
    ensures h.cost == BCRYPT_COST
    ensures Matches(password, h)
    ensures forall q :: Matches(q, h) ==> q == password
  {
    Bcrypt(BCRYPT_COST, salt, password)
  }

}
