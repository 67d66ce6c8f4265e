/** The pieces the handlers call but do not implement: MongoDB object ids,
    argon2 password hashing and JSON Web Tokens. Each is a record of function
    values; the properties the handlers rely on are stated as `Sound()`
    predicates and appear only as preconditions of the lemmas that need them. */
module Foreign {
  import opened Wrappers

  /** A MongoDB `ObjectId`; only its identity matters to the handlers. */
  datatype ObjectId = ObjectId(hex: string)

  /** An instant as written by `new Date().toISOString()`; never empty. */
  type Timestamp = s: string | s != "" witness "1970-01-01T00:00:00.000Z"

  /** A signed JSON Web Token in its compact string form. */
  type Token = string

  /** The payload every token of the system is signed over: `{ userId, email }`. */
  datatype Claims = Claims(userId: ObjectId, email: string)

  /** `expiresIn: '1h'` for access tokens, in seconds. */
  const AccessTokenLifetime: nat := 60 * 60

  /** `expiresIn: '7d'` for refresh tokens, in seconds. */
  const RefreshTokenLifetime: nat := 7 * 24 * 60 * 60

  /** `argon2.hash(password)` with its random salt made explicit, and
      `argon2.verify(hash, password)`. */
  datatype PasswordHasher = PasswordHasher(
    hash: (string, string) -> string,
    verify: (string, string) -> bool)
  {
    /** A hash made from `password`, whatever its salt, verifies exactly `password`. */
    ghost predicate Sound() {
      forall password, salt, guess :: verify(hash(password, salt), guess) <==> guess == password
    }
  }

  /** `jwt.sign(claims, secret, { expiresIn })` issued at second `iat`, and
      `jwt.verify(token, secret)` at second `now`; the secret is fixed. */
  datatype TokenSigner = TokenSigner(
    sign: (Claims, nat, nat) -> Token,
    verify: (Token, nat) -> Option<Claims>)
  {
    ghost predicate Sound() {
      // a token verifies, giving back its claims, until `iat + lifetime`
      && (forall claims, iat, lifetime, now ::
            verify(sign(claims, iat, lifetime), now)
            == if now < iat + lifetime then Some(claims) else None)
      // the payload (claims, iat, exp) is part of the token text
      && (forall c1, i1, l1, c2, i2, l2 ::
            sign(c1, i1, l1) == sign(c2, i2, l2) ==> c1 == c2 && i1 == i2 && l1 == l2)
      // the claims a token carries do not depend on when it is checked
      && (forall token, now1, now2 ::
            verify(token, now1).Some? && verify(token, now2).Some? ==> verify(token, now1) == verify(token, now2))
      // compact JWTs are non-empty base64url segments joined by dots
      && (forall claims, iat, lifetime ::
            sign(claims, iat, lifetime) != "" && ' ' !in sign(claims, iat, lifetime))
    }
  }

  /** `ObjectId.isValid(s)` and `new ObjectId(s)`. */
  datatype IdCodec = IdCodec(isValid: string -> bool, parse: string -> ObjectId)
}
