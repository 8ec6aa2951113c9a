/** JSON Web Tokens (RFC 7519), kept abstract: signing and verification are
    supplied by the caller, and `Sound` states what the rest of the model needs
    of them. */
module Jwt {
  import opened Wrappers
  import opened Json

  /** The payload of an issued token: the signed `username` and the registered
      claims `iat` and `exp`, in seconds. */
  datatype Claims = Claims(username: JsValue, issuedAt: int, expiresAt: int)

  /** `jwt.sign(payload, secret)` for the configured secret. */
  type Signer = Claims -> string

  /** `jwt.verify(token, secret)` at a given clock reading: the decoded payload,
      or `None` when it throws (bad signature, malformed, expired). */
  type Verifier = (string, int) -> Option<Claims>

  /** `expiresIn: "1h"`. */
  const TokenLifetime: int := 3600

  /** Verification accepts the tokens this signer issued, with their claims,
      until their expiry, and issued tokens contain no space (compact
      serialization). Nothing is said about tokens the signer did not issue. */
  ghost predicate Sound(sign: Signer, verify: Verifier)
  {
    && (forall c: Claims, now: int :: verify(sign(c), now) == if now < c.expiresAt then Some(c) else None)
    && (forall c: Claims :: ' ' !in sign(c))
  }
}
