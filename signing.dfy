/** The signing service (`jsonwebtoken` in the server) as an abstract, tamper-evident token.
    A token records which of the server's secrets signed it and when it stops being valid;
    no cryptography is modelled. */
module Signing {
  import opened Base

  /** The secret a token was signed with: `JWT_SECRET` (activation), `ACCESS_TOKEN`,
      `REFRESH_TOKEN`, or anything else (a forged or garbled token). */
  datatype SecretKind = ActivationSecret | AccessSecret | RefreshSecret | OtherSecret

  /** A decoded payload: `{id}` for access and refresh tokens, the activation bundle, or a
      payload JavaScript treats as false. */
  datatype Claims =
    | Subject(id: UserId)
    | Activation(user: Draft, activationCode: string, createdAt: int)
    | Falsy

  /** A signed token. `expiresAt` is in milliseconds since the epoch. */
  datatype Token = Token(payload: Claims, secret: SecretKind, expiresAt: int)

  /** What `jwt.verify` gives: the payload, or the message of the error it throws. */
  datatype Verification = Decoded(claims: Claims) | Rejected(message: string)

  const INVALID_SIGNATURE := "invalid signature"
  const JWT_EXPIRED := "jwt expired"

  /** `jwt.verify(token, secret)`: the signature is checked first, then the expiry. */
  function Verify(t: Token, secret: SecretKind, now: int): (r: Verification)
    ensures r.Decoded? <==> t.secret == secret && now < t.expiresAt
    ensures r.Decoded? ==> r.claims == t.payload
    ensures t.secret != secret ==> r == Rejected(INVALID_SIGNATURE)
    ensures t.secret == secret && t.expiresAt <= now ==> r == Rejected(JWT_EXPIRED)
  {
    if t.secret != secret then Rejected(INVALID_SIGNATURE)
    else if t.expiresAt <= now then Rejected(JWT_EXPIRED)
    else Decoded(t.payload)
  }

  /** `jwt.sign(payload, secret, {expiresIn})` at time `now`. */
  function Sign(payload: Claims, secret: SecretKind, now: int, lifetime: nat): (t: Token)
    ensures forall at :: now <= at < now + lifetime ==> Verify(t, secret, at) == Decoded(payload)
    ensures forall at :: now + lifetime <= at ==> Verify(t, secret, at) == Rejected(JWT_EXPIRED)
    ensures forall other, at :: other != secret ==> Verify(t, other, at) == Rejected(INVALID_SIGNATURE)
  {
    Token(payload, secret, now + lifetime)
  }

  /** `decoded.id`: only a `{id}` payload has one. */
  function SubjectId(c: Claims): (r: Option<UserId>)
    ensures r.Some? <==> c.Subject?
    ensures r.Some? ==> r.value == c.id
  {
    if c.Subject? then Some(c.id) else None
  }

  /** Lifetimes written as `expiresIn` strings in the source, in milliseconds. */
  const MINUTE_MS := 60 * 1000
  const ACTIVATION_TOKEN_LIFETIME := 10 * MINUTE_MS   // "10m"
}
