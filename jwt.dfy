/**
 * The signed-token library the service and the guards rely on: signing a payload,
 * decoding a token without any check, and verifying a token's signature and expiry.
 * The cryptography is abstract: the MAC is a function supplied with the signer.
 */
module Jwt {
  import opened Wrappers

  /** The closed set of roles a user record, and a token's role claim, can carry. */
  datatype UserRole = User | Admin | SuperAdmin

  /** The claims the service signs: a user id and a role, without the time claims. */
  datatype Payload = Payload(userId: string, role: UserRole)

  /** What decoding a token yields: the payload plus the issued-at and expiry claims (in seconds). */
  datatype Claims = Claims(payload: Payload, iat: Option<int>, exp: Option<int>)

  /**
   * An access token as a client presents it: either a well-formed token carrying
   * claims and a signature (which may or may not be genuine), or a string that does
   * not parse as a token at all.
   */
  datatype Token = Signed(claims: Claims, signature: string) | Malformed(raw: string)

  /** Process-wide signing configuration: the secret, the access-token lifetime and the MAC. */
  datatype Signer = Signer(secret: string, expiresIn: nat, mac: (string, Claims) -> string)

  /** Why verification refuses a token. */
  datatype VerifyError = TokenMalformed | TokenSignatureInvalid | TokenExpired

  /** The claims `Sign` puts into a token issued at `now`. */
  function IssuedClaims(signer: Signer, p: Payload, now: int): Claims
  {
    Claims(p, Some(now), Some(now + signer.expiresIn))
  }

  /** Decodes a token's claims without looking at its signature or expiry; `None` when it does not parse. */
  function Decode(t: Token): Option<Claims>
  {
    match t
    case Signed(c, _) => Some(c)
    case Malformed(_) => None
  }

  /** Checks the signature, then the expiry (a token is expired from the second `exp` on). */
  function Verify(signer: Signer, t: Token, now: int): Result<Claims, VerifyError>
  {
    match t
    case Malformed(_) => Failure(TokenMalformed)
    case Signed(c, sig) =>
      if sig != signer.mac(signer.secret, c) then Failure(TokenSignatureInvalid)
      else if c.exp.Some? && now >= c.exp.value then Failure(TokenExpired)
      else Success(c)
  }

  /**
   * Signs `p` at second `now`: the token carries fresh `iat`/`exp` claims and decodes
   * back to exactly them, and it verifies throughout its lifetime and not after it.
   */
  function Sign(signer: Signer, p: Payload, now: int): (t: Token)
    ensures Decode(t) == Some(IssuedClaims(signer, p, now))
    ensures forall at :: now <= at < now + signer.expiresIn ==> Verify(signer, t, at) == Success(IssuedClaims(signer, p, now))
    ensures forall at :: at >= now + signer.expiresIn ==> Verify(signer, t, at) == Failure(TokenExpired)
  {
    var c := IssuedClaims(signer, p, now);
    Signed(c, signer.mac(signer.secret, c))
  }
}
