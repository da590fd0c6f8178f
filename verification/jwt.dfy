/** Token issuance and verification (backend/src/utils/jwt.ts). The signing
    library is an oracle: `sign` and `verify` are inputs, and nothing is
    assumed about them except where a lemma states it as a hypothesis. The
    secret is `process.env.JWT_SECRET` at the time of the call. */
module Jwt {
  import opened Common

  /** The signed payload `{ id: userId }`. */
  datatype Payload = Payload(id: string)

  /** The signing library: `sign(payload, secret, expiresIn)` returns a token;
      `verify(token, secret)` returns the decoded payload or the error it
      threw (bad signature, malformed token, expired — the clock is the
      oracle's). */
  datatype Oracle = Oracle(
    sign: (Payload, string, string) -> string,
    verify: (string, string) -> Result<Payload, string>)

  const SecretMissing := "JWT_SECRET is not defined in environment variables"
  const ExpiresIn := "7d"

  /** `JWT_SECRET` counts as configured only when present and non-empty. */
  predicate Configured(secret: Option<string>) {
    secret.Some? && secret.value != ""
  }

  /** `generateToken(userId)`: throws without a configured secret; otherwise
      signs exactly `{ id: userId }` with a seven-day expiry. */
  function GenerateToken(secret: Option<string>, oracle: Oracle, userId: string): (r: Result<string, string>)
    ensures r.Failure? <==> !Configured(secret)
    ensures r.Failure? ==> r.error == SecretMissing
    ensures r.Success? ==> r.value == oracle.sign(Payload(userId), secret.value, ExpiresIn)
  {
    if secret.None? || secret.value == "" then Failure(SecretMissing)
    else Success(oracle.sign(Payload(userId), secret.value, ExpiresIn))
  }

  /** `verifyToken(token)`: never throws. A missing secret and every verifier
      failure alike give null; otherwise the verifier's payload. */
  function VerifyToken(secret: Option<string>, oracle: Oracle, token: string): (r: Option<Payload>)
    ensures r.Some? <==> Configured(secret) && oracle.verify(token, secret.value).Success?
    ensures r.Some? ==> r.value == oracle.verify(token, secret.value).value
  {
    if secret.None? || secret.value == "" then None
    else match oracle.verify(token, secret.value)
      case Success(payload) => Some(payload)
      case Failure(_) => None
  }

  /** The library's promise, as a hypothesis: within its lifetime a token
      verifies, under the secret it was signed with, to the payload it was
      signed with. */
  ghost predicate RoundTrips(oracle: Oracle) {
    forall p, secret, expiry :: oracle.verify(oracle.sign(p, secret, expiry), secret) == Success(p)
  }

  /** A token issued for a user resolves back to that user, when the library
      keeps its promise and the same secret is configured at both ends. */
  lemma IssuedTokenResolves(secret: Option<string>, oracle: Oracle, userId: string)
    requires RoundTrips(oracle)
    requires Configured(secret)
    ensures GenerateToken(secret, oracle, userId).Success?
    ensures VerifyToken(secret, oracle, GenerateToken(secret, oracle, userId).value) == Some(Payload(userId))
  {
  }

  /** Without a configured secret nothing is issued and nothing verifies. */
  lemma NoSecretNoTokens(secret: Option<string>, oracle: Oracle, userId: string, token: string)
    requires !Configured(secret)
    ensures GenerateToken(secret, oracle, userId) == Failure(SecretMissing)
    ensures VerifyToken(secret, oracle, token) == None
  {
  }
}
