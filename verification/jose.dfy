/** The token and key values that pass between the validation components.
    Their cryptographic and textual contents are opaque to the model. */
module Jose {
  import opened Wrappers
  import opened Json
  import opened Exceptions

  /** A bearer access token: the raw string sent by the client. */
  datatype AccessToken = AccessToken(value: string)

  /** An RSA public key, reduced to its modulus and exponent. */
  datatype RsaPublicKey = RsaPublicKey(modulus: nat, exponent: nat)

  /** The claims of a signed token. `iss`, `exp` and `nbf` are the ones the
      verifier reads (instants in milliseconds since the epoch); every other
      claim passes through in `others`. */
  datatype JwtClaims = JwtClaims(
    issuer: Option<string>,
    expirationTime: Option<int>,
    notBeforeTime: Option<int>,
    others: JsonObject)

  /** A parsed three-part signed token. Its claim set is decoded on demand and
      that decoding can itself fail. */
  datatype SignedJwt = SignedJwt(
    header: string,
    claimsSet: Result<JwtClaims, Exception>,
    signature: string)
}
