/** Offline verification of a signed access token: signature, then issuer,
    then the half-open validity window [nbf, exp). Every failure leaves the
    verifier as a TokenValidationException. */
module TokenVerifier {
  import opened Wrappers
  import opened Exceptions
  import opened Jose

  /** The library's decoding of the raw token into a signed token. */
  type JwtParser = string -> Result<SignedJwt, Exception>

  /** The library's RSA signature check: true when the signature is valid for
      the key; the library may also throw. */
  type SignatureCheck = (SignedJwt, RsaPublicKey) -> Result<bool, Exception>

  const WrongSignature: string := "Wrong token signature"
  const WrongIssuer: string := "Token has wrong issuer"
  const NotActive: string := "Token isn't active"

  /** What the Nimbus RSA verifier throws when it is built without a key. */
  const NullKey: Exception :=
    Exception(IllegalArgumentException, Some("The public RSA key must not be null"))

  /** The time window alone: not-before inclusive, expiration exclusive. */
  predicate InWindow(claims: JwtClaims, now: int)
  {
    && claims.notBeforeTime.Some?
    && claims.expirationTime.Some?
    && claims.notBeforeTime.value <= now < claims.expirationTime.value
  }

  /** The trust decision: the signature verifies, the issuer is the expected
      origin, and `now` lies in [nbf, exp). */
  predicate Trusted(jwt: SignedJwt, claims: JwtClaims, key: RsaPublicKey, origin: string,
                    now: int, verify: SignatureCheck)
  {
    && verify(jwt, key) == Success(true)
    && claims.issuer == Some(origin)
    && InWindow(claims, now)
  }

  /** `isActive`: re-parses the token and compares one clock reading `now`
      with `exp` and `nbf`. A missing claim dereferences null. */
  function IsActive(token: AccessToken, now: int, parse: JwtParser): (r: Result<bool, Exception>)
    ensures parse(token.value).Failure? ==> r == Failure(parse(token.value).error)
    ensures r.Success? <==>
      && parse(token.value).Success?
      && parse(token.value).value.claimsSet.Success?
      && parse(token.value).value.claimsSet.value.expirationTime.Some?
      && parse(token.value).value.claimsSet.value.notBeforeTime.Some?
    ensures r.Success? ==> (r.value <==> InWindow(parse(token.value).value.claimsSet.value, now))
  {
    match parse(token.value)
    case Failure(e) => Failure(e)
    case Success(jwt) =>
      match jwt.claimsSet
      case Failure(e) => Failure(e)
      case Success(claims) =>
        if claims.expirationTime.None? || claims.notBeforeTime.None? then Failure(NullPointer)
        else Success(now < claims.expirationTime.value && now >= claims.notBeforeTime.value)
  }

  /** The body of the `try` block of `verifyAccessToken`, with the exception
      it throws, if any, before the `catch` rewraps it. */
  function VerifyTry(token: AccessToken, key: Option<RsaPublicKey>, origin: string, now: int,
                     parse: JwtParser, verify: SignatureCheck): Result<JwtClaims, Exception>
  {
    match parse(token.value)
    case Failure(e) => Failure(e)
    case Success(jwt) =>
      if key.None? then Failure(NullKey)
      else
        match jwt.claimsSet
        case Failure(e) => Failure(e)
        case Success(claims) =>
          match verify(jwt, key.value)
          case Failure(e) => Failure(e)
          case Success(valid) =>
            if !valid then Failure(Validation(Some(WrongSignature)))
            else if claims.issuer.None? then Failure(NullPointer)
            else if claims.issuer.value != origin then Failure(Validation(Some(WrongIssuer)))
            else
              match IsActive(token, now, parse)
              case Failure(e) => Failure(e)
              case Success(active) =>
                if !active then Failure(Validation(Some(NotActive)))
                else Success(claims)
  }

  /** `verifyAccessToken`: accepts exactly the trusted tokens, returns their
      claim set untouched, and reports every failure as a
      TokenValidationException carrying the underlying message. */
  function VerifyAccessToken(token: AccessToken, key: Option<RsaPublicKey>, origin: string, now: int,
                             parse: JwtParser, verify: SignatureCheck): (r: Result<JwtClaims, Exception>)
    ensures r.Success? <==>
      && parse(token.value).Success?
      && key.Some?
      && parse(token.value).value.claimsSet.Success?
      && Trusted(parse(token.value).value, parse(token.value).value.claimsSet.value,
                 key.value, origin, now, verify)
    ensures r.Success? ==> r.value == parse(token.value).value.claimsSet.value
    ensures r.Failure? ==> r.error.kind.TokenValidationException?
    ensures parse(token.value).Failure? ==> r == Failure(Validation(parse(token.value).error.message))
  {
    VerifyTry(token, key, origin, now, parse, verify).MapFailure(RethrowAsValidation)
  }

  /** A token whose signature does not verify is rejected as such, whatever
      its issuer and time claims say. */
  lemma BadSignatureWins(token: AccessToken, key: RsaPublicKey, origin: string, now: int,
                         parse: JwtParser, verify: SignatureCheck)
    requires parse(token.value).Success?
    requires parse(token.value).value.claimsSet.Success?
    requires verify(parse(token.value).value, key) == Success(false)
    ensures VerifyAccessToken(token, Some(key), origin, now, parse, verify)
         == Failure(Validation(Some(WrongSignature)))
  {
  }

  /** With a valid signature, a different issuer is reported before the time
      window is looked at. */
  lemma WrongIssuerBeforeTimeWindow(token: AccessToken, key: RsaPublicKey, origin: string, now: int,
                                    parse: JwtParser, verify: SignatureCheck)
    requires parse(token.value).Success?
    requires parse(token.value).value.claimsSet.Success?
    requires verify(parse(token.value).value, key) == Success(true)
    requires parse(token.value).value.claimsSet.value.issuer.Some?
    requires parse(token.value).value.claimsSet.value.issuer.value != origin
    ensures VerifyAccessToken(token, Some(key), origin, now, parse, verify)
         == Failure(Validation(Some(WrongIssuer)))
  {
  }

  /** With a valid signature and the expected issuer, a `now` outside
      [nbf, exp) is reported as an inactive token. */
  lemma InactiveTokenRejected(token: AccessToken, key: RsaPublicKey, origin: string, now: int,
                              parse: JwtParser, verify: SignatureCheck)
    requires parse(token.value).Success?
    requires parse(token.value).value.claimsSet.Success?
    requires verify(parse(token.value).value, key) == Success(true)
    requires parse(token.value).value.claimsSet.value.issuer == Some(origin)
    requires parse(token.value).value.claimsSet.value.expirationTime.Some?
    requires parse(token.value).value.claimsSet.value.notBeforeTime.Some?
    requires !InWindow(parse(token.value).value.claimsSet.value, now)
    ensures VerifyAccessToken(token, Some(key), origin, now, parse, verify)
         == Failure(Validation(Some(NotActive)))
  {
  }

  /** The expiration instant itself is already outside the window. */
  lemma ExpiryIsExclusive(token: AccessToken, now: int, parse: JwtParser)
    requires parse(token.value).Success?
    requires parse(token.value).value.claimsSet.Success?
    requires parse(token.value).value.claimsSet.value.expirationTime == Some(now)
    requires parse(token.value).value.claimsSet.value.notBeforeTime.Some?
    ensures IsActive(token, now, parse) == Success(false)
  {
  }

  /** The not-before instant itself is inside the window. */
  lemma NotBeforeIsInclusive(token: AccessToken, now: int, parse: JwtParser)
    requires parse(token.value).Success?
    requires parse(token.value).value.claimsSet.Success?
    requires parse(token.value).value.claimsSet.value.notBeforeTime == Some(now)
    requires parse(token.value).value.claimsSet.value.expirationTime.Some?
    requires now < parse(token.value).value.claimsSet.value.expirationTime.value
    ensures IsActive(token, now, parse) == Success(true)
  {
  }

  /** A failure that is not one of the three checks keeps its message and
      becomes a validation error: a missing key, a claim set that does not
      decode, a signature check that throws, and a missing `exp` or `nbf`
      once signature and issuer are accepted (a null dereference). */
  lemma LibraryFailureKeepsMessage(token: AccessToken, key: Option<RsaPublicKey>, origin: string,
                                   now: int, parse: JwtParser, verify: SignatureCheck)
    requires parse(token.value).Success?
    ensures key.None? ==>
      VerifyAccessToken(token, key, origin, now, parse, verify) == Failure(Validation(NullKey.message))
    ensures key.Some? && parse(token.value).value.claimsSet.Failure? ==>
      VerifyAccessToken(token, key, origin, now, parse, verify)
        == Failure(Validation(parse(token.value).value.claimsSet.error.message))
    ensures key.Some? && parse(token.value).value.claimsSet.Success? &&
            verify(parse(token.value).value, key.value).Failure? ==>
      VerifyAccessToken(token, key, origin, now, parse, verify)
        == Failure(Validation(verify(parse(token.value).value, key.value).error.message))
    ensures key.Some? && parse(token.value).value.claimsSet.Success? &&
            verify(parse(token.value).value, key.value) == Success(true) &&
            parse(token.value).value.claimsSet.value.issuer == Some(origin) &&
            (parse(token.value).value.claimsSet.value.expirationTime.None? ||
             parse(token.value).value.claimsSet.value.notBeforeTime.None?) ==>
      VerifyAccessToken(token, key, origin, now, parse, verify) == Failure(Validation(None))
  {
  }

  /** A missing issuer after a valid signature surfaces as a validation error
      without a message (the issuer comparison dereferences null). */
  lemma MissingIssuerIsValidationError(token: AccessToken, key: RsaPublicKey, origin: string,
                                       now: int, parse: JwtParser, verify: SignatureCheck)
    requires parse(token.value).Success?
    requires parse(token.value).value.claimsSet.Success?
    requires verify(parse(token.value).value, key) == Success(true)
    requires parse(token.value).value.claimsSet.value.issuer.None?
    ensures VerifyAccessToken(token, Some(key), origin, now, parse, verify) == Failure(Validation(None))
  {
  }
}
