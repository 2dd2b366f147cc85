/** The validation entry points of the connector: token introspection at the
    identity provider and local verification. Every failure leaves them as
    one of two kinds, a validation failure or a connectivity failure, and only
    the introspection path can produce the second. */
module TokenValidator {
  import opened Wrappers
  import opened Json
  import opened Exceptions
  import opened Jose
  import TokenVerifier

  type Uri = string

  /** HTTP Basic client authentication with the client id and secret. */
  datatype ClientSecretBasic = ClientSecretBasic(clientId: string, secret: string)

  /** The parts of the connector configuration the validator reads. */
  datatype SingleSignOnConfig = SingleSignOnConfig(
    ssoUri: Uri,
    introspectionUri: Uri,
    clientSecretBasic: ClientSecretBasic,
    rsaPublicKey: Option<RsaPublicKey>)

  /** An RFC 7662 token introspection request. */
  datatype IntrospectionRequest = IntrospectionRequest(
    endpoint: Uri,
    clientAuth: ClientSecretBasic,
    token: AccessToken)

  datatype HttpResponse = HttpResponse(statusCode: int, contentType: Option<string>, body: string)

  datatype ErrorObject = ErrorObject(code: string, description: Option<string>)

  /** A parsed introspection response: an error object, or the JSON object of
      a success response. */
  datatype IntrospectionResponse =
    | ErrorResponse(errorObject: ErrorObject)
    | SuccessResponse(claims: JsonObject)

  /** What a caller of the validator sees. */
  datatype Outcome<+T> =
    | Valid(claims: T)
    | ValidationFailure(reason: Option<string>)
    | ConnectivityFailure(detail: string)

  /** The library calls the introspection path makes, left uninterpreted:
      parsing the authorization header into an access token, sending the
      introspection request over HTTP, and parsing the HTTP response into an
      introspection response. */
  datatype Collaborators = Collaborators(
    parseAccessToken: string -> Result<AccessToken, Exception>,
    send: IntrospectionRequest -> Result<HttpResponse, Exception>,
    parseIntrospectionResponse: HttpResponse -> Result<IntrospectionResponse, Exception>)

  /** The verifier the local path delegates to. */
  type Verifier = (AccessToken, Option<RsaPublicKey>, string) -> Result<JwtClaims, Exception>

  const ApplicationJson: string := "application/json; charset=UTF-8"
  const InactiveMessage: string := "Token is not active"

  /** `createTokenIntrospectionRequest`: addressed to the configured
      introspection endpoint, authenticated with the configured client
      credentials, carrying the given token. */
  function CreateTokenIntrospectionRequest(token: AccessToken, config: SingleSignOnConfig)
    : (req: IntrospectionRequest)
    ensures req.endpoint == config.introspectionUri
    ensures req.clientAuth == config.clientSecretBasic
    ensures req.token == token
  {
    IntrospectionRequest(config.introspectionUri, config.clientSecretBasic, token)
  }

  /** `text` contains `part` somewhere. */
  predicate Mentions(text: string, part: string)
  {
    exists i :: 0 <= i <= |text| && part <= text[i..]
  }

  /** The text of the connectivity failure: it names the SSO URI and the
      message of the IOException, "null" when that has none. */
  function ConnectMessage(ssoUri: Uri, cause: Option<string>): (m: string)
    ensures Mentions(m, ssoUri)
    ensures Mentions(m, JavaText(cause))
  {
    var prefix := "Could not connect to the identity provider ";
    var separator := " - Error: ";
    var m := prefix + ssoUri + separator + JavaText(cause);
    assert ssoUri <= m[|prefix|..];
    assert m[|prefix| + |ssoUri| + |separator|..] == JavaText(cause);
    m
  }

  /** The `active` member read as a Java boolean: a missing or null member
      fails to unbox and any other non-boolean value fails the cast. */
  function ActiveFlag(claims: JsonObject): (r: Result<bool, Exception>)
    ensures r.Success? <==> Get(claims, "active").Some? && Get(claims, "active").value.JBool?
    ensures r.Success? ==> r.value == claims["active"].b
  {
    match Get(claims, "active")
    case None => Failure(NullPointer)
    case Some(v) => if v.JBool? then Success(v.b) else Failure(ClassCast(JavaClassName(v), "java.lang.Boolean"))
  }

  /** The `try` block of `introspectionTokenValidation`: the claims it returns
      or the exception it throws. The response's content type is forced to
      JSON before it is parsed. */
  function IntrospectionTry(authHeader: string, config: SingleSignOnConfig, env: Collaborators)
    : Result<JsonObject, Exception>
  {
    match env.parseAccessToken(authHeader)
    case Failure(e) => Failure(e)
    case Success(token) =>
      match env.send(CreateTokenIntrospectionRequest(token, config))
      case Failure(e) => Failure(e)
      case Success(httpResponse) =>
        match env.parseIntrospectionResponse(httpResponse.(contentType := Some(ApplicationJson)))
        case Failure(e) => Failure(e)
        case Success(ErrorResponse(errorObject)) => Failure(Validation(errorObject.description))
        case Success(SuccessResponse(claims)) =>
          match ActiveFlag(claims)
          case Failure(e) => Failure(e)
          case Success(active) =>
            if !active then Failure(Validation(Some(InactiveMessage))) else Success(claims)
  }

  /** `introspectionTokenValidation`: the two `catch` clauses turn an
      IOException into a connectivity failure naming the SSO URI and every
      other exception into a validation failure with the same message. */
  function IntrospectionTokenValidation(authHeader: string, config: SingleSignOnConfig, env: Collaborators)
    : (r: Outcome<JsonObject>)
    ensures r.Valid? <==> IntrospectionTry(authHeader, config, env).Success?
    ensures r.Valid? ==> ActiveFlag(r.claims) == Success(true)
    ensures r.ConnectivityFailure? <==>
      IntrospectionTry(authHeader, config, env).Failure? &&
      IntrospectionTry(authHeader, config, env).error.kind.IOException?
    ensures r.ConnectivityFailure? ==> Mentions(r.detail, config.ssoUri)
    ensures r.ValidationFailure? ==> r.reason == IntrospectionTry(authHeader, config, env).error.message
  {
    match IntrospectionTry(authHeader, config, env)
    case Success(claims) => Valid(claims)
    case Failure(e) =>
      if e.kind.IOException? then ConnectivityFailure(ConnectMessage(config.ssoUri, e.message))
      else ValidationFailure(e.message)
  }

  /** An introspection error object is a validation failure carrying its
      description. */
  lemma ErrorResponseYieldsDescription(authHeader: string, config: SingleSignOnConfig,
                                       env: Collaborators, token: AccessToken,
                                       httpResponse: HttpResponse, error: ErrorObject)
    requires env.parseAccessToken(authHeader) == Success(token)
    requires env.send(CreateTokenIntrospectionRequest(token, config)) == Success(httpResponse)
    requires env.parseIntrospectionResponse(httpResponse.(contentType := Some(ApplicationJson)))
          == Success(ErrorResponse(error))
    ensures IntrospectionTokenValidation(authHeader, config, env) == ValidationFailure(error.description)
  {
  }

  /** A success response with `active` false is rejected, whatever other
      claims it carries. */
  lemma InactiveIntrospectionRejected(authHeader: string, config: SingleSignOnConfig,
                                      env: Collaborators, token: AccessToken,
                                      httpResponse: HttpResponse, claims: JsonObject)
    requires env.parseAccessToken(authHeader) == Success(token)
    requires env.send(CreateTokenIntrospectionRequest(token, config)) == Success(httpResponse)
    requires env.parseIntrospectionResponse(httpResponse.(contentType := Some(ApplicationJson)))
          == Success(SuccessResponse(claims))
    requires "active" in claims && claims["active"] == JBool(false)
    ensures IntrospectionTokenValidation(authHeader, config, env) == ValidationFailure(Some(InactiveMessage))
  {
  }

  /** A success response with `active` true hands back its whole JSON
      object. */
  lemma ActiveIntrospectionReturnsClaims(authHeader: string, config: SingleSignOnConfig,
                                         env: Collaborators, token: AccessToken,
                                         httpResponse: HttpResponse, claims: JsonObject)
    requires env.parseAccessToken(authHeader) == Success(token)
    requires env.send(CreateTokenIntrospectionRequest(token, config)) == Success(httpResponse)
    requires env.parseIntrospectionResponse(httpResponse.(contentType := Some(ApplicationJson)))
          == Success(SuccessResponse(claims))
    requires "active" in claims && claims["active"] == JBool(true)
    ensures IntrospectionTokenValidation(authHeader, config, env) == Valid(claims)
  {
  }

  /** A transport IOException is a connectivity failure whose message names
      the SSO URI and the cause. */
  lemma TransportFailureIsConnectivity(authHeader: string, config: SingleSignOnConfig,
                                       env: Collaborators, token: AccessToken, cause: Option<string>)
    requires env.parseAccessToken(authHeader) == Success(token)
    requires env.send(CreateTokenIntrospectionRequest(token, config)) == Failure(Exception(IOException, cause))
    ensures IntrospectionTokenValidation(authHeader, config, env)
         == ConnectivityFailure(ConnectMessage(config.ssoUri, cause))
  {
  }

  /** When the header and response parsers throw no IOException, as their
      declared exceptions allow, the transport is the only route to a
      connectivity failure: the header parsed and sending the introspection
      request threw an IOException. */
  lemma OnlyTransportCausesConnectivityFailure(authHeader: string, config: SingleSignOnConfig,
                                               env: Collaborators)
    requires forall h :: env.parseAccessToken(h).Failure? ==> !env.parseAccessToken(h).error.kind.IOException?
    requires forall p :: env.parseIntrospectionResponse(p).Failure? ==>
               !env.parseIntrospectionResponse(p).error.kind.IOException?
    ensures IntrospectionTokenValidation(authHeader, config, env).ConnectivityFailure? ==>
      && env.parseAccessToken(authHeader).Success?
      && env.send(CreateTokenIntrospectionRequest(env.parseAccessToken(authHeader).value, config)).Failure?
      && env.send(CreateTokenIntrospectionRequest(env.parseAccessToken(authHeader).value, config))
           .error.kind.IOException?
  {
  }

  /** The outcome does not depend on the content type the provider set on
      its response: it is overwritten before parsing. */
  lemma ContentTypeIgnored(authHeader: string, config: SingleSignOnConfig, env: Collaborators,
                           token: AccessToken, httpResponse: HttpResponse, contentType: Option<string>)
    requires env.parseAccessToken(authHeader) == Success(token)
    requires env.send(CreateTokenIntrospectionRequest(token, config)) == Success(httpResponse)
    ensures IntrospectionTokenValidation(authHeader, config, env)
         == IntrospectionTokenValidation(authHeader, config,
              env.(send := q => if q == CreateTokenIntrospectionRequest(token, config)
                                then Success(httpResponse.(contentType := contentType))
                                else env.send(q)))
  {
  }

  /** The provider is asked only about the configured request: two
      transports that answer it alike give the same outcome. */
  lemma OnlyConfiguredRequestIsSent(authHeader: string, config: SingleSignOnConfig,
                                    env: Collaborators, token: AccessToken,
                                    send2: IntrospectionRequest -> Result<HttpResponse, Exception>)
    requires env.parseAccessToken(authHeader) == Success(token)
    requires send2(IntrospectionRequest(config.introspectionUri, config.clientSecretBasic, token))
          == env.send(IntrospectionRequest(config.introspectionUri, config.clientSecretBasic, token))
    ensures IntrospectionTokenValidation(authHeader, config, env)
         == IntrospectionTokenValidation(authHeader, config, env.(send := send2))
  {
  }

  /** `localTokenValidation`: parses the header and delegates to the
      verifier with the configured key and the SSO URI as issuer. It never
      reports a connectivity failure; each failure is a validation failure
      with the underlying message. */
  function LocalTokenValidation(authHeader: string, config: SingleSignOnConfig,
                                parseAccessToken: string -> Result<AccessToken, Exception>,
                                verifier: Verifier): (r: Outcome<JwtClaims>)
    ensures !r.ConnectivityFailure?
    ensures parseAccessToken(authHeader).Failure? ==>
      r == ValidationFailure(parseAccessToken(authHeader).error.message)
    ensures parseAccessToken(authHeader).Success? ==>
      var v := verifier(parseAccessToken(authHeader).value, config.rsaPublicKey, config.ssoUri);
      && (r.Valid? <==> v.Success?)
      && (r.Valid? ==> r.claims == v.value)
      && (r.ValidationFailure? ==> r.reason == v.error.message)
  {
    var attempt :=
      match parseAccessToken(authHeader)
      case Failure(e) => Failure(e)
      case Success(token) => verifier(token, config.rsaPublicKey, config.ssoUri);
    match attempt
    case Success(claims) => Valid(claims)
    case Failure(e) => ValidationFailure(e.message)
  }

  /** Local validation with the signed-token verifier: it accepts exactly the
      tokens whose signature verifies with the configured key, whose issuer
      is the SSO URI and whose window contains `now`, and returns their
      claims. */
  lemma LocalValidationWithSignedJwtVerifier(authHeader: string, config: SingleSignOnConfig,
                                             parseAccessToken: string -> Result<AccessToken, Exception>,
                                             now: int, parse: TokenVerifier.JwtParser,
                                             verify: TokenVerifier.SignatureCheck, token: AccessToken)
    requires parseAccessToken(authHeader) == Success(token)
    ensures
      var r := LocalTokenValidation(authHeader, config, parseAccessToken,
                 (t, k, o) => TokenVerifier.VerifyAccessToken(t, k, o, now, parse, verify));
      && (r.Valid? <==>
           && parse(token.value).Success?
           && config.rsaPublicKey.Some?
           && parse(token.value).value.claimsSet.Success?
           && TokenVerifier.Trusted(parse(token.value).value, parse(token.value).value.claimsSet.value,
                                    config.rsaPublicKey.value, config.ssoUri, now, verify))
      && (r.Valid? ==> r.claims == parse(token.value).value.claimsSet.value)
  {
  }
}
