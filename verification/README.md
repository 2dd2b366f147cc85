# OpenID Connect token validation: a Dafny model

This project models the trust decisions of a Mule connector that validates
OAuth2 / OpenID Connect access tokens for a relying party:

- **TokenVerifier** (`token_verifier.dfy`): offline verification of a signed
  token. Signature, then issuer, then the half-open time window
  `nbf <= now < exp`; every failure, including library failures, leaves as a
  `TokenValidationException` with the underlying message.
- **TokenValidator** (`token_validator.dfy`): the two entry points. Token
  introspection maps an error response, an inactive success response, an
  active success response and a transport `IOException` to a validation
  failure, a validation failure, the claims, and a connectivity failure
  naming the SSO URI. Local validation wraps a verifier and can only fail
  with a validation failure.
- **MetaDataBuilder** (`metadata_builder.dfy`): URI derivation from the
  provider URI (`UriBuilder.path`: exactly one `/` at the junction), manual
  metadata assembly, discovery, and the "last match wins" scan of a JSON Web
  Key Set for the RSA signing key.
- **Storage** (`storage.dfy`): the key/value store wrapper as operations on
  a map.

Supporting modules: `Wrappers` (Option for Java null, Result for a return or
a thrown exception), `Json` (JSON values with Java's `get`, which gives null
for a missing member and for JSON null), `Exceptions` (a Java exception as a
kind and a possibly-null message), `Jose` (access tokens, RSA public keys,
claim sets and parsed signed tokens).

Library calls are parameters of the model, left uninterpreted:
`SignedJWT.parse`, signature verification, `RSAKey.parse`, JSON parsing,
`OIDCProviderMetadata.parse`, the access-token parser, the HTTP GET of
`requestJsonString` and the introspection request's `send`. The clock is a
single `now` parameter in milliseconds.

The two `TokenVerifier` classes of the repository live in different
packages; `TokenValidator` calls the one of its own package, which is not
part of this model. `TokenValidator` is therefore modelled against an
arbitrary verifier function, and `LocalValidationWithSignedJwtVerifier`
composes it with the modelled `TokenVerifier.VerifyAccessToken`.

## Behaviour of the code worth noting

- A key set with no matching entry yields a null key, not an error
  (MetaDataBuilder.java:123, 132).
- An entry without `use`, a JSON null entry, or a "sig" entry without `kty`
  makes the key scan throw instead of being skipped (MetaDataBuilder.java:127-128).
- Local validation rewraps every exception, a malformed token included,
  into the one validation kind (TokenVerifier.java:27-29, TokenValidator.java:87-90).
- Introspection turns any `IOException` raised in its `try` block into a
  connectivity failure (TokenValidator.java:67-72); with the parsers'
  declared exceptions only the transport raises one.
- Manual metadata sets no introspection endpoint (MetaDataBuilder.java:93-105).
- A path holding a URI template variable (`{name}`) makes every URI derivation
  throw, because the builder is given no values (MetaDataBuilder.java:160-163).

## Model

| member | source | states |
|---|---|---|
| TokenVerifier.IsActive | src/main/java/org/mule/modules/oidctokenvalidator/client/oidc/TokenVerifier.java:32-37 | succeeds exactly when the token parses and carries `exp` and `nbf`; then it is true exactly when `nbf <= now < exp`; a parse failure is passed on |
| TokenVerifier.VerifyAccessToken | src/main/java/org/mule/modules/oidctokenvalidator/client/oidc/TokenVerifier.java:14-30 | accepts exactly when the token parses, a key is given, the claims decode, the signature verifies, `iss` equals the origin and `now` is in `[nbf, exp)`; on success returns the parsed claim set itself; every failure is a TokenValidationException; a malformed token keeps the parser's message |
| TokenVerifier.BadSignatureWins | src/main/java/org/mule/modules/oidctokenvalidator/client/oidc/TokenVerifier.java:22 | a signature that does not verify gives "Wrong token signature" whatever `iss`, `exp` and `nbf` are |
| TokenVerifier.WrongIssuerBeforeTimeWindow | src/main/java/org/mule/modules/oidctokenvalidator/client/oidc/TokenVerifier.java:23 | with a valid signature, an issuer other than the origin gives "Token has wrong issuer" whatever the time window |
| TokenVerifier.InactiveTokenRejected | src/main/java/org/mule/modules/oidctokenvalidator/client/oidc/TokenVerifier.java:24 | with a valid signature and the expected issuer, `now` outside `[nbf, exp)` gives "Token isn't active" |
| TokenVerifier.ExpiryIsExclusive | src/main/java/org/mule/modules/oidctokenvalidator/client/oidc/TokenVerifier.java:36 | `now == exp` is inactive |
| TokenVerifier.NotBeforeIsInclusive | src/main/java/org/mule/modules/oidctokenvalidator/client/oidc/TokenVerifier.java:36 | `now == nbf` before `exp` is active |
| TokenVerifier.LibraryFailureKeepsMessage | src/main/java/org/mule/modules/oidctokenvalidator/client/oidc/TokenVerifier.java:27-29 | a missing key, a claim set that does not decode and a throwing signature check each give a validation error with that exception's message; a missing `exp` or `nbf` after signature and issuer pass gives a validation error without message |
| TokenVerifier.MissingIssuerIsValidationError | src/main/java/org/mule/modules/oidctokenvalidator/client/oidc/TokenVerifier.java:20-23 | a missing `iss` after a valid signature is a validation error without message (null dereference), not another kind |
| Exceptions.RethrowAsValidation | src/main/java/org/mule/modules/oidctokenvalidator/client/oidc/TokenVerifier.java:27-29 | whatever was thrown, a TokenValidationException with the same message leaves; an exception that already is one leaves unchanged |
| TokenValidator.CreateTokenIntrospectionRequest | src/main/java/org/mule/modules/openidconnect/client/tokenvalidation/TokenValidator.java:94-100 | the request goes to the configured introspection URI with the configured client-secret-basic credentials and carries the given token |
| TokenValidator.ConnectMessage | src/main/java/org/mule/modules/openidconnect/client/tokenvalidation/TokenValidator.java:69-72 | the connectivity message contains the SSO URI and the IOException's message ("null" when it has none) |
| TokenValidator.ActiveFlag | src/main/java/org/mule/modules/openidconnect/client/tokenvalidation/TokenValidator.java:62 | the `active` cast succeeds exactly for a boolean member and yields its value; a missing or non-boolean member throws |
| TokenValidator.IntrospectionTokenValidation | src/main/java/org/mule/modules/openidconnect/client/tokenvalidation/TokenValidator.java:36-78 | claims are returned only when `active` is true; a connectivity failure arises exactly when the try block throws an IOException, and its message names the SSO URI; every other failure is a validation failure with the exception's message |
| TokenValidator.ErrorResponseYieldsDescription | src/main/java/org/mule/modules/openidconnect/client/tokenvalidation/TokenValidator.java:51-56 | an introspection error response gives a validation failure carrying the error object's description |
| TokenValidator.InactiveIntrospectionRejected | src/main/java/org/mule/modules/openidconnect/client/tokenvalidation/TokenValidator.java:62-64 | a success response with `active` false gives "Token is not active" whatever else it holds |
| TokenValidator.ActiveIntrospectionReturnsClaims | src/main/java/org/mule/modules/openidconnect/client/tokenvalidation/TokenValidator.java:59-66 | a success response with `active` true returns its whole JSON object unchanged |
| TokenValidator.TransportFailureIsConnectivity | src/main/java/org/mule/modules/openidconnect/client/tokenvalidation/TokenValidator.java:67-72 | an IOException from sending the request gives a connectivity failure naming the SSO URI and the cause |
| TokenValidator.OnlyTransportCausesConnectivityFailure | src/main/java/org/mule/modules/openidconnect/client/tokenvalidation/TokenValidator.java:67-72 | when the two parsers throw no IOException, a connectivity failure implies the header parsed and sending the introspection request threw an IOException |
| TokenValidator.ContentTypeIgnored | src/main/java/org/mule/modules/openidconnect/client/tokenvalidation/TokenValidator.java:44-49 | the provider's content type, present or absent, does not change the outcome; the response is always parsed as JSON |
| TokenValidator.OnlyConfiguredRequestIsSent | src/main/java/org/mule/modules/openidconnect/client/tokenvalidation/TokenValidator.java:41-45 | only the request to the configured introspection URI with the configured credentials and the parsed token matters to the outcome |
| TokenValidator.LocalTokenValidation | src/main/java/org/mule/modules/openidconnect/client/tokenvalidation/TokenValidator.java:80-91 | never a connectivity failure; succeeds exactly when the header parses and the verifier, given the configured key and the SSO URI, accepts, returning its claims; failures keep the underlying message |
| TokenValidator.LocalValidationWithSignedJwtVerifier | src/main/java/org/mule/modules/openidconnect/client/tokenvalidation/TokenValidator.java:83-86 | with the signed-token verifier, local validation accepts exactly the tokens whose signature verifies with the configured key, whose issuer is the SSO URI and whose window contains `now`, and returns their claims |
| MetaDataBuilder.JoinPath | src/main/java/org/mule/modules/openidconnect/config/MetaDataBuilder.java:160-163 | an empty path leaves the URI alone; otherwise the result is the base without one trailing `/`, one `/`, and the path without one leading `/`; the base is always a prefix |
| MetaDataBuilder.UriBuilderPath | src/main/java/org/mule/modules/openidconnect/config/MetaDataBuilder.java:160-163 | fails with an IllegalArgumentException exactly when the path holds a template variable; otherwise gives the joined URI |
| MetaDataBuilder.DerivedUriIsRooted | src/main/java/org/mule/modules/openidconnect/config/MetaDataBuilder.java:160-163 | every derived URI is the provider URI or extends it with a `/`-separated path |
| MetaDataBuilder.ProvideMetadataManually | src/main/java/org/mule/modules/openidconnect/config/MetaDataBuilder.java:93-105 | fails exactly when one of the three paths holds a template variable; otherwise the issuer is the provider URI, subject types are exactly `[public]`, the JWK-set, authorization and token endpoints are the given paths joined to the provider URI and rooted at it, and no introspection endpoint is set; no request is made |
| MetaDataBuilder.ProvideMetadataFromServer | src/main/java/org/mule/modules/openidconnect/config/MetaDataBuilder.java:79-83 | a template variable in the endpoint fails before any request; otherwise the document is fetched from the configuration endpoint joined to the provider URI, a fetch failure is passed on, and the result is the parse of the fetched body |
| MetaDataBuilder.DiscoveryReadsOnlyConfigurationUri | src/main/java/org/mule/modules/openidconnect/config/MetaDataBuilder.java:80-82 | two transports that agree on the configuration URI give the same metadata, and that URI is rooted at the provider URI |
| MetaDataBuilder.Examine | src/main/java/org/mule/modules/openidconnect/config/MetaDataBuilder.java:127-129 | a JSON null entry, a missing `use`, and a missing `kty` under `use` "sig" each throw a null dereference; any other non-object fails the cast; a present `use` other than "sig" or `kty` other than "RSA" is skipped; an entry with "sig" and "RSA" is taken with its parsed key, or throws the parser's exception; only such entries are taken |
| MetaDataBuilder.KeyList | src/main/java/org/mule/modules/openidconnect/config/MetaDataBuilder.java:124 | the key list is read exactly when `keys` is a JSON array, and is its elements |
| MetaDataBuilder.ScanKeyList | src/main/java/org/mule/modules/openidconnect/config/MetaDataBuilder.java:123-132 | the overwriting loop computes the selection policy: first throwing entry fails the scan, else the last matching key, else null |
| MetaDataBuilder.ProvidePublicKeyFromJwkSet | src/main/java/org/mule/modules/openidconnect/config/MetaDataBuilder.java:117-133 | a fetch, JSON or key-list failure is passed on; otherwise the result is the selection over the key list fetched from the metadata's JWK-set URI |
| MetaDataBuilder.LastMatchWins | src/main/java/org/mule/modules/openidconnect/config/MetaDataBuilder.java:126-131 | with no entry throwing, the key of the last entry with `use` "sig" and `kty` "RSA" is selected, whatever matched before |
| MetaDataBuilder.SelectionCharacterized | src/main/java/org/mule/modules/openidconnect/config/MetaDataBuilder.java:123-132 | selection succeeds exactly when no entry throws; it is null exactly when every entry is skipped; a selected key comes from a matching entry with no match after it |
| MetaDataBuilder.MissingUseAborts | src/main/java/org/mule/modules/openidconnect/config/MetaDataBuilder.java:128 | an entry without `use` ends the scan with a null dereference even if later entries match |
| MetaDataBuilder.KtyReadOnlyForSigningKeys | src/main/java/org/mule/modules/openidconnect/config/MetaDataBuilder.java:128 | an entry whose `use` is not "sig" is skipped whatever its `kty`, present or absent |
| MetaDataBuilder.UnparsableMatchAborts | src/main/java/org/mule/modules/openidconnect/config/MetaDataBuilder.java:129 | a matching entry whose key fails to parse ends the scan with the parser's exception even if a later entry would match |
| MetaDataBuilder.LaterOfTwoSigningKeysWins | src/main/java/org/mule/modules/openidconnect/config/MetaDataBuilder.java:126-131 | of two RSA signing keys, the later in document order is selected |
| Storage.GetData | src/main/java/org/mule/modules/openidconnect/client/relyingparty/storage/Storage.java:41-44 | null exactly for an absent id, otherwise the stored value |
| Storage.ContainsData | src/main/java/org/mule/modules/openidconnect/client/relyingparty/storage/Storage.java:53-54 | false for a null id; for a non-null id true exactly when `getData` gives a value |
| Storage.StoreData | src/main/java/org/mule/modules/openidconnect/client/relyingparty/storage/Storage.java:28-33 | remove-then-store is an overwrite of that one id |
| Storage.RemoveData | src/main/java/org/mule/modules/openidconnect/client/relyingparty/storage/Storage.java:62-66 | the id is gone, every other entry is unchanged, and an absent id changes nothing |
| Storage.GetAfterStore | src/main/java/org/mule/modules/openidconnect/client/relyingparty/storage/Storage.java:28-33 | after storing, the id reads as the new value and is contained, present before or not |
| Storage.StoreLeavesOthers | src/main/java/org/mule/modules/openidconnect/client/relyingparty/storage/Storage.java:28-33 | storing leaves every other id's value as it was |
| Storage.RemoveForgetsOnlyThatId | src/main/java/org/mule/modules/openidconnect/client/relyingparty/storage/Storage.java:62-66 | after removal the id is not contained and reads null; other ids read as before |
| Storage.RemoveIdempotent | src/main/java/org/mule/modules/openidconnect/client/relyingparty/storage/Storage.java:62-66 | removing twice equals removing once |
| Storage.StoreOverwrites | src/main/java/org/mule/modules/openidconnect/client/relyingparty/storage/Storage.java:28-33 | storing twice under one id equals storing the second value |
| Storage.RemoveUndoesStore | src/main/java/org/mule/modules/openidconnect/client/relyingparty/storage/Storage.java:62-66 | storing then removing an id equals removing it alone |

## Left out

- HTTP transport (`requestJsonString`, `toHTTPRequest().send()`, the JAX-RS client): modelled as function parameters returning a body, a response, or an exception.
- Cryptography (`RSASSAVerifier`, `SignedJWT.verify`, `RSAKey.parse`, `toRSAPublicKey`): modelled as uninterpreted functions that may throw.
- `providePublicKeyFromString` (MetaDataBuilder.java:144-150): base64 and X.509 decoding is library code with no decision logic of the connector's own, so it is not modelled.
- JSON and OpenID Connect parsing (`JSONObjectUtils.parse`, `OIDCProviderMetadata.parse`, `parseAccessToken`, `parseIntrospectionResponse`): uninterpreted parameters. The helper class that parses the access token is not part of this model.
- `applyDefaults` (MetaDataBuilder.java:103) fills in metadata fields other than the endpoints; those fields are not modelled.
- The clock: `isActive` reads `System.currentTimeMillis()` twice; the model uses one `now` for both comparisons and does not model the skew between readings.
- MetaDataBuilder.UriBuilderPath: percent-encoding of the path, query and fragment parts of the base URI, and a null path are not modelled; URIs are their string forms and the base is taken to be an absolute URI with an authority. Any '{' in a path is treated as a template variable without a value, unbalanced braces included, and the exception's message text is not the JAX-RS implementation's own.
- TokenVerifier.VerifyAccessToken: the `IllegalArgumentException` for a null key carries the Nimbus library's text; the model only relies on it being rewrapped as a validation error.
- A `NullPointerException` raised by the JVM has a null message, as on Java 8. A `ClassCastException` has a message naming the value's type and the target class; a JSON number is named by `java.lang.Number` rather than the concrete class the JSON parser chose. Subclasses of `IOException` are folded into `IOException`.
- Storage: `ObjectStoreException`, null values, and null ids passed to `storeData`, `getData` and `removeData` are the object store's business and are not modelled; only `containsData` guards against a null id itself.
- Logging and `System.out.println`.
- A null `SingleSignOnConfig` or null URI inside it is not modelled; configuration values are always present.
