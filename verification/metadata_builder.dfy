/** Identity-provider metadata and signing-key discovery: URI derivation from
    the provider URI, manual metadata assembly, and the selection of the RSA
    signing key from a JSON Web Key Set. HTTP and JSON parsing are
    uninterpreted parameters. */
module MetaDataBuilder {
  import opened Wrappers
  import opened Json
  import opened Exceptions
  import opened Jose

  type Uri = string

  // ---------------------------------------------------------------------
  // URI derivation

  predicate EndsWithSlash(s: string) { |s| > 0 && s[|s| - 1] == '/' }

  predicate StartsWithSlash(s: string) { |s| > 0 && s[0] == '/' }

  /** `s` with one trailing '/' removed, if it has one. */
  function DropTrailingSlash(s: string): string
  {
    if EndsWithSlash(s) then s[..|s| - 1] else s
  }

  /** `s` with one leading '/' removed, if it has one. */
  function DropLeadingSlash(s: string): string
  {
    if StartsWithSlash(s) then s[1..] else s
  }

  /** Appending a path to the string form of an absolute URI, as a URI
      builder does: an empty path leaves the URI alone; otherwise exactly one
      '/' separates the base from the appended path, whether or not either
      side already carried one. */
  function JoinPath(base: Uri, path: string): (r: Uri)
    ensures path == "" ==> r == base
    ensures path != "" ==> r == DropTrailingSlash(base) + "/" + DropLeadingSlash(path)
    ensures base <= r
  {
    if path == "" then base
    else if EndsWithSlash(base) && StartsWithSlash(path) then base + path[1..]
    else if !EndsWithSlash(base) && !StartsWithSlash(path) then base + "/" + path
    else base + path
  }

  /** A '{' opens a URI template variable in a builder path. */
  predicate HasTemplate(path: string)
  {
    '{' in path
  }

  /** What building a URI throws when its path holds a template variable
      that was given no value. */
  const UnboundTemplate: Exception :=
    Exception(IllegalArgumentException, Some("URI template variable has no value"))

  /** The `uriBuilder` helper: the joined URI, except that a path holding a
      template variable makes the build throw, since no values are
      supplied. */
  function UriBuilderPath(base: Uri, path: string): (r: Result<Uri, Exception>)
    ensures r.Failure? <==> HasTemplate(path)
    ensures r.Failure? ==> r.error == UnboundTemplate
    ensures r.Success? ==> r.value == JoinPath(base, path)
  {
    if HasTemplate(path) then Failure(UnboundTemplate) else Success(JoinPath(base, path))
  }

  /** `uri` is the provider URI followed by a '/'-separated path. */
  predicate RootedAt(provider: Uri, uri: Uri)
  {
    uri == provider || DropTrailingSlash(provider) + "/" <= uri
  }

  /** Every URI derived from the provider URI is rooted at it. */
  lemma DerivedUriIsRooted(provider: Uri, path: string)
    ensures RootedAt(provider, JoinPath(provider, path))
  {
  }

  // ---------------------------------------------------------------------
  // Provider metadata

  datatype SubjectType = Public | Pairwise

  /** The endpoint metadata of an OpenID Connect provider. The JWK-set URI is
      mandatory; the other endpoints may be absent. */
  datatype ProviderMetadata = ProviderMetadata(
    issuer: string,
    subjectTypes: seq<SubjectType>,
    jwkSetUri: Uri,
    authorizationEndpoint: Option<Uri>,
    tokenEndpoint: Option<Uri>,
    introspectionEndpoint: Option<Uri>)

  /** `provideMetadataManually`: no request is made. Unless one of the
      given paths holds a template variable, the issuer is the provider URI,
      the only subject type is public, and the JWK-set, authorization and
      token endpoints are the given paths joined to the provider URI, so all
      of them are rooted at it. */
  function ProvideMetadataManually(provider: Uri, authEndpoint: string, tokenEndpoint: string,
                                   jwkSetEndpoint: string): (r: Result<ProviderMetadata, Exception>)
    ensures r.Failure? <==> HasTemplate(jwkSetEndpoint) || HasTemplate(authEndpoint) || HasTemplate(tokenEndpoint)
    ensures r.Failure? ==> r.error == UnboundTemplate
    ensures r.Success? ==>
      && r.value.issuer == provider
      && r.value.subjectTypes == [Public]
      && r.value.jwkSetUri == JoinPath(provider, jwkSetEndpoint)
      && r.value.authorizationEndpoint == Some(JoinPath(provider, authEndpoint))
      && r.value.tokenEndpoint == Some(JoinPath(provider, tokenEndpoint))
      && r.value.introspectionEndpoint.None?
      && RootedAt(provider, r.value.jwkSetUri)
      && RootedAt(provider, r.value.authorizationEndpoint.value)
      && RootedAt(provider, r.value.tokenEndpoint.value)
  {
    match UriBuilderPath(provider, jwkSetEndpoint)
    case Failure(e) => Failure(e)
    case Success(jwkSetUri) =>
      match UriBuilderPath(provider, authEndpoint)
      case Failure(e) => Failure(e)
      case Success(authUri) =>
        match UriBuilderPath(provider, tokenEndpoint)
        case Failure(e) => Failure(e)
        case Success(tokenUri) =>
          Success(ProviderMetadata(provider, [Public], jwkSetUri, Some(authUri), Some(tokenUri), None))
  }

  /** The HTTP GET of a JSON document: its body, or the transport's
      exception. */
  type Fetch = Uri -> Result<string, Exception>

  /** `provideMetadataFromServer`: fetches the discovery document from the
      configuration endpoint joined to the provider URI and parses it. A
      template variable in the endpoint fails before any request. */
  function ProvideMetadataFromServer(provider: Uri, configurationEndpoint: string, fetch: Fetch,
                                     parseMetadata: string -> Result<ProviderMetadata, Exception>)
    : (r: Result<ProviderMetadata, Exception>)
    ensures HasTemplate(configurationEndpoint) ==> r == Failure(UnboundTemplate)
    ensures !HasTemplate(configurationEndpoint) && fetch(JoinPath(provider, configurationEndpoint)).Failure? ==>
      r == Failure(fetch(JoinPath(provider, configurationEndpoint)).error)
    ensures !HasTemplate(configurationEndpoint) && fetch(JoinPath(provider, configurationEndpoint)).Success? ==>
      r == parseMetadata(fetch(JoinPath(provider, configurationEndpoint)).value)
  {
    match UriBuilderPath(provider, configurationEndpoint)
    case Failure(e) => Failure(e)
    case Success(metadataUri) =>
      match fetch(metadataUri)
      case Failure(e) => Failure(e)
      case Success(body) => parseMetadata(body)
  }

  /** The discovery document is the only thing read from the network, and it
      is read from a URI rooted at the provider URI: two transports that
      agree there give the same metadata. */
  lemma DiscoveryReadsOnlyConfigurationUri(provider: Uri, configurationEndpoint: string,
                                           fetch1: Fetch, fetch2: Fetch,
                                           parseMetadata: string -> Result<ProviderMetadata, Exception>)
    requires fetch1(JoinPath(provider, configurationEndpoint)) == fetch2(JoinPath(provider, configurationEndpoint))
    ensures ProvideMetadataFromServer(provider, configurationEndpoint, fetch1, parseMetadata)
         == ProvideMetadataFromServer(provider, configurationEndpoint, fetch2, parseMetadata)
    ensures RootedAt(provider, JoinPath(provider, configurationEndpoint))
  {
  }

  // ---------------------------------------------------------------------
  // Signing-key selection

  /** The library's conversion of a JSON Web Key object into an RSA public
      key, which may throw. */
  type RsaKeyParser = JsonObject -> Result<RsaPublicKey, Exception>

  /** What one pass of the selection loop does with an entry of the key
      list: throw, skip it, or take its key. */
  datatype Verdict = Abort(error: Exception) | Skip | Take(key: RsaPublicKey)

  /** An entry the loop's condition accepts: an object whose `use` is "sig"
      and whose `kty` is "RSA". */
  predicate SigningRsaEntry(entry: Json)
  {
    && entry.JObject?
    && Get(entry.members, "use") == Some(JString("sig"))
    && Get(entry.members, "kty") == Some(JString("RSA"))
  }

  /** One entry of the key list. A JSON null passes the cast to an object
      and is then dereferenced; any other non-object fails the cast. A
      missing `use` is dereferenced; `kty` is read only when `use` is "sig",
      and a missing `kty` is then dereferenced too. An accepted entry is
      parsed into a key, and a parse failure throws. */
  function Examine(entry: Json, parseRsa: RsaKeyParser): (v: Verdict)
    ensures entry.JNull? ==> v == Abort(NullPointer)
    ensures !entry.JNull? && !entry.JObject? ==>
      v == Abort(ClassCast(JavaClassName(entry), "net.minidev.json.JSONObject"))
    ensures entry.JObject? && Get(entry.members, "use").None? ==> v == Abort(NullPointer)
    ensures (entry.JObject? && Get(entry.members, "use").Some? &&
             Get(entry.members, "use") != Some(JString("sig"))) ==> v == Skip
    ensures (entry.JObject? && Get(entry.members, "use") == Some(JString("sig")) &&
             Get(entry.members, "kty").None?) ==> v == Abort(NullPointer)
    ensures (entry.JObject? && Get(entry.members, "use") == Some(JString("sig")) &&
             Get(entry.members, "kty").Some? &&
             Get(entry.members, "kty") != Some(JString("RSA"))) ==> v == Skip
    ensures SigningRsaEntry(entry) && parseRsa(entry.members).Success? ==>
      v == Take(parseRsa(entry.members).value)
    ensures SigningRsaEntry(entry) && parseRsa(entry.members).Failure? ==>
      v == Abort(parseRsa(entry.members).error)
    ensures v.Take? ==> SigningRsaEntry(entry) && parseRsa(entry.members) == Success(v.key)
  {
    if entry.JNull? then Abort(NullPointer)
    else if !entry.JObject? then Abort(ClassCast(JavaClassName(entry), "net.minidev.json.JSONObject"))
    else
      var k := entry.members;
      match Get(k, "use")
      case None => Abort(NullPointer)
      case Some(use) =>
        if use != JString("sig") then Skip
        else
          match Get(k, "kty")
          case None => Abort(NullPointer)
          case Some(kty) =>
            if kty != JString("RSA") then Skip
            else
              match parseRsa(k)
              case Failure(e) => Abort(e)
              case Success(key) => Take(key)
  }

  /** The position of the first entry that throws, if any. */
  function FirstAbort(keys: seq<Json>, parseRsa: RsaKeyParser): (r: Option<nat>)
    ensures r.Some? ==> r.value < |keys| && Examine(keys[r.value], parseRsa).Abort?
    ensures r.Some? ==> forall j :: 0 <= j < r.value ==> !Examine(keys[j], parseRsa).Abort?
    ensures r.None? ==> forall j :: 0 <= j < |keys| ==> !Examine(keys[j], parseRsa).Abort?
    decreases |keys|
  {
    if |keys| == 0 then None
    else if Examine(keys[0], parseRsa).Abort? then Some(0)
    else
      match FirstAbort(keys[1..], parseRsa)
      case None => None
      case Some(i) => Some(i + 1)
  }

  /** The position of the last entry whose key would be taken, if any. */
  function LastTake(keys: seq<Json>, parseRsa: RsaKeyParser): (r: Option<nat>)
    ensures r.Some? ==> r.value < |keys| && Examine(keys[r.value], parseRsa).Take?
    ensures r.Some? ==> forall j :: r.value < j < |keys| ==> !Examine(keys[j], parseRsa).Take?
    ensures r.None? ==> forall j :: 0 <= j < |keys| ==> !Examine(keys[j], parseRsa).Take?
    decreases |keys|
  {
    if |keys| == 0 then None
    else if Examine(keys[|keys| - 1], parseRsa).Take? then Some(|keys| - 1)
    else LastTake(keys[..|keys| - 1], parseRsa)
  }

  /** The selection policy stated without the loop: the first entry that
      throws decides the outcome; otherwise the last matching entry in
      document order wins; with no matching entry the key is null. */
  function SelectSigningKey(keys: seq<Json>, parseRsa: RsaKeyParser): Result<Option<RsaPublicKey>, Exception>
  {
    match FirstAbort(keys, parseRsa)
    case Some(i) => Failure(Examine(keys[i], parseRsa).error)
    case None =>
      match LastTake(keys, parseRsa)
      case None => Success(None)
      case Some(j) => Success(Some(Examine(keys[j], parseRsa).key))
  }

  /** The loop of `providePublicKeyFromJwkSet`: every matching entry
      overwrites the key chosen so far, and the first exception ends the
      scan. It computes the selection policy above. */
  method ScanKeyList(keys: seq<Json>, parseRsa: RsaKeyParser) returns (r: Result<Option<RsaPublicKey>, Exception>)
    ensures r == SelectSigningKey(keys, parseRsa)
  {
    var publicKey: Option<RsaPublicKey> := None;
    ghost var last: Option<nat> := None;
    var i := 0;
    while i < |keys|
      invariant 0 <= i <= |keys|
      invariant forall j :: 0 <= j < i ==> !Examine(keys[j], parseRsa).Abort?
      invariant last.None? ==> publicKey.None? && forall j :: 0 <= j < i ==> !Examine(keys[j], parseRsa).Take?
      invariant last.Some? ==> publicKey.Some? && last.value < i
      invariant last.Some? ==> Examine(keys[last.value], parseRsa) == Take(publicKey.value)
      invariant last.Some? ==> forall j :: last.value < j < i ==> !Examine(keys[j], parseRsa).Take?
    {
      var verdict := Examine(keys[i], parseRsa);
      if verdict.Abort? {
        return Failure(verdict.error);
      } else if verdict.Take? {
        publicKey := Some(verdict.key);
        last := Some(i);
      }
      i := i + 1;
    }
    return Success(publicKey);
  }

  /** The `keys` member read as a JSON array: a missing or null list is
      dereferenced by the loop; a value that is not an array fails the
      cast. */
  function KeyList(document: JsonObject): (r: Result<seq<Json>, Exception>)
    ensures r.Success? <==> Get(document, "keys").Some? && Get(document, "keys").value.JArray?
    ensures r.Success? ==> r.value == document["keys"].elems
  {
    match Get(document, "keys")
    case None => Failure(NullPointer)
    case Some(v) =>
      if v.JArray? then Success(v.elems)
      else Failure(ClassCast(JavaClassName(v), "net.minidev.json.JSONArray"))
  }

  /** The key set `providePublicKeyFromJwkSet` scans: the JWK-set endpoint's
      body parsed as a JSON object, and its `keys` member. */
  function JwkSetKeys(metadata: ProviderMetadata, fetch: Fetch,
                      parseJson: string -> Result<JsonObject, Exception>): Result<seq<Json>, Exception>
  {
    match fetch(metadata.jwkSetUri)
    case Failure(e) => Failure(e)
    case Success(body) =>
      match parseJson(body)
      case Failure(e) => Failure(e)
      case Success(document) => KeyList(document)
  }

  /** `providePublicKeyFromJwkSet`: fetches the key set from the metadata's
      JWK-set URI and selects the signing key from it. A null key (no
      matching entry) is a success, not an error. */
  method ProvidePublicKeyFromJwkSet(metadata: ProviderMetadata, fetch: Fetch,
                                    parseJson: string -> Result<JsonObject, Exception>,
                                    parseRsa: RsaKeyParser)
    returns (r: Result<Option<RsaPublicKey>, Exception>)
    ensures JwkSetKeys(metadata, fetch, parseJson).Failure? ==>
      r == Failure(JwkSetKeys(metadata, fetch, parseJson).error)
    ensures JwkSetKeys(metadata, fetch, parseJson).Success? ==>
      r == SelectSigningKey(JwkSetKeys(metadata, fetch, parseJson).value, parseRsa)
  {
    var keys := JwkSetKeys(metadata, fetch, parseJson);
    if keys.Failure? {
      return Failure(keys.error);
    }
    r := ScanKeyList(keys.value, parseRsa);
  }

  /** Last match wins: with no entry throwing, the key of the last entry
      with `use` "sig" and `kty` "RSA" is selected, whatever matched before
      it. */
  lemma LastMatchWins(keys: seq<Json>, parseRsa: RsaKeyParser, i: nat, key: RsaPublicKey)
    requires i < |keys|
    requires forall j :: 0 <= j < |keys| ==> !Examine(keys[j], parseRsa).Abort?
    requires SigningRsaEntry(keys[i]) && parseRsa(keys[i].members) == Success(key)
    requires forall j :: i < j < |keys| ==> !SigningRsaEntry(keys[j])
    ensures SelectSigningKey(keys, parseRsa) == Success(Some(key))
  {
  }

  /** A selected key comes from a matching entry with nothing matching after
      it; a null key means no entry matched; a failure is the exception of
      the first entry that throws. */
  lemma SelectionCharacterized(keys: seq<Json>, parseRsa: RsaKeyParser)
    ensures SelectSigningKey(keys, parseRsa).Success? <==>
              forall j :: 0 <= j < |keys| ==> !Examine(keys[j], parseRsa).Abort?
    ensures SelectSigningKey(keys, parseRsa) == Success(None) <==>
              forall j :: 0 <= j < |keys| ==> Examine(keys[j], parseRsa).Skip?
    ensures SelectSigningKey(keys, parseRsa).Success? && SelectSigningKey(keys, parseRsa).value.Some? ==>
              exists i :: 0 <= i < |keys| &&
                Examine(keys[i], parseRsa) == Take(SelectSigningKey(keys, parseRsa).value.value) &&
                forall j :: i < j < |keys| ==> !Examine(keys[j], parseRsa).Take?
  {
  }

  /** An entry without `use` ends the scan with a null dereference once it
      is reached, even if later entries would match. */
  lemma MissingUseAborts(keys: seq<Json>, parseRsa: RsaKeyParser, i: nat)
    requires i < |keys|
    requires forall j :: 0 <= j < i ==> !Examine(keys[j], parseRsa).Abort?
    requires keys[i].JObject? && "use" !in keys[i].members
    ensures SelectSigningKey(keys, parseRsa) == Failure(NullPointer)
  {
  }

  /** `kty` is read only when `use` is "sig": an entry with another `use`
      is skipped whatever its `kty` is, present or not. */
  lemma KtyReadOnlyForSigningKeys(entry: JsonObject, use: Json, kty: Option<Json>, parseRsa: RsaKeyParser)
    requires use != JNull && use != JString("sig")
    ensures var k := entry["use" := use];
            var k' := if kty.Some? then k["kty" := kty.value] else k - {"kty"};
            Examine(JObject(k'), parseRsa) == Skip
  {
  }

  /** A matching entry whose key does not parse ends the scan with the
      parser's exception, even if a later entry would match. */
  lemma UnparsableMatchAborts(keys: seq<Json>, parseRsa: RsaKeyParser, i: nat)
    requires i < |keys|
    requires forall j :: 0 <= j < i ==> !Examine(keys[j], parseRsa).Abort?
    requires keys[i].JObject?
    requires Get(keys[i].members, "use") == Some(JString("sig"))
    requires Get(keys[i].members, "kty") == Some(JString("RSA"))
    requires parseRsa(keys[i].members).Failure?
    ensures SelectSigningKey(keys, parseRsa) == Failure(parseRsa(keys[i].members).error)
  {
  }

  /** Of two RSA signing keys, the later one in document order is chosen. */
  lemma LaterOfTwoSigningKeysWins(first: JsonObject, second: JsonObject, parseRsa: RsaKeyParser,
                                  key1: RsaPublicKey, key2: RsaPublicKey)
    requires Get(first, "use") == Some(JString("sig")) && Get(first, "kty") == Some(JString("RSA"))
    requires Get(second, "use") == Some(JString("sig")) && Get(second, "kty") == Some(JString("RSA"))
    requires parseRsa(first) == Success(key1) && parseRsa(second) == Success(key2)
    ensures SelectSigningKey([JObject(first), JObject(second)], parseRsa) == Success(Some(key2))
  {
  }
}
