/** The handler's decision (index.js:66-129) as a function of the two
    caches, the configuration, the request and what the collaborators
    answer: the admission checks, the key lookup and verification, the
    identity exchange, the Allow result and the mapping of failures. */
module Decision {
  import opened Js
  import opened Strings
  import opened BearerFormat
  import opened KeySets
  import opened Identities

  /** `process.env.user_pool_url` and `process.env.identity_pool_id`. */
  datatype Config = Config(userPoolUrl: string, identityPoolId: string)

  /** The collaborators the handler calls, each answering as it answers on
      this request.
      - decode: `JSON.parse(Buffer.from(segment, 'base64'))` read as an
        object, `None` when that throws or yields `null`; a number, string,
        boolean or array reads as an object without `kid`, `iss`,
        `token_use` or `sub`;
      - fetch: `https.get` of a key-set location;
      - jwkToPem: the `jwk-to-pem` library;
      - verify: `jsonwebtoken.verify(token, pem, {algorithms: [alg]})`,
        the decoded payload or the error it reports;
      - getId: the identity broker's `getId`. */
  datatype Services = Services(
    decode: string -> Option<JsObject>,
    fetch: string -> Response,
    jwkToPem: PemConverter,
    verify: (string, Json, Option<Json>) -> Result<JsObject, JsError>,
    getId: Broker)

  /** The module-level dictionaries `jwks` and `cognitoIdentities`. */
  datatype Caches = Caches(jwks: map<string, KeyEntry>, identities: map<string, IdentityEntry>)

  datatype Statement = Statement(action: string, effect: string, resource: string)

  datatype PolicyDocument = PolicyDocument(version: string, statements: seq<Statement>)

  /** What becomes of one invocation.
      - Unauthorized: `callback('Unauthorized')`;
      - Allow: `callback(null, {principalId, policyDocument, context})`;
      - Failed: `callback("Error: " + JSON.stringify(err))`;
      - Raised: the handler throws before any callback;
      - NoAnswer: the callback is never called (a promise never settles). */
  datatype Outcome =
    | Unauthorized
    | Allow(principalId: string, policyDocument: PolicyDocument, context: JsObject)
    | Failed(error: JsError)
    | Raised
    | NoAnswer

  /** How the synchronous part of the handler ends. */
  datatype Screening =
    | Reject
    | Raise
    | Admit(token: string, tokenKid: Option<Json>)

  /** `bearerToken.split(' ').pop()`. */
  function TokenOf(authorizationToken: string): (token: string)
    ensures |token| <= |authorizationToken| && token == authorizationToken[|authorizationToken| - |token|..]
    ensures ' ' !in token
    ensures |token| < |authorizationToken| ==>
      authorizationToken[|authorizationToken| - |token| - 1] == ' '
  {
    SplitTail(authorizationToken, ' ');
    var pieces := Split(authorizationToken, ' ');
    pieces[|pieces| - 1]
  }

  /** `header64` and `payload64` decoded, the header first; `None` when
      either decoding throws, or when the token has no '.' and `payload64`
      is `undefined`. */
  function DecodeToken(token: string, decode: string -> Option<JsObject>): (decoded: Option<(JsObject, JsObject)>)
    ensures |Split(token, '.')| >= 2 <==> '.' in token
    ensures decoded.Some? <==>
      && '.' in token
      && decode(Split(token, '.')[0]).Some?
      && decode(Split(token, '.')[1]).Some?
    ensures decoded.Some? ==>
      decoded.value == (decode(Split(token, '.')[0]).value, decode(Split(token, '.')[1]).value)
  {
    SplitSingle(token, '.');
    var segments := Split(token, '.');
    match decode(segments[0])
    case None => None
    case Some(header) =>
      if |segments| < 2 then None
      else
        match decode(segments[1])
        case None => None
        case Some(payload) => Some((header, payload))
  }

  /** The checks at index.js:67-86, in order: the header shape, the
      decoding of the first two segments, the issuer, the token use. */
  function Screen(authorizationToken: string, userPoolUrl: string, decode: string -> Option<JsObject>)
    : (s: Screening)
    ensures !MatchesBearer(authorizationToken) ==> s == Reject
    ensures MatchesBearer(authorizationToken) ==>
      match DecodeToken(TokenOf(authorizationToken), decode)
      case None => s == Raise
      case Some((header, payload)) =>
        if Get(payload, "iss") != Some(JString(userPoolUrl)) then s == Reject
        else if Get(payload, "token_use") != Some(JString("id")) then s == Reject
        else s == Admit(TokenOf(authorizationToken), Get(header, "kid"))
  {
    if !MatchesBearer(authorizationToken) then Reject
    else
      var token := TokenOf(authorizationToken);
      match DecodeToken(token, decode)
      case None => Raise
      case Some((header, payload)) =>
        StrictEqualsString(Get(payload, "iss"), userPoolUrl);
        StrictEqualsString(Get(payload, "token_use"), "id");
        if !StrictEquals(Get(payload, "iss"), Some(JString(userPoolUrl))) then Reject
        else if !StrictEquals(Get(payload, "token_use"), Some(JString("id"))) then Reject
        else Admit(token, Get(header, "kid"))
  }

  /** The `.catch` at index.js:122-129: only the two `jsonwebtoken` error
      names deny; every other failure is reported as an error. */
  function Classify(err: JsError): (outcome: Outcome)
    ensures outcome == Unauthorized <==> err.name == "TokenExpiredError" || err.name == "JsonWebTokenError"
    ensures outcome != Unauthorized ==> outcome == Failed(err)
  {
    if err.name == "TokenExpiredError" || err.name == "JsonWebTokenError" then Unauthorized
    else Failed(err)
  }

  /** The destructuring `{pem, alg}` of `undefined` when no key matches. */
  const NoMatchingKey := JsError("TypeError", "Cannot destructure property 'pem' of undefined")

  /** index.js:90-99: take the first key whose `kid` matches, insist on a
      truthy `pem`, and verify the token with it. */
  function SelectAndVerify(token: string, tokenKid: Option<Json>, keys: seq<JsObject>,
                           verify: (string, Json, Option<Json>) -> Result<JsObject, JsError>)
    : (r: Result<JsObject, JsError>)
    ensures FindKey(keys, tokenKid).None? ==> r == Err(NoMatchingKey)
    ensures FindKey(keys, tokenKid).Some? && !Truthy(Get(keys[FindKey(keys, tokenKid).value], "pem")) ==>
      r.Err? && r.error.name == "Error"
    ensures FindKey(keys, tokenKid).Some? && Truthy(Get(keys[FindKey(keys, tokenKid).value], "pem")) ==>
      var key := keys[FindKey(keys, tokenKid).value];
      r == verify(token, Get(key, "pem").value, Get(key, "alg"))
    ensures r.Ok? ==>
      && FindKey(keys, tokenKid).Some?
      && var key := keys[FindKey(keys, tokenKid).value];
      && Truthy(Get(key, "pem"))
      && r == verify(token, Get(key, "pem").value, Get(key, "alg"))
  {
    match FindKey(keys, tokenKid)
    case None => Err(NoMatchingKey)
    case Some(i) =>
      var pem := Get(keys[i], "pem");
      if !Truthy(pem) then Err(JsError("Error", "Invalid kid \"" + ToJsString(tokenKid) + "\"!"))
      else verify(token, pem.value, Get(keys[i], "alg"))
  }

  // The policy's Resource: the method ARN up to its first '/', then a
  // slash and an asterisk.
  function ResourceFor(methodArn: string): (resource: string)
    ensures |resource| >= 2 && resource[|resource| - 2..] == "/*"
    ensures var stem := resource[..|resource| - 2];
      && |stem| <= |methodArn| && stem == methodArn[..|stem|]
      && '/' !in stem
      && (|stem| < |methodArn| ==> methodArn[|stem|] == '/')
  {
    SplitHead(methodArn, '/');
    var stem := Split(methodArn, '/')[0];
    assert (stem + "/*")[..|stem|] == stem;
    stem + "/*"
  }

  /** The Allow result of index.js:102-120. */
  function BuildAllow(identityId: string, methodArn: string, payload: JsObject): (outcome: Outcome)
    ensures outcome.Allow? && outcome.principalId == identityId
    ensures outcome.policyDocument.version == "2012-10-17"
    ensures outcome.policyDocument.statements ==
      [Statement("execute-api:Invoke", "Allow", ResourceFor(methodArn))]
    ensures outcome.context.Keys == payload.Keys + {"cognitoIdentityId"}
    ensures outcome.context["cognitoIdentityId"] == JString(identityId)
    ensures forall k | k in payload && k != "cognitoIdentityId" :: outcome.context[k] == payload[k]
  {
    Allow(
      identityId,
      PolicyDocument("2012-10-17", [Statement("execute-api:Invoke", "Allow", ResourceFor(methodArn))]),
      payload["cognitoIdentityId" := JString(identityId)])
  }

  /** What follows the admission checks (index.js:88-121), for an admitted
      token: fetch the key set, pick the key, verify, exchange, allow. */
  function Proceed(caches: Caches, config: Config, token: string, tokenKid: Option<Json>, methodArn: string,
                   services: Services)
    : (result: (Outcome, Caches))
    ensures JwksLocation(config.userPoolUrl) in result.1.jwks
    ensures JwksLocation(config.userPoolUrl) in caches.jwks ==> result.1.jwks == caches.jwks
    ensures caches.jwks.Keys <= result.1.jwks.Keys
    ensures forall l | l in caches.jwks :: result.1.jwks[l] == caches.jwks[l]
    ensures caches.identities.Keys <= result.1.identities.Keys
    ensures forall s | s in caches.identities :: result.1.identities[s] == caches.identities[s]
  {
    var (entry, jwks) := KeyCacheStep(caches.jwks, config.userPoolUrl, services.fetch, services.jwkToPem);
    var afterFetch := caches.(jwks := jwks);
    match entry
    case Unsettled => (NoAnswer, afterFetch)
    case FetchRejected(err) => (Classify(err), afterFetch)
    case KeysReady(keys) =>
      match SelectAndVerify(token, tokenKid, keys, services.verify)
      case Err(err) => (Classify(err), afterFetch)
      case Ok(payload) =>
        var (identity, identities) :=
          IdentityStep(caches.identities, config.identityPoolId, token, payload, services.getId);
        var afterExchange := afterFetch.(identities := identities);
        match identity
        case Err(err) => (Classify(err), afterExchange)
        case Ok(identityId) => (BuildAllow(identityId, methodArn, payload), afterExchange)
  }

  /** One invocation of the handler: its outcome and the caches after it.
      Nothing is fetched or exchanged unless the admission checks pass, and
      no cache entry is ever replaced or removed. */
  function Decide(caches: Caches, config: Config, authorizationToken: string, methodArn: string,
                  services: Services)
    : (result: (Outcome, Caches))
    ensures !Screen(authorizationToken, config.userPoolUrl, services.decode).Admit? ==> result.1 == caches
    ensures caches.jwks.Keys <= result.1.jwks.Keys
    ensures forall l | l in caches.jwks :: result.1.jwks[l] == caches.jwks[l]
    ensures caches.identities.Keys <= result.1.identities.Keys
    ensures forall s | s in caches.identities :: result.1.identities[s] == caches.identities[s]
  {
    match Screen(authorizationToken, config.userPoolUrl, services.decode)
    case Reject => (Unauthorized, caches)
    case Raise => (Raised, caches)
    case Admit(token, tokenKid) => Proceed(caches, config, token, tokenKid, methodArn, services)
  }

  /** What an admitted request ends with: no answer when the key set never
      settled; otherwise the first failure, classified, or the Allow built
      from the broker's identity and the verified payload. A failure before
      the exchange leaves the identity cache alone. */
  lemma AdmittedOutcome(caches: Caches, config: Config, token: string, tokenKid: Option<Json>, methodArn: string,
                        services: Services)
    ensures var result := Proceed(caches, config, token, tokenKid, methodArn, services);
      var (entry, _) := KeyCacheStep(caches.jwks, config.userPoolUrl, services.fetch, services.jwkToPem);
      && (entry.Unsettled? ==> result.0 == NoAnswer)
      && (entry.FetchRejected? ==> result.0 == Classify(entry.error) && result.1.identities == caches.identities)
      && (entry.KeysReady? ==>
            var verified := SelectAndVerify(token, tokenKid, entry.keys, services.verify);
            && (verified.Err? ==> result.0 == Classify(verified.error) && result.1.identities == caches.identities)
            && (verified.Ok? ==>
                  var (identity, identities) :=
                    IdentityStep(caches.identities, config.identityPoolId, token, verified.value, services.getId);
                  && result.1.identities == identities
                  && (identity.Err? ==> result.0 == Classify(identity.error))
                  && (identity.Ok? ==> result.0 == BuildAllow(identity.value, methodArn, verified.value))))
  {
  }

  // ---------------------------------------------------------------------
  // Properties of one decision

  /** A header the pattern rejects is denied, and neither cache is consulted. */
  lemma MalformedHeaderIsUnauthorized(caches: Caches, config: Config, authorizationToken: string,
                                      methodArn: string, services: Services)
    requires !MatchesBearer(authorizationToken)
    ensures Decide(caches, config, authorizationToken, methodArn, services) == (Unauthorized, caches)
  {
  }

  /** A header that does not start with "Bearer " is one of them. */
  lemma NonBearerHeaderIsUnauthorized(caches: Caches, config: Config, authorizationToken: string,
                                      methodArn: string, services: Services)
    requires |authorizationToken| < |Prefix| || authorizationToken[..|Prefix|] != Prefix
    ensures Decide(caches, config, authorizationToken, methodArn, services) == (Unauthorized, caches)
  {
  }

  /** A token from another issuer is denied whatever its use, and a token
      from the right issuer with another use is denied, both without touching
      either cache; a token that passes both checks always reaches the key
      cache. */
  lemma IssuerThenUse(caches: Caches, config: Config, authorizationToken: string, methodArn: string,
                      services: Services)
    requires MatchesBearer(authorizationToken)
    requires DecodeToken(TokenOf(authorizationToken), services.decode).Some?
    ensures var (_, payload) := DecodeToken(TokenOf(authorizationToken), services.decode).value;
      Get(payload, "iss") != Some(JString(config.userPoolUrl)) || Get(payload, "token_use") != Some(JString("id"))
      ==> Decide(caches, config, authorizationToken, methodArn, services) == (Unauthorized, caches)
    ensures var (_, payload) := DecodeToken(TokenOf(authorizationToken), services.decode).value;
      Get(payload, "iss") == Some(JString(config.userPoolUrl)) && Get(payload, "token_use") == Some(JString("id"))
      ==> JwksLocation(config.userPoolUrl) in Decide(caches, config, authorizationToken, methodArn, services).1.jwks
  {
  }

  /** A token without any '.' passes the shape check when its separators are
      other characters, and then the handler throws on `payload64`. */
  lemma DotlessTokenRaises(caches: Caches, config: Config, authorizationToken: string, methodArn: string,
                           services: Services)
    requires MatchesBearer(authorizationToken)
    requires '.' !in TokenOf(authorizationToken)
    ensures Decide(caches, config, authorizationToken, methodArn, services) == (Raised, caches)
  {
    SplitSingle(TokenOf(authorizationToken), '.');
  }

  /** "Bearer a b c" is such a header: its token is "c". */
  lemma SpaceSeparatedHeaderRaises(caches: Caches, config: Config, authorizationToken: string, methodArn: string,
                                   services: Services)
    requires authorizationToken == "Bearer a b c"
    ensures Decide(caches, config, authorizationToken, methodArn, services) == (Raised, caches)
  {
    SpaceSeparatedHeaderMatches(authorizationToken);
    SpaceSeparatedHeaderToken(authorizationToken);
    DotlessTokenRaises(caches, config, authorizationToken, methodArn, services);
  }

  lemma SpaceSeparatedHeaderMatches(authorizationToken: string)
    requires authorizationToken == "Bearer a b c"
    ensures MatchesBearer(authorizationToken)
  {
    SeparatorsAreAnyCharacter();
  }

  lemma SpaceSeparatedHeaderToken(authorizationToken: string)
    requires authorizationToken == "Bearer a b c"
    ensures TokenOf(authorizationToken) == "c"
  {
    var pieces := ["Bearer", "a", "b", "c"];
    assert FreeOf(pieces, ' ');
    assert Join(pieces, ' ') == authorizationToken;
    JoinInjective(Split(authorizationToken, ' '), pieces, ' ');
  }

  /** A matching key is required: when none of the fetched keys carries the
      token's `kid`, the outcome is a reported error, never a denial. */
  lemma UnknownKidIsError(caches: Caches, config: Config, authorizationToken: string, methodArn: string,
                          services: Services)
    requires Screen(authorizationToken, config.userPoolUrl, services.decode).Admit?
    requires var (entry, _) := KeyCacheStep(caches.jwks, config.userPoolUrl, services.fetch, services.jwkToPem);
      entry.KeysReady?
      && FindKey(entry.keys, Screen(authorizationToken, config.userPoolUrl, services.decode).tokenKid).None?
    ensures Decide(caches, config, authorizationToken, methodArn, services).0 == Failed(NoMatchingKey)
  {
  }

  /** A key set the endpoint refused to serve is a reported error, and the
      rejection stays cached under the issuer's location. */
  lemma FetchFailureIsCachedError(caches: Caches, config: Config, authorizationToken: string, methodArn: string,
                                  services: Services)
    requires Screen(authorizationToken, config.userPoolUrl, services.decode).Admit?
    requires JwksLocation(config.userPoolUrl) !in caches.jwks
    requires var response := services.fetch(JwksLocation(config.userPoolUrl));
      response.Response? && response.status != 200
    ensures var (outcome, caches') := Decide(caches, config, authorizationToken, methodArn, services);
      && outcome.Failed? && outcome.error.name == "Error"
      && caches'.jwks[JwksLocation(config.userPoolUrl)] == FetchRejected(outcome.error)
      && caches'.identities == caches.identities
  {
  }

  /** Allow is given only after the first key with the token's `kid` has a
      truthy `pem` and `verify` accepted the token with it; the principal is
      the identity the broker gave for the verified payload's subject. */
  lemma AllowOnlyAfterVerification(caches: Caches, config: Config, authorizationToken: string,
                                   methodArn: string, services: Services)
    requires Decide(caches, config, authorizationToken, methodArn, services).0.Allow?
    ensures MatchesBearer(authorizationToken)
    ensures var s := Screen(authorizationToken, config.userPoolUrl, services.decode);
      && s.Admit?
      && var (entry, _) := KeyCacheStep(caches.jwks, config.userPoolUrl, services.fetch, services.jwkToPem);
      && entry.KeysReady?
      && var verified := SelectAndVerify(s.token, s.tokenKid, entry.keys, services.verify);
      && verified.Ok?
      && var (outcome, caches') := Decide(caches, config, authorizationToken, methodArn, services);
      && var sub := SubjectKey(verified.value);
      && sub in caches'.identities
      && caches'.identities[sub] == Resolved(outcome.principalId)
      && outcome == BuildAllow(outcome.principalId, methodArn, verified.value)
  {
    var s := Screen(authorizationToken, config.userPoolUrl, services.decode);
    AdmittedOutcome(caches, config, s.token, s.tokenKid, methodArn, services);
  }

  /** The converse of `AllowOnlyAfterVerification`: a token admitted,
      accepted by `verify` with the selected key and exchanged for an
      identity is allowed, with that identity as principal and the
      verified payload as context. */
  lemma VerifiedRequestIsAllowed(caches: Caches, config: Config, authorizationToken: string, methodArn: string,
                                 services: Services, payload: JsObject, identityId: string)
    requires var s := Screen(authorizationToken, config.userPoolUrl, services.decode);
      && s.Admit?
      && var (entry, _) := KeyCacheStep(caches.jwks, config.userPoolUrl, services.fetch, services.jwkToPem);
      && entry.KeysReady?
      && SelectAndVerify(s.token, s.tokenKid, entry.keys, services.verify) == Ok(payload)
      && IdentityStep(caches.identities, config.identityPoolId, s.token, payload, services.getId).0 == Ok(identityId)
    ensures Decide(caches, config, authorizationToken, methodArn, services).0 == BuildAllow(identityId, methodArn, payload)
  {
    var s := Screen(authorizationToken, config.userPoolUrl, services.decode);
    AdmittedOutcome(caches, config, s.token, s.tokenKid, methodArn, services);
  }

  /** A signature check that fails is classified as it failed: an expired
      or otherwise invalid token is denied, any other error is reported;
      either way the broker is not asked. */
  lemma RejectedSignatureIsClassified(caches: Caches, config: Config, authorizationToken: string, methodArn: string,
                                      services: Services, err: JsError)
    requires var s := Screen(authorizationToken, config.userPoolUrl, services.decode);
      && s.Admit?
      && var (entry, _) := KeyCacheStep(caches.jwks, config.userPoolUrl, services.fetch, services.jwkToPem);
      && entry.KeysReady?
      && FindKey(entry.keys, s.tokenKid).Some?
      && var key := entry.keys[FindKey(entry.keys, s.tokenKid).value];
      && Truthy(Get(key, "pem"))
      && services.verify(s.token, Get(key, "pem").value, Get(key, "alg")) == Err(err)
    ensures var (outcome, caches') := Decide(caches, config, authorizationToken, methodArn, services);
      && outcome == Classify(err)
      && (outcome == Unauthorized <==> err.name == "TokenExpiredError" || err.name == "JsonWebTokenError")
      && caches'.identities == caches.identities
  {
    var s := Screen(authorizationToken, config.userPoolUrl, services.decode);
    AdmittedOutcome(caches, config, s.token, s.tokenKid, methodArn, services);
  }

  // ---------------------------------------------------------------------
  // Properties of two decisions in a row

  /** The same request again, once allowed, is allowed with the same
      principal, policy and context, and changes no cache: the key set and
      the identity come from the caches, whatever the key endpoint and the
      broker would answer now. Only `verify`, which reads the clock, and the
      decoder are taken to answer as before. */
  lemma RepeatedAllowIsStable(caches: Caches, config: Config, authorizationToken: string, methodArn: string,
                              services: Services, later: Services)
    requires Decide(caches, config, authorizationToken, methodArn, services).0.Allow?
    requires later.decode == services.decode && later.verify == services.verify
    ensures var (outcome, caches') := Decide(caches, config, authorizationToken, methodArn, services);
      Decide(caches', config, authorizationToken, methodArn, later) == (outcome, caches')
  {
    var (outcome, caches') := Decide(caches, config, authorizationToken, methodArn, services);
    AllowOnlyAfterVerification(caches, config, authorizationToken, methodArn, services);
    var s := Screen(authorizationToken, config.userPoolUrl, services.decode);
    AdmittedOutcome(caches, config, s.token, s.tokenKid, methodArn, services);
    var (entry, jwks) := KeyCacheStep(caches.jwks, config.userPoolUrl, services.fetch, services.jwkToPem);
    SecondLookupHits(caches.jwks, config.userPoolUrl, services.fetch, later.fetch,
                     services.jwkToPem, later.jwkToPem);
    var payload := SelectAndVerify(s.token, s.tokenKid, entry.keys, services.verify).value;
    assert SubjectKey(payload) !in InheritedMembers;
    SecondExchangeHits(caches.identities, config.identityPoolId, s.token, payload, services.getId,
                       s.token, payload, later.getId);
    AdmittedOutcome(caches', config, s.token, s.tokenKid, methodArn, later);
  }


  /** Once a request has reached the key fetch, no later request for the
      same issuer fetches again, whatever the first fetch settled to. */
  lemma KeySetFetchedOnce(caches: Caches, config: Config, authorizationToken: string, methodArn: string,
                          services: Services, authorizationToken': string, methodArn': string,
                          later: Services)
    requires Screen(authorizationToken, config.userPoolUrl, services.decode).Admit?
    ensures var (_, caches') := Decide(caches, config, authorizationToken, methodArn, services);
      var (_, caches'') := Decide(caches', config, authorizationToken', methodArn', later);
      caches''.jwks == caches'.jwks
  {
    var (_, caches') := Decide(caches, config, authorizationToken, methodArn, services);
    assert JwksLocation(config.userPoolUrl) in caches'.jwks;
  }
}
