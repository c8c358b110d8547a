/** The authorizer as the running module holds it: the configuration read
    at start-up and the two dictionaries that `fetchJWKs` and
    `getCognitoIdentityForToken` fill in place (index.js:10, 48). Each
    method is proved against the function of module Decision, KeySets or
    Identities that specifies it. */
module AuthorizerState {
  import opened Js
  import opened KeySets
  import opened Identities
  import opened Decision

  predicate Distinct(s: seq<string>)
  {
    forall i, j | 0 <= i < j < |s| :: s[i] != s[j]
  }

  class Authorizer {
    const config: Config
    /** `jwks`: key-set location to the settled key-set promise. */
    var jwks: map<string, KeyEntry>
    /** `cognitoIdentities`: subject to the settled identity promise. */
    var cognitoIdentities: map<string, IdentityEntry>
    /** Every key-set location fetched so far, in the order of the fetches. */
    ghost var fetched: seq<string>
    /** Every subject the broker was asked about so far, in order. */
    ghost var exchanged: seq<string>

    /** Each cache holds exactly what was fetched or exchanged, and nothing
        was fetched or exchanged twice. */
    ghost predicate Valid()
      reads this
    {
      && Distinct(fetched)
      && (forall l :: l in jwks <==> l in fetched)
      && Distinct(exchanged)
      && (forall s :: s in cognitoIdentities <==> s in exchanged)
    }

    /** Module load: the configuration from the environment, both caches empty. */
    constructor (userPoolUrl: string, identityPoolId: string)
      ensures Valid()
      ensures config == Config(userPoolUrl, identityPoolId)
      ensures jwks == map[] && cognitoIdentities == map[]
      ensures fetched == [] && exchanged == []
    {
      config := Config(userPoolUrl, identityPoolId);
      jwks := map[];
      cognitoIdentities := map[];
      fetched := [];
      exchanged := [];
    }

    /** `fetchJWKs(issuer)` (index.js:12-46): fetch the key set into the
        cache on a miss, then answer from the cache. */
    method FetchJwks(issuer: string, fetch: string -> Response, toPem: PemConverter) returns (entry: KeyEntry)
      requires Valid()
      modifies this`jwks, this`fetched
      ensures Valid()
      ensures (entry, jwks) == KeyCacheStep(old(jwks), issuer, fetch, toPem)
      ensures fetched == old(fetched) + (if JwksLocation(issuer) in old(jwks) then [] else [JwksLocation(issuer)])
    {
      var location := JwksLocation(issuer);
      if location !in jwks {
        jwks := jwks[location := Settle(location, fetch(location), toPem)];
        fetched := fetched + [location];
      }
      entry := jwks[location];
    }

    /** `getCognitoIdentityForToken(token, payload)` (index.js:50-64), with
        the caller's `.then` applied: exchange the token once per subject,
        then answer from the cache. */
    method GetCognitoIdentityForToken(token: string, payload: JsObject, getId: Broker)
      returns (identity: Result<string, JsError>)
      requires Valid()
      modifies this`cognitoIdentities, this`exchanged
      ensures Valid()
      ensures (identity, cognitoIdentities) ==
        IdentityStep(old(cognitoIdentities), config.identityPoolId, token, payload, getId)
      ensures |old(exchanged)| <= |exchanged| <= |old(exchanged)| + 1
      ensures exchanged[..|old(exchanged)|] == old(exchanged)
    {
      var sub := SubjectKey(payload);
      if sub in InheritedMembers {
        // the lookup finds the inherited member, which has no `.then`
        return Err(NotAFunction);
      }
      if sub !in cognitoIdentities {
        match Get(payload, "iss")
        case Some(JString(iss)) =>
          var answer := getId(config.identityPoolId, map[LoginsKey(iss) := token]);
          var entry := match answer
            case Ok(id) => Resolved(id)
            case Err(err) => Rejected(err);
          cognitoIdentities := cognitoIdentities[sub := entry];
          exchanged := exchanged + [sub];
        case _ =>
          // `iss.replace` throws before anything is stored
          return Err(NotAFunction);
      }
      identity := EntryResult(cognitoIdentities[sub]);
    }

    /** The handler after the header passed its checks (index.js:87-129):
        the key set, the signature check, the identity exchange and the
        policy, each failure classified. */
    method Admitted(token: string, tokenKid: Option<Json>, methodArn: string, services: Services)
      returns (outcome: Outcome)
      requires Valid()
      modifies this`jwks, this`fetched, this`cognitoIdentities, this`exchanged
      ensures Valid()
      ensures (outcome, Caches(jwks, cognitoIdentities)) ==
        Proceed(old(Caches(jwks, cognitoIdentities)), config, token, tokenKid, methodArn, services)
      ensures |old(fetched)| <= |fetched| <= |old(fetched)| + 1
      ensures fetched[..|old(fetched)|] == old(fetched)
      ensures |old(exchanged)| <= |exchanged| <= |old(exchanged)| + 1
      ensures exchanged[..|old(exchanged)|] == old(exchanged)
    {
      var entry := FetchJwks(config.userPoolUrl, services.fetch, services.jwkToPem);
      match entry
      case Unsettled =>
        outcome := NoAnswer;
      case FetchRejected(err) =>
        outcome := Classify(err);
      case KeysReady(keys) =>
        var verified := SelectAndVerify(token, tokenKid, keys, services.verify);
        match verified
        case Err(err) =>
          outcome := Classify(err);
        case Ok(payload) =>
          var identity := GetCognitoIdentityForToken(token, payload, services.getId);
          match identity
          case Err(err) =>
            outcome := Classify(err);
          case Ok(identityId) =>
            outcome := BuildAllow(identityId, methodArn, payload);
    }

    /** `handler(event, context, callback)` (index.js:66-130): one
        invocation, its outcome and the caches after it as `Decide` says;
        at most one fetch and one exchange, the earlier ones kept. */
    method Handle(authorizationToken: string, methodArn: string, services: Services) returns (outcome: Outcome)
      requires Valid()
      modifies this`jwks, this`fetched, this`cognitoIdentities, this`exchanged
      ensures Valid()
      ensures (outcome, Caches(jwks, cognitoIdentities)) ==
        Decide(old(Caches(jwks, cognitoIdentities)), config, authorizationToken, methodArn, services)
      ensures |old(fetched)| <= |fetched| <= |old(fetched)| + 1
      ensures fetched[..|old(fetched)|] == old(fetched)
      ensures |old(exchanged)| <= |exchanged| <= |old(exchanged)| + 1
      ensures exchanged[..|old(exchanged)|] == old(exchanged)
    {
      match Screen(authorizationToken, config.userPoolUrl, services.decode)
      case Reject =>
        outcome := Unauthorized;
      case Raise =>
        outcome := Raised;
      case Admit(token, tokenKid) =>
        outcome := Admitted(token, tokenKid, methodArn, services);
    }
  }
}
