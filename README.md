# A model of the Cognito bearer-token authorizer

`index.js` is an API Gateway custom authorizer. For each request it:

- checks the `Authorization` header against `^Bearer [^ .]+.[^ .]+.[^ ]+$`;
- decodes the token's header and payload;
- insists on the configured user-pool issuer and on `token_use` `id`;
- fetches the pool's JSON Web Key Set, which is cached per location;
- picks the key whose `kid` matches and verifies the signature with it;
- exchanges the token for an identity id with the identity broker, which is cached per subject;
- answers either with an Allow policy or with `'Unauthorized'` or `"Error: …"`.

The model has seven modules:

- `Js`: the JavaScript values the code handles.
  - Parsed JSON values.
  - `===`, truthiness and `String(v)`.
- `Strings`: `split` on one character.
  - `Join` is its inverse.
  - The pieces are proved unique.
- `BearerFormat`: the header pattern as written, over the header's characters.
  - Its two unescaped `.` match any character but a line terminator.
  - A six-state automaton `MatchesBearer` is proved equal to a declarative description of the accepted headers, `InBearerLanguage`.
- `KeySets`: the key-set cache as a pure step function, `KeyCacheStep`.
  - The settling of one fetch, including the `pem` conversion.
  - The key lookup, `find`.
- `Identities`: the identity cache as a pure step function, `IdentityStep`.
  - The Logins key derived from `iss`.
- `Decision`: the whole handler as a function `Decide`.
  - Inputs: both caches, the configuration, the header, the method ARN, and the answers of the collaborators.
  - Output: the invocation's `Outcome` and the new caches.
- `AuthorizerState`: the class `Authorizer`.
  - It owns the two module-level dictionaries as `map` fields.
  - Its methods `FetchJwks`, `GetCognitoIdentityForToken` and `Handle` update them in place.
  - Each method is proved to do exactly what `KeyCacheStep`, `IdentityStep` and `Decide` say.
  - A ghost log of the fetches and exchanges made is kept in step with the caches. Nothing is fetched or exchanged twice.

The collaborators are the base64/JSON decoder, `https.get`, `jwk-to-pem`, `jsonwebtoken.verify` and the identity broker's `getId`. They are function-valued parameters, gathered in `Decision.Services`. The configuration (`user_pool_url`, `identity_pool_id`) is `Decision.Config`.

Where the code and its documented intent differ, the model follows the code:

- A fetch answered with a status other than 200 is a rejection. It stays cached, so every later request for that issuer fails the same way.
- A failed identity exchange stays cached too.
- A token whose `kid` matches no key does not get `'Unauthorized'`. Destructuring the `undefined` that `find` returns throws a TypeError, which is reported as `"Error: …"`.
- A key-set body that does not parse, has no `keys`, or holds a key that `jwkToPem` rejects throws inside the `'end'` listener. An unreachable key endpoint emits an unhandled `'error'`. Neither settles the cached promise, and the callback is not called (`NoAnswer`).
- A call to `https.get` that throws at once, such as for a location whose scheme is not `https:`, rejects the cached promise with that error (`Response.Refused`). The request is then reported as an error.
- The header pattern accepts `Bearer a b c`. The token is then `c`, which has no `.`, so `payload64` is `undefined` and the handler throws synchronously (`Raised`).
- A `sub` that names a member of `Object.prototype` (`constructor`, `toString`, …) finds that inherited member in the cache object. The handler then fails with a TypeError.

## Model

| member | source | states |
|---|---|---|
| Strings.Split | index.js:72 | `split` on one character: at least one piece, no piece holds the separator, and joining the pieces with the separator gives back the input |
| Strings.JoinInjective | index.js:72 | two separator-free piece lists that join to the same text are equal, so the split is the only such list |
| Strings.SplitJoin | index.js:72 | splitting a join of separator-free pieces returns exactly those pieces |
| Strings.SplitHead | index.js:110 | the first piece is the prefix of the text up to the first separator, or the whole text |
| Strings.SplitTail | index.js:72 | the last piece (`pop()`) is the suffix after the last separator, or the whole text |
| Strings.SplitSingle | index.js:74 | the text splits into one piece exactly when it holds no separator |
| Js.StrictEquals | index.js:90 | `===` holds exactly when both values are the same and that value is equal to itself, i.e. is neither `NaN` nor a parsed object or array |
| Js.Truthy | index.js:91 | a value is truthy exactly when it is not `undefined`, `""`, `0`, `NaN`, `false` or `null` |
| Js.ToJsString | index.js:52 | `undefined` names the key "undefined", a string names itself, a number names its text |
| Js.StrictEqualsString | index.js:78 | comparing a property with a string by `===` holds exactly when the property is that string |
| BearerFormat.ReachIsStates | index.js:68 | after reading any prefix, the automaton is in exactly those states whose meaning (inside the first part, past the first separator, …, inside the last part) holds of the prefix |
| BearerFormat.MatchesBearer | index.js:68 | the pattern test is true exactly when the header is "Bearer ", then a run without space or dot, any non-line-terminator, another such run, any non-line-terminator, and a non-empty run without space |
| BearerFormat.AcceptedShape | index.js:68 | an accepted header starts with "Bearer ", has at least five characters after it, and does not end in a space |
| BearerFormat.SeparatorsAreAnyCharacter | index.js:68 | "Bearer a b c" and "Bearer aXbYc" are accepted; a line feed as separator is not |
| KeySets.JwksLocation | index.js:13 | the cache key extends the issuer: it starts with the issuer and is longer |
| KeySets.WithPemKeepsFields | index.js:29-35 | a converted key has exactly the key's fields plus `pem`, the new `pem` overriding any old one and every other field unchanged |
| KeySets.ConvertKeys | index.js:28-35 | the converted list exists exactly when `jwkToPem` accepts every key; it then has the same length and order, and each element is its key with every field kept and `pem` set to `jwkToPem(kty, n, e)` |
| KeySets.Settle | index.js:15-43 | an immediate throw of `https.get` rejects with that error; a status other than 200 is a rejection named `Error`; no other response rejects; a 200 with parsable, convertible keys is the converted list; everything else never settles |
| KeySets.KeyCacheStep | index.js:12-46 | the entry returned is the one stored under the issuer's location; an absent location gets the settled fetch; no other entry is changed, replaced or removed |
| KeySets.SecondLookupHits | index.js:14 | a second lookup for the same issuer returns the stored entry and changes nothing, whatever the network would answer |
| KeySets.FindKey | index.js:90 | the index of the first key whose `kid` is `===` to the token's; none exactly when no key matches |
| Identities.LoginsKey | index.js:57 | `iss` with one leading "https://" removed, and only at the start; otherwise `iss` unchanged |
| Identities.LoginsKeyStripsOnce | index.js:57 | only one scheme prefix is removed, whatever follows it |
| Identities.SubjectKey | index.js:52 | a string `sub` is its own cache key, and every payload without `sub` shares the key "undefined" |
| Identities.EntryResult | index.js:61-63 | a stored entry yields `Ok(id)` exactly when it resolved to `id`, and `Err(e)` exactly when it was rejected with `e` |
| Identities.IdentityStep | index.js:50-64 | the cache only gains the subject's key; a stored subject gets its stored result with the cache unchanged; a new subject gets the broker's answer for `{Logins: {LoginsKey(iss): token}}`, stored, a rejection included; an inherited member name or a non-string `iss` is a TypeError with the cache unchanged |
| Identities.SecondExchangeHits | index.js:52 | once a subject is stored, a later exchange for it returns the stored result and changes nothing, whatever the broker would answer |
| Decision.TokenOf | index.js:72 | the token is the suffix after the last space, or the whole header, and holds no space |
| Decision.DecodeToken | index.js:74-76 | both halves decode exactly when the token holds a '.' and the texts before the first '.' and between the first two decode; the result is then those two objects, header first |
| Decision.Screen | index.js:67-86 | a non-matching header is rejected; an undecodable token or a missing second segment throws; otherwise a wrong issuer is rejected, then a wrong token use, and otherwise the token and the header's `kid` are admitted |
| Decision.Classify | index.js:122-129 | `Unauthorized` exactly for `TokenExpiredError` and `JsonWebTokenError`; every other failure is reported as that error |
| Decision.SelectAndVerify | index.js:89-99 | no matching key is a TypeError; a matching key with a falsy `pem` is an `Error`; a matching key with a truthy `pem` gives exactly `verify`'s answer for that `pem` and `alg`, acceptance or rejection; success only that way |
| Decision.ResourceFor | index.js:110 | the Resource ends in "/*", and before that is the method ARN up to, but not including, its first '/' |
| Decision.BuildAllow | index.js:102-120 | principal is the identity id; version "2012-10-17"; exactly one statement (`execute-api:Invoke`, `Allow`, the resource); context has every payload field plus `cognitoIdentityId` set to the identity id |
| Decision.Proceed | index.js:88-129 | the key set for the configured issuer is in the cache afterwards, unchanged if it was there; no entry of either cache is replaced or removed |
| Decision.AdmittedOutcome | index.js:88-129 | an admitted request's outcome: `NoAnswer` if the key set never settled; else the fetch's rejection classified; else `verify`'s rejection classified; else the broker's rejection classified; else the Allow built from the broker's identity and the verified payload; no exchange before a successful verification |
| Decision.Decide | index.js:66-130 | a request that is not admitted leaves both caches unchanged; no entry of either cache is ever replaced or removed |
| Decision.MalformedHeaderIsUnauthorized | index.js:68-71 | a header the pattern rejects gets `Unauthorized` and leaves both caches unchanged |
| Decision.NonBearerHeaderIsUnauthorized | index.js:67-71 | a header not starting with "Bearer " gets `Unauthorized` and leaves both caches unchanged |
| Decision.IssuerThenUse | index.js:78-88 | a wrong issuer or a wrong token use gets `Unauthorized` with no fetch and no cache change; passing both always reaches the key cache |
| Decision.DotlessTokenRaises | index.js:72-76 | an accepted header whose token has no '.' makes the handler throw, with the caches unchanged |
| Decision.SpaceSeparatedHeaderRaises | index.js:68-76 | "Bearer a b c" passes the pattern and then makes the handler throw |
| Decision.UnknownKidIsError | index.js:90 | when no fetched key carries the token's `kid`, the outcome is the destructuring TypeError, not `Unauthorized` |
| Decision.FetchFailureIsCachedError | index.js:19-20 | a non-200 key fetch is an `Error` outcome, and that rejection stays cached under the location |
| Decision.AllowOnlyAfterVerification | index.js:88-121 | an Allow implies the header matched, the token was admitted, the key set was ready, `verify` accepted the token with the selected key, the broker's identity for the payload's subject is cached, and the outcome is the Allow built from that identity and payload |
| Decision.VerifiedRequestIsAllowed | index.js:101-121 | an admitted token that `verify` accepts with the selected key and the broker maps to an identity is allowed with that identity as principal and the verified payload as context |
| Decision.RejectedSignatureIsClassified | index.js:94-128 | a `verify` rejection is classified: `Unauthorized` exactly for an expired or invalid token, otherwise reported; the identity cache is untouched |
| Decision.RepeatedAllowIsStable | index.js:88-121 | repeating an allowed request gives the same outcome and leaves both caches unchanged, whatever the key endpoint and the broker would answer now |
| Decision.KeySetFetchedOnce | index.js:14-15 | once a request reached the key fetch, no later request changes the key cache |
| AuthorizerState.Authorizer.constructor | index.js:10 | both dictionaries start empty, and the configuration is the one given |
| AuthorizerState.Authorizer.FetchJwks | index.js:12-46 | the returned entry and the new key cache are those of `KeyCacheStep` on the old cache; a location is logged as fetched only on a miss |
| AuthorizerState.Authorizer.GetCognitoIdentityForToken | index.js:50-64 | the result and the new identity cache are those of `IdentityStep` on the old cache; at most one exchange is logged |
| AuthorizerState.Authorizer.Admitted | index.js:88-129 | the outcome and both new caches are those of `Proceed` on the old caches; at most one fetch and one exchange |
| AuthorizerState.Authorizer.Handle | index.js:66-130 | the outcome and both new caches are those of `Decide` on the old caches; each cache holds exactly what was fetched or exchanged, never twice |

## Left out

- HTTP transport: `https.get`, the accumulation of `data` chunks, `setEncoding` and `res.resume` are I/O. The fetch is an oracle that answers with a status and the parsed `keys` list, with `Unreachable`, or with the error `https.get` throws at once (`Refused`).
- `JSON.parse` and base64 decoding are oracles. `Services.decode` answers `None` for input on which decoding or parsing throws, or that parses to `null`, because destructuring those throws. A number, string, boolean or array destructures without error and reads as an object with none of `kid`, `iss`, `token_use`, `sub` (`Some(map[])`). `Response.keys` is `None` for a body without a usable `keys` array.
- `jwk-to-pem` and `jsonwebtoken.verify` are oracles. The clock that `verify` consults is inside that oracle.
- The identity broker is an oracle: the AWS SDK client, the region taken from `identity_pool_id`, and `.promise()`.
- Concurrency: two requests that share a still-pending promise are not modelled. Each cache holds settled results, and requests run one after another.
- `process.env` is read once, as the constructor's arguments.
- Logging: `console.error` is not modelled.
- The text of `"Error: " + JSON.stringify(err)` is not modelled. `Outcome.Failed` carries the error itself.
- Numbers in decoded JSON are kept as the text `String(n)` gives, not as floating point values. Objects and arrays are known only by their string form.
- An event without `authorizationToken`, or with a `methodArn` that is not a string, is not modelled: both are strings here.
- A synchronous throw in the handler crashes the invocation. That is `Outcome.Raised`; what the Lambda runtime then does is not modelled.
- BearerFormat.MatchesBearer: the header is read as a sequence of Unicode characters, not UTF-16 code units as the pattern (without the `u` flag) reads it. A character outside the Basic Multilingual Plane counts once here and twice in the source. For example, "Bearer " followed by two emoji and "c" is rejected here, while the source accepts it and then throws on the dotless token.
- KeySets.Settle: a throw inside the `'end'` listener, or an `'error'` event with no listener, is an uncaught exception. Under Node's default that ends the process, and both caches go with it. The model instead keeps running with an entry that never settles (`Unsettled`), so later requests for that issuer get `NoAnswer`. `Decision.KeySetFetchedOnce` relies on this.
