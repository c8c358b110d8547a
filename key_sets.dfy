/** The signing-key cache behind `fetchJWKs` (index.js:10-46): what one
    fetch settles to, how a cache lookup changes the cache, and how the
    handler picks a key out of a settled key list (index.js:90). */
module KeySets {
  import opened Js

  /** What `https.get` delivers for a key-set location. `Refused`: the call
      throws inside the promise executor (an unsupported protocol or a
      malformed location, say), which rejects the promise with that error.
      `Unreachable`: the request emits 'error' (no listener is attached).
      `Response.keys` is the
      `keys` array of the body once read to the end and parsed, or `None`
      when the body is not JSON, has no `keys` array, or holds a `null` key. */
  datatype Response =
    | Refused(error: JsError)
    | Unreachable
    | Response(status: nat, keys: Option<seq<JsObject>>)

  /** A settled cache entry: the converted key list, a rejection, or a
      promise that never settles because the exception escaped an event
      listener instead of rejecting it. */
  datatype KeyEntry =
    | KeysReady(keys: seq<JsObject>)
    | FetchRejected(error: JsError)
    | Unsettled

  /** `jwkToPem({kty, n, e})`, `None` when it throws. */
  type PemConverter = (Option<Json>, Option<Json>, Option<Json>) -> Option<string>

  /** The cache key: `${issuer}/.well-known/jwks.json`. */
  function JwksLocation(issuer: string): (location: string)
    ensures |location| > |issuer| && location[..|issuer|] == issuer
  {
    issuer + "/.well-known/jwks.json"
  }

  /** The PEM text `jwkToPem` derives from a key's `kty`, `n` and `e`. */
  function PemOf(key: JsObject, toPem: PemConverter): Option<string>
  {
    toPem(Get(key, "kty"), Get(key, "n"), Get(key, "e"))
  }

  /** `Object.assign({}, key, {pem})`: all of the key's fields, `pem` last. */
  function WithPem(key: JsObject, pem: string): JsObject
  {
    key["pem" := JString(pem)]
  }

  /** The converted key has exactly the key's fields and `pem`, the `pem`
      given overriding any the key had, and every other field as it was. */
  lemma WithPemKeepsFields(key: JsObject, pem: string)
    ensures WithPem(key, pem).Keys == key.Keys + {"pem"}
    ensures Get(WithPem(key, pem), "pem") == Some(JString(pem))
    ensures forall k | k != "pem" :: Get(WithPem(key, pem), k) == Get(key, k)
  {
  }

  /** `keys.map(...)` adding `pem` to every key; `None` when `jwkToPem`
      throws on some key. The result keeps the length and order of `keys`;
      each element keeps every field of its key and has `pem` set. */
  function ConvertKeys(keys: seq<JsObject>, toPem: PemConverter): (converted: Option<seq<JsObject>>)
    ensures converted.Some? <==> forall k | 0 <= k < |keys| :: PemOf(keys[k], toPem).Some?
    ensures converted.Some? ==> |converted.value| == |keys|
    ensures converted.Some? ==> forall k | 0 <= k < |keys| ::
      && PemOf(keys[k], toPem).Some?
      && converted.value[k] == WithPem(keys[k], PemOf(keys[k], toPem).value)
    decreases |keys|
  {
    if keys == [] then Some([])
    else
      match (PemOf(keys[0], toPem), ConvertKeys(keys[1..], toPem))
      case (Some(pem), Some(rest)) =>
        assert forall k | 1 <= k < |keys| :: keys[k] == keys[1..][k - 1];
        Some([WithPem(keys[0], pem)] + rest)
      case (None, _) => None
      case (_, None) =>
        var k :| 0 <= k < |keys[1..]| && PemOf(keys[1..][k], toPem).None?;
        assert keys[1..][k] == keys[k + 1];
        None
  }

  /** What the promise stored for `location` settles to, given what the
      fetch delivered. */
  function Settle(location: string, response: Response, toPem: PemConverter): (entry: KeyEntry)
    ensures entry.FetchRejected? <==> response.Refused? || (response.Response? && response.status != 200)
    ensures response.Refused? ==> entry == FetchRejected(response.error)
    ensures response.Response? && response.status != 200 ==> entry.FetchRejected? && entry.error.name == "Error"
    ensures entry.KeysReady? <==>
      response.Response? && response.status == 200 && response.keys.Some?
      && ConvertKeys(response.keys.value, toPem).Some?
    ensures entry.KeysReady? ==> entry.keys == ConvertKeys(response.keys.value, toPem).value
  {
    match response
    case Refused(err) => FetchRejected(err)
    case Unreachable => Unsettled
    case Response(status, keys) =>
      if status != 200 then
        FetchRejected(JsError("Error", "Failed to fetch " + location + ": " + NatToString(status) + "!"))
      else if keys.None? then Unsettled
      else
        match ConvertKeys(keys.value, toPem)
        case None => Unsettled
        case Some(converted) => KeysReady(converted)
  }

  /** `fetchJWKs(issuer)` on a cache: the entry for the issuer's location,
      installed by one fetch when absent and returned as stored when present.
      No entry is ever replaced or removed, a rejection included. */
  function KeyCacheStep(cache: map<string, KeyEntry>, issuer: string, fetch: string -> Response, toPem: PemConverter)
    : (result: (KeyEntry, map<string, KeyEntry>))
    ensures var (entry, cache') := result;
      && cache'.Keys == cache.Keys + {JwksLocation(issuer)}
      && (forall l | l in cache :: cache'[l] == cache[l])
      && entry == cache'[JwksLocation(issuer)]
    ensures JwksLocation(issuer) !in cache ==>
      result.0 == Settle(JwksLocation(issuer), fetch(JwksLocation(issuer)), toPem)
  {
    var location := JwksLocation(issuer);
    if location in cache then (cache[location], cache)
    else
      var entry := Settle(location, fetch(location), toPem);
      (entry, cache[location := entry])
  }

  /** `jwks.find(({kid}) => kid === tokenKid)`, as an index: the first key
      whose `kid` is strictly equal to the token's, or `None` when there is none. */
  function FindKey(keys: seq<JsObject>, tokenKid: Option<Json>): (found: Option<nat>)
    ensures found.Some? ==> found.value < |keys| && StrictEquals(Get(keys[found.value], "kid"), tokenKid)
    ensures found.Some? ==> forall k | 0 <= k < found.value :: !StrictEquals(Get(keys[k], "kid"), tokenKid)
    ensures found.None? <==> forall k | 0 <= k < |keys| :: !StrictEquals(Get(keys[k], "kid"), tokenKid)
    decreases |keys|
  {
    if keys == [] then None
    else if StrictEquals(Get(keys[0], "kid"), tokenKid) then Some(0)
    else
      match FindKey(keys[1..], tokenKid)
      case None =>
        assert forall k | 1 <= k < |keys| :: keys[k] == keys[1..][k - 1];
        None
      case Some(i) =>
        assert forall k | 1 <= k < i + 1 :: keys[k] == keys[1..][k - 1];
        Some(i + 1)
  }

  /** A key list that was fetched once is what every later lookup for the
      same issuer gets, whatever the network would answer then. */
  lemma SecondLookupHits(cache: map<string, KeyEntry>, issuer: string,
                         fetch: string -> Response, fetch': string -> Response,
                         toPem: PemConverter, toPem': PemConverter)
    ensures var (entry, cache') := KeyCacheStep(cache, issuer, fetch, toPem);
      KeyCacheStep(cache', issuer, fetch', toPem') == (entry, cache')
  {
    var (entry, cache') := KeyCacheStep(cache, issuer, fetch, toPem);
    assert JwksLocation(issuer) in cache';
  }
}
