/** The identity cache behind `getCognitoIdentityForToken`
    (index.js:48-64): one broker exchange per subject, its settled result
    kept for good, and the Logins key derived from the token's issuer. */
module Identities {
  import opened Js

  /** What the promise stored for a subject settled to. */
  datatype IdentityEntry = Resolved(identityId: string) | Rejected(error: JsError)

  /** `getId({IdentityPoolId, Logins}).promise()` followed by
      `.then(({IdentityId}) => IdentityId)`: the identity id, or the
      rejection. */
  type Broker = (string, map<string, string>) -> Result<string, JsError>

  const Scheme := "https://"

  /** Properties every plain object inherits from `Object.prototype`. Looking
      one of them up in the cache object yields a truthy value that is not a
      promise. */
  const InheritedMembers: set<string> := {
    "constructor", "__proto__", "__defineGetter__", "__defineSetter__",
    "__lookupGetter__", "__lookupSetter__", "hasOwnProperty", "isPrototypeOf",
    "propertyIsEnumerable", "toLocaleString", "toString", "valueOf"
  }

  /** `iss.replace(/^https:\/\//, '')`: one leading "https://" removed, and
      only at the start. */
  function LoginsKey(iss: string): (key: string)
    ensures key == iss || iss == Scheme + key
    ensures key != iss <==> |iss| >= |Scheme| && iss[..|Scheme|] == Scheme
  {
    if |iss| >= |Scheme| && iss[..|Scheme|] == Scheme then
      assert iss == Scheme + iss[|Scheme|..];
      iss[|Scheme|..]
    else iss
  }

  /** Only one scheme prefix is removed, whatever follows it. */
  lemma {:induction false} LoginsKeyStripsOnce(rest: string)
    ensures LoginsKey(Scheme + rest) == rest
  {
    assert (Scheme + rest)[..|Scheme|] == Scheme;
  }

  /** The cache key: the payload's `sub` converted to a property key. A
      string subject is its own key; every payload without `sub` shares the
      key "undefined". */
  function SubjectKey(payload: JsObject): (key: string)
    ensures Get(payload, "sub").Some? && Get(payload, "sub").value.JString? ==> key == payload["sub"].str
    ensures "sub" !in payload ==> key == "undefined"
  {
    ToJsString(Get(payload, "sub"))
  }

  /** The result a settled entry gives to whoever awaits it. */
  function EntryResult(entry: IdentityEntry): (r: Result<string, JsError>)
    ensures match r
      case Ok(id) => entry == Resolved(id)
      case Err(err) => entry == Rejected(err)
  {
    match entry
    case Resolved(id) => Ok(id)
    case Rejected(err) => Err(err)
  }

  /** The TypeError raised when a cache lookup yields something without `.then`,
      or when `iss` has no `.replace`. */
  const NotAFunction := JsError("TypeError", "is not a function")

  /** `getCognitoIdentityForToken(token, payload)` on a cache, its result as
      the caller's `.then` sees it. A subject already present gets its stored
      result and nothing changes; a subject named like an inherited member is
      a TypeError; otherwise the broker is asked once, with the Logins key
      derived from `iss` mapped to the whole token, and the settled result is
      stored, a rejection included. An `iss` that is not a string throws
      before anything is stored. */
  function IdentityStep(cache: map<string, IdentityEntry>, identityPoolId: string, token: string,
                        payload: JsObject, getId: Broker)
    : (result: (Result<string, JsError>, map<string, IdentityEntry>))
    ensures var (r, cache') := result;
      && cache.Keys <= cache'.Keys <= cache.Keys + {SubjectKey(payload)}
      && (forall s | s in cache :: cache'[s] == cache[s])
      && (SubjectKey(payload) in cache' && SubjectKey(payload) !in InheritedMembers ==>
            r == EntryResult(cache'[SubjectKey(payload)]))
      && (SubjectKey(payload) in cache ==> cache' == cache)
      && (SubjectKey(payload) in InheritedMembers ==> cache' == cache && r == Err(NotAFunction))
    ensures var (r, cache') := result;
      SubjectKey(payload) !in cache && SubjectKey(payload) !in InheritedMembers ==>
        match Get(payload, "iss")
        case Some(JString(iss)) =>
          && SubjectKey(payload) in cache'
          && EntryResult(cache'[SubjectKey(payload)]) == getId(identityPoolId, map[LoginsKey(iss) := token])
        case _ => cache' == cache && r == Err(NotAFunction)
  {
    var sub := SubjectKey(payload);
    if sub in InheritedMembers then (Err(NotAFunction), cache)
    else if sub in cache then (EntryResult(cache[sub]), cache)
    else
      match Get(payload, "iss")
      case Some(JString(iss)) =>
        var entry :=
          match getId(identityPoolId, map[LoginsKey(iss) := token])
          case Ok(id) => Resolved(id)
          case Err(err) => Rejected(err);
        (EntryResult(entry), cache[sub := entry])
      case _ => (Err(NotAFunction), cache)
  }

  /** An exchange that stored its result is what every later exchange for
      the same subject gets, whatever the broker would answer then. */
  lemma SecondExchangeHits(cache: map<string, IdentityEntry>, identityPoolId: string, token: string,
                           payload: JsObject, getId: Broker,
                           token': string, payload': JsObject, getId': Broker)
    requires SubjectKey(payload') == SubjectKey(payload)
    requires SubjectKey(payload) !in InheritedMembers
    requires var (_, cache') := IdentityStep(cache, identityPoolId, token, payload, getId);
      SubjectKey(payload) in cache'
    ensures var (r, cache') := IdentityStep(cache, identityPoolId, token, payload, getId);
      IdentityStep(cache', identityPoolId, token', payload', getId') == (r, cache')
  {
  }
}
