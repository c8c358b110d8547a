/** JavaScript values as the authorizer handles them: decoded JSON, errors,
    strict equality, truthiness and conversion to a string. */
module Js {

  datatype Option<+T> = None | Some(value: T)

  datatype Result<+T, +E> = Ok(value: T) | Err(error: E)

  /** A value read out of a parsed JSON document. A number is kept as the
      text `String(n)` gives for it (so `-0` reads "0"); an object or an
      array is known only by the text `String(v)` gives for it, and two of
      them are never the same object, because every document is parsed
      afresh. */
  datatype Json =
    | JString(str: string)
    | JNumber(text: string)
    | JBool(b: bool)
    | JNull
    | JCompound(text: string)

  /** A plain object: its own enumerable properties. A property that is
      absent reads as `undefined`, which is `None` below. */
  type JsObject = map<string, Json>

  /** A thrown or rejected `Error`, known by its `name` and `message`. */
  datatype JsError = JsError(name: string, message: string)

  /** `o[k]`, `None` standing for `undefined`. */
  function Get(o: JsObject, k: string): Option<Json>
  {
    if k in o then Some(o[k]) else None
  }

  /** A value `===` holds between it and itself: anything but `NaN` and a
      parsed object or array (two of which are never the same object). */
  predicate SelfEqual(v: Option<Json>)
  {
    v.None? || (!v.value.JCompound? && v.value != JNumber("NaN"))
  }

  /** The `===` operator on two property values: the same value, of a kind
      that is equal to itself. */
  predicate StrictEquals(a: Option<Json>, b: Option<Json>)
    ensures StrictEquals(a, b) <==> a == b && SelfEqual(a)
  {
    match (a, b)
    case (None, None) => true
    case (Some(JString(x)), Some(JString(y))) => x == y
    case (Some(JNumber(x)), Some(JNumber(y))) => x == y && x != "NaN"
    case (Some(JBool(x)), Some(JBool(y))) => x == y
    case (Some(JNull), Some(JNull)) => true
    case _ => false
  }

  /** Comparing with `===` against a string is plain equality with that string. */
  lemma StrictEqualsString(a: Option<Json>, s: string)
    ensures StrictEquals(a, Some(JString(s))) <==> a == Some(JString(s))
  {
  }

  /** The values `if (v)` refuses: `undefined`, `""`, `0` (and `-0`, whose
      text is "0"), `NaN`, `false` and `null`. */
  const Falsy: set<Option<Json>> :=
    {None, Some(JString("")), Some(JNumber("0")), Some(JNumber("NaN")), Some(JBool(false)), Some(JNull)}

  /** What `if (v)` accepts. */
  predicate Truthy(v: Option<Json>)
    ensures Truthy(v) <==> v !in Falsy
  {
    match v
    case None => false
    case Some(JString(s)) => s != ""
    case Some(JNumber(t)) => t != "0" && t != "NaN"
    case Some(JBool(x)) => x
    case Some(JNull) => false
    case Some(JCompound(_)) => true
  }

  /** `String(v)`, which is also the property key `v` names when it indexes an object. */
  function ToJsString(v: Option<Json>): (text: string)
    ensures v.None? ==> text == "undefined"
    ensures v.Some? && v.value.JString? ==> text == v.value.str
    ensures v.Some? && v.value.JNumber? ==> text == v.value.text
  {
    match v
    case None => "undefined"
    case Some(JString(s)) => s
    case Some(JNumber(t)) => t
    case Some(JBool(x)) => if x then "true" else "false"
    case Some(JNull) => "null"
    case Some(JCompound(t)) => t
  }

  /** The decimal text of a natural number, as a template literal writes it. */
  function NatToString(n: nat): string
    decreases n
  {
    var digit := "0123456789"[n % 10];
    if n < 10 then [digit] else NatToString(n / 10) + [digit]
  }
}
