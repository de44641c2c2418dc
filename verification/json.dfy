/**
 * JSON values as the route handlers and admin pages see them: request bodies,
 * insert rows and form state are plain JavaScript objects, modelled as maps
 * from key to value.  A key that is absent stands for a property whose value is
 * `undefined`, which `JSON.stringify` drops.
 */
module Json {
  import opened Wrappers

  /** Numbers are modelled as integers; the model never needs fractions. */
  datatype Json =
    | JNull
    | JBool(b: bool)
    | JNum(n: int)
    | JStr(s: string)
    | JArr(items: seq<Json>)
    | JObj(fields: map<string, Json>)

  type JsonObject = map<string, Json>

  /** Property read `o.k`; `None` is `undefined`. */
  function Get(o: JsonObject, k: string): (r: Option<Json>)
    ensures r.Some? <==> k in o
    ensures r.Some? ==> r.value == o[k]
  {
    if k in o then Some(o[k]) else None
  }

  /**
   * Assigning `o.k = v` where `v` may be `undefined`: an undefined value leaves
   * no key behind once the object is serialised.
   */
  function Put(o: JsonObject, k: string, v: Option<Json>): (r: JsonObject)
    ensures Get(r, k) == v
    ensures forall k' :: k' != k ==> Get(r, k') == Get(o, k')
  {
    if v.Some? then o[k := v.value] else o - {k}
  }

  /** JavaScript truthiness of a defined value. */
  predicate Truthy(j: Json) {
    match j
    case JNull => false
    case JBool(b) => b
    case JNum(n) => n != 0
    case JStr(s) => s != ""
    case JArr(_) => true
    case JObj(_) => true
  }

  /** `o.k` is defined and truthy, so `o.k || fallback` keeps it. */
  predicate Given(o: JsonObject, k: string) {
    k in o && Truthy(o[k])
  }

  /** `a || b`: `a` when it is defined and truthy, otherwise `b` (even if `b` is undefined). */
  function Or(a: Option<Json>, b: Option<Json>): (r: Option<Json>)
    ensures a.Some? && Truthy(a.value) ==> r == a
    ensures !(a.Some? && Truthy(a.value)) ==> r == b
  {
    if a.Some? && Truthy(a.value) then a else b
  }

  /** The object a spread `{...v}` contributes; spreading a non-object contributes nothing here. */
  function Fields(v: Option<Json>): JsonObject {
    if v.Some? && v.value.JObj? then v.value.fields else map[]
  }

  /** A string array as JSON. */
  function StrList(xs: seq<string>): (r: Json)
    ensures r.JArr? && |r.items| == |xs|
    ensures forall i :: 0 <= i < |xs| ==> r.items[i] == JStr(xs[i])
  {
    JArr(seq(|xs|, i requires 0 <= i < |xs| => JStr(xs[i])))
  }
}
