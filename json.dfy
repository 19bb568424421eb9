/**
 * The JavaScript values that arrive in webhook payloads and request
 * bodies, with the property access, optional chaining and truthiness
 * rules the handlers rely on. `undefined` is `None` of an `Option<Json>`.
 * Numbers are integers; floating point is not modelled.
 */
module Json {
  import opened Wrappers
  import opened JsText

  datatype Json =
    | JNull
    | JBool(b: bool)
    | JNum(n: int)
    | JStr(s: string)
    | JArr(items: seq<Json>)
    | JObj(fields: map<string, Json>)

  /** `x?.k`: the property `k` of an object, `undefined` otherwise. */
  function Get(x: Option<Json>, k: string): (r: Option<Json>)
    ensures r.Some? <==> x.Some? && x.value.JObj? && k in x.value.fields
  {
    if x.Some? && x.value.JObj? && k in x.value.fields then Some(x.value.fields[k]) else None
  }

  /** `x?.[i]`: the element `i` of an array, `undefined` otherwise. */
  function At(x: Option<Json>, i: nat): (r: Option<Json>)
    ensures r.Some? <==> x.Some? && x.value.JArr? && i < |x.value.items|
  {
    if x.Some? && x.value.JArr? && i < |x.value.items| then Some(x.value.items[i]) else None
  }

  /** JavaScript truthiness: `undefined`, `null`, `false`, `0` and `''` are falsy. */
  predicate Truthy(x: Option<Json>) {
    match x
    case None => false
    case Some(JNull) => false
    case Some(JBool(b)) => b
    case Some(JNum(n)) => n != 0
    case Some(JStr(s)) => s != ""
    case Some(_) => true
  }

  /** `typeof x === 'object'` (which holds for `null` and for arrays). */
  predicate IsObjectType(x: Option<Json>) {
    x.Some? && (x.value.JNull? || x.value.JArr? || x.value.JObj?)
  }

  /** `undefined` or `null`: what optional chaining stops at. */
  predicate Nullish(x: Option<Json>) {
    x.None? || x.value.JNull?
  }

  /** The string a truthy string value holds, `None` for anything else. */
  function TruthyText(x: Option<Json>): (r: Option<string>)
    ensures r.Some? <==> Truthy(x) && x.value.JStr?
    ensures r.Some? ==> r.value != ""
  {
    if x.Some? && x.value.JStr? && x.value.s != "" then Some(x.value.s) else None
  }

  /**
   * The text of a string or an integer (in decimal), `None` for any other
   * value. This is what `String(x)` gives for the values the identifier
   * format check can accept; it is not Mongoose's cast, which
   * `StringCast` models.
   */
  function KeyText(x: Json): (r: Option<string>)
    ensures x.JStr? ==> r == Some(x.s)
    ensures x.JNum? ==> r == Some(IntToString(x.n))
    ensures !x.JStr? && !x.JNum? ==> r.None?
  {
    match x
    case JStr(s) => Some(s)
    case JNum(n) => Some(IntToString(n))
    case _ => None
  }

  /**
   * Mongoose's cast of a value assigned to a `String` path: `null` and
   * `undefined` leave it unset; an object with a non-empty string `_id`
   * gives that id; strings, numbers and booleans give their `toString`;
   * arrays and other objects are a cast error, which fails the save.
   */
  function StringCast(x: Option<Json>): (r: Result<Option<string>, string>)
    ensures (r.Ok? && r.value.None?) <==> Nullish(x)
    ensures Truthy(x) && r.Ok? ==> r.value.Some? && r.value.value != []
    ensures x.Some? && (x.value.JStr? || x.value.JNum?) ==> r == Ok(KeyText(x.value))
    ensures x.Some? && x.value.JBool? ==> r == Ok(Some(if x.value.b then "true" else "false"))
    ensures x.Some? && x.value.JArr? ==> r.Err?
    ensures x.Some? && x.value.JObj? && "_id" !in x.value.fields ==> r.Err?
  {
    if Nullish(x) then Ok(None)
    else
      match x.value
      case JStr(s) => Ok(Some(s))
      case JNum(n) => Ok(Some(IntToString(n)))
      case JBool(b) => Ok(Some(if b then "true" else "false"))
      case JArr(_) => Err("Cast to string failed")
      case JObj(fs) =>
        if "_id" in fs && fs["_id"].JStr? && fs["_id"].s != "" then Ok(Some(fs["_id"].s))
        else Err("Cast to string failed")
  }

  /** A short object literal: the given keys in order, later keys overriding earlier ones. */
  function Obj(kvs: seq<(string, Json)>): (r: Json)
    ensures r.JObj?
    ensures forall i :: 0 <= i < |kvs| ==> kvs[i].0 in r.fields
    decreases |kvs|
  {
    if kvs == [] then JObj(map[])
    else
      var init := Obj(kvs[..|kvs| - 1]);
      assert forall i :: 0 <= i < |kvs| - 1 ==> kvs[..|kvs| - 1][i] == kvs[i];
      JObj(init.fields[kvs[|kvs| - 1].0 := kvs[|kvs| - 1].1])
  }
}
