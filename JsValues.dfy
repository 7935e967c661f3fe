/// Values as the backend sees them after `JSON.parse`, JavaScript truthiness,
/// property access and `String(value)`, and the outcome of a computation that
/// may throw.
module JsValues {

  /** A value that may be `undefined`: a missing property, an absent argument. */
  datatype Option<+T> = None | Some(value: T)

  /** A computation that returns or throws. Every exception the import can
      raise is wrapped into the same "Failed to fetch recipe" error, so one
      failure value is enough. */
  datatype Result<+T> = Ok(value: T) | Failure

  /** A value produced by `JSON.parse`. Numbers are integers in this model. */
  datatype Json =
    | JNull
    | JBool(b: bool)
    | JNum(n: int)
    | JStr(s: string)
    | JArr(items: seq<Json>)
    | JObj(fields: map<string, Json>)

  /** JavaScript truthiness of a possibly undefined value: `undefined`, `null`,
      `false`, `0` and `""` are falsy; arrays and objects, even empty ones,
      are truthy. */
  predicate Truthy(v: Option<Json>) {
    match v
    case None => false
    case Some(JNull) => false
    case Some(JBool(b)) => b
    case Some(JNum(n)) => n != 0
    case Some(JStr(s)) => s != ""
    case Some(_) => true
  }

  /** `obj[key]` on an object: `undefined` for a key it does not have. */
  function Get(obj: map<string, Json>, key: string): (r: Option<Json>)
    ensures r.Some? <==> key in obj
    ensures r.Some? ==> r.value == obj[key]
  {
    if key in obj then Some(obj[key]) else None
  }

  /** `v[key]` on any JSON value: reading a property of `null` throws a
      TypeError; strings, numbers, booleans and arrays have none of the
      recipe properties, so the read gives `undefined`. */
  function Prop(v: Json, key: string): (r: Result<Option<Json>>)
    ensures r.Failure? <==> v == JNull
    ensures r.Ok? && r.value.Some? ==> v.JObj? && key in v.fields && r.value.value == v.fields[key]
  {
    match v
    case JNull => Failure
    case JObj(fields) => Ok(Get(fields, key))
    case _ => Ok(None)
  }

  /** The decimal digits of a natural number, most significant first. */
  function NatToDecimal(n: nat): (r: string)
    ensures |r| >= 1
    ensures forall i :: 0 <= i < |r| ==> '0' <= r[i] <= '9'
  {
    if n < 10 then [(48 + n) as char] else NatToDecimal(n / 10) + [(48 + n % 10) as char]
  }

  /** `String(n)` for an integer. */
  function IntToString(n: int): (r: string)
    ensures |r| >= 1
    ensures r[0] == '-' <==> n < 0
  {
    if n < 0 then "-" + NatToDecimal(-n) else NatToDecimal(n)
  }

  /** `String(v)` for a JSON value: arrays join their elements' strings with
      ",", with `null` elements contributing nothing; every object prints as
      "[object Object]". */
  function JsonToString(v: Json): string
    decreases v, 1
  {
    match v
    case JNull => "null"
    case JBool(b) => if b then "true" else "false"
    case JNum(n) => IntToString(n)
    case JStr(s) => s
    case JArr(items) => JoinItems(v, 0)
    case JObj(_) => "[object Object]"
  }

  /** The elements of the array `v` from index `i` on, as `Array.prototype.join(",")` prints them. */
  function JoinItems(v: Json, i: nat): string
    requires v.JArr? && i <= |v.items|
    decreases v, 0, |v.items| - i
  {
    if i == |v.items| then ""
    else
      var here := if v.items[i] == JNull then "" else JsonToString(v.items[i]);
      if i + 1 == |v.items| then here else here + "," + JoinItems(v, i + 1)
  }

  /** `String(v)` where `v` may be `undefined`. */
  function ToJsString(v: Option<Json>): string {
    match v
    case None => "undefined"
    case Some(j) => JsonToString(j)
  }

  /** `x || 0` for a number that may be `null`. */
  function OrZero(x: Option<int>): int {
    if x.Some? then x.value else 0
  }

  /** `f` on each element of an array, in order, as `forEach` or `map` with a
      callback: the first element `f` throws on makes the whole call throw. */
  function MapAll<T>(items: seq<Json>, f: Json -> Result<T>): (r: Result<seq<T>>)
    ensures r.Ok? <==> forall i :: 0 <= i < |items| ==> f(items[i]).Ok?
    ensures r.Ok? ==> |r.value| == |items| && forall i :: 0 <= i < |items| ==> r.value[i] == f(items[i]).value
  {
    if items == [] then Ok([])
    else
      match MapAll(items[..|items| - 1], f)
      case Failure => Failure
      case Ok(ps) =>
        match f(items[|items| - 1])
        case Failure => Failure
        case Ok(p) => Ok(ps + [p])
  }

  /** One more item read: the list grows by its value, or the whole read fails. */
  lemma MapAllStep<T>(items: seq<Json>, i: nat, f: Json -> Result<T>, acc: seq<T>)
    requires i < |items| && MapAll(items[..i], f) == Ok(acc)
    ensures MapAll(items[..i + 1], f) == if f(items[i]).Ok? then Ok(acc + [f(items[i]).value]) else Failure
  {
    assert items[..i + 1][..i] == items[..i];
  }
}
