/**
 * Parsed JSON documents, and the few JavaScript value conversions the Node
 * validator applies to them (property reads, template-literal rendering and
 * `Number()`).
 */
module JsonDoc {
  import opened Common
  import opened Strings
  import opened JsNumbers

  /**
   * A parsed JSON value. Numbers are integers: every number the validators
   * compare (sizes, chunk and volume indexes) is an integer in a valid document.
   */
  datatype Json =
    | JNull
    | JBool(b: bool)
    | JInt(n: int)
    | JStr(s: string)
    | JArr(items: seq<Json>)
    | JObj(fields: map<string, Json>)

  /** `v.key`: the property of an object, absent (undefined / unset) otherwise. */
  function Prop(v: Json, key: string): (r: Option<Json>)
    ensures r.Some? ==> v.JObj? && key in v.fields
  {
    if v.JObj? && key in v.fields then Some(v.fields[key]) else None
  }

  function PropOf(v: Option<Json>, key: string): Option<Json>
  {
    if v.Some? then Prop(v.value, key) else None
  }

  /** A property holding a string (`typeof x === 'string'` / `is_string`). */
  function StrProp(v: Json, key: string): Option<string>
  {
    match Prop(v, key)
    case Some(JStr(s)) => Some(s)
    case _ => None
  }

  /** A property holding an integer (`typeof x === 'number'` / `is_int`). */
  function IntProp(v: Json, key: string): Option<int>
  {
    match Prop(v, key)
    case Some(JInt(n)) => Some(n)
    case _ => None
  }

  /** JavaScript `x && typeof x === 'object'`: arrays count as objects there. */
  predicate JsObjectLike(v: Option<Json>)
  {
    v.Some? && (v.value.JObj? || v.value.JArr?)
  }

  /** JavaScript truthiness of a property value. */
  predicate JsTruthy(v: Option<Json>)
  {
    match v
    case None => false
    case Some(JNull) => false
    case Some(JBool(b)) => b
    case Some(JInt(n)) => n != 0
    case Some(JStr(s)) => s != ""
    case Some(_) => true
  }

  /** How a value reads inside a template literal (`${v}`). */
  function Display(v: Option<Json>): string
  {
    if v.None? then "undefined" else DisplayValue(v.value)
  }

  function DisplayValue(v: Json): string
    decreases v
  {
    match v
    case JNull => "null"
    case JBool(b) => if b then "true" else "false"
    case JInt(n) => IntToString(n)
    case JStr(s) => s
    case JArr(items) =>
      // Array.prototype.join: null elements print as empty strings
      Join(seq(|items|, i requires 0 <= i < |items| => if items[i].JNull? then "" else DisplayValue(items[i])), ",")
    case JObj(_) => "[object Object]"
  }

  /** JavaScript `Number(v)`. */
  function JsNumber(v: Option<Json>): Number
  {
    match v
    case None => NaN
    case Some(JNull) => Finite(0.0)
    case Some(JBool(b)) => Finite(if b then 1.0 else 0.0)
    case Some(JInt(n)) => Finite(n as real)
    case Some(JStr(s)) => StringToNumber(s)
    case Some(JArr(_)) => StringToNumber(DisplayValue(v.value))
    case Some(JObj(_)) => NaN
  }

  /** JavaScript `Number(v) || 0`: NaN and 0 both give 0. */
  function JsNumberOrZero(v: Option<Json>): Ordinal
  {
    OrZero(JsNumber(v))
  }

  /** JavaScript `===` between two property values; objects and arrays are never identical here. */
  predicate JsSame(a: Option<Json>, b: Option<Json>)
  {
    match (a, b)
    case (None, None) => true
    case (Some(JNull), Some(JNull)) => true
    case (Some(JBool(x)), Some(JBool(y))) => x == y
    case (Some(JInt(x)), Some(JInt(y))) => x == y
    case (Some(JStr(x)), Some(JStr(y))) => x == y
    case _ => false
  }

  /** `SameValueZero` holds only between equal values (objects and arrays are never the same here). */
  lemma JsSameEqual(a: Option<Json>, b: Option<Json>)
    requires JsSame(a, b)
    ensures a == b
  {
  }

  /** Membership in a JavaScript `Set` or `includes` test. */
  predicate JsIn(x: Option<Json>, xs: seq<Option<Json>>)
  {
    exists i :: 0 <= i < |xs| && JsSame(x, xs[i])
  }

  /** The elements of a JSON array as property values. */
  function Elements(items: seq<Json>): (r: seq<Option<Json>>)
    ensures |r| == |items| && forall i :: 0 <= i < |r| ==> r[i] == Some(items[i])
  {
    seq(|items|, i requires 0 <= i < |items| => Some(items[i]))
  }

  /** The string elements of a JSON array, in order (PHP's `foreach ... if (is_string($id))`). */
  function StringItems(items: seq<Json>): (r: seq<string>)
    ensures |r| <= |items|
    ensures forall s :: s in r <==> JStr(s) in items
  {
    if items == [] then []
    else
      var rest := StringItems(items[..|items| - 1]);
      assert items == items[..|items| - 1] + [items[|items| - 1]];
      match items[|items| - 1]
      case JStr(s) => rest + [s]
      case _ => rest
  }
}
