/**
 * The JavaScript values the client handles: what `response.json()` yields,
 * the coercions the source relies on (truthiness for `||` and `!`, and
 * `String(...)` / template-literal conversion), and what a `throw` carries.
 */
module Js {
  import opened Wrappers

  /**
   * A parsed JSON value. Numbers are integers (fractions are not modelled);
   * an object is the map `JSON.parse` builds, where a repeated key keeps its
   * last value.
   */
  datatype Json =
    | JNull
    | JBool(b: bool)
    | JNum(n: int)
    | JStr(s: string)
    | JArr(items: seq<Json>)
    | JObj(fields: map<string, Json>)

  /** A thrown value: an `Error` (or subclass) with its message, or anything else. */
  datatype Thrown = Error(message: string) | NonError

  /** JavaScript truthiness of a JSON value (absent, i.e. `undefined`, is falsy too). */
  predicate Truthy(v: Json) {
    match v
    case JNull => false
    case JBool(b) => b
    case JNum(n) => n != 0
    case JStr(s) => s != ""
    case JArr(_) => true
    case JObj(_) => true
  }

  /** Truthiness of an optional value: `undefined` is falsy. */
  predicate Present(v: Option<Json>) {
    v.Some? && Truthy(v.value)
  }

  /** `s || fallback` for an optional string. */
  function OrElse(s: Option<string>, fallback: string): (r: string)
    ensures s.Some? && s.value != "" ==> r == s.value
    ensures s.None? || s.value == "" ==> r == fallback
  {
    if s.Some? && s.value != "" then s.value else fallback
  }

  /** The property `key` of a value that is not `null`; `None` is `undefined`. */
  function Property(v: Json, key: string): Option<Json> {
    if v.JObj? && key in v.fields then Some(v.fields[key]) else None
  }

  /** The message V8 gives the TypeError raised when reading `key` of `null`. */
  function NullReadMessage(key: string): string {
    "Cannot read properties of null (reading '" + key + "')"
  }

  function DigitChar(d: nat): char
    requires d < 10
  {
    "0123456789"[d]
  }

  /** Decimal digits of a natural number, most significant first. */
  function Digits(n: nat): (r: string)
    ensures |r| >= 1
    ensures forall i :: 0 <= i < |r| ==> '0' <= r[i] <= '9'
  {
    if n < 10 then [DigitChar(n)] else Digits(n / 10) + [DigitChar(n % 10)]
  }

  /** `String(n)` for an integer. */
  function Decimal(n: int): string {
    if n < 0 then "-" + Digits(-n) else Digits(n)
  }

  /** `String(v)`, which is also what a template literal `${v}` produces. */
  function ToString(v: Json): string
    decreases v
  {
    match v
    case JNull => "null"
    case JBool(b) => if b then "true" else "false"
    case JNum(n) => Decimal(n)
    case JStr(s) => s
    case JArr(items) => JoinItems(items)
    case JObj(_) => "[object Object]"
  }

  /** `Array.prototype.join(",")`: `null` items become the empty string. */
  function JoinItems(items: seq<Json>): string
    decreases items
  {
    if items == [] then ""
    else
      var first := if items[0].JNull? then "" else ToString(items[0]);
      if |items| == 1 then first else first + "," + JoinItems(items[1..])
  }

  /** `String(v)` where `None` is `undefined`. */
  function OptionalToString(v: Option<Json>): string {
    if v.Some? then ToString(v.value) else "undefined"
  }
}
