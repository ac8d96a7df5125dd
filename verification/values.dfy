/** The JavaScript values the services pass around: records and record
    lists as the origin returns them and as the cache holds them.  A cached
    value stands for its `JSON.stringify` text; parsing that text gives the
    value back. */
module Values {
  import opened Wrappers
  import Text

  datatype Json =
    | JNull
    | JBool(b: bool)
    | JNum(n: int)
    | JStr(s: string)
    | JArr(items: seq<Json>)
    | JObj(fields: map<string, Json>)

  /** JavaScript truthiness. */
  predicate Truthy(j: Json) {
    match j
    case JNull => false
    case JBool(b) => b
    case JNum(n) => n != 0
    case JStr(s) => s != ""
    case _ => true
  }

  /** Truthiness of a property read, where `None` is `undefined`. */
  predicate Present(o: Option<Json>) {
    o.Some? && Truthy(o.value)
  }

  /** `j.key`: `None` stands for `undefined`. */
  function Get(j: Json, key: string): Option<Json> {
    if j.JObj? && key in j.fields then Some(j.fields[key]) else None
  }

  /** The own properties that `{...j}` copies from an object. */
  function Fields(j: Json): map<string, Json> {
    if j.JObj? then j.fields else map[]
  }

  /** `j[i]`: an element of an array, a character of a string, the property
      named by the decimal numeral of `i` on an object, `undefined` otherwise. */
  function At(j: Json, i: nat): Option<Json> {
    match j
    case JArr(items) => if i < |items| then Some(items[i]) else None
    case JStr(s) => if i < |s| then Some(JStr([s[i]])) else None
    case JObj(_) => Get(j, Text.NatToString(i))
    case _ => None
  }

  /** `a || b`. */
  function Or(a: Option<Json>, b: Json): Json {
    if Present(a) then a.value else b
  }

  /** `String(j)`, which is also what a template literal `${j}` renders. */
  function Display(j: Json): string
    decreases j
  {
    match j
    case JNull => "null"
    case JBool(b) => if b then "true" else "false"
    case JNum(n) => Text.IntToString(n)
    case JStr(s) => s
    case JArr(items) =>
      Text.Join(seq(|items|, i requires 0 <= i < |items| =>
                  if items[i].JNull? then "" else Display(items[i])), ",")
    case JObj(_) => "[object Object]"
  }

  /** `a ?? b`. */
  function Coalesce(a: Option<Json>, b: Json): Json {
    if a.None? || a.value.JNull? then b else a.value
  }

  /** `x.length`, where `None` is `undefined`. */
  function Length(j: Json): Option<Json> {
    match j
    case JArr(items) => Some(JNum(|items|))
    case JStr(s) => Some(JNum(|s|))
    case JObj(_) => Get(j, "length")
    case _ => None
  }

  /** The record `m` with property `key` set to `o`.  A property set to
      `undefined` is not part of the JSON text, so it is left out. */
  function Assign(m: map<string, Json>, key: string, o: Option<Json>): map<string, Json> {
    if o.Some? then m[key := o.value] else m - {key}
  }

  /** The message of the `TypeError` thrown when a property is read from
      `null` or `undefined`. */
  function ReadFailure(holder: Option<Json>, property: string): Fault {
    Failure("Cannot read properties of " + (if holder.None? then "undefined" else "null")
            + " (reading '" + property + "')")
  }

  /** Whether a property read from `o` throws. */
  predicate Nullish(o: Option<Json>) {
    o.None? || o.value.JNull?
  }

  /** `String(x)` of a property read: `undefined` renders as "undefined". */
  function DisplayRead(o: Option<Json>): string {
    if o.None? then "undefined" else Display(o.value)
  }
}
