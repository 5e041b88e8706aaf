/** The JavaScript values the API handlers see: request parameters decoded from
    JSON, backend records, and the functions the task compiler produces. */
module JsValues {

  /** A JavaScript value. Numbers are integers here; arrays are `List`;
      plain objects are `Record`, a map from own property name to value;
      `Fn` is a function value, carried with its source text. */
  datatype Value =
    | Undefined
    | Null
    | Bool(b: bool)
    | Num(n: int)
    | Str(s: string)
    | List(items: seq<Value>)
    | Record(fields: map<string, Value>)
    | Fn(source: string)

  /** An exception thrown out of a handler or the constructor and not caught. */
  datatype Exception =
    | ArgumentError(message: string)   // `throw new TypeError(message)` in the code itself
    | NullPropertyRead(property: string) // the engine's TypeError for `x.property` with x null or undefined
    | NotCallable(property: string)      // the engine's TypeError for `x.property(...)` with no such function

  /** JavaScript truthiness: `if (v)`. */
  predicate Truthy(v: Value)
  {
    match v
    case Undefined => false
    case Null => false
    case Bool(b) => b
    case Num(n) => n != 0
    case Str(s) => s != ""
    case List(_) => true
    case Record(_) => true
    case Fn(_) => true
  }

  /** `v == null` (both null and undefined): reading a property of it throws. */
  predicate Nullish(v: Value)
  {
    v.Undefined? || v.Null?
  }

  /** `obj[key]` on a plain object: undefined when the key is absent. */
  function Lookup(obj: map<string, Value>, key: string): (r: Value)
  {
    if key in obj then obj[key] else Undefined
  }

  /** `v.key` for a value that is not null or undefined. Only plain objects
      carry the properties this API reads (`body`, `fallback`, `uuid`, `name`,
      `port`, `path`, `api`, `log4js`); on any other value they are undefined. */
  function Prop(v: Value, key: string): (r: Value)
  {
    match v
    case Record(f) => Lookup(f, key)
    case _ => Undefined
  }

  /** The own properties of an object value; none for any other value. */
  function Fields(v: Value): (fields: map<string, Value>)
  {
    if v.Record? then v.fields else map[]
  }

  /** The `typeof` operator (note `typeof null === 'object'`). */
  function TypeOf(v: Value): (r: string)
    ensures r == "object" <==> v.Null? || v.List? || v.Record?
  {
    match v
    case Undefined => "undefined"
    case Null => "object"
    case Bool(_) => "boolean"
    case Num(_) => "number"
    case Str(_) => "string"
    case List(_) => "object"
    case Record(_) => "object"
    case Fn(_) => "function"
  }

  /** The decimal digits of a natural number, as `String(n)` writes them:
      only digit characters, and a leading zero only for zero itself. */
  function Digits(n: nat): (r: string)
    ensures |r| >= 1
    ensures forall i :: 0 <= i < |r| ==> '0' <= r[i] <= '9'
    ensures r[0] == '0' <==> n == 0
  {
    var d := ['0', '1', '2', '3', '4', '5', '6', '7', '8', '9'][n % 10];
    if n < 10 then [d] else Digits(n / 10) + [d]
  }

  /** `a.join(',')` of already converted array elements. */
  function JoinWithCommas(parts: seq<string>): (joined: string)
  {
    if |parts| == 0 then ""
    else if |parts| == 1 then parts[0]
    else parts[0] + "," + JoinWithCommas(parts[1..])
  }

  /** String conversion, as `'(' + v + ')'` and `path + '/' + v` apply it. */
  function JsString(v: Value): (text: string)
  {
    match v
    case Undefined => "undefined"
    case Null => "null"
    case Bool(b) => if b then "true" else "false"
    case Num(n) => if n < 0 then "-" + Digits(-n) else Digits(n)
    case Str(s) => s
    case List(items) =>
      // Array.prototype.toString joins with commas, null and undefined as ""
      JoinWithCommas(seq(|items|, i requires 0 <= i < |items| =>
        if Nullish(items[i]) then "" else JsString(items[i])))
    case Record(_) => "[object Object]"
    case Fn(source) => source
  }
}
