/** JSON-like JavaScript values as the fallback loop sees them: the parsed
    `response.data` of a provider, an error body, the `url` field of a request
    body. Only the parts of JavaScript semantics the loop relies on are
    modelled: truthiness, reading a named property, and turning a value into
    text inside a template literal. */
module JsValues {

  datatype Option<+T> = None | Some(value: T)

  /** A value produced by `JSON.parse` (plus `undefined`, which a missing
      property yields). Numbers are integers; see README "Left out". */
  datatype Value =
    | Undefined
    | Null
    | Bool(b: bool)
    | Num(n: int)
    | Str(s: string)
    | Arr(items: seq<Value>)
    | Obj(fields: map<string, Value>)

  /** JavaScript's ToBoolean: `undefined`, `null`, `false`, `0` and `""` are
      falsy; every array and every object, even an empty one, is truthy. */
  predicate Truthy(v: Value)
    ensures Truthy(v) ==> !v.Null? && !v.Undefined?
    ensures v.Arr? || v.Obj? ==> Truthy(v)
    ensures v.Str? ==> (Truthy(v) <==> |v.s| > 0)
  {
    match v
    case Undefined => false
    case Null => false
    case Bool(b) => b
    case Num(n) => n != 0
    case Str(s) => s != ""
    case Arr(_) => true
    case Obj(_) => true
  }

  /** The property names the code reads from parsed values. None of them is a
      property of JavaScript strings, arrays, numbers or booleans, nor of
      `Object.prototype`, so only an object's own fields can supply them. */
  const ReadKeys: set<string> :=
    {"video_url", "download_url", "data", "aweme_list", "url", "message"}

  /** `v?.key`: the own field of an object, `undefined` for a missing field
      and for every value that is not an object. */
  function Member(v: Value, key: string): Value
    requires key in ReadKeys
  {
    if v.Obj? && key in v.fields then v.fields[key] else Undefined
  }

  predicate IsDigit(c: char) {
    '0' <= c <= '9'
  }

  predicate DigitsOnly(s: string) {
    forall i :: 0 <= i < |s| ==> IsDigit(s[i])
  }

  /** The number a string of decimal digits denotes. */
  function DigitsValue(s: string): nat
    requires DigitsOnly(s)
    decreases |s|
  {
    if s == [] then 0
    else 10 * DigitsValue(s[..|s| - 1]) + (s[|s| - 1] as int - '0' as int)
  }

  function DigitChar(d: nat): (c: char)
    requires d < 10
    ensures IsDigit(c) && c as int - '0' as int == d
  {
    ('0' as int + d) as char
  }

  /** Decimal rendering of a natural number, as `String(n)` gives it: digits
      only, no leading zero, and reading it back gives `n`. */
  function NatToString(n: nat): (s: string)
    ensures |s| >= 1 && DigitsOnly(s) && DigitsValue(s) == n
    ensures s[0] == '0' ==> s == "0"
    decreases n
  {
    if n < 10 then [DigitChar(n)]
    else
      var prefix := NatToString(n / 10);
      var s := prefix + [DigitChar(n % 10)];
      assert s[..|s| - 1] == prefix;
      s
  }

  function IntToString(n: int): string {
    if n < 0 then "-" + NatToString(-n) else NatToString(n)
  }

  /** What a template literal `${v}` prints: arrays join their elements with
      commas (with `null` and `undefined` elements printed as nothing),
      objects print as `[object Object]`. */
  function ToJsString(v: Value): string
    decreases v
  {
    match v
    case Undefined => "undefined"
    case Null => "null"
    case Bool(b) => if b then "true" else "false"
    case Num(n) => IntToString(n)
    case Str(s) => s
    case Arr(items) =>
      Join(seq(|items|, i requires 0 <= i < |items| =>
        if items[i].Null? || items[i].Undefined? then "" else ToJsString(items[i])))
    case Obj(_) => "[object Object]"
  }

  /** `parts.join(",")`. */
  function Join(parts: seq<string>): string {
    if parts == [] then ""
    else if |parts| == 1 then parts[0]
    else parts[0] + "," + Join(parts[1..])
  }
}
