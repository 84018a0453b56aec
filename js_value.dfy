/**
 * The dynamically typed values that the servers send as JSON and that the
 * browser client inspects, together with the JavaScript rules the client
 * relies on: truthiness, `??`, optional property access and the numeric
 * conversion performed by `<` and `>=`.
 *
 * Numbers are integers: fractions, NaN and the infinities are not values of
 * this model (see README).
 */
module JsValue {
  import opened Optional

  datatype Value =
    | Undefined
    | Null
    | Bool(b: bool)
    | Num(n: int)
    | Str(s: string)
    | Arr(items: seq<Value>)
    | Obj(fields: map<string, Value>)

  /** `v === null || v === undefined`, the test behind `??` and `?.`. */
  predicate Nullish(v: Value) {
    v.Undefined? || v.Null?
  }

  /** JavaScript truthiness: everything is truthy except undefined, null, false, 0 and "". */
  predicate Truthy(v: Value) {
    match v
    case Undefined => false
    case Null => false
    case Bool(b) => b
    case Num(n) => n != 0
    case Str(s) => s != ""
    case Arr(_) => true
    case Obj(_) => true
  }

  /**
   * `v?.key`: the own property of an object, and undefined for every other
   * value (null and undefined included, which is what `?.` adds).
   */
  function Get(v: Value, key: string): Value {
    if v.Obj? && key in v.fields then v.fields[key] else Undefined
  }

  /** `a ?? b`. */
  function Coalesce(a: Value, b: Value): Value {
    if Nullish(a) then b else a
  }

  predicate IsDigit(c: char) {
    '0' <= c <= '9'
  }

  predicate AllDigits(s: string) {
    forall i :: 0 <= i < |s| ==> IsDigit(s[i])
  }

  /** The value of a string of decimal digits, most significant first. */
  function DigitsValue(s: string): nat
    requires AllDigits(s)
    decreases |s|
  {
    if s == [] then 0 else DigitsValue(s[..|s| - 1]) * 10 + (s[|s| - 1] as int - '0' as int)
  }

  /** `String(n)` for a non-negative integer: its decimal digits, with no leading zero. */
  function DecimalString(n: nat): (s: string)
    ensures |s| > 0 && AllDigits(s)
    ensures DigitsValue(s) == n
    ensures s[0] == '0' <==> n == 0
    ensures |s| > 1 ==> s[0] != '0'
    decreases n
  {
    var digit := ('0' as int + n % 10) as char;
    if n < 10 then [digit]
    else
      var prefix := DecimalString(n / 10);
      assert (prefix + [digit])[..|prefix + [digit]| - 1] == prefix;
      assert (prefix + [digit])[0] == prefix[0];
      prefix + [digit]
  }

  /**
   * `Number(s)` for the strings the model reads as numbers: the empty string
   * is 0, an optional sign followed by decimal digits is that integer, and
   * every other string is NaN (None).
   */
  function StringToNumber(s: string): Option<int> {
    if s == "" then Some(0)
    else if AllDigits(s) then Some(DigitsValue(s))
    else if |s| > 1 && (s[0] == '-' || s[0] == '+') && AllDigits(s[1..]) then
      var magnitude: int := DigitsValue(s[1..]);
      Some(if s[0] == '-' then -magnitude else magnitude)
    else None
  }

  /**
   * The number a relational operator compares when the other operand is a
   * number (None is NaN, for which every comparison is false). An array is
   * first turned into the comma-joined string of its elements, an object into
   * "[object Object]".
   */
  function ToNumber(v: Value): Option<int>
    decreases v
  {
    match v
    case Undefined => None
    case Null => Some(0)
    case Bool(b) => Some(if b then 1 else 0)
    case Num(n) => Some(n)
    case Str(s) => StringToNumber(s)
    case Obj(_) => None
    case Arr(items) =>
      if |items| == 0 then Some(0)      // "" is 0
      else if |items| > 1 then None     // "a,b" holds a comma
      else
        match items[0]
        case Undefined => Some(0)       // [undefined] and [null] print as ""
        case Null => Some(0)
        case Bool(_) => None            // "true" / "false"
        case Num(n) => Some(n)
        case Str(s) => StringToNumber(s)
        case Obj(_) => None             // "[object Object]"
        case Arr(_) => ToNumber(items[0])
  }

  /** `v >= k` for a number k. */
  predicate AtLeast(v: Value, k: int) {
    var n := ToNumber(v); n.Some? && n.value >= k
  }

  /** `v < k` for a number k. */
  predicate Below(v: Value, k: int) {
    var n := ToNumber(v); n.Some? && n.value < k
  }

  /** `String(n)` reads back as `n`: the decimal text of a status code is a numeric string. */
  lemma DecimalStringRoundTrip(n: nat)
    ensures StringToNumber(DecimalString(n)) == Some(n)
  {
  }
}
