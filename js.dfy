/**
 * The few JavaScript value semantics the services rely on: truthiness
 * (`if (x)`), the string a template literal `${x}` produces, and a query
 * object whose absent keys read as `undefined`.
 */
module Js {
  /** A JSON-like value as it arrives in a request query. Numbers are integers. */
  datatype Value = Null | Bool(b: bool) | Num(n: int) | Str(s: string)

  /** A query object: a key that is not in the map reads as `undefined`. */
  type Query = map<string, Value>

  /** JavaScript truthiness: `null`, `false`, `0` and `""` are falsy. */
  predicate Truthy(v: Value)
  {
    match v
    case Null => false
    case Bool(b) => b
    case Num(n) => n != 0
    case Str(s) => s != ""
  }

  /** `if (query.key)`: the key is present and its value is truthy. */
  predicate Given(q: Query, key: string)
  {
    key in q && Truthy(q[key])
  }

  function DigitChar(d: nat): (c: char)
    requires d < 10
    ensures '0' <= c <= '9'
  {
    ('0' as int + d) as char
  }

  predicate IsDigits(s: string)
  {
    forall i :: 0 <= i < |s| ==> '0' <= s[i] <= '9'
  }

  /** The number a string of decimal digits denotes. */
  function DigitsValue(s: string): nat
    requires IsDigits(s)
  {
    if s == [] then 0 else DigitsValue(s[..|s| - 1]) * 10 + (s[|s| - 1] as int - '0' as int)
  }

  /** Decimal notation of a natural number, most significant digit first. */
  function Decimal(n: nat): (s: string)
    ensures |s| >= 1 && IsDigits(s)
    ensures DigitsValue(s) == n
    ensures n >= 10 ==> s[0] != '0'
  {
    if n < 10 then [DigitChar(n)] else Decimal(n / 10) + [DigitChar(n % 10)]
  }

  /** The text a template literal `${v}` inserts for `v`. */
  function Show(v: Value): (s: string)
    ensures v.Str? ==> s == v.s
    ensures v.Num? && v.n >= 0 ==> IsDigits(s) && DigitsValue(s) == v.n
    ensures v.Num? && v.n < 0 ==> |s| >= 2 && s[0] == '-' && IsDigits(s[1..]) && DigitsValue(s[1..]) == -v.n
  {
    match v
    case Null => "null"
    case Bool(b) => if b then "true" else "false"
    case Num(n) => if n < 0 then "-" + Decimal(-n) else Decimal(n)
    case Str(s) => s
  }
}
