/**
 * The fragment of JavaScript values that the request layer inspects:
 * truthiness, `Object.keys(v).length`, property access and `String(v)`.
 * Numbers are restricted to integers and NaN (no fractions, no -0, no
 * exponent notation for very large values).
 */
module Js {

  /** A JavaScript Number that is either NaN or an integer. */
  datatype Num = NaN | Int(i: int)

  datatype Value =
    | Undefined
    | Null
    | Bool(b: bool)
    | Number(n: Num)
    | Str(s: string)
    | Object(fields: map<string, Value>)

  predicate IsNullish(v: Value) {
    v.Undefined? || v.Null?
  }

  /** ToBoolean: undefined, null, false, NaN, 0 and "" are falsy; all else is truthy. */
  predicate Truthy(v: Value) {
    match v
    case Undefined => false
    case Null => false
    case Bool(b) => b
    case Number(n) => n.Int? && n.i != 0
    case Str(s) => s != ""
    case Object(_) => true
  }

  /** `Object.keys(v).length`; the engine throws a TypeError on undefined and null. */
  function OwnKeyCount(v: Value): (k: nat)
    requires !IsNullish(v)
    ensures v.Object? ==> k == |v.fields|
    ensures v.Bool? || v.Number? ==> k == 0
  {
    if v.Str? then |v.s| else if v.Object? then |v.fields| else 0
  }

  /** `v[key]` for the non-index keys the layer reads; undefined when absent. */
  function Get(v: Value, key: string): (r: Value)
    requires !IsNullish(v)
    ensures v.Object? && key in v.fields ==> r == v.fields[key]
    ensures !(v.Object? && key in v.fields) ==> r == Undefined
  {
    if v.Object? && key in v.fields then v.fields[key] else Undefined
  }

  function DigitChar(d: nat): (c: char)
    requires d < 10
    ensures '0' <= c <= '9'
    ensures (c as int) - ('0' as int) == d
  {
    (('0' as int) + d) as char
  }

  /** The decimal rendering of a natural number, most significant digit first. */
  function NatString(n: nat): (s: string)
    ensures |s| > 0
    ensures forall i :: 0 <= i < |s| ==> '0' <= s[i] <= '9'
  {
    if n < 10 then [DigitChar(n)] else NatString(n / 10) + [DigitChar(n % 10)]
  }

  /** Number::toString for an integer value (radix 10). */
  function IntString(n: int): (s: string)
    ensures |s| > 0
    ensures n < 0 <==> s[0] == '-'
  {
    if n < 0 then "-" + NatString(-n) else NatString(n)
  }

  const UndefinedText := "undefined"
  const NullText := "null"
  const TrueText := "true"
  const FalseText := "false"
  const NaNText := "NaN"
  const ObjectText := "[object Object]"

  /** ToString, as applied by parseInt to its first argument. */
  function ToString(v: Value): string {
    match v
    case Undefined => UndefinedText
    case Null => NullText
    case Bool(b) => if b then TrueText else FalseText
    case Number(NaN) => NaNText
    case Number(Int(i)) => IntString(i)
    case Str(s) => s
    case Object(_) => ObjectText
  }
}
