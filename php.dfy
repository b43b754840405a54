/** The few PHP runtime notions the settings form relies on: PHP's loosely
    typed values, their conversion to bool (`if ($v)`, `empty($v)`) and the
    `ctype_digit` test on strings. */
module Php {

  datatype Option<+T> = None | Some(value: T)

  /** A PHP value as it can appear in submitted form values or in the
      configuration store. `Arr` is an associative array of strings, which is
      what an address element submits. Floats and objects are not modelled. */
  datatype Value =
    | Null
    | Bool(b: bool)
    | Int(i: int)
    | Str(s: string)
    | Arr(entries: map<string, string>)

  /** PHP's conversion of a string to bool: only "" and "0" are false. */
  predicate StringTruthy(s: string)
    ensures StringTruthy(s) <==> |s| > 1 || (|s| == 1 && s[0] != '0')
  {
    s != "" && s != "0"
  }

  /** PHP's conversion of a value to bool, as done by `if ($v)`, `!$v`:
      false for exactly NULL, false, 0, "", "0" and the empty array. */
  predicate Truthy(v: Value)
    ensures !Truthy(v) <==> v in {Null, Bool(false), Int(0), Str(""), Str("0"), Arr(map[])}
  {
    match v
    case Null => false
    case Bool(b) => b
    case Int(i) => i != 0
    case Str(s) => StringTruthy(s)
    case Arr(m) => |m| != 0
  }

  /** PHP's `empty($v)` on a variable that is set. */
  predicate Empty(v: Value)
    ensures v.Str? ==> (Empty(v) <==> v.s == "" || v.s == "0")
    ensures v.Int? ==> (Empty(v) <==> v.i == 0)
    ensures v.Null? ==> Empty(v)
    ensures v.Bool? ==> (Empty(v) <==> !v.b)
    ensures v.Arr? ==> (Empty(v) <==> v.entries == map[])
  {
    !Truthy(v)
  }

  /** A value that is either a string or PHP's NULL. */
  function Nullable(o: Option<string>): Value
  {
    match o
    case None => Null
    case Some(s) => Str(s)
  }

  /** A decimal digit in the C locale. */
  predicate IsDigit(c: char)
  {
    '0' <= c <= '9'
  }

  /** PHP's `ctype_digit` on a string: true iff the string is non-empty and
      every character in it is a decimal digit. */
  function CtypeDigit(s: string): (r: bool)
    ensures r <==> |s| > 0 && forall i :: 0 <= i < |s| ==> IsDigit(s[i])
  {
    if |s| == 0 then false
    else if |s| == 1 then IsDigit(s[0])
    else IsDigit(s[0]) && CtypeDigit(s[1..])
  }
}
