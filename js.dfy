/** The slice of JavaScript's value semantics that the plugin relies on:
    truthiness of option values, numeric coercion, property-key conversion
    and ASCII lower-casing. */
module Js {

  datatype Option<+T> = None | Some(value: T)

  datatype Result<+T, +E> = Success(value: T) | Failure(error: E)

  datatype Outcome<+E> = Pass | Fail(error: E)

  /** Gridsome node ids are strings. */
  type Id = string

  /** A JavaScript number. Infinities are not modelled. */
  datatype Number = Finite(r: real) | NaN

  /** A JavaScript value as it can appear in the plugin options or in a node field. */
  datatype Value =
    | Undefined
    | Null
    | Bool(b: bool)
    | Num(n: Number)
    | Str(s: string)
    | Arr(elems: seq<Value>)
    /** the reference handle the host store creates for (typeName, id) */
    | Ref(typeName: string, id: Id)

  /** `if (v)` in JavaScript: undefined, null, false, 0, NaN and "" are falsy. */
  predicate Truthy(v: Value)
  {
    match v
    case Undefined => false
    case Null => false
    case Bool(b) => b
    case Num(n) => n.Finite? && n.r != 0.0
    case Str(s) => s != ""
    case Arr(_) => true
    case Ref(_, _) => true
  }

  /** JavaScript's ToNumber. Non-empty strings and arrays are not parsed: they become NaN. */
  function ToNumber(v: Value): Number
  {
    match v
    case Undefined => NaN
    case Null => Finite(0.0)
    case Bool(b) => Finite(if b then 1.0 else 0.0)
    case Num(n) => n
    case Str(s) => if s == "" then Finite(0.0) else NaN
    case Arr(_) => NaN
    case Ref(_, _) => NaN
  }

  /** lodash `_.inRange(v, start, end)` for start < end: the value is coerced
      to a number and tested against the half-open range [start, end). */
  predicate InRange(v: Value, start: real, end: real)
    requires start < end
  {
    var n := ToNumber(v);
    n.Finite? && start <= n.r < end
  }

  /** The only falsy values that lie in a range [0, end) are those that coerce to 0. */
  lemma FalsyInRange(v: Value, end: real)
    requires 0.0 < end && !Truthy(v)
    ensures InRange(v, 0.0, end) <==> v != Undefined && v != Num(NaN)
  {
  }

  /** `n < x` for an array length n and a JavaScript number x (false when x is NaN). */
  predicate Below(n: int, x: Number)
  {
    x.Finite? && (n as real) < x.r
  }

  /** `x - n` in JavaScript. */
  function Minus(x: Number, n: int): (r: Number)
    ensures r.Finite? <==> x.Finite?
    ensures r.Finite? ==> r.r + n as real == x.r
  {
    match x
    case Finite(a) => Finite(a - n as real)
    case NaN => NaN
  }

  /** `Math.min(x, y)`: NaN when either argument is NaN, otherwise the smaller one. */
  function Min(x: Number, y: Number): (r: Number)
    ensures r.Finite? <==> x.Finite? && y.Finite?
    ensures r.Finite? ==> r.r <= x.r && r.r <= y.r && (r.r == x.r || r.r == y.r)
  {
    if x.NaN? || y.NaN? then NaN
    else if x.r <= y.r then x
    else y
  }

  /** The property key JavaScript uses for `obj[v]`. Strings are used as they
      are and undefined, null and booleans get their literal spelling; numbers,
      arrays and objects map to a placeholder rather than their decimal or
      object text. */
  function Key(v: Value): string
  {
    match v
    case Undefined => "undefined"
    case Null => "null"
    case Bool(b) => if b then "true" else "false"
    case Num(n) => if n.NaN? then "NaN" else "<number>"
    case Str(s) => s
    case Arr(_) => "<array>"
    case Ref(_, _) => "[object Object]"
  }

  /** `String.prototype.toLowerCase` restricted to ASCII letters. */
  function LowerChar(c: char): char
  {
    if 'A' <= c <= 'Z' then (c as int + 32) as char else c
  }

  predicate IsUpper(c: char)
  {
    'A' <= c <= 'Z'
  }

  function ToLowerCase(s: string): (r: string)
    ensures |r| == |s|
    ensures forall i :: 0 <= i < |s| ==> !IsUpper(r[i])
    ensures forall i :: 0 <= i < |s| && !IsUpper(s[i]) ==> r[i] == s[i]
    ensures forall i :: 0 <= i < |s| && IsUpper(s[i]) ==> r[i] as int == s[i] as int + 32
  {
    if s == [] then [] else [LowerChar(s[0])] + ToLowerCase(s[1..])
  }

  /** Lower-casing is idempotent: a string without upper-case letters is left alone. */
  lemma {:induction false} ToLowerCaseIdempotent(s: string)
    ensures ToLowerCase(ToLowerCase(s)) == ToLowerCase(s)
  {
    var t := ToLowerCase(s);
    LowerCaseFixed(t);
  }

  lemma {:induction false} LowerCaseFixed(s: string)
    requires forall i :: 0 <= i < |s| ==> !IsUpper(s[i])
    ensures ToLowerCase(s) == s
  {
    if s != [] {
      LowerCaseFixed(s[1..]);
    }
  }
}
