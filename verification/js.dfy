/**
 * A small model of the JavaScript values the application passes around
 * (request bodies, configuration objects) and of the few language operators
 * whose semantics the rest of the model depends on: truthiness, `typeof`,
 * property access, object spread, `for...in`, the remainder operator and
 * the decimal rendering of integers inside template strings.
 *
 * Numbers are integers only; floating point, NaN and infinities are not modelled.
 */
module Js {
  import opened Wrappers

  datatype Value =
    | Undefined
    | Null
    | Bool(b: bool)
    | Num(n: int)
    | Str(s: string)
    | Arr(items: seq<Value>)
    | Obj(fields: map<string, Value>)
    | Fun(name: string)

  /** JavaScript truthiness (`!!v`). Arrays, objects and functions are always truthy. */
  predicate Truthy(v: Value) {
    match v
    case Undefined => false
    case Null => false
    case Bool(b) => b
    case Num(n) => n != 0
    case Str(s) => s != ""
    case Arr(_) => true
    case Obj(_) => true
    case Fun(_) => true
  }

  /** The `typeof` operator; note that `typeof null` and `typeof []` are both "object". */
  function TypeOf(v: Value): string {
    match v
    case Undefined => "undefined"
    case Null => "object"
    case Bool(_) => "boolean"
    case Num(_) => "number"
    case Str(_) => "string"
    case Arr(_) => "object"
    case Obj(_) => "object"
    case Fun(_) => "function"
  }

  /** `Array.isArray(v)` */
  predicate IsArray(v: Value) {
    v.Arr?
  }

  /**
   * Property access `v[k]`. Reading a property of `undefined` or `null` throws
   * a TypeError, modelled as None; the own properties of arrays and strings
   * (indices, `length`) are never read by the modelled code and read as undefined here.
   */
  function Get(v: Value, k: string): (r: Option<Value>)
    ensures r.None? <==> (v.Undefined? || v.Null?)
    ensures v.Obj? && k in v.fields ==> r == Some(v.fields[k])
    ensures v.Obj? && k !in v.fields ==> r == Some(Undefined)
  {
    match v
    case Undefined => None
    case Null => None
    case Obj(fs) => Some(if k in fs then fs[k] else Undefined)
    case _ => Some(Undefined)
  }

  /** Optional chaining `v?.k`: never throws. */
  function OptGet(v: Value, k: string): (r: Value)
    ensures (v.Undefined? || v.Null?) ==> r == Undefined
    ensures !(v.Undefined? || v.Null?) ==> Some(r) == Get(v, k)
  {
    match Get(v, k)
    case None => Undefined
    case Some(x) => x
  }

  /** JavaScript's `a % b` on integers: the remainder takes the sign of the dividend. */
  function JsRem(a: int, b: int): (r: int)
    requires b != 0
    ensures a >= 0 ==> 0 <= r < (if b > 0 then b else -b)
    ensures a < 0 ==> -(if b > 0 then b else -b) < r <= 0
    ensures a >= 0 && b > 0 ==> r == a % b
  {
    var m := if b > 0 then b else -b;
    if a >= 0 then a % m else -((-a) % m)
  }

  /** The character for a decimal digit. */
  function Digit(d: nat): (c: char)
    requires d < 10
    ensures '0' <= c <= '9'
  {
    "0123456789"[d]
  }

  /** Decimal rendering of a natural number, as `String(n)` produces it. */
  function NatToString(n: nat): (s: string)
    ensures |s| >= 1
    ensures forall i :: 0 <= i < |s| ==> '0' <= s[i] <= '9'
    ensures (|s| == 1) <==> (n < 10)
  {
    if n < 10 then [Digit(n)] else NatToString(n / 10) + [Digit(n % 10)]
  }

  /** Decimal rendering of an integer, with a leading minus sign when negative. */
  function IntToString(n: int): (s: string)
    ensures |s| >= 1
    ensures (s[0] == '-') <==> (n < 0)
    ensures forall i :: 0 <= i < |s| ==> s[i] == '-' || '0' <= s[i] <= '9'
  {
    if n < 0 then "-" + NatToString(-n) else NatToString(n)
  }

  lemma DigitInjective(a: nat, b: nat)
    requires a < 10 && b < 10 && Digit(a) == Digit(b)
    ensures a == b
  {
  }

  /** Distinct numbers render as distinct strings, so index keys never collide. */
  lemma {:induction false} NatToStringInjective(a: nat, b: nat)
    requires NatToString(a) == NatToString(b)
    ensures a == b
  {
    var s := NatToString(a);
    if a < 10 {
      assert |NatToString(b)| == 1;
      DigitInjective(a, b);
    } else {
      assert b >= 10;
      assert NatToString(a) == NatToString(a / 10) + [Digit(a % 10)];
      assert NatToString(b) == NatToString(b / 10) + [Digit(b % 10)];
      assert s[|s| - 1] == Digit(a % 10) == Digit(b % 10);
      DigitInjective(a % 10, b % 10);
      assert NatToString(a / 10) == s[..|s| - 1] == NatToString(b / 10);
      NatToStringInjective(a / 10, b / 10);
    }
  }

  /** Distinct integers render as distinct strings. */
  lemma IntToStringInjective(a: int, b: int)
    requires IntToString(a) == IntToString(b)
    ensures a == b
  {
    if a < 0 {
      assert b < 0;
      assert NatToString(-a) == IntToString(a)[1..] == IntToString(b)[1..] == NatToString(-b);
      NatToStringInjective(-a, -b);
    } else {
      assert b >= 0;
      NatToStringInjective(a, b);
    }
  }

  /**
   * The own enumerable properties of a value, as seen by object spread `{...v}`
   * and by `for (k in v)`: the fields of an object, the indices of an array or
   * a string (each character as a one-character string), nothing otherwise.
   */
  function OwnEnumerable(v: Value): (m: map<string, Value>)
    ensures v.Obj? ==> m == v.fields
    ensures v.Arr? ==> forall i :: 0 <= i < |v.items| ==> NatToString(i) in m && m[NatToString(i)] == v.items[i]
    ensures !(v.Obj? || v.Arr? || v.Str?) ==> m == map[]
  {
    match v
    case Obj(fs) => fs
    case Arr(xs) => IndexMap(xs)
    case Str(s) => IndexMap(seq(|s|, i requires 0 <= i < |s| => Str([s[i]])))
    case _ => map[]
  }

  /** The map from decimal index keys to elements. */
  function IndexMap(xs: seq<Value>): (m: map<string, Value>)
    ensures forall i :: 0 <= i < |xs| ==> NatToString(i) in m && m[NatToString(i)] == xs[i]
    ensures forall k :: k in m ==> exists i :: 0 <= i < |xs| && k == NatToString(i)
  {
    forall i, j | 0 <= i < |xs| && 0 <= j < |xs| && NatToString(i) == NatToString(j) ensures i == j {
      NatToStringInjective(i, j);
    }
    map i | 0 <= i < |xs| :: NatToString(i) := xs[i]
  }

  /** Object spread `{...a, ...b}`: the later operand wins on shared keys. */
  function Spread(a: Value, b: Value): (m: map<string, Value>)
    ensures m.Keys == OwnEnumerable(a).Keys + OwnEnumerable(b).Keys
    ensures forall k :: k in OwnEnumerable(b) ==> m[k] == OwnEnumerable(b)[k]
    ensures forall k :: k in OwnEnumerable(a) && k !in OwnEnumerable(b) ==> m[k] == OwnEnumerable(a)[k]
  {
    OwnEnumerable(a) + OwnEnumerable(b)
  }

  /** `a || b`: the left operand when it is truthy, the right one otherwise. */
  function Or(a: Value, b: Value): Value {
    if Truthy(a) then a else b
  }

  /** `a ?? b`: the left operand unless it is null or undefined. */
  function Nullish(a: Value, b: Value): Value {
    if a.Null? || a.Undefined? then b else a
  }

  /** The two defaults differ exactly on falsy values other than null and undefined (`0`, `""`, `false`). */
  lemma OrNullishDiffer(a: Value, b: Value)
    ensures Or(a, b) != Nullish(a, b) <==> !Truthy(a) && !a.Null? && !a.Undefined? && a != b
  {
  }

  /** Floor division `Math.floor(a / b)` for a non-zero divisor. */
  function FloorDiv(a: int, b: int): (q: int)
    requires b != 0
    ensures b > 0 ==> q * b <= a < q * b + b
    ensures b < 0 ==> q * b >= a > q * b + b
  {
    if b > 0 then a / b else (-a) / (-b)
  }

  /**
   * `Math.round(num / den * 100)` computed exactly on the rational value:
   * the integer nearest to 100·num/den, halves rounding up.
   */
  function RoundPercent(num: int, den: int): (r: int)
    requires den != 0
    ensures den > 0 ==> (2 * r - 1) * den <= 200 * num < (2 * r + 1) * den
  {
    FloorDiv(200 * num + den, 2 * den)
  }
}
