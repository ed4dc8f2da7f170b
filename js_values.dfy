/**
 * The JavaScript value semantics the lock code relies on: primitive values,
 * the property name a value becomes when it indexes an object literal, own-
 * property lookup on such a literal, loose `== null` and `x || fallback`.
 */
module JsValues {
  import opened Results

  /** An unsigned byte, as held by a Node.js Buffer. */
  type uint8 = x: int | 0 <= x < 0x100

  /** The primitive values that reach the lock code (numbers are integral here). */
  datatype JsValue = Undefined | Null | Bool(b: bool) | Num(n: int) | Str(s: string)

  /** The character of a decimal digit. */
  function DigitChar(d: nat): (c: char)
    requires d < 10
    ensures '0' <= c <= '9' && c as int - '0' as int == d
  {
    (d + '0' as int) as char
  }

  /** The canonical decimal text of a non-negative integer (Number.prototype.toString). */
  function DecimalString(n: nat): (s: string)
    ensures |s| >= 1 && (n >= 10 ==> |s| >= 2)
    ensures forall i :: 0 <= i < |s| ==> '0' <= s[i] <= '9'
  {
    if n < 10 then [DigitChar(n)] else DecimalString(n / 10) + [DigitChar(n % 10)]
  }

  /** Two numbers share a decimal text only when they are equal. */
  lemma {:induction false} DecimalStringInjective(a: nat, b: nat)
    ensures DecimalString(a) == DecimalString(b) ==> a == b
  {
    if DecimalString(a) == DecimalString(b) && a >= 10 && b >= 10 {
      var sa, sb := DecimalString(a), DecimalString(b);
      assert sa[|sa| - 1] == DigitChar(a % 10) && sb[|sb| - 1] == DigitChar(b % 10);
      assert sa[..|sa| - 1] == DecimalString(a / 10);
      assert sb[..|sb| - 1] == DecimalString(b / 10);
      DecimalStringInjective(a / 10, b / 10);
    }
  }

  /** The property name of an object-literal key written as a number literal (`0x0B:` is "11"). */
  function NumberKey(n: nat): string {
    DecimalString(n)
  }

  /** The property name a value is converted to when it is used as `table[value]`. */
  function PropertyKey(v: JsValue): string {
    match v
    case Undefined => "undefined"
    case Null => "null"
    case Bool(b) => if b then "true" else "false"
    case Num(n) => if n < 0 then "-" + DecimalString(-n) else DecimalString(n)
    case Str(s) => s
  }

  /** A non-negative number indexes the table entry written with the same number literal, and no other. */
  lemma NumberIndexesNumberKey(n: nat, k: nat)
    ensures PropertyKey(Num(n)) == NumberKey(k) <==> n == k
  {
    DecimalStringInjective(n, k);
  }

  /** `undefined` never indexes a table entry written with a number literal. */
  lemma UndefinedIsNoNumberKey(k: nat)
    ensures PropertyKey(Undefined) != NumberKey(k)
  {
    assert PropertyKey(Undefined)[0] == 'u';
  }

  /** A number never names a property whose first character is not a decimal digit. */
  lemma NumberKeyStartsWithDigit(n: int)
    ensures |PropertyKey(Num(n))| >= 1
    ensures n >= 0 ==> '0' <= PropertyKey(Num(n))[0] <= '9'
    ensures n < 0 ==> PropertyKey(Num(n))[0] == '-'
  {
  }

  /** `table[key]` on an object literal whose own properties are `table`: None is `undefined`. */
  function Lookup<V>(table: map<string, V>, key: JsValue): Option<V> {
    if PropertyKey(key) in table then Some(table[PropertyKey(key)]) else None
  }

  /** `obj[key]` on a settings object: a missing key reads as `undefined`. */
  function Get(obj: map<string, JsValue>, key: string): JsValue {
    if key in obj then obj[key] else Undefined
  }

  /** `v != null` is false exactly for `undefined` and `null` (loose equality). */
  predicate IsNullish(v: JsValue) {
    v.Undefined? || v.Null?
  }

  /** `x || fallback` where `x` is a looked-up string or `undefined`: falsy values give the fallback. */
  function OrElse(x: Option<string>, fallback: string): string {
    if x.Some? && x.value != "" then x.value else fallback
  }
}
