/**
 * Java values as the router sees them: the objects stored in a source map,
 * their toString() text, and the decimal text of a Java long.
 */
module Values {

  /** Java's `null` for a reference that the source checks against null. */
  datatype Option<+T> = None | Some(value: T) {
    function GetOr(default: T): T {
      match this
      case Some(v) => v
      case None => default
    }
  }

  /** A Java `long` (and a non-null `Long`). */
  type Int64 = x: int | -0x8000_0000_0000_0000 <= x < 0x8000_0000_0000_0000

  /** A Java `byte`, signed. */
  newtype JavaByte = x: int | -128 <= x < 128

  /**
   * A value held in a `Map<String, Object>`. `Coll` is any `java.util.Collection`
   * (its items in iteration order), printed by `ValueToString` in
   * `AbstractCollection`'s format, `Arr` an `Object[]` (an array's toString() is
   * its identity text, not its contents), `Obj` any other object, by its toString().
   */
  datatype Value =
    | Null
    | Str(s: string)
    | Long(n: Int64)
    | Coll(items: seq<Value>)
    | Arr(items: seq<Value>, identityText: string)
    | Obj(text: string)

  /** A `Map<String, Object>`; a key bound to `Null` reads like a missing one. */
  type SourceMap = map<string, Value>

  /** `Map.get`: null for a missing key. */
  function Lookup(m: SourceMap, key: string): (v: Value)
    ensures key !in m ==> v == Null
    ensures key in m ==> v == m[key]
  {
    if key in m then m[key] else Null
  }

  function DigitChar(d: nat): (c: char)
    requires d < 10
    ensures '0' <= c <= '9'
  {
    (48 + d) as char
  }

  predicate AllDigits(s: string) {
    forall i :: 0 <= i < |s| ==> '0' <= s[i] <= '9'
  }

  /** The decimal digits of `n`, most significant first, with no leading zero. */
  function NatToDigits(n: nat): (r: string)
    ensures 1 <= |r| && AllDigits(r)
    ensures n < 10 <==> |r| == 1
    ensures r[0] == '0' <==> n == 0
    decreases n
  {
    if n < 10 then [DigitChar(n)] else NatToDigits(n / 10) + [DigitChar(n % 10)]
  }

  /** `Long.toString(n)`: a minus sign for negative values, then the digits. */
  function LongToString(n: Int64): (r: string)
    ensures |r| >= 1
    ensures r[0] == '-' <==> n < 0
  {
    if n < 0 then "-" + NatToDigits(-(n as int)) else NatToDigits(n)
  }

  /** Two numbers with the same decimal text are the same number. */
  lemma {:induction false} NatToDigitsInjective(a: nat, b: nat)
    requires NatToDigits(a) == NatToDigits(b)
    ensures a == b
    decreases a
  {
    if a >= 10 && b >= 10 {
      var da, db := NatToDigits(a), NatToDigits(b);
      assert da[..|da| - 1] == NatToDigits(a / 10);
      assert db[..|db| - 1] == NatToDigits(b / 10);
      assert DigitChar(a % 10) == da[|da| - 1] == db[|db| - 1] == DigitChar(b % 10);
      NatToDigitsInjective(a / 10, b / 10);
    }
  }

  /** Distinct message ids have distinct text, so a history of ids keeps them apart. */
  lemma LongToStringInjective(a: Int64, b: Int64)
    requires LongToString(a) == LongToString(b)
    ensures a == b
  {
    if a < 0 && b < 0 {
      assert NatToDigits(-(a as int)) == LongToString(a)[1..];
      assert NatToDigits(-(b as int)) == LongToString(b)[1..];
      NatToDigitsInjective(-(a as int), -(b as int));
    } else if a >= 0 && b >= 0 {
      NatToDigitsInjective(a, b);
    }
  }

  /** The items' texts separated by ", ", as `AbstractCollection.toString` writes them. */
  function Join(parts: seq<string>): string {
    if |parts| == 0 then ""
    else if |parts| == 1 then parts[0]
    else parts[0] + ", " + Join(parts[1..])
  }

  /**
   * `String.valueOf(v)`: `toString()` of a non-null value, "null" for null
   * (which is how a collection prints a null item).
   */
  function ValueToString(v: Value): string
    decreases v
  {
    match v
    case Null => "null"
    case Str(s) => s
    case Long(n) => LongToString(n)
    case Coll(items) => "[" + Join(seq(|items|, i requires 0 <= i < |items| => ValueToString(items[i]))) + "]"
    case Arr(_, identityText) => identityText
    case Obj(text) => text
  }
}
