/**
 * The JavaScript values the data store inspects: arguments, options objects,
 * payloads threaded through hooks and records held in the store.
 * Numbers are integers below 10^21 in magnitude (plus NaN): in that range
 * String(n) is the plain decimal numeral; see README for what that leaves out.
 */
module Values {

  /** The integers JavaScript prints without an exponent. */
  type PlainInt = n: int | -1_000_000_000_000_000_000_000 < n < 1_000_000_000_000_000_000_000

  datatype Value =
    | Undefined
    | Null
    | Bool(b: bool)
    | Num(n: PlainInt)
    | NaN
    | Str(s: string)
    | Arr(items: seq<Value>)
    | Obj(fields: map<string, Value>)
    | Func(source: string)

  /** utils.isString */
  predicate IsString(v: Value) { v.Str? }

  /** utils.isNumber: every value of type number, NaN included */
  predicate IsNumber(v: Value) { v.Num? || v.NaN? }

  /**
   * utils.isObject, taken to accept plain objects only: not scalars, null,
   * functions or arrays. The utils module is not part of this model;
   * angular.isObject would accept arrays.
   */
  predicate IsObject(v: Value) { v.Obj? }

  /** What `update` and `lastSaved` accept as a primary key. */
  predicate IsId(v: Value) { IsString(v) || IsNumber(v) }

  /** JavaScript truthiness, as used by `options || {}` and `!!options.cacheResponse`. */
  predicate Truthy(v: Value)
  {
    match v
    case Undefined => false
    case Null => false
    case Bool(b) => b
    case Num(n) => n != 0
    case NaN => false
    case Str(s) => s != ""
    case Arr(_) => true
    case Obj(_) => true
    case Func(_) => true
  }

  /** Reading property `key` of an object; anything missing reads as undefined. */
  function Get(v: Value, key: string): (r: Value)
  {
    if v.Obj? && key in v.fields then v.fields[key] else Undefined
  }

  function Digit(d: nat): (c: char)
    requires d < 10
    ensures '0' <= c <= '9'
  {
    (48 + d) as char
  }

  /** The decimal numeral of a natural number, most significant digit first. */
  function NatDigits(n: nat): (s: string)
    ensures |s| > 0
    ensures forall i :: 0 <= i < |s| ==> '0' <= s[i] <= '9'
    ensures n < 10 <==> |s| == 1
    ensures |s| > 1 ==> s[0] != '0'
    decreases n
  {
    if n < 10 then [Digit(n)] else NatDigits(n / 10) + [Digit(n % 10)]
  }

  /**
   * String(n) for an integer n of magnitude below 10^21 (a PlainInt);
   * larger magnitudes print in exponent form, which is not produced here.
   */
  function Decimal(n: int): (s: string)
    ensures |s| > 0 && (s[0] == '-' <==> n < 0)
    ensures var digits := if n < 0 then s[1..] else s;
      |digits| > 0 && (|digits| > 1 ==> digits[0] != '0')
  {
    if n < 0 then "-" + NatDigits(-n) else NatDigits(n)
  }

  /**
   * The property key a value is coerced to when it indexes an object
   * (`saved[id]`, `id in saved`, `adapters[name]`), i.e. String(v).
   */
  function PropertyKey(v: Value): (r: string)
    decreases v, 1
    ensures v.Str? ==> r == v.s
    ensures v.Num? ==> |r| > 0 && (r[0] == '-' <==> v.n < 0) && forall i :: 0 < i < |r| ==> '0' <= r[i] <= '9'
    ensures v.Num? && v.n >= 0 ==> '0' <= r[0] <= '9' && NumeralValue(r) == v.n
    ensures v.Num? && v.n < 0 ==> NumeralValue(r[1..]) == -v.n
    ensures v.Obj? ==> r == "[object Object]"
  {
    match v
    case Undefined => "undefined"
    case Null => "null"
    case Bool(b) => if b then "true" else "false"
    case Num(n) => DecimalValue(n); Decimal(n)
    case NaN => "NaN"
    case Str(s) => s
    case Arr(_) => ElementsKey(v, 0)
    case Obj(_) => "[object Object]"
    case Func(source) => source
  }

  /** Array.prototype.join(",") from index i on; undefined and null join as "". */
  function ElementsKey(a: Value, i: nat): (r: string)
    requires a.Arr? && i <= |a.items|
    decreases a, 0, |a.items| - i
  {
    if i == |a.items| then ""
    else
      var e := a.items[i];
      (if i == 0 then "" else ",")
      + (if e.Undefined? || e.Null? then "" else PropertyKey(e))
      + ElementsKey(a, i + 1)
  }

  /** The number a string of decimal digits denotes, most significant digit first. */
  function NumeralValue(s: string): (v: nat)
    requires forall i :: 0 <= i < |s| ==> '0' <= s[i] <= '9'
  {
    if s == [] then 0
    else 10 * NumeralValue(s[..|s| - 1]) + (s[|s| - 1] as int - '0' as int)
  }

  /** NatDigits(n) is the numeral of n: read back in base ten it denotes n. */
  lemma {:induction false} NatDigitsValue(n: nat)
    ensures NumeralValue(NatDigits(n)) == n
    decreases n
  {
    if n >= 10 {
      var s := NatDigits(n);
      assert s[..|s| - 1] == NatDigits(n / 10);
      NatDigitsValue(n / 10);
    }
  }

  /**
   * Decimal(n) is String(n) in the PlainInt range: the numeral of |n|,
   * preceded by "-" exactly when n is negative (Decimal itself ensures the
   * sign and that there is no leading zero).
   */
  lemma DecimalValue(n: int)
    ensures n >= 0 ==> NumeralValue(Decimal(n)) == n
    ensures n < 0 ==> Decimal(n)[0] == '-' && NumeralValue(Decimal(n)[1..]) == -n
  {
    if n < 0 {
      var d := NatDigits(-n);
      assert Decimal(n) == "-" + d;
      assert Decimal(n)[1..] == d;
      NatDigitsValue(-n);
    } else {
      assert Decimal(n) == NatDigits(n);
      NatDigitsValue(n);
    }
  }

  lemma {:induction false} NatDigitsInjective(a: nat, b: nat)
    requires NatDigits(a) == NatDigits(b)
    ensures a == b
    decreases a
  {
    if a >= 10 && b >= 10 {
      var sa, sb := NatDigits(a), NatDigits(b);
      assert sa == NatDigits(a / 10) + [Digit(a % 10)];
      assert sb == NatDigits(b / 10) + [Digit(b % 10)];
      assert sa[..|sa| - 1] == NatDigits(a / 10);
      assert sb[..|sb| - 1] == NatDigits(b / 10);
      NatDigitsInjective(a / 10, b / 10);
      assert Digit(a % 10) == sa[|sa| - 1] == sb[|sb| - 1] == Digit(b % 10);
    }
  }

  /** Two different numbers are never coerced to the same key. */
  lemma DecimalInjective(a: int, b: int)
    requires Decimal(a) == Decimal(b)
    ensures a == b
  {
    if a < 0 && b < 0 {
      assert NatDigits(-a) == Decimal(a)[1..] == Decimal(b)[1..] == NatDigits(-b);
      NatDigitsInjective(-a, -b);
    } else if a >= 0 && b >= 0 {
      NatDigitsInjective(a, b);
    }
  }

  /**
   * A numeric id and a string id share a key exactly when the string is the
   * number's decimal numeral; distinct numeric ids never share one.
   */
  lemma NumericIdKeys(n: PlainInt, m: PlainInt, s: string)
    ensures PropertyKey(Num(n)) == PropertyKey(Str(s)) <==> s == Decimal(n)
    ensures PropertyKey(Num(n)) == PropertyKey(Num(m)) <==> n == m
  {
    if PropertyKey(Num(n)) == PropertyKey(Num(m)) {
      DecimalInjective(n, m);
    }
  }
}
