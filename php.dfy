/** The stock Option and Result wrappers: Option stands for PHP's null, Result
    for a call that either returns or throws. */
module Wrappers {

  datatype Option<+T> = None | Some(value: T)

  datatype Result<+T> = Ok(value: T) | Err(message: string)
}

/** The part of PHP's value model the core relies on: decoded JSON values,
    reading an array key, `isset`, `empty`, `unset`, array-key normalisation
    and the `(int)` cast of a digit string. */
module Php {
  import opened Wrappers
  import opened Text

  /** PHP_INT_MAX on a 64-bit build. */
  const IntMax: int := 0x7FFF_FFFF_FFFF_FFFF

  /** A value produced by `json_decode($text, true)`. An object becomes an
      ordered associative array, kept here as its entries in document order. */
  datatype Value =
    | Null
    | Bool(b: bool)
    | Num(n: int)
    | Str(s: string)
    | Obj(fields: seq<(string, Value)>)

  /** An associative array with string keys, in iteration order. */
  type Fields = seq<(string, Value)>

  /** `$a[$key]`: the value stored under `key`, and null when the key is
      missing (PHP warns and goes on with null). */
  function Get(a: Fields, key: string): (v: Value)
    ensures v != Null ==> exists i :: 0 <= i < |a| && a[i] == (key, v)
    ensures (forall i :: 0 <= i < |a| ==> a[i].0 != key) ==> v == Null
    ensures |a| > 0 && a[0].0 == key ==> v == a[0].1
  {
    if a == [] then Null
    else if a[0].0 == key then a[0].1
    else Get(a[1..], key)
  }

  /** `isset($a[$key])`: the key is present and its value is not null. */
  predicate IsSet(a: Fields, key: string) {
    Get(a, key) != Null
  }

  /** `empty($v)`: null, false, 0, "", "0" and the empty array. */
  predicate Empty(v: Value) {
    v == Null || v == Bool(false) || v == Num(0) || v == Str("") || v == Str("0") || v == Obj([])
  }

  /** `unset($a[$key])`: the array without its `key` entry, the rest in order. */
  function RemoveKey(a: Fields, key: string): (r: Fields)
    ensures |r| <= |a|
    ensures forall e :: e in r ==> e in a && e.0 != key
    ensures forall e :: e in a && e.0 != key ==> e in r
  {
    if a == [] then []
    else if a[0].0 == key then RemoveKey(a[1..], key)
    else [a[0]] + RemoveKey(a[1..], key)
  }

  /** The least integer that a correctly rounded decimal-to-double
      conversion turns into infinity: 2^1024 - 2^970, halfway between the
      largest double and 2^1024. */
  const DoubleOverflow: int := 179769313486231580793728971405303415079934132710037826936173778980444968292764750946649017977587207096330286416692887910946555547851940402630657488671505820681908902000708383676273854845817711531764475730270069855571366959622842914819860834936475292719074168444365510704342711559699508093042880177904174497792

  /** `(int) $digits` for a string of decimal digits. A value that fits in 64
      bits is exact. A larger one is first read as a double: the engine caps a
      finite double above PHP_INT_MAX at PHP_INT_MAX, and turns infinity
      (a value of DoubleOverflow or more) into 0. */
  function IntCast(digits: string): (n: int)
    requires AllDigits(digits)
    ensures 0 <= n <= IntMax
    ensures DigitsValue(digits) <= IntMax ==> n == DigitsValue(digits)
    ensures IntMax < DigitsValue(digits) < DoubleOverflow ==> n == IntMax
    ensures DoubleOverflow <= DigitsValue(digits) ==> n == 0
  {
    var v := DigitsValue(digits);
    if v <= IntMax then v else if v < DoubleOverflow then IntMax else 0
  }

  /** The key a value becomes when it is used as an array key, written as
      text: integers and booleans turn into their decimal form (PHP stores a
      decimal-integer string key as that integer, so the two coincide), null
      becomes "", and an array is an illegal offset (None). */
  function ArrayKey(v: Value): (k: Option<string>)
    ensures v.Str? ==> k == Some(v.s)
    ensures v.Obj? <==> k.None?
  {
    match v
    case Null => Some("")
    case Bool(b) => Some(if b then "1" else "0")
    case Num(n) => Some(if n >= 0 then Decimal(n) else "-" + Decimal(-n))
    case Str(s) => Some(s)
    case Obj(_) => None
  }
}
