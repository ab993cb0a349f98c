/**
 * The few pieces of PHP's value semantics that the module's decisions rest on:
 * scalar values, `empty()` (and so truthiness, `?:`), the null-coalescing
 * operator `??`, and the way PHP turns a value into an array key.
 */
module Php {

  datatype Option<+T> = None | Some(value: T)

  /** A PHP scalar. Reading an absent array key gives Null. */
  datatype Value = Null | Bool(b: bool) | Int(i: int) | Str(s: string)

  /** PHP's `empty()`: null, false, 0, "" and "0" are empty; everything else is truthy. */
  predicate IsEmpty(v: Value)
  {
    match v
    case Null => true
    case Bool(b) => !b
    case Int(i) => i == 0
    case Str(s) => s == "" || s == "0"
  }

  /** `a ?? b`: only null (or an absent key) falls through; "" and "0" do not. */
  function Coalesce(a: Value, b: Value): Value
  {
    if a.Null? then b else a
  }

  // ---------------------------------------------------------------------------
  // Decimal strings
  // ---------------------------------------------------------------------------

  /** PHP_INT_MAX on a 64-bit build. */
  const PhpIntMax: int := 0x7FFF_FFFF_FFFF_FFFF

  predicate IsDigit(c: char)
  {
    '0' <= c <= '9'
  }

  predicate AllDigits(s: string)
  {
    forall i :: 0 <= i < |s| ==> IsDigit(s[i])
  }

  /** A non-empty run of digits without a leading zero, or "0" itself. */
  predicate IsCanonicalDigits(s: string)
  {
    AllDigits(s) && s != [] && (s[0] == '0' ==> |s| == 1)
  }

  function DigitValue(c: char): (d: nat)
    requires IsDigit(c)
    ensures d < 10
  {
    c as int - '0' as int
  }

  function DigitChar(d: nat): (c: char)
    requires d < 10
    ensures IsDigit(c) && DigitValue(c) == d
  {
    ('0' as int + d) as char
  }

  /** The number a string of decimal digits denotes. */
  function DigitsValue(s: string): nat
    requires AllDigits(s)
    decreases |s|
  {
    if s == [] then 0 else DigitsValue(s[..|s| - 1]) * 10 + DigitValue(s[|s| - 1])
  }

  /** How PHP prints a non-negative integer, as in `'remove_' . $index`. */
  function NatToString(n: nat): (r: string)
    ensures IsCanonicalDigits(r)
    ensures n == 0 <==> r == "0"
    decreases n
  {
    if n < 10 then [DigitChar(n)] else NatToString(n / 10) + [DigitChar(n % 10)]
  }

  /** How PHP prints an integer. */
  function IntToString(n: int): string
  {
    if n < 0 then "-" + NatToString(-n) else NatToString(n)
  }

  lemma {:induction false} NatToStringValue(n: nat)
    ensures DigitsValue(NatToString(n)) == n
    decreases n
  {
    if n >= 10 {
      var t := NatToString(n / 10);
      NatToStringValue(n / 10);
      assert (t + [DigitChar(n % 10)])[..|t|] == t;
    }
  }

  lemma {:induction false} LeadingDigitBound(s: string)
    requires AllDigits(s) && s != []
    ensures DigitsValue(s) >= DigitValue(s[0])
    decreases |s|
  {
    if |s| > 1 {
      LeadingDigitBound(s[..|s| - 1]);
    }
  }

  /** A canonical digit string is exactly how PHP prints its value. */
  lemma {:induction false} CanonicalDigitsPrint(s: string)
    requires IsCanonicalDigits(s)
    ensures NatToString(DigitsValue(s)) == s
    decreases |s|
  {
    if |s| == 1 {
      assert DigitChar(DigitValue(s[0])) == s[0];
    } else {
      var init := s[..|s| - 1];
      assert init[0] == s[0];
      LeadingDigitBound(init);
      CanonicalDigitsPrint(init);
      var v := DigitsValue(s);
      var d := DigitValue(s[|s| - 1]);
      assert v == DigitsValue(init) * 10 + d;
      assert v / 10 == DigitsValue(init) && v % 10 == d;
      assert DigitChar(d) == s[|s| - 1];
      assert s == init + [s[|s| - 1]];
    }
  }

  // ---------------------------------------------------------------------------
  // Array keys
  // ---------------------------------------------------------------------------

  /** A key of a PHP array after PHP's key casting. */
  datatype Key = IntKey(n: int) | StrKey(s: string)

  /**
   * The integer PHP turns a string key into, if any: "0", or an optional '-'
   * followed by digits with no leading zero ("-0" stays a string), within the
   * 64-bit range.
   */
  function IntegerKey(s: string): Option<int>
  {
    if IsCanonicalDigits(s) && DigitsValue(s) <= PhpIntMax then
      Some(DigitsValue(s))
    else if |s| >= 2 && s[0] == '-' && IsCanonicalDigits(s[1..]) && s[1] != '0'
            && DigitsValue(s[1..]) <= PhpIntMax + 1 then
      Some(-(DigitsValue(s[1..]) as int))
    else
      None
  }

  /** The key `$array[$v]` uses: null is "", booleans are 0 and 1, integer strings are integers. */
  function ArrayKey(v: Value): Key
  {
    match v
    case Null => StrKey("")
    case Bool(b) => IntKey(if b then 1 else 0)
    case Int(i) => IntKey(i)
    case Str(s) =>
      match IntegerKey(s)
      case Some(n) => IntKey(n)
      case None => StrKey(s)
  }

  /** A printed index used as a string key is that integer key again. */
  lemma NatStringKey(n: nat)
    requires n <= PhpIntMax
    ensures ArrayKey(Str(NatToString(n))) == IntKey(n)
  {
    NatToStringValue(n);
  }

  /** A string that PHP turns into an integer key is that integer's own printing. */
  lemma IntegerKeyCanonical(s: string, n: int)
    requires IntegerKey(s) == Some(n)
    ensures s == IntToString(n)
  {
    if IsCanonicalDigits(s) && DigitsValue(s) <= PhpIntMax {
      CanonicalDigitsPrint(s);
    } else {
      var t := s[1..];
      LeadingDigitBound(t);
      CanonicalDigitsPrint(t);
      assert s == "-" + t;
    }
  }

  /** Two strings land on the same array key only when they are equal. */
  lemma StringKeysInjective(s1: string, s2: string)
    requires ArrayKey(Str(s1)) == ArrayKey(Str(s2))
    ensures s1 == s2
  {
    match IntegerKey(s1)
    case Some(n) =>
      IntegerKeyCanonical(s1, n);
      IntegerKeyCanonical(s2, n);
    case None =>
  }
}
