/**
 * Kotlin's 32-bit `Int` and its decimal text form: `Int.toString()`,
 * `String.toIntOrNull()` and `String.toInt()` (ASCII digits only).
 */
module Decimal {
  import opened Wrappers
  import opened Text

  const INT_MIN: int := -0x8000_0000
  const INT_MAX: int := 0x7fff_ffff
  const TWO_32: int := 0x1_0000_0000

  /** Kotlin's `Int`. */
  type Int32 = x: int | INT_MIN <= x <= INT_MAX

  /** Two's-complement wrap-around of Kotlin `Int` arithmetic. */
  function Wrap(x: int): (r: Int32)
    ensures INT_MIN <= x <= INT_MAX ==> r == x
    ensures (r - x) % TWO_32 == 0
  {
    ((x - INT_MIN) % TWO_32) + INT_MIN
  }

  function DigitValue(c: char): (d: nat)
    requires IsDigit(c)
    ensures d < 10
  {
    c as int - '0' as int
  }

  function DigitChar(d: nat): (c: char)
    requires d < 10
    ensures IsDigit(c) && DigitValue(c) == d
  {
    ('0' as int + d) as char
  }

  /** The value of a decimal digit string, most significant digit first. */
  function DigitsValue(s: string): nat
    requires AllDigits(s)
  {
    if s == [] then 0 else DigitsValue(s[..|s| - 1]) * 10 + DigitValue(s[|s| - 1])
  }

  function Pow10(n: nat): (p: nat)
    ensures p >= 1
  {
    if n == 0 then 1 else 10 * Pow10(n - 1)
  }

  lemma {:induction false} DigitsValueBound(s: string)
    requires AllDigits(s)
    ensures DigitsValue(s) < Pow10(|s|)
  {
    if s != [] {
      DigitsValueBound(s[..|s| - 1]);
    }
  }

  /** Kotlin's `toString()` of a non-negative `Int`: digits without a
      leading zero (except for 0 itself) whose value is `n`. */
  function NatToString(n: nat): (r: string)
    ensures |r| > 0 && AllDigits(r) && DigitsValue(r) == n
    ensures r[0] == '0' ==> n == 0
  {
    if n < 10 then [DigitChar(n)]
    else
      var p := NatToString(n / 10);
      var r := p + [DigitChar(n % 10)];
      assert r[..|r| - 1] == p;
      r
  }

  /** Kotlin's `Int.toString()`. */
  function IntToString(x: int): string {
    if x < 0 then "-" + NatToString(-x) else NatToString(x)
  }

  /** The signed value of an optional sign followed by digits, if it is one. */
  function SignedDigitsValue(s: string): Option<int> {
    if |s| > 0 && (s[0] == '-' || s[0] == '+') then
      if |s| > 1 && AllDigits(s[1..]) then
        var m: int := DigitsValue(s[1..]);
        var v: int := if s[0] == '-' then 0 - m else m;
        Some(v)
      else None
    else if |s| > 0 && AllDigits(s) then Some(DigitsValue(s))
    else None
  }

  /** Kotlin's `String.toIntOrNull()`: an optional sign, at least one digit,
      and a value that fits in an `Int`; null otherwise. `toInt()` throws
      exactly where this answers null, so the throwing variant is `ParseInt`
      with `None` read as the exception. */
  function ParseInt(s: string): (r: Option<Int32>)
    ensures r.Some? ==> |s| > 0 && (AllDigits(s) || (|s| > 1 && (s[0] == '-' || s[0] == '+') && AllDigits(s[1..])))
    ensures |s| > 0 && AllDigits(s) ==> (r.Some? <==> DigitsValue(s) <= INT_MAX)
    ensures r.Some? && AllDigits(s) ==> r.value == DigitsValue(s)
    ensures |s| > 1 && s[0] == '-' && AllDigits(s[1..]) ==>
      (r.Some? <==> DigitsValue(s[1..]) <= -INT_MIN) && (r.Some? ==> r.value == -(DigitsValue(s[1..]) as int))
    ensures |s| > 1 && s[0] == '+' && AllDigits(s[1..]) ==>
      (r.Some? <==> DigitsValue(s[1..]) <= INT_MAX) && (r.Some? ==> r.value == DigitsValue(s[1..]))
  {
    match SignedDigitsValue(s)
    case Some(v) => if INT_MIN <= v <= INT_MAX then Some(v) else None
    case None => None
  }

  /** A sign must be followed by digits, and letters are never skipped. */
  lemma ParseIntSamples()
    ensures ParseInt("-5") == Some(-5) && ParseInt("+5") == Some(5)
    ensures ParseInt("") == None && ParseInt("+") == None && ParseInt("-") == None && ParseInt("1a") == None
  {
    assert "-5"[1..] == "5" && "+5"[1..] == "5";
    assert !IsDigit("1a"[1]);
  }

  /** Every `Int` reads back from its own text. */
  lemma ParseIntToString(x: Int32)
    ensures ParseInt(IntToString(x)) == Some(x)
  {
    var s := IntToString(x);
    if x < 0 {
      assert s[1..] == NatToString(-(x as int));
      assert s[0] == '-';
    } else {
      var r := NatToString(x);
      assert r[0] != '-' && r[0] != '+' by { assert IsDigit(r[0]); }
    }
  }

  /** Digit strings of at most nine digits always fit in an `Int`. */
  lemma ShortDigitsParse(s: string)
    requires AllDigits(s) && 0 < |s| <= 9
    ensures ParseInt(s) == Some(DigitsValue(s))
  {
    DigitsValueBound(s);
    assert Pow10(9) == 1_000_000_000;
    Pow10Monotone(|s|, 9);
    assert s[0] != '-' && s[0] != '+' by { assert IsDigit(s[0]); }
  }

  lemma {:induction false} Pow10Monotone(a: nat, b: nat)
    requires a <= b
    ensures Pow10(a) <= Pow10(b)
  {
    if a < b { Pow10Monotone(a, b - 1); }
  }
}
