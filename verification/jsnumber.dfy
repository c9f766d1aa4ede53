/**
 * JavaScript's `Number(string)` on decimal literals, with exact `real` values.
 * `NumberOf(s)` is `Some(v)` when `Number(s)` is the finite number `v` and `None` when it is NaN;
 * every caller in the source treats NaN and the infinities alike (as "no number"), and floating-point
 * rounding and overflow are not modelled.
 */
module JsNumber {
  import opened Wrappers
  import opened Text

  /** `Math.max` on two numbers. */
  function Max(a: real, b: real): (r: real)
    ensures r >= a && r >= b && (r == a || r == b)
  {
    if a >= b then a else b
  }

  /** `Math.min` on two numbers. */
  function Min(a: real, b: real): (r: real)
    ensures r <= a && r <= b && (r == a || r == b)
  {
    if a <= b then a else b
  }

  /** `Math.abs`. */
  function Abs(a: real): (r: real)
    ensures r >= 0.0 && (r == a || r == -a)
  {
    if a >= 0.0 then a else -a
  }

  /** A product of two numbers, kept behind a name so that proofs treat it as one value. */
  function Times(x: real, y: real): real {
    x * y
  }

  function Pow10(n: nat): (r: nat)
    ensures r >= 1
  {
    if n == 0 then 1 else 10 * Pow10(n - 1)
  }

  predicate IsDigit(c: char) {
    '0' <= c <= '9'
  }

  predicate AllDigits(s: string) {
    forall i :: 0 <= i < |s| ==> IsDigit(s[i])
  }

  lemma Pow10Of18()
    ensures Pow10(18) == 1000000000000000000
  {
    assert Pow10(3) == 1000;
    assert Pow10(6) == 1000000;
    assert Pow10(9) == 1000000000;
    assert Pow10(12) == 1000000000000;
    assert Pow10(15) == 1000000000000000;
  }

  /** The value of a string of decimal digits (the empty string is 0). */
  function DigitsValue(s: string): nat
    requires AllDigits(s)
  {
    if s == [] then 0 else DigitsValue(s[..|s| - 1]) * 10 + (s[|s| - 1] as int - '0' as int)
  }

  /** `m` times ten to the power `k`. */
  function Scale10(m: real, k: int): real {
    if k >= 0 then m * (Pow10(k) as real) else m / (Pow10(-k) as real)
  }

  /** An exponent after `e`/`E`: an optional sign and at least one digit. */
  function ExponentOf(s: string): Option<int> {
    if s == [] then None
    else if s[0] == '-' || s[0] == '+' then
      var d := s[1..];
      if d != [] && AllDigits(d) then Some(if s[0] == '-' then -(DigitsValue(d) as int) else DigitsValue(d))
      else None
    else if AllDigits(s) then Some(DigitsValue(s))
    else None
  }

  /**
   * An unsigned decimal literal: digits, an optional `.` and fraction digits (at least one digit in
   * all), then an optional exponent.
   */
  function UnsignedDecimal(s: string): Option<real> {
    var e := if IndexOf(s, 'e') < IndexOf(s, 'E') then IndexOf(s, 'e') else IndexOf(s, 'E');
    var mantissa := s[..e];
    var dot := IndexOf(mantissa, '.');
    var whole := mantissa[..dot];
    var fraction := if dot < |mantissa| then mantissa[dot + 1..] else "";
    if !AllDigits(whole) || !AllDigits(fraction) || |whole| + |fraction| == 0 then None
    else
      var m := (DigitsValue(whole + fraction) as real) / (Pow10(|fraction|) as real);
      if e == |s| then Some(m)
      else
        match ExponentOf(s[e + 1..])
        case None => None
        case Some(k) => Some(Scale10(m, k))
  }

  /** `Number(s)` when finite: surrounding white space is ignored and the empty string is 0. */
  function NumberOf(s: string): Option<real> {
    var t := Trim(s);
    if t == "" then Some(0.0) else SignedDecimal(t)
  }

  /** A literal without surrounding white space: an optional sign, then an unsigned decimal. */
  function SignedDecimal(t: string): Option<real>
    requires t != ""
  {
    if t[0] == '-' then
      match UnsignedDecimal(t[1..])
      case None => None
      case Some(v) => Some(-v)
    else if t[0] == '+' then UnsignedDecimal(t[1..])
    else UnsignedDecimal(t)
  }

  /** A literal that starts with anything but a digit, a sign, a point or an exponent mark is not a number. */
  lemma NotANumberStart(s: string)
    requires s != [] && !IsSpace(s[0]) && !IsSpace(s[|s| - 1])
    requires !IsDigit(s[0]) && s[0] != '+' && s[0] != '-' && s[0] != '.' && s[0] != 'e' && s[0] != 'E'
    ensures NumberOf(s) == None
  {
    NumberOfUnpadded(s);
    var e := if IndexOf(s, 'e') < IndexOf(s, 'E') then IndexOf(s, 'e') else IndexOf(s, 'E');
    assert e > 0;
    var mantissa := s[..e];
    assert IndexOf(mantissa, '.') > 0;
    assert mantissa[..IndexOf(mantissa, '.')][0] == s[0];
  }

  lemma TrimUnpadded(s: string)
    requires s != [] && !IsSpace(s[0]) && !IsSpace(s[|s| - 1])
    ensures Trim(s) == s
  {
  }

  /** A literal that starts and ends with something other than white space is read as it stands. */
  lemma NumberOfUnpadded(s: string)
    requires s != [] && !IsSpace(s[0]) && !IsSpace(s[|s| - 1])
    ensures NumberOf(s) == SignedDecimal(s)
  {
    TrimUnpadded(s);
  }

  lemma UnsignedDigits(s: string)
    requires s != [] && AllDigits(s)
    ensures UnsignedDecimal(s) == Some(DigitsValue(s) as real)
  {
    assert 'e' !in s && 'E' !in s && '.' !in s;
    assert s[..|s|] == s;
    assert s + "" == s;
  }

  /** A digit string always denotes its own value. */
  lemma DigitsNumber(s: string)
    requires s != [] && AllDigits(s)
    ensures NumberOf(s) == Some(DigitsValue(s) as real)
  {
    NumberOfUnpadded(s);
    UnsignedDigits(s);
  }

  lemma UnsignedFraction(w: string, f: string)
    requires AllDigits(w) && AllDigits(f) && |w| + |f| > 0
    ensures UnsignedDecimal(w + "." + f) == Some((DigitsValue(w + f) as real) / (Pow10(|f|) as real))
  {
    var s := w + "." + f;
    assert forall i :: 0 <= i < |s| ==> s[i] == '.' || IsDigit(s[i]);
    assert IndexOf(s, 'e') == |s| && IndexOf(s, 'E') == |s|;
    var mantissa := s[..|s|];
    assert mantissa == s;
    assert s[|w|] == '.';
    assert forall i :: 0 <= i < |w| ==> s[i] == w[i] && s[i] != '.';
    assert IndexOf(s, '.') == |w|;
    assert s[..|w|] == w && s[|w| + 1..] == f;
  }

  /** Digits, a point and fraction digits denote the digits read as one number over a power of ten. */
  lemma DecimalNumber(w: string, f: string)
    requires AllDigits(w) && AllDigits(f) && |w| + |f| > 0
    ensures NumberOf(w + "." + f) == Some((DigitsValue(w + f) as real) / (Pow10(|f|) as real))
  {
    var s := w + "." + f;
    assert s[0] == '.' || IsDigit(s[0]);
    assert s[|s| - 1] == '.' || IsDigit(s[|s| - 1]);
    NumberOfUnpadded(s);
    UnsignedFraction(w, f);
  }

  /** Integers written out in decimal, as JavaScript's template literals print them. */
  function NatToString(n: nat): (r: string)
    ensures r != [] && AllDigits(r)
    decreases n
  {
    (if n < 10 then "" else NatToString(n / 10)) + [('0' as int + n % 10) as char]
  }

  function IntToString(n: int): string {
    if n < 0 then "-" + NatToString(-n) else NatToString(n)
  }

  lemma {:induction false} NatToStringValue(n: nat)
    ensures DigitsValue(NatToString(n)) == n
    decreases n
  {
    var r := NatToString(n);
    assert r[..|r| - 1] == (if n < 10 then "" else NatToString(n / 10));
    if n >= 10 {
      NatToStringValue(n / 10);
    }
  }

  /** A printed integer starts with a minus sign exactly when it is negative. */
  lemma IntToStringSign(n: int)
    ensures IntToString(n) != [] && (IntToString(n)[0] == '-' <==> n < 0)
  {
    if n >= 0 {
      assert IsDigit(NatToString(n)[0]);
    }
  }

  lemma NatToStringInjective(a: nat, b: nat)
    requires NatToString(a) == NatToString(b)
    ensures a == b
  {
    NatToStringValue(a);
    NatToStringValue(b);
  }

  lemma NegativeDigitsAfterSign(n: int)
    requires n < 0
    ensures IntToString(n)[1..] == NatToString(-n)
  {
    assert IntToString(n) == "-" + NatToString(-n);
  }

  /** Different integers print differently. */
  lemma IntToStringInjective(a: int, b: int)
    requires IntToString(a) == IntToString(b)
    ensures a == b
  {
    IntToStringSign(a);
    IntToStringSign(b);
    if a < 0 {
      NegativeDigitsAfterSign(a);
      NegativeDigitsAfterSign(b);
      NatToStringInjective(-a, -b);
    } else {
      NatToStringInjective(a, b);
    }
  }
}
