/** Numbers as text.  `%.*e` (C) and `{:.Ne}` (Python) write a real in scientific notation
    with a fixed number of digits after the point; strtod-style scanning (C's %lf) and Python's
    float() read decimal text back.  Reals stand for doubles: the rendering below rounds the
    exact value half-to-even, as glibc and CPython do for the exact value of a double. */
module Numerals {
  import opened Common
  import opened Text

  /** 10 to an integer power, exactly. */
  function Pow10Real(e: int): (r: real)
    ensures r > 0.0
  {
    if e >= 0 then Pow10(e) as real else 1.0 / (Pow10(-e) as real)
  }

  lemma {:induction false} Pow10RealStep(e: int)
    ensures Pow10Real(e + 1) == 10.0 * Pow10Real(e)
  {
    if e < 0 {
      var d := Pow10(-e - 1) as real;
      assert Pow10(-e) as real == 10.0 * d;
      if e == -1 {
        assert Pow10Real(e + 1) == 1.0;
        assert Pow10Real(e) == 1.0 / 10.0;
      } else {
        assert Pow10Real(e + 1) == 1.0 / d;
        assert Pow10Real(e) == 1.0 / (10.0 * d);
      }
    }
  }

  lemma {:induction false} Pow10RealInverse(k: int)
    ensures Pow10Real(k) * Pow10Real(-k) == 1.0
  {
    var d := if k >= 0 then Pow10(k) as real else Pow10(-k) as real;
    assert d * (1.0 / d) == 1.0;
  }

  /** m times 10^e. */
  function Scale(m: nat, e: int): real {
    m as real * Pow10Real(e)
  }

  lemma {:induction false} ScaleZero(m: nat)
    ensures Scale(m, 0) == m as real
  {
    assert Pow10Real(0) == 1.0;
  }

  function Signed(negative: bool, m: real): real {
    if negative then -m else m
  }

  /** Every character a rendered number can contain. */
  predicate IsNumeralChar(c: char) {
    IsDigit(c) || c == '-' || c == '+' || c == '.' || c == 'e'
  }

  /** A non-empty run of numeral characters: no whitespace of either language, no NUL. */
  predicate IsNumeral(s: string) {
    s != [] && forall k :: 0 <= k < |s| ==> IsNumeralChar(s[k])
  }

  lemma {:induction false} NumeralHasNoSpace(s: string)
    requires IsNumeral(s)
    ensures forall k :: 0 <= k < |s| ==> !IsPySpace(s[k]) && !IsSpace(s[k]) && s[k] != '\0' && s[k] != ' '
  {
  }

  /** A decimal number read from text: a sign, its digits, and the power of ten of the last one. */
  datatype Decimal = Decimal(negative: bool, digits: string, scale: int)

  predicate ValidDecimal(d: Decimal) {
    AllDigits(d.digits)
  }

  /** The exact value of d: its digits as an integer, times 10^scale, with its sign. */
  function DecimalValue(d: Decimal): real {
    Signed(d.negative, Scale(DigitsValue(d.digits), d.scale))
  }

  /** A number as %e writes it: a sign, the significant digits d0 d1 ... dp (d0 before the point)
      and the decimal exponent. */
  datatype Sci = Sci(negative: bool, digits: string, exponent: int)

  predicate ValidSci(x: Sci) {
    |x.digits| >= 1 && AllDigits(x.digits)
  }

  /** The exact value the text of x denotes: d0.d1...dp times 10^exponent. */
  function SciValue(x: Sci): real {
    DecimalValue(SciDecimal(x))
  }

  /** The decimal x's text denotes: its last digit stands for 10^(exponent - p). */
  function SciDecimal(x: Sci): Decimal {
    Decimal(x.negative, x.digits, x.exponent - (|x.digits| - 1))
  }

  /** The magnitude of an exponent, in at least two digits. */
  function ExponentDigits(m: nat): (s: string)
    ensures |s| >= 2 && AllDigits(s) && DigitsValue(s) == m
  {
    NatToStringValue(m);
    if m < 10 then
      LeadingZeroValue(NatToString(m));
      "0" + NatToString(m)
    else NatToString(m)
  }

  /** The exponent field of %e: 'e', a sign, and at least two digits. */
  function ExponentText(e: int): (s: string)
    ensures |s| >= 4 && s[0] == 'e'
  {
    "e" + (if e < 0 then "-" else "+") + ExponentDigits(if e < 0 then -e else e)
  }

  /** The text of x: "-" if negative, d0, then "." and d1...dp when p > 0, then the exponent. */
  function RenderSci(x: Sci): (s: string)
    requires ValidSci(x)
    ensures |s| > 0 && (s[0] == '-' <==> x.negative)
  {
    SignText(x.negative) + (x.digits[..1] + FracText(x.digits[1..]) + ExponentText(x.exponent))
  }

  function SignText(negative: bool): string {
    if negative then "-" else ""
  }

  function FracText(frac: string): string {
    if frac == [] then "" else "." + frac
  }

  lemma {:induction false} ExponentTextIsNumeral(e: int)
    ensures IsNumeral(ExponentText(e))
  {
  }

  /** Rendered numbers are single tokens: no whitespace and no NUL. */
  lemma {:induction false} RenderSciIsNumeral(x: Sci)
    requires ValidSci(x)
    ensures IsNumeral(RenderSci(x))
  {
    ExponentTextIsNumeral(x.exponent);
    var sign := if x.negative then "-" else "";
    var point := if |x.digits| > 1 then "." + x.digits[1..] else "";
    assert IsNumeral(sign + x.digits[..1] + point);
  }

  /** The exponent of the leading digit: 10^e <= a < 10^(e+1). */
  function Exp10(a: real): (e: int)
    requires a > 0.0
    ensures Pow10Real(e) <= a < Pow10Real(e + 1)
    decreases if a < 1.0 then (1.0 / a).Floor else 0
  {
    if a >= 1.0 then
      var n: nat := a.Floor;
      var k := NumDigits(n);
      Exp10Whole(a, n, k);
      k - 1
    else
      var q := 1.0 / a;
      assert q > 1.0;
      assert 1.0 / (a * 10.0) == q / 10.0;
      FloorTenthDecreases(q);
      var e' := Exp10(a * 10.0);
      var e := e' - 1;
      Exp10Tenth(a, e, e');
      e
  }

  /** For a >= 1 the exponent is one less than the number of digits of its integer part. */
  lemma {:induction false} Exp10Whole(a: real, n: nat, k: nat)
    requires a >= 1.0 && n == a.Floor && k == NumDigits(n)
    ensures k >= 1 && Pow10Real(k - 1) <= a < Pow10Real(k)
  {
    NumDigitsBounds(n);
    assert (n + 1) as real <= Pow10(k) as real;
  }

  /** Dividing by ten lowers the exponent by one. */
  lemma {:induction false} Exp10Tenth(a: real, e: int, e': int)
    requires e' == e + 1
    requires Pow10Real(e') <= a * 10.0 < Pow10Real(e' + 1)
    ensures Pow10Real(e) <= a < Pow10Real(e + 1)
  {
    Pow10RealStep(e);
    Pow10RealStep(e');
  }

  function NumDigits(n: nat): (k: nat)
    ensures k >= 1
    decreases n
  {
    if n < 10 then 1 else 1 + NumDigits(n / 10)
  }

  lemma {:induction false} NumDigitsBounds(n: nat)
    ensures n < Pow10(NumDigits(n))
    ensures n >= 1 ==> Pow10(NumDigits(n) - 1) <= n
    decreases n
  {
    if n >= 10 {
      NumDigitsBounds(n / 10);
    }
  }

  lemma {:induction false} FloorTenthDecreases(q: real)
    requires q >= 1.0
    ensures 0 <= (q / 10.0).Floor < q.Floor
  {
    var f := (q / 10.0).Floor;
    assert f as real <= q / 10.0;
    assert f as real * 10.0 <= q;
    assert q.Floor >= 1;
  }

  /** Rounding to the nearest integer, ties to even (the IEEE default rounding mode). */
  function RoundHalfEven(t: real): (m: int)
    ensures t - 0.5 <= m as real <= t + 0.5
  {
    var f := t.Floor;
    var r := t - f as real;
    if r < 0.5 then f else if r > 0.5 then f + 1 else if f % 2 == 0 then f else f + 1
  }

  /** The n lowest decimal digits of m, zero-padded. */
  function PadDigits(m: nat, n: nat): (s: string)
    ensures |s| == n && AllDigits(s)
    decreases n
  {
    if n == 0 then "" else PadDigits(m / 10, n - 1) + [DigitChar(m % 10)]
  }

  lemma {:induction false} PadDigitsValue(m: nat, n: nat)
    requires m < Pow10(n)
    ensures DigitsValue(PadDigits(m, n)) == m
    decreases n
  {
    if n > 0 {
      var s := PadDigits(m, n);
      assert s[..|s| - 1] == PadDigits(m / 10, n - 1);
      PadDigitsValue(m / 10, n - 1);
    }
  }

  /** a scaled so that it has p + 1 digits before the point. */
  function Scaled(p: nat, a: real, e: int): (t: real)
    requires a > 0.0
    ensures t > 0.0
  {
    var q := Pow10Real(p - e);
    assert a * q > 0.0;
    a * q
  }

  /** v rendered by %.pe, as sign, p + 1 digits and exponent. */
  function ToSci(p: nat, v: real): (x: Sci)
    ensures ValidSci(x) && |x.digits| == p + 1
    ensures x.negative <==> v < 0.0
  {
    if v == 0.0 then Sci(false, PadDigits(0, p + 1), 0)
    else
      var a := if v < 0.0 then -v else v;
      var e := Exp10(a);
      var m := RoundHalfEven(Scaled(p, a, e));
      if m >= Pow10(p + 1) then Sci(v < 0.0, PadDigits(m / 10, p + 1), e + 1)
      else Sci(v < 0.0, PadDigits(m, p + 1), e)
  }

  function Magnitude(r: real): real {
    if r < 0.0 then -r else r
  }

  /** What %.pe writes for v is v to p + 1 significant digits: for v != 0 its leading digit is
      not 0, the written value has v's decimal exponent (one more when rounding carries into a
      new digit), and it lies within half a unit of its last digit of v; 0 is written as 0. */
  lemma {:induction false} ToSciValue(p: nat, v: real)
    ensures v == 0.0 ==> SciValue(ToSci(p, v)) == 0.0
    ensures v != 0.0 ==>
              var x := ToSci(p, v);
              x.digits[0] != '0' &&
              Pow10Real(x.exponent) <= Magnitude(SciValue(x)) < Pow10Real(x.exponent + 1) &&
              Magnitude(SciValue(x) - v) <= Pow10Real(x.exponent - p) / 2.0
  {
    var x := ToSci(p, v);
    if v == 0.0 {
      PadDigitsValue(0, p + 1);
      assert SciValue(x) == Signed(false, 0.0 * Pow10Real(x.exponent - p));
    } else {
      var a := if v < 0.0 then -v else v;
      var e := Exp10(a);
      var m := RoundHalfEven(Scaled(p, a, e));
      var n: nat := if m >= Pow10(p + 1) then m / 10 else m;
      var k := if m >= Pow10(p + 1) then e + 1 else e;
      assert x == Sci(v < 0.0, PadDigits(n, p + 1), k);
      RoundedDigits(p, v, a, e, m, n, k, x);
    }
  }

  /** The non-zero case of ToSciValue, with ToSci's intermediate values named. */
  lemma {:induction false} RoundedDigits(p: nat, v: real, a: real, e: int, m: int, n: nat, k: int, x: Sci)
    requires v != 0.0 && a == (if v < 0.0 then -v else v)
    requires a > 0.0 && Pow10Real(e) <= a < Pow10Real(e + 1) && m == RoundHalfEven(Scaled(p, a, e))
    requires n == (if m >= Pow10(p + 1) then m / 10 else m)
    requires k == (if m >= Pow10(p + 1) then e + 1 else e)
    requires x == Sci(v < 0.0, PadDigits(n, p + 1), k)
    ensures x.digits[0] != '0'
    ensures Pow10Real(x.exponent) <= Magnitude(SciValue(x)) < Pow10Real(x.exponent + 1)
    ensures Magnitude(SciValue(x) - v) <= Pow10Real(x.exponent - p) / 2.0
  {
    var t := Scaled(p, a, e);
    var q := Pow10Real(e - p);
    ScaledBounds(p, a, e, t, q);
    RoundedRange(p, t, m);
    var s := Scale(n, k - p);
    if m >= Pow10(p + 1) {
      CarryValue(p, e, m, n, q, s);
    } else {
      ScaleMul(m, e - p, q);
    }
    PadDigitsLeading(n, p + 1);
    PaddedValue(v < 0.0, p, n, k, s);
    DigitsSpan(p, k, n, s);
    RoundingError(m, t, a, q);
    var b := Pow10Real(k - p);
    assert q <= b by {
      if k == e + 1 {
        Pow10RealNext(e - p, k - p);
      }
    }
    SignedError(v < 0.0, s, a, v);
    ErrorBound(SciValue(x), Signed(v < 0.0, s), v, s, a, b, q);
  }

  /** The digits of n, padded to p + 1, at exponent k, are worth n 10^(k - p). */
  lemma {:induction false} PaddedValue(negative: bool, p: nat, n: nat, k: int, s: real)
    requires n < Pow10(p + 1) && s == Scale(n, k - p)
    ensures SciValue(Sci(negative, PadDigits(n, p + 1), k)) == Signed(negative, s)
  {
    var ds := PadDigits(n, p + 1);
    PadDigitsValue(n, p + 1);
    assert SciDecimal(Sci(negative, ds, k)) == Decimal(negative, ds, k - p);
  }

  lemma {:induction false} ErrorBound(w: real, w': real, v: real, s: real, a: real, b: real, q: real)
    requires w == w' && Magnitude(w' - v) == Magnitude(s - a) && Magnitude(s - a) <= q / 2.0 && q <= b
    ensures Magnitude(w - v) <= b / 2.0
  {
  }

  /** a * b.  Products of powers are written through Mul so that the solver relates them by
      congruence instead of searching nonlinear arithmetic. */
  function Mul(a: real, b: real): real {
    a * b
  }

  lemma {:induction false} ScaleMul(m: nat, e: int, q: real)
    requires q == Pow10Real(e)
    ensures Scale(m, e) == Mul(m as real, q)
  {
  }

  /** Multiplying both sides by a positive factor keeps an inequality. */
  lemma {:induction false} MulLe(x: real, y: real, c: real)
    requires c > 0.0 && x <= y
    ensures Mul(x, c) <= Mul(y, c)
  {
  }

  lemma {:induction false} MulLt(x: real, y: real, c: real)
    requires c > 0.0 && x < y
    ensures Mul(x, c) < Mul(y, c)
  {
  }

  /** a b = c gives a (10 b) = 10 c, in both directions. */
  lemma {:induction false} MulTen(a: real, b: real, c: real, b': real, c': real)
    requires b' == 10.0 * b && c' == 10.0 * c
    ensures Mul(a, b) == c <==> Mul(a, b') == c'
  {
  }

  lemma {:induction false} MulTenLeft(a: real, a': real, b: real)
    requires a' == 10.0 * a
    ensures Mul(a', b) == 10.0 * Mul(a, b)
  {
  }

  lemma {:induction false} MulAssoc(a: real, b: real, c: real)
    ensures Mul(Mul(a, b), c) == Mul(a, Mul(b, c))
  {
  }

  lemma {:induction false} MulDiff(x: real, y: real, c: real)
    ensures Mul(x, c) - Mul(y, c) == Mul(x - y, c)
    ensures Mul(-x, c) == -Mul(x, c)
  {
  }

  /** Pow10RealStep with the successor exponent named. */
  lemma {:induction false} Pow10RealNext(e: int, f: int)
    requires f == e + 1
    ensures Pow10Real(f) == 10.0 * Pow10Real(e)
  {
    Pow10RealStep(e);
  }

  /** 10^i 10^j = 10^k for k = i + j. */
  lemma {:induction false} Pow10RealAdd(i: int, j: int, k: int)
    requires k == i + j
    ensures Mul(Pow10Real(i), Pow10Real(j)) == Pow10Real(k)
    decreases if j >= 0 then j else -j
  {
    if j > 0 {
      Pow10RealAdd(i, j - 1, k - 1);
      Pow10RealNext(j - 1, j);
      Pow10RealNext(k - 1, k);
      MulTen(Pow10Real(i), Pow10Real(j - 1), Pow10Real(k - 1), Pow10Real(j), Pow10Real(k));
    } else if j < 0 {
      Pow10RealAdd(i, j + 1, k + 1);
      Pow10RealNext(j, j + 1);
      Pow10RealNext(k, k + 1);
      MulTen(Pow10Real(i), Pow10Real(j), Pow10Real(k), Pow10Real(j + 1), Pow10Real(k + 1));
    } else {
      assert Pow10Real(0) == 1.0;
    }
  }

  /** The scaled value lies in [10^p, 10^(p+1)), and scaling back gives a. */
  lemma {:induction false} ScaledBounds(p: nat, a: real, e: int, t: real, q: real)
    requires a > 0.0 && Pow10Real(e) <= a < Pow10Real(e + 1)
    requires t == Scaled(p, a, e) && q == Pow10Real(e - p)
    ensures Pow10Real(p) <= t < Pow10Real(p + 1) && Mul(t, q) == a
  {
    var r := Pow10Real(p - e);
    assert t == Mul(a, r);
    assert Pow10Real(p) <= t by {
      Pow10RealAdd(e, p - e, p);
      MulLe(Pow10Real(e), a, r);
    }
    assert t < Pow10Real(p + 1) by {
      Pow10RealAdd(e + 1, p - e, p + 1);
      MulLt(a, Pow10Real(e + 1), r);
    }
    assert Mul(r, q) == 1.0 by {
      Pow10RealAdd(p - e, e - p, 0);
      assert Pow10Real(0) == 1.0;
    }
    MulAssoc(a, r, q);
    assert Mul(a, 1.0) == a;
  }

  /** Rounding a value of [10^p, 10^(p+1)) stays in [10^p, 10^(p+1)]. */
  lemma {:induction false} RoundedRange(p: nat, t: real, m: int)
    requires Pow10Real(p) <= t < Pow10Real(p + 1) && m == RoundHalfEven(t)
    ensures Pow10(p) <= m <= Pow10(p + 1)
  {
    assert Pow10Real(p) == Pow10(p) as real;
    assert Pow10Real(p + 1) == Pow10(p + 1) as real;
  }

  /** The leading digit of n written in exactly as many digits as it has is not 0. */
  lemma {:induction false} PadDigitsLeading(n: nat, w: nat)
    requires w >= 1 && Pow10(w - 1) <= n < Pow10(w)
    ensures PadDigits(n, w)[0] != '0'
    decreases w
  {
    if w == 1 {
      assert PadDigits(n, 1) == PadDigits(n / 10, 0) + [DigitChar(n % 10)];
    } else {
      PadDigitsLeading(n / 10, w - 1);
      assert PadDigits(n, w) == PadDigits(n / 10, w - 1) + [DigitChar(n % 10)];
    }
  }

  /** When rounding carries, the digits 1 0...0 at exponent e + 1 are worth the rounded m at e. */
  lemma {:induction false} CarryValue(p: nat, e: int, m: int, n: nat, q: real, s: real)
    requires m == Pow10(p + 1) && n == m / 10 && q == Pow10Real(e - p) && s == Scale(n, e + 1 - p)
    ensures n == Pow10(p) && s == Mul(m as real, q)
  {
    var b := n as real;
    Pow10RealNext(e - p, e + 1 - p);
    assert s == Mul(b, Pow10Real(e + 1 - p));
    MulTen(b, q, Mul(b, q), Pow10Real(e + 1 - p), 10.0 * Mul(b, q));
    MulTenLeft(b, m as real, q);
  }

  /** n of p + 1 digits at exponent k lies in [10^k, 10^(k+1)). */
  lemma {:induction false} DigitsSpan(p: nat, k: int, n: nat, s: real)
    requires Pow10(p) <= n < Pow10(p + 1) && s == Scale(n, k - p)
    ensures Pow10Real(k) <= s < Pow10Real(k + 1)
  {
    var q := Pow10Real(k - p);
    assert s == Mul(n as real, q);
    Pow10RealAdd(p, k - p, k);
    Pow10RealAdd(p + 1, k - p, k + 1);
    assert Pow10Real(p) == Pow10(p) as real;
    assert Pow10Real(p + 1) == Pow10(p + 1) as real;
    MulLe(Pow10Real(p), n as real, q);
    MulLt(n as real, Pow10Real(p + 1), q);
  }

  /** Rounding t to m moves t q by at most half of q. */
  lemma {:induction false} RoundingError(m: int, t: real, a: real, q: real)
    requires t - 0.5 <= m as real <= t + 0.5 && q > 0.0 && Mul(t, q) == a
    ensures Magnitude(Mul(m as real, q) - a) <= q / 2.0
  {
    var d := m as real - t;
    MulDiff(m as real, t, q);
    MulDiff(d, 0.0, q);
    assert Mul(0.5, q) == q / 2.0;
    if d >= 0.0 {
      MulLe(d, 0.5, q);
    } else {
      MulLe(-d, 0.5, q);
    }
  }

  lemma {:induction false} SignedError(negative: bool, s: real, a: real, v: real)
    requires s >= 0.0 && v == Signed(negative, a)
    ensures Magnitude(Signed(negative, s)) == s
    ensures Magnitude(Signed(negative, s) - v) == Magnitude(s - a)
  {
  }

  /** The text `%.*e` (C) and `{:.pe}` (Python) produce for v at precision p. */
  function FormatE(p: nat, v: real): (s: string)
    ensures IsNumeral(s)
  {
    RenderSciIsNumeral(ToSci(p, v));
    RenderSci(ToSci(p, v))
  }

  /** What may follow a number without extending it when it is scanned. */
  predicate EndsNumber(rest: string) {
    rest == [] || IsSpace(rest[0])
  }

  /** strtod's reading of a decimal number at the very start of s: an optional sign, digits with
      an optional '.', and an exponent that is taken only when it has digits.  None when there is
      no digit before or after the point.  Gives the value and the unread rest. */
  function ScanDecimal(s: string): (r: Option<(Decimal, string)>)
    ensures r.Some? ==> |r.value.1| < |s|
  {
    var (neg, t) := ScanSign(s);
    match ScanMantissa(t)
    case None => None
    case Some((ds, j, v)) =>
      var (e, w) := ScanExponent(v);
      Some((Decimal(neg, ds, e - j), w))
  }

  /** An optional '+' or '-'. */
  function ScanSign(s: string): (r: (bool, string))
    ensures |r.1| <= |s|
  {
    if s != [] && (s[0] == '-' || s[0] == '+') then (s[0] == '-', s[1..]) else (false, s)
  }

  /** Digits, optionally a '.' and more digits, at least one digit in all: the digits read, how
      many of them follow the point, and the rest. */
  function ScanMantissa(t: string): (r: Option<(string, nat, string)>)
    ensures r.Some? ==> |r.value.2| < |t|
  {
    var i := DigitRun(t);
    var u := t[i..];
    if u != [] && u[0] == '.' then
      var j := DigitRun(u[1..]);
      if i + j == 0 then None
      else Some((t[..i] + u[1..][..j], j, u[1..][j..]))
    else if i == 0 then None
    else Some((t[..i], 0, u))
  }

  /** The exponent part: 'e' or 'E', an optional sign and at least one digit; otherwise nothing
      is read and the exponent is 0. */
  function ScanExponent(v: string): (r: (int, string))
    ensures |r.1| <= |v|
  {
    if v != [] && (v[0] == 'e' || v[0] == 'E') then
      var (eneg, y) := ScanSign(v[1..]);
      var j := DigitRun(y);
      if j == 0 then (0, v)
      else
        var m: int := DigitsValue(y[..j]);
        (if eneg then -m else m, y[j..])
    else (0, v)
  }

  lemma {:induction false} ScanSignOf(s: string, negative: bool, t: string)
    requires t != [] && IsDigit(t[0])
    requires s == SignText(negative) + t
    ensures ScanSign(s) == (negative, t)
  {
    if negative {
      assert s[1..] == t;
    } else {
      assert s == t;
    }
  }

  lemma {:induction false} ScanMantissaOf(t: string, d0: string, frac: string, tail: string, ds: string)
    requires |d0| == 1 && AllDigits(d0) && AllDigits(frac)
    requires tail != [] && tail[0] == 'e'
    requires t == d0 + FracText(frac) + tail
    requires ds == d0 + frac
    ensures ScanMantissa(t) == Some((ds, |frac|, tail))
  {
    var pointPart := FracText(frac);
    var after := pointPart + tail;
    assert t == d0 + after;
    DigitRunOfDigitsThen(d0, after);
    assert t[..1] == d0;
    var u := t[1..];
    assert u == after;
    if frac != [] {
      var v := u[1..];
      assert v == frac + tail;
      DigitRunOfDigitsThen(frac, tail);
      assert v[..|frac|] == frac;
      assert v[|frac|..] == tail;
    } else {
      assert d0 + frac == d0;
    }
  }

  lemma {:induction false} ScanExponentText(v: string, e: int, rest: string)
    requires rest == [] || !IsDigit(rest[0])
    requires v == ExponentText(e) + rest
    ensures ScanExponent(v) == (e, rest)
  {
    var m := if e < 0 then -e else e;
    var ds := ExponentDigits(m);
    assert v[1..] == (if e < 0 then "-" else "+") + (ds + rest);
    var y := ds + rest;
    assert ScanSign(v[1..]) == (e < 0, y);
    DigitRunOfDigitsThen(ds, rest);
    assert y[..|ds|] == ds;
    assert y[|ds|..] == rest;
  }

  /** ScanDecimal put together from its three parts. */
  lemma {:induction false} ScanDecimalOf(s: string, negative: bool, t: string, ds: string, j: nat, tail: string, e: int, rest: string, scale: int)
    requires ScanSign(s) == (negative, t)
    requires ScanMantissa(t) == Some((ds, j, tail))
    requires ScanExponent(tail) == (e, rest)
    requires scale == e - j
    ensures ScanDecimal(s) == Some((Decimal(negative, ds, scale), rest))
  {
  }

  lemma {:induction false} Regroup(s: string, a: string, b: string, c: string, d: string, r: string)
    requires s == a + (b + c + d) + r
    ensures s == a + (b + c + (d + r))
  {
  }

  lemma {:induction false} HeadTail(s: string)
    requires s != []
    ensures s[..1] + s[1..] == s
  {
  }

  /** Reading a sign, the digits ds with a point after the first, and an exponent field,
      followed by rest. */
  lemma {:induction false} ScanParts(s: string, negative: bool, ds: string, e: int, rest: string, scale: int)
    requires |ds| >= 1 && AllDigits(ds)
    requires rest == [] || !IsDigit(rest[0])
    requires s == SignText(negative) + (ds[..1] + FracText(ds[1..]) + ExponentText(e)) + rest
    requires scale == e - (|ds| - 1)
    ensures ScanDecimal(s) == Some((Decimal(negative, ds, scale), rest))
  {
    var d0, frac := ds[..1], ds[1..];
    var sign, point, exp := SignText(negative), FracText(frac), ExponentText(e);
    var tail := exp + rest;
    var t := d0 + point + tail;
    Regroup(s, sign, d0, point, exp, rest);
    ScanSignOf(s, negative, t);
    HeadTail(ds);
    ScanMantissaOf(t, d0, frac, tail, ds);
    ScanExponentText(tail, e, rest);
    var j := |frac|;
    ScanDecimalOf(s, negative, t, ds, j, tail, e, rest, scale);
  }

  /** %lf and float() read back exactly the value of a rendered number. */
  lemma {:induction false} ScanRenderSci(x: Sci, rest: string)
    requires ValidSci(x)
    requires rest == [] || !IsDigit(rest[0])
    ensures ScanDecimal(RenderSci(x) + rest) == Some((SciDecimal(x), rest))
  {
    var s := RenderSci(x) + rest;
    ScanParts(s, x.negative, x.digits, x.exponent, rest, SciDecimal(x).scale);
  }

  /** %lf and float() read an integer token written by %d as that integer. */
  lemma {:induction false} ScanIntToString(n: int, rest: string)
    requires rest == [] || !(IsDigit(rest[0]) || rest[0] == '.' || rest[0] == 'e' || rest[0] == 'E')
    ensures ScanDecimal(IntToString(n) + rest) == Some((IntDecimal(n), rest))
    ensures DecimalValue(IntDecimal(n)) == n as real
  {
    var m: nat := if n < 0 then -n else n;
    var ds := NatToString(m);
    var t := ds + rest;
    var s := IntToString(n) + rest;
    ScanIntSign(n, m, ds, rest, t, s);
    ScanNatDigits(m, ds, rest);
    ScanDecimalOf(s, n < 0, t, ds, 0, rest, 0, rest, 0);
    IntDecimalValue(n, m);
  }

  lemma {:induction false} ScanIntSign(n: int, m: nat, ds: string, rest: string, t: string, s: string)
    requires m == (if n < 0 then -n else n) && ds == NatToString(m)
    requires t == ds + rest && s == IntToString(n) + rest
    ensures ScanSign(s) == (n < 0, t)
  {
    var sign := SignText(n < 0);
    if n < 0 {
      assert IntToString(n) == sign + ds;
    } else {
      assert IntToString(n) == sign + ds;
    }
    ConcatAssociates(sign, ds, rest);
    ScanSignOf(s, n < 0, t);
  }

  lemma {:induction false} ConcatAssociates(a: string, b: string, c: string)
    ensures (a + b) + c == a + (b + c)
  {
  }

  lemma {:induction false} ScanNatDigits(m: nat, ds: string, rest: string)
    requires ds == NatToString(m)
    requires rest == [] || !(IsDigit(rest[0]) || rest[0] == '.' || rest[0] == 'e' || rest[0] == 'E')
    ensures ScanMantissa(ds + rest) == Some((ds, 0, rest))
    ensures ScanExponent(rest) == (0, rest)
  {
    ScanMantissaDigits(ds, rest);
  }

  lemma {:induction false} IntDecimalValue(n: int, m: nat)
    requires m == (if n < 0 then -n else n)
    ensures DecimalValue(IntDecimal(n)) == n as real
  {
    NatToStringValue(m);
    ScaleZero(m);
  }

  /** The decimal an integer's %d text denotes. */
  function IntDecimal(n: int): (d: Decimal)
    ensures ValidDecimal(d)
  {
    Decimal(n < 0, NatToString(if n < 0 then -n else n), 0)
  }

  lemma {:induction false} ScanMantissaDigits(ds: string, rest: string)
    requires ds != [] && AllDigits(ds)
    requires rest == [] || !(IsDigit(rest[0]) || rest[0] == '.')
    ensures ScanMantissa(ds + rest) == Some((ds, 0, rest))
  {
    var t := ds + rest;
    DigitRunOfDigitsThen(ds, rest);
    assert t[..|ds|] == ds;
    assert t[|ds|..] == rest;
  }

  /** Python's float(s) for decimal text: surrounding whitespace, then a number that uses up
      everything.  (inf, nan and underscore separators are not accepted here.) */
  function PyFloat(s: string): (r: Option<real>)
    ensures r.Some? ==> Strip(s) != [] && ScanDecimal(Strip(s)).Some? && ScanDecimal(Strip(s)).value.1 == []
  {
    match ScanDecimal(Strip(s))
    case Some((d, rest)) => if rest == [] then Some(DecimalValue(d)) else None
    case None => None
  }

  lemma {:induction false} PyFloatRenderSci(x: Sci)
    requires ValidSci(x)
    ensures PyFloat(RenderSci(x)) == Some(SciValue(x))
  {
    var s := RenderSci(x);
    RenderSciIsNumeral(x);
    NumeralHasNoSpace(s);
    StripNoSpace(s);
    ScanRenderSci(x, "");
    assert s + "" == s;
  }

  lemma {:induction false} PyFloatIntToString(n: int)
    ensures PyFloat(IntToString(n)) == Some(n as real)
  {
    var s := IntToString(n);
    IntToStringChars(n);
    StripNoSpace(s);
    ScanIntToString(n, "");
    assert s + "" == s;
  }

  /** A number as the protocol writes it: the %d text of an integer or the %e text of a Sci. */
  datatype Number = IntNumber(i: int) | SciNumber(x: Sci)

  predicate ValidNumber(n: Number) {
    n.SciNumber? ==> ValidSci(n.x)
  }

  function NumberText(n: Number): string
    requires ValidNumber(n)
  {
    if n.IntNumber? then IntToString(n.i) else RenderSci(n.x)
  }

  /** A number's text is not empty and holds no white space. */
  lemma {:induction false} NumberTextPlain(n: Number)
    requires ValidNumber(n)
    ensures NumberText(n) != [] && forall k :: 0 <= k < |NumberText(n)| ==> !IsSpace(NumberText(n)[k])
  {
    if n.IntNumber? {
      IntToStringChars(n.i);
    } else {
      RenderSciIsNumeral(n.x);
      NumeralHasNoSpace(RenderSci(n.x));
    }
  }

  function NumberDecimal(n: Number): Decimal {
    if n.IntNumber? then IntDecimal(n.i) else SciDecimal(n.x)
  }

  function NumberValue(n: Number): real {
    if n.IntNumber? then n.i as real else SciValue(n.x)
  }

  /** strtod reads a number's text, up to white space or the end, as that number. */
  lemma {:induction false} ScanNumber(n: Number, rest: string)
    requires ValidNumber(n) && EndsNumber(rest)
    ensures ScanDecimal(NumberText(n) + rest) == Some((NumberDecimal(n), rest))
    ensures DecimalValue(NumberDecimal(n)) == NumberValue(n)
  {
    if n.IntNumber? {
      ScanIntToString(n.i, rest);
    } else {
      ScanRenderSci(n.x, rest);
    }
  }
}
