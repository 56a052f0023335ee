/** The conversions of C's sscanf (section 7.21.6.2 of ISO/IEC 9899:2011, with glibc's choices
    where the standard leaves the outcome open) that the socket programs rely on: white space,
    %s and %lu.  The %lf conversion is the decimal grammar of the Numerals module. */
module Scanf {
  import opened Common
  import opened Text
  import opened Numerals

  /** How a scan ends: every directive done, a character that does not match, or the end of
      the input reached by a directive that needs more. */
  datatype Stop = Completed | MatchingFailure | InputFailure

  /** A conversion either fails or stores a value and leaves the rest of the input. */
  datatype Conversion<T> = Failed(stop: Stop) | Converted(value: T, rest: string)

  const ULongModulus: nat := 0x1_0000_0000_0000_0000
  const ULongMax: nat := ULongModulus - 1

  /** The input left after a white-space directive. */
  function SkipBlank(s: string): (t: string)
    ensures |t| <= |s|
    ensures t == [] || !IsSpace(t[0])
    decreases |s|
  {
    if s != [] && IsSpace(s[0]) then SkipBlank(s[1..]) else s
  }

  /** Length of the run of non-white-space characters s starts with. */
  function NonBlankRun(s: string): (k: nat)
    ensures k <= |s|
    ensures s != [] && !IsSpace(s[0]) ==> k >= 1
    ensures k < |s| ==> IsSpace(s[k])
    decreases |s|
  {
    if s != [] && !IsSpace(s[0]) then 1 + NonBlankRun(s[1..]) else 0
  }

  /** The unsigned long strtoul stores for a magnitude m read with an optional minus sign:
      ULONG_MAX when m does not fit, the negation modulo 2^64 otherwise. */
  function ULongOf(negative: bool, m: nat): (n: nat)
    ensures n <= ULongMax
    ensures !negative && m <= ULongMax ==> n == m
    ensures negative && 0 < m <= ULongMax ==> n + m == ULongModulus
  {
    if m > ULongMax then ULongMax
    else if negative && m > 0 then ULongModulus - m
    else m
  }

  /** %lu after the white space is skipped: a sign and at least one digit. */
  function ScanULong(t: string): (r: Option<(nat, string)>)
    ensures r.Some? ==> r.value.0 <= ULongMax && |r.value.1| < |t|
  {
    var (negative, u) := ScanSign(t);
    var k := DigitRun(u);
    if k == 0 then None else Some((ULongOf(negative, DigitsValue(u[..k])), u[k..]))
  }

  /** %s: white space is skipped, then a non-empty run of other characters is stored. */
  function StrConversion(s: string): (c: Conversion<string>)
    ensures c.Failed? ==> c.stop == InputFailure
    ensures c.Converted? ==> c.value != [] && |c.rest| < |s| && (c.rest == [] || IsSpace(c.rest[0]))
  {
    var t := SkipBlank(s);
    if t == [] then Failed(InputFailure)
    else
      var n := NonBlankRun(t);
      Converted(t[..n], t[n..])
  }

  /** %lu: white space is skipped, then an optionally signed decimal integer is stored
      modulo 2^64. */
  function ULongConversion(s: string): (c: Conversion<nat>)
    ensures c.Failed? ==> c.stop != Completed
    ensures c.Converted? ==> c.value <= ULongMax && |c.rest| < |s|
  {
    var t := SkipBlank(s);
    if t == [] then Failed(InputFailure)
    else
      match ScanULong(t)
      case None => Failed(MatchingFailure)
      case Some((n, rest)) => Converted(n, rest)
  }

  lemma {:induction false} SkipBlankOf(w: string, t: string)
    requires forall j :: 0 <= j < |w| ==> IsSpace(w[j])
    requires t == [] || !IsSpace(t[0])
    ensures SkipBlank(w + t) == t
    decreases |w|
  {
    if w != [] {
      assert (w + t)[1..] == w[1..] + t;
      SkipBlankOf(w[1..], t);
    } else {
      assert w + t == t;
    }
  }

  lemma {:induction false} NonBlankRunOf(w: string, t: string)
    requires forall j :: 0 <= j < |w| ==> !IsSpace(w[j])
    requires t == [] || IsSpace(t[0])
    ensures NonBlankRun(w + t) == |w|
    decreases |w|
  {
    if w != [] {
      assert (w + t)[1..] == w[1..] + t;
      NonBlankRunOf(w[1..], t);
    } else {
      assert w + t == t;
    }
  }

  /** %s reads back a word w that ends at white space or at the end of the input. */
  lemma {:induction false} StrConversionOf(w: string, t: string)
    requires w != [] && forall j :: 0 <= j < |w| ==> !IsSpace(w[j])
    requires t == [] || IsSpace(t[0])
    ensures StrConversion(w + t) == Converted(w, t)
  {
    var s := w + t;
    SkipBlankOf("", s);
    assert "" + s == s;
    NonBlankRunOf(w, t);
    assert s[..|w|] == w;
    assert s[|w|..] == t;
  }

  /** %lu reads back the decimal text of a number that fits an unsigned long. */
  lemma {:induction false} ULongConversionOf(n: nat, t: string)
    requires n <= ULongMax
    requires t == [] || !IsDigit(t[0])
    ensures ULongConversion(NatToString(n) + t) == Converted(n, t)
  {
    var ds := NatToString(n);
    var s := ds + t;
    assert !IsSpace(s[0]);
    assert SkipBlank(s) == s;
    assert ScanSign(s) == (false, s);
    DigitRunOfDigitsThen(ds, t);
    assert s[..|ds|] == ds;
    assert s[|ds|..] == t;
    NatToStringValue(n);
  }
}
