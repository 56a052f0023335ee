/** Character classes, decimal digits and the handful of string operations the C and Python
    programs rely on: C's isspace and %d/%lu digits, Python's str.split, str.find, `in`,
    str.strip, str.lower, str.replace and int(). */
module Text {
  import opened Common

  /** isspace() in the "C" locale. */
  predicate IsSpace(c: char) {
    c == ' ' || c == '\t' || c == '\n' || c == '\r' || c == '\U{B}' || c == '\U{C}'
  }

  /** The ASCII characters Python's str.isspace() accepts (C's six plus the four separators). */
  predicate IsPySpace(c: char) {
    IsSpace(c) || c == '\U{1C}' || c == '\U{1D}' || c == '\U{1E}' || c == '\U{1F}'
  }

  predicate IsDigit(c: char) {
    '0' <= c <= '9'
  }

  /** The value of a decimal digit (0 for any other character). */
  function DigitValue(c: char): (d: nat)
    ensures d < 10
  {
    if IsDigit(c) then c as int - '0' as int else 0
  }

  function DigitChar(d: nat): (c: char)
    requires d < 10
    ensures IsDigit(c) && DigitValue(c) == d
  {
    ('0' as int + d) as char
  }

  predicate AllDigits(s: string) {
    forall k :: 0 <= k < |s| ==> IsDigit(s[k])
  }

  /** The number a string of decimal digits denotes (most significant digit first). */
  function DigitsValue(s: string): nat
    decreases |s|
  {
    if s == [] then 0 else DigitsValue(s[..|s| - 1]) * 10 + DigitValue(s[|s| - 1])
  }

  function Pow10(n: nat): (r: nat)
    ensures r >= 1
  {
    if n == 0 then 1 else 10 * Pow10(n - 1)
  }

  /** The shortest decimal rendering of n, as C's %lu and %d and Python's str() write it. */
  function NatToString(n: nat): (s: string)
    ensures |s| >= 1 && AllDigits(s)
    ensures n < 10 <==> |s| == 1
    decreases n
  {
    if n < 10 then [DigitChar(n)] else NatToString(n / 10) + [DigitChar(n % 10)]
  }

  lemma {:induction false} NatToStringValue(n: nat)
    ensures DigitsValue(NatToString(n)) == n
    decreases n
  {
    if n >= 10 {
      var s := NatToString(n);
      assert s[..|s| - 1] == NatToString(n / 10);
      NatToStringValue(n / 10);
    }
  }

  /** Leading zeros do not change the value of a digit string. */
  lemma {:induction false} LeadingZeroValue(s: string)
    requires AllDigits(s)
    ensures AllDigits("0" + s) && DigitsValue("0" + s) == DigitsValue(s)
    decreases |s|
  {
    if s != [] {
      var t := "0" + s;
      assert t[..|t| - 1] == "0" + s[..|s| - 1];
      LeadingZeroValue(s[..|s| - 1]);
    }
  }

  /** %d: an optional minus sign followed by the digits of the magnitude. */
  function IntToString(i: int): (s: string)
    ensures |s| >= 1
    ensures s[0] == '-' <==> i < 0
    ensures i >= 0 ==> s == NatToString(i)
    ensures i < 0 ==> s[1..] == NatToString(-i)
  {
    if i < 0 then "-" + NatToString(-i) else NatToString(i)
  }

  /** %d writes digits and at most a minus sign. */
  lemma {:induction false} IntToStringChars(i: int)
    ensures forall k :: 0 <= k < |IntToString(i)| ==> IsDigit(IntToString(i)[k]) || IntToString(i)[k] == '-'
  {
    var s := IntToString(i);
    if i < 0 {
      assert forall k :: 1 <= k < |s| ==> s[k] == NatToString(-i)[k - 1];
    }
  }

  /** Length of the run of digits s starts with. */
  function DigitRun(s: string): (k: nat)
    ensures k <= |s|
    decreases |s|
  {
    if s != [] && IsDigit(s[0]) then 1 + DigitRun(s[1..]) else 0
  }

  lemma {:induction false} DigitRunSpec(s: string)
    ensures AllDigits(s[..DigitRun(s)])
    ensures DigitRun(s) < |s| ==> !IsDigit(s[DigitRun(s)])
    decreases |s|
  {
    if s != [] && IsDigit(s[0]) {
      DigitRunSpec(s[1..]);
      var k := DigitRun(s);
      assert s[..k] == [s[0]] + s[1..][..k - 1];
    }
  }

  lemma {:induction false} DigitRunOfDigitsThen(d: string, rest: string)
    requires AllDigits(d)
    requires rest == [] || !IsDigit(rest[0])
    ensures DigitRun(d + rest) == |d|
    decreases |d|
  {
    if d != [] {
      assert (d + rest)[1..] == d[1..] + rest;
      DigitRunOfDigitsThen(d[1..], rest);
    }
  }

  /** Index of the first occurrence of c in s, or |s| when there is none. */
  function IndexOf(s: string, c: char): (k: nat)
    ensures k <= |s|
    ensures forall j :: 0 <= j < k ==> s[j] != c
    ensures k < |s| ==> s[k] == c
    decreases |s|
  {
    if s == [] then 0 else if s[0] == c then 0 else 1 + IndexOf(s[1..], c)
  }

  /** The C string a character buffer holds: everything before the first NUL.  Python's
      message.split('\x00', 1)[0] computes the same. */
  function CutAtNul(s: string): (r: string)
    ensures '\0' !in r
    ensures '\0' !in s ==> r == s
    ensures r <= s
  {
    s[..IndexOf(s, '\0')]
  }

  /** Python's s.split(sep) for a one-character separator: every part between separators,
      empty parts included. */
  function Split(s: string, sep: char): (parts: seq<string>)
    ensures |parts| >= 1
    ensures forall k :: 0 <= k < |parts| ==> sep !in parts[k]
    decreases |s|
  {
    var k := IndexOf(s, sep);
    if k == |s| then [s] else [s[..k]] + Split(s[k + 1..], sep)
  }

  /** The inverse of Split: the parts with one separator between neighbours (Python's sep.join). */
  function Join(parts: seq<string>, sep: char): string
    decreases |parts|
  {
    if parts == [] then "" else if |parts| == 1 then parts[0] else parts[0] + [sep] + Join(parts[1..], sep)
  }

  lemma {:induction false} JoinSplit(s: string, sep: char)
    ensures Join(Split(s, sep), sep) == s
    decreases |s|
  {
    var k := IndexOf(s, sep);
    if k < |s| {
      var head, tail := s[..k], s[k + 1..];
      var parts := Split(tail, sep);
      assert Split(s, sep) == [head] + parts;
      assert ([head] + parts)[1..] == parts;
      JoinSplit(tail, sep);
      assert Join(Split(s, sep), sep) == head + [sep] + tail;
      assert s == head + [sep] + tail;
    }
  }

  lemma {:induction false} SplitJoin(parts: seq<string>, sep: char)
    requires |parts| >= 1
    requires forall k :: 0 <= k < |parts| ==> sep !in parts[k]
    ensures Split(Join(parts, sep), sep) == parts
    decreases |parts|
  {
    if |parts| > 1 {
      var s := Join(parts, sep);
      var rest := Join(parts[1..], sep);
      assert s == parts[0] + [sep] + rest;
      SplitHead(parts[0], sep, rest);
      SplitJoin(parts[1..], sep);
    }
  }

  /** Splitting a part without the separator off the front of a string. */
  lemma {:induction false} SplitHead(t: string, sep: char, rest: string)
    requires sep !in t
    ensures Split(t + [sep] + rest, sep) == [t] + Split(rest, sep)
  {
    var s := t + [sep] + rest;
    assert s[|t|] == sep;
    assert forall j :: 0 <= j < |t| ==> s[j] == t[j];
    assert IndexOf(s, sep) == |t|;
    assert s[..|t|] == t;
    assert s[|t| + 1..] == rest;
  }

  /** Tokens each followed by exactly one space: the shape of every request and response. */
  function Spaced(ts: seq<string>): string
    decreases |ts|
  {
    if ts == [] then "" else ts[0] + " " + Spaced(ts[1..])
  }

  /** A spaced text of at least one token ends with a space. */
  lemma {:induction false} SpacedEndsWithSpace(ts: seq<string>)
    requires ts != []
    ensures |Spaced(ts)| > 0 && Spaced(ts)[|Spaced(ts)| - 1] == ' '
    decreases |ts|
  {
    if |ts| > 1 {
      SpacedEndsWithSpace(ts[1..]);
    }
  }

  lemma {:induction false} SpacedAppend(ts: seq<string>, us: seq<string>)
    ensures Spaced(ts + us) == Spaced(ts) + Spaced(us)
    decreases |ts|
  {
    if ts != [] {
      assert (ts + us)[0] == ts[0];
      assert (ts + us)[1..] == ts[1..] + us;
      SpacedAppend(ts[1..], us);
      calc {
        Spaced(ts + us);
        ts[0] + " " + Spaced(ts[1..] + us);
        ts[0] + " " + (Spaced(ts[1..]) + Spaced(us));
        (ts[0] + " " + Spaced(ts[1..])) + Spaced(us);
      }
    } else {
      assert ts + us == us;
    }
  }

  /** Splitting a spaced text at ' ' gives back its tokens and one empty part after the last space. */
  lemma {:induction false} SplitSpaced(ts: seq<string>)
    requires forall k :: 0 <= k < |ts| ==> ' ' !in ts[k]
    ensures Split(Spaced(ts), ' ') == ts + [""]
  {
    var parts := ts + [""];
    SpacedIsJoin(ts);
    SplitJoin(parts, ' ');
  }

  /** A spaced text is its tokens joined by spaces, with an empty part after the last space. */
  lemma {:induction false} SpacedIsJoin(ts: seq<string>)
    ensures Spaced(ts) == Join(ts + [""], ' ')
    decreases |ts|
  {
    if ts != [] {
      SpacedIsJoin(ts[1..]);
      assert (ts + [""])[1..] == ts[1..] + [""];
    }
  }

  predicate StartsWith(s: string, prefix: string) {
    |prefix| <= |s| && s[..|prefix|] == prefix
  }

  /** sub occurs in s at position k. */
  predicate OccursAt(s: string, sub: string, k: nat) {
    k + |sub| <= |s| && s[k..k + |sub|] == sub
  }

  /** Python's s.find(sub): the first position of sub in s, or -1. */
  function Find(s: string, sub: string): (r: int)
    ensures -1 <= r <= |s|
    ensures r >= 0 ==> OccursAt(s, sub, r) && forall j :: 0 <= j < r ==> !OccursAt(s, sub, j)
    ensures r == -1 ==> forall j: nat :: !OccursAt(s, sub, j)
  {
    FindFrom(s, sub, 0)
  }

  function FindFrom(s: string, sub: string, k: nat): (r: int)
    requires k <= |s| + 1
    ensures -1 <= r <= |s|
    ensures r >= 0 ==> k <= r && OccursAt(s, sub, r) && forall j :: k <= j < r ==> !OccursAt(s, sub, j)
    ensures r == -1 ==> forall j: nat :: k <= j ==> !OccursAt(s, sub, j)
    decreases |s| + 1 - k
  {
    if k + |sub| > |s| then -1
    else if s[k..k + |sub|] == sub then k
    else FindFrom(s, sub, k + 1)
  }

  /** Python's `sub in s`. */
  predicate Contains(s: string, sub: string) {
    Find(s, sub) >= 0
  }

  lemma {:induction false} ContainsSelf(s: string)
    ensures Contains(s, s)
  {
    assert OccursAt(s, s, 0);
  }

  /** A string is contained in any string it starts. */
  lemma {:induction false} ContainsPrefix(s: string, prefix: string)
    requires StartsWith(s, prefix)
    ensures Contains(s, prefix)
  {
    assert OccursAt(s, prefix, 0);
  }

  /** ASCII str.lower(): upper-case letters shifted, everything else kept. */
  function LowerChar(c: char): char {
    if 'A' <= c <= 'Z' then (c as int + 32) as char else c
  }

  function Lower(s: string): (r: string)
    ensures |r| == |s| && forall k :: 0 <= k < |s| ==> r[k] == LowerChar(s[k])
  {
    seq(|s|, k requires 0 <= k < |s| => LowerChar(s[k]))
  }

  /** Python's s.replace(c, '') for one character c. */
  function RemoveChar(s: string, c: char): (r: string)
    ensures c !in r && |r| <= |s|
    ensures forall d :: d != c ==> (d in r <==> d in s)
    decreases |s|
  {
    if s == [] then "" else (if s[0] == c then "" else [s[0]]) + RemoveChar(s[1..], c)
  }

  /** Python's s.strip(): leading and trailing whitespace removed. */
  function Strip(s: string): (r: string)
    ensures r == [] || (!IsPySpace(r[0]) && !IsPySpace(r[|r| - 1]))
    ensures |r| <= |s|
  {
    StripRight(StripLeft(s))
  }

  function StripLeft(s: string): (r: string)
    ensures r == [] || !IsPySpace(r[0])
    ensures |r| <= |s|
    decreases |s|
  {
    if s != [] && IsPySpace(s[0]) then StripLeft(s[1..]) else s
  }

  function StripRight(s: string): (r: string)
    ensures r == [] || !IsPySpace(r[|r| - 1])
    ensures |r| <= |s|
    ensures s != [] && !IsPySpace(s[0]) ==> r != [] && r[0] == s[0]
    decreases |s|
  {
    if s != [] && IsPySpace(s[|s| - 1]) then StripRight(s[..|s| - 1]) else s
  }

  lemma {:induction false} StripNoSpace(s: string)
    requires forall k :: 0 <= k < |s| ==> !IsPySpace(s[k])
    ensures Strip(s) == s
  {
  }

  /** A non-empty run of characters that are not whitespace. */
  predicate IsWord(w: string) {
    w != [] && forall j :: 0 <= j < |w| ==> !IsPySpace(w[j])
  }

  /** Python's s.split() with no argument: the maximal runs of non-whitespace. */
  function SplitWhitespace(s: string): (words: seq<string>)
    ensures forall k :: 0 <= k < |words| ==> IsWord(words[k])
    decreases |s|
  {
    var t := StripLeft(s);
    if t == [] then []
    else
      var k := WordLength(t);
      assert IsWord(t[..k]);
      [t[..k]] + SplitWhitespace(t[k..])
  }

  function WordLength(s: string): (k: nat)
    ensures k <= |s| && forall j :: 0 <= j < k ==> !IsPySpace(s[j])
    ensures k < |s| ==> IsPySpace(s[k])
    ensures s != [] && !IsPySpace(s[0]) ==> k >= 1
    decreases |s|
  {
    if s != [] && !IsPySpace(s[0]) then 1 + WordLength(s[1..]) else 0
  }

  /** Python's int(s) for base-10 text: surrounding whitespace, an optional sign, at least one
      digit and nothing else.  (Underscore digit separators are not accepted here.) */
  function PyInt(s: string): (r: Option<int>)
    ensures r.Some? ==> Strip(s) != []
  {
    var t := Strip(s);
    var neg := t != [] && t[0] == '-';
    var u := if t != [] && (t[0] == '-' || t[0] == '+') then t[1..] else t;
    if u != [] && AllDigits(u) then
      var magnitude: int := DigitsValue(u);
      Some(if neg then -magnitude else magnitude)
    else None
  }

  /** int(str(n)) == n: Python's int() reads back what str() of an int writes. */
  lemma {:induction false} PyIntOfIntToString(n: int)
    ensures PyInt(IntToString(n)) == Some(n)
  {
    var s := IntToString(n);
    IntToStringChars(n);
    StripNoSpace(s);
    var m: nat := if n < 0 then -n else n;
    NatToStringValue(m);
    var u := if n < 0 then s[1..] else s;
    assert u == NatToString(m);
  }
}
