/** Facts about prefixes and substrings of concrete texts: enough to tell which key an
    argument starts with and which name a suite name contains. */
module StringFacts {
  import opened Text

  /** A string lacking a character of sub does not contain sub. */
  lemma {:induction false} MissingChar(s: string, sub: string, c: char)
    requires c in sub && c !in s
    ensures !Contains(s, sub)
  {
    var k := Find(s, sub);
    if k >= 0 {
      assert false;
    }
  }

  /** A string that differs from a prefix at one of its positions does not start with it. */
  lemma {:induction false} DiffersAt(s: string, prefix: string, i: nat)
    requires i < |prefix| && i < |s| && s[i] != prefix[i]
    ensures !StartsWith(s, prefix)
  {
    if |prefix| <= |s| {
      assert s[..|prefix|][i] == s[i];
    }
  }
}
