/** String helpers with JavaScript's meaning: the whitespace set that
    `String.prototype.trim` removes and `\s` matches, `trim`, `includes`,
    `startsWith`, ASCII case folding as used by a `/i` regular expression,
    and the decimal rendering of a non-negative number. */
module Text {

  /** ECMAScript WhiteSpace and LineTerminator code points. */
  predicate IsSpace(c: char) {
    c == '\t' || c == '\n' || c == '\U{000B}' || c == '\U{000C}' || c == '\r' || c == ' '
    || c == '\U{00A0}' || c == '\U{1680}' || ('\U{2000}' <= c <= '\U{200A}')
    || c == '\U{2028}' || c == '\U{2029}' || c == '\U{202F}' || c == '\U{205F}'
    || c == '\U{3000}' || c == '\U{FEFF}'
  }

  predicate AllSpace(s: string) {
    forall i :: 0 <= i < |s| ==> IsSpace(s[i])
  }

  /** Neither starts nor ends with whitespace. */
  predicate IsTrimmed(s: string) {
    s == [] || (!IsSpace(s[0]) && !IsSpace(s[|s| - 1]))
  }

  /** Length of the leading whitespace run. */
  function LeadLen(s: string): (n: nat)
    ensures n <= |s|
    ensures forall i :: 0 <= i < n ==> IsSpace(s[i])
    ensures n < |s| ==> !IsSpace(s[n])
  {
    if s == [] || !IsSpace(s[0]) then 0 else 1 + LeadLen(s[1..])
  }

  /** Position just after the last non-whitespace character (0 if none). */
  function TrimEnd(s: string): (b: nat)
    ensures b <= |s|
    ensures forall i :: b <= i < |s| ==> IsSpace(s[i])
    ensures b > 0 ==> !IsSpace(s[b - 1])
  {
    if s == [] || !IsSpace(s[|s| - 1]) then |s| else TrimEnd(s[..|s| - 1])
  }

  /** `String.prototype.trim`: the slice of `s` left after removing the
      whitespace at both ends. */
  function Trim(s: string): (r: string)
    ensures IsTrimmed(r)
    ensures r == [] <==> AllSpace(s)
    ensures LeadLen(s) + |r| <= |s| && r == s[LeadLen(s)..LeadLen(s) + |r|]
    ensures forall i :: 0 <= i < LeadLen(s) ==> IsSpace(s[i])
    ensures forall i :: LeadLen(s) + |r| <= i < |s| ==> IsSpace(s[i])
  {
    var a := LeadLen(s);
    if a == |s| then [] else s[a..TrimEnd(s)]
  }

  lemma TrimOfTrimmed(s: string)
    requires IsTrimmed(s)
    ensures Trim(s) == s
  {
    if s != [] {
      assert LeadLen(s) == 0;
      assert TrimEnd(s) == |s|;
    }
  }

  /** Trimming twice is trimming once. */
  lemma TrimIdempotent(s: string)
    ensures Trim(Trim(s)) == Trim(s)
  {
    TrimOfTrimmed(Trim(s));
  }

  predicate StartsWith(s: string, prefix: string) {
    |prefix| <= |s| && s[..|prefix|] == prefix
  }

  /** `String.prototype.includes`. */
  predicate Contains(s: string, k: string) {
    exists i :: 0 <= i <= |s| && StartsWith(s[i..], k)
  }

  /** An occurrence in the trimmed text is an occurrence in the text. */
  lemma ContainsFromTrim(s: string, k: string)
    requires Contains(Trim(s), k)
    ensures Contains(s, k)
  {
    var a, t := LeadLen(s), Trim(s);
    var i :| 0 <= i <= |t| && StartsWith(t[i..], k);
    assert s[a + i..][..|k|] == t[i..][..|k|];
    assert StartsWith(s[a + i..], k);
  }

  /** An occurrence of a keyword without surrounding whitespace lies inside
      the trimmed text. */
  lemma ContainsIntoTrim(s: string, k: string, i: nat)
    requires k != [] && IsTrimmed(k)
    requires i <= |s| && StartsWith(s[i..], k)
    ensures Contains(Trim(s), k)
  {
    var a, t := LeadLen(s), Trim(s);
    assert s[i] == k[0] by { assert s[i..][..|k|][0] == k[0]; }
    assert s[i + |k| - 1] == k[|k| - 1] by { assert s[i..][..|k|][|k| - 1] == k[|k| - 1]; }
    assert a <= i && i + |k| <= a + |t|;
    assert t[i - a..][..|k|] == s[i..][..|k|];
    assert StartsWith(t[i - a..], k);
  }

  /** A keyword that neither starts nor ends with whitespace is found in the
      trimmed text exactly when it is found in the text. */
  lemma ContainsTrim(s: string, k: string)
    requires k != [] && IsTrimmed(k)
    ensures Contains(Trim(s), k) <==> Contains(s, k)
  {
    if Contains(Trim(s), k) {
      ContainsFromTrim(s, k);
    }
    if Contains(s, k) {
      var i :| 0 <= i <= |s| && StartsWith(s[i..], k);
      ContainsIntoTrim(s, k, i);
    }
  }

  /** ASCII upper-case letters folded to lower case; everything else kept. */
  function LowerAscii(c: char): char {
    if 'A' <= c <= 'Z' then (c as int + 32) as char else c
  }

  /** Case-insensitive prefix test against a lower-case ASCII pattern, as a
      `/^…/i` regular expression does it. */
  predicate StartsWithIgnoringCase(s: string, lowerPrefix: string) {
    |lowerPrefix| <= |s| && forall i :: 0 <= i < |lowerPrefix| ==> LowerAscii(s[i]) == lowerPrefix[i]
  }

  function DigitChar(d: nat): char
    requires d < 10
  {
    "0123456789"[d]
  }

  /** `String(n)` for a non-negative integer. */
  function NatToString(n: nat): (r: string)
    ensures r != []
    ensures forall i :: 0 <= i < |r| ==> '0' <= r[i] <= '9'
    ensures |r| > 1 ==> r[0] != '0'
  {
    if n < 10 then [DigitChar(n)] else NatToString(n / 10) + [DigitChar(n % 10)]
  }
}
