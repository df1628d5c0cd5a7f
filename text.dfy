/**
 * The string operations the workflow relies on, written as Python defines
 * them: `str(n)` for a natural number, `str.replace`, `str.strip`,
 * `str.endswith`, and the posix flavour of `os.path.join`, `basename` and
 * `splitext`.
 */
module Text {

  import opened Wrappers

  // ---------------------------------------------------------------------
  // Decimal rendering: str(n)
  // ---------------------------------------------------------------------

  predicate IsDigit(c: char) {
    '0' <= c <= '9'
  }

  predicate AllDigits(s: string) {
    forall i :: 0 <= i < |s| ==> IsDigit(s[i])
  }

  function DigitChar(d: nat): (c: char)
    requires d < 10
    ensures IsDigit(c)
  {
    ['0', '1', '2', '3', '4', '5', '6', '7', '8', '9'][d]
  }

  function DigitValue(c: char): nat
    requires IsDigit(c)
  {
    (c as int - '0' as int) as nat
  }

  /** `str(n)` for a natural number: decimal digits, no leading zero. */
  function NatToString(n: nat): (s: string)
    ensures |s| >= 1 && AllDigits(s)
    ensures n > 0 ==> s[0] != '0'
    ensures n < 10 <==> |s| == 1
    decreases n
  {
    if n < 10 then [DigitChar(n)] else NatToString(n / 10) + [DigitChar(n % 10)]
  }

  /** The number a string of decimal digits denotes (`int(s)`). */
  function ParseDecimal(s: string): nat
    requires AllDigits(s)
  {
    if s == [] then 0 else ParseDecimal(s[..|s| - 1]) * 10 + DigitValue(s[|s| - 1])
  }

  lemma DigitRoundTrip(d: nat)
    requires d < 10
    ensures DigitValue(DigitChar(d)) == d
  {
  }

  /** Reading back what `NatToString` wrote gives the number again. */
  lemma {:induction false} NatToStringRoundTrip(n: nat)
    ensures ParseDecimal(NatToString(n)) == n
    decreases n
  {
    var s := NatToString(n);
    if n < 10 {
      DigitRoundTrip(n);
      assert s[..|s| - 1] == [];
    } else {
      NatToStringRoundTrip(n / 10);
      DigitRoundTrip(n % 10);
      assert s[..|s| - 1] == NatToString(n / 10);
    }
  }

  /** Different numbers render differently: distinct weeks get distinct names. */
  lemma NatToStringInjective(a: nat, b: nat)
    requires NatToString(a) == NatToString(b)
    ensures a == b
  {
    NatToStringRoundTrip(a);
    NatToStringRoundTrip(b);
  }

  // ---------------------------------------------------------------------
  // Substrings and str.replace
  // ---------------------------------------------------------------------

  /** `pat` occurs in `s` starting at index `i`. */
  predicate OccursAt(s: string, pat: string, i: nat) {
    i + |pat| <= |s| && s[i..i + |pat|] == pat
  }

  /** `pat in s`. */
  predicate Contains(s: string, pat: string) {
    exists i: nat :: i <= |s| && OccursAt(s, pat, i)
  }

  predicate StartsWith(s: string, prefix: string) {
    |prefix| <= |s| && s[..|prefix|] == prefix
  }

  /** `s.endswith(suffix)` (case-sensitive). */
  predicate EndsWith(s: string, suffix: string) {
    |suffix| <= |s| && s[|s| - |suffix|..] == suffix
  }

  /**
   * `s.replace(pat, rep)`: scan from the left, replace every occurrence
   * that does not overlap one already replaced.
   */
  function ReplaceAll(s: string, pat: string, rep: string): string
    requires |pat| > 0
    decreases |s|
  {
    if |s| < |pat| then s
    else if s[..|pat|] == pat then rep + ReplaceAll(s[|pat|..], pat, rep)
    else [s[0]] + ReplaceAll(s[1..], pat, rep)
  }

  /** An occurrence at the front is replaced and the scan resumes after it. */
  lemma ReplaceMatch(s: string, pat: string, rep: string)
    requires |pat| > 0 && |pat| <= |s| && s[..|pat|] == pat
    ensures ReplaceAll(s, pat, rep) == rep + ReplaceAll(s[|pat|..], pat, rep)
  {
  }

  /** Without an occurrence at the front the first character is kept. */
  lemma ReplaceSkip(s: string, pat: string, rep: string)
    requires |pat| > 0 && |pat| <= |s| && s[..|pat|] != pat
    ensures ReplaceAll(s, pat, rep) == [s[0]] + ReplaceAll(s[1..], pat, rep)
  {
  }

  /** An occurrence in the tail of `s` is an occurrence in `s`. */
  lemma DropFirstKeepsAbsent(s: string, pat: string)
    requires |s| > 0 && !Contains(s, pat)
    ensures !Contains(s[1..], pat)
  {
    forall i: nat | i <= |s[1..]| && OccursAt(s[1..], pat, i)
      ensures i + 1 <= |s| && OccursAt(s, pat, i + 1)
    {
      assert s[1..][i..i + |pat|] == s[i + 1..i + 1 + |pat|];
    }
  }

  /** An occurrence in `s` minus its last character is an occurrence in `s`. */
  lemma DropLastKeepsAbsent(s: string, pat: string)
    requires |s| > 0 && !Contains(s, pat)
    ensures !Contains(s[..|s| - 1], pat)
  {
    var t := s[..|s| - 1];
    forall i: nat | i <= |t| && OccursAt(t, pat, i)
      ensures i <= |s| && OccursAt(s, pat, i)
    {
      assert t[i..i + |pat|] == s[i..i + |pat|];
    }
  }

  /** Replacing a pattern that does not occur changes nothing. */
  lemma {:induction false} ReplaceAbsent(s: string, pat: string, rep: string)
    requires |pat| > 0 && !Contains(s, pat)
    ensures ReplaceAll(s, pat, rep) == s
    decreases |s|
  {
    if |s| >= |pat| {
      assert !OccursAt(s, pat, 0);
      DropFirstKeepsAbsent(s, pat);
      ReplaceAbsent(s[1..], pat, rep);
      assert [s[0]] + s[1..] == s;
    }
  }

  /** A pattern that occurs inside a longer one occurs wherever the longer one does. */
  lemma ContainsWithin(s: string, inner: string, outer: string)
    requires |inner| <= |outer| && outer[..|inner|] == inner
    requires Contains(s, outer)
    ensures Contains(s, inner)
  {
    var i: nat :| i <= |s| && OccursAt(s, outer, i);
    assert s[i..i + |inner|] == s[i..i + |outer|][..|inner|];
    assert OccursAt(s, inner, i);
  }

  // ---------------------------------------------------------------------
  // str.strip
  // ---------------------------------------------------------------------

  /** Python's `str.isspace` for one character. */
  predicate IsSpace(c: char) {
    c == ' ' || '\t' <= c <= '\r' || '\U{1c}' <= c <= '\U{1f}'
    || c == '\U{85}' || c == '\U{a0}' || c == '\U{1680}'
    || '\U{2000}' <= c <= '\U{200a}' || c == '\U{2028}' || c == '\U{2029}'
    || c == '\U{202f}' || c == '\U{205f}' || c == '\U{3000}'
  }

  /** Neither end of `s` is whitespace. */
  predicate Stripped(s: string) {
    s == [] || (!IsSpace(s[0]) && !IsSpace(s[|s| - 1]))
  }

  /** `s.lstrip()`: what follows the leading whitespace of `s`. */
  function TrimStart(s: string): (r: string)
    ensures |r| <= |s| && r == s[|s| - |r|..]
    ensures forall j :: 0 <= j < |s| - |r| ==> IsSpace(s[j])
    ensures r == [] || !IsSpace(r[0])
  {
    if s != [] && IsSpace(s[0]) then TrimStart(s[1..]) else s
  }

  /** `s.rstrip()`: what precedes the trailing whitespace of `s`. */
  function TrimEnd(s: string): (r: string)
    ensures |r| <= |s| && r == s[..|r|]
    ensures forall j :: |r| <= j < |s| ==> IsSpace(s[j])
    ensures r == [] || !IsSpace(r[|r| - 1])
  {
    if s != [] && IsSpace(s[|s| - 1]) then TrimEnd(s[..|s| - 1]) else s
  }

  /** `s.strip()`. */
  function Strip(s: string): string {
    TrimEnd(TrimStart(s))
  }

  /** Stripping leaves no whitespace at either end. */
  lemma StripIsStripped(s: string)
    ensures Stripped(Strip(s))
  {
    var t := TrimStart(s);
    var r := TrimEnd(t);
    if r != [] {
      assert r[0] == t[0];
    }
  }

  /** A string already stripped is its own strip. */
  lemma StripStripped(s: string)
    requires Stripped(s)
    ensures Strip(s) == s
  {
  }

  lemma {:induction false} TrimStartKeepsAbsent(s: string, pat: string)
    requires !Contains(s, pat)
    ensures !Contains(TrimStart(s), pat)
    decreases |s|
  {
    if s != [] && IsSpace(s[0]) {
      DropFirstKeepsAbsent(s, pat);
      TrimStartKeepsAbsent(s[1..], pat);
    }
  }

  lemma {:induction false} TrimEndKeepsAbsent(s: string, pat: string)
    requires !Contains(s, pat)
    ensures !Contains(TrimEnd(s), pat)
    decreases |s|
  {
    if s != [] && IsSpace(s[|s| - 1]) {
      DropLastKeepsAbsent(s, pat);
      TrimEndKeepsAbsent(s[..|s| - 1], pat);
    }
  }

  /** Stripping cannot create an occurrence: it only cuts off the ends. */
  lemma StripKeepsAbsent(s: string, pat: string)
    requires !Contains(s, pat)
    ensures !Contains(Strip(s), pat)
  {
    TrimStartKeepsAbsent(s, pat);
    TrimEndKeepsAbsent(TrimStart(s), pat);
  }

  // ---------------------------------------------------------------------
  // Posix paths: os.path.join, basename, splitext
  // ---------------------------------------------------------------------

  /** `os.path.join(a, b)` on posix, for two components. */
  function Join(a: string, b: string): (r: string)
    ensures !StartsWith(b, "/") && a != [] && a[|a| - 1] != '/' ==> r == a + "/" + b
  {
    if StartsWith(b, "/") then b
    else if a == [] || a[|a| - 1] == '/' then a + b
    else a + "/" + b
  }

  /** Index just after the last '/' of `p` (0 when there is none). */
  function AfterLastSlash(p: string): (k: nat)
    ensures k <= |p|
    ensures k > 0 ==> p[k - 1] == '/'
    ensures forall j :: k <= j < |p| ==> p[j] != '/'
  {
    if p == [] then 0
    else if p[|p| - 1] == '/' then |p|
    else AfterLastSlash(p[..|p| - 1])
  }

  /** `os.path.basename(p)`: what follows the last '/'. */
  function Basename(p: string): (b: string)
    ensures forall j :: 0 <= j < |b| ==> b[j] != '/'
  {
    p[AfterLastSlash(p)..]
  }

  /** The base name of `dir/name` is `name` when `name` has no slash. */
  lemma BasenameAfterSlash(dir: string, name: string)
    requires forall j :: 0 <= j < |name| ==> name[j] != '/'
    ensures Basename(dir + "/" + name) == name
  {
    var p := dir + "/" + name;
    var k := AfterLastSlash(p);
    assert p[|dir|] == '/';
    assert k == |dir| + 1;
    assert p[|dir| + 1..] == name;
  }

  /** Index of the last '.' in `s`, if any. */
  function LastDot(s: string): (r: Option<nat>)
    ensures r.Some? ==> r.value < |s| && s[r.value] == '.'
    ensures r.Some? ==> forall j :: r.value < j < |s| ==> s[j] != '.'
    ensures r.None? ==> forall j :: 0 <= j < |s| ==> s[j] != '.'
  {
    if s == [] then None
    else if s[|s| - 1] == '.' then Some(|s| - 1)
    else LastDot(s[..|s| - 1])
  }

  /** Some character of `s[..k]` is not a dot. */
  predicate HasNonDotBefore(s: string, k: nat)
    requires k <= |s|
  {
    exists j :: 0 <= j < k && s[j] != '.'
  }

  /**
   * The root `os.path.splitext(name)[0]` of a name without '/': cut at the
   * last '.', unless every character before that dot is a dot too (a
   * leading dot, as in ".bashrc", does not start an extension).
   */
  function SplitextRoot(name: string): (root: string)
    ensures |root| <= |name| && root == name[..|root|]
  {
    match LastDot(name)
    case None => name
    case Some(d) => if HasNonDotBefore(name, d) then name[..d] else name
  }
}
