/**
 * The JavaScript string operations the components are built from, over `string`
 * (a `seq<char>`): `indexOf`, `includes`, the first two segments of `split`,
 * `trim`, integer `toString` and `padStart`.
 */
module JsString {

  /** `m` occurs in `s` starting at index `k`. */
  predicate OccursAt(s: string, m: string, k: int) {
    0 <= k && k + |m| <= |s| && s[k..k + |m|] == m
  }

  /** `s.indexOf(m, from)`: the first index at or after `from` where `m` occurs, or -1. */
  function IndexOfFrom(s: string, m: string, from: nat): (r: int)
    decreases |s| - from
    ensures r == -1 || (from <= r && OccursAt(s, m, r))
    ensures forall k :: from <= k && (r == -1 || k < r) ==> !OccursAt(s, m, k)
  {
    if from + |m| > |s| then -1
    else if OccursAt(s, m, from) then from
    else IndexOfFrom(s, m, from + 1)
  }

  /** `s.indexOf(m)`. */
  function IndexOf(s: string, m: string): int {
    IndexOfFrom(s, m, 0)
  }

  /** `s.includes(m)`. */
  predicate Includes(s: string, m: string) {
    IndexOf(s, m) >= 0
  }

  /** An occurrence found at a known index is an occurrence at or after the first one. */
  lemma IndexOfAtMost(s: string, m: string, k: int)
    requires OccursAt(s, m, k)
    ensures Includes(s, m) && IndexOf(s, m) <= k
  {
  }

  /** An occurrence inside a slice of `s` is an occurrence in `s`, shifted by the slice's start. */
  lemma OccursInSlice(s: string, lo: int, hi: int, m: string, k: int)
    requires 0 <= lo <= hi <= |s|
    requires OccursAt(s[lo..hi], m, k)
    ensures OccursAt(s, m, lo + k)
  {
    var t := s[lo..hi];
    forall i | lo + k <= i < lo + k + |m|
      ensures s[i] == t[i - lo]
    {
    }
    assert t[k..k + |m|] == s[lo + k..lo + k + |m|];
  }

  /** An occurrence of `m` inside `a` is an occurrence in `a + b`, at the same index. */
  lemma OccursInPrefix(a: string, b: string, m: string, k: int)
    requires OccursAt(a, m, k)
    ensures OccursAt(a + b, m, k)
  {
    assert (a + b)[k..k + |m|] == a[k..k + |m|];
  }

  /** A string that includes `a + b` also includes `b`. */
  lemma IncludesSuffix(s: string, a: string, b: string)
    requires Includes(s, a + b)
    ensures Includes(s, b)
  {
    var k := IndexOf(s, a + b);
    assert s[k + |a|..k + |a| + |b|] == s[k..k + |a + b|][|a|..];
    IndexOfAtMost(s, b, k + |a|);
  }

  /** A string that includes `a + b` also includes `a`. */
  lemma IncludesPrefix(s: string, a: string, b: string)
    requires Includes(s, a + b)
    ensures Includes(s, a)
  {
    var k := IndexOf(s, a + b);
    assert s[k..k + |a|] == s[k..k + |a + b|][..|a|];
    IndexOfAtMost(s, a, k);
  }

  /** A string cannot include `m` when it lacks one of `m`'s characters. */
  lemma NotIncludesWithout(s: string, m: string, j: int)
    requires 0 <= j < |m| && m[j] !in s
    ensures !Includes(s, m)
  {
    forall k | 0 <= k && k + |m| <= |s|
      ensures !OccursAt(s, m, k)
    {
      assert s[k..k + |m|][j] == s[k + j];
    }
  }

  /** A string cannot include `m` when it lacks `m`'s first character. */
  lemma NotIncludesWithoutHead(s: string, m: string)
    requires |m| > 0 && m[0] !in s
    ensures !Includes(s, m)
  {
    NotIncludesWithout(s, m, 0);
  }

  /** For a one-character needle, `includes` is membership. */
  lemma IncludesChar(s: string, c: char)
    ensures Includes(s, [c]) <==> c in s
  {
    if c in s {
      var k :| 0 <= k < |s| && s[k] == c;
      assert s[k..k + 1] == [c];
      IndexOfAtMost(s, [c], k);
    } else {
      NotIncludesWithoutHead(s, [c]);
    }
  }

  /** In `a + [c] + b`, where `a` holds no `c`, the first `c` is at `|a|`. */
  lemma IndexOfFirstChar(a: string, c: char, b: string)
    requires c !in a
    ensures IndexOf(a + [c] + b, [c]) == |a|
  {
    var s := a + [c] + b;
    assert s[|a|..|a| + 1] == [c];
    IndexOfAtMost(s, [c], |a|);
    forall k | 0 <= k < |a|
      ensures !OccursAt(s, [c], k)
    {
      assert s[k..k + 1][0] == a[k];
    }
  }

  /** `s.split(sep)[0]`: the text before the first occurrence of `sep`, or all of `s`. */
  function SplitFirst(s: string, sep: string): (r: string)
    requires |sep| > 0
    ensures |r| <= |s| && r == s[..|r|]
    ensures r == s || OccursAt(s, sep, |r|)
    ensures !Includes(r, sep)
  {
    var i := IndexOf(s, sep);
    if i == -1 then
      s
    else
      var r := s[..i];
      NoOccurrenceBefore(s, sep, 0, i);
      r
  }

  /** `s.split(sep)[1]` for an `s` that includes `sep`: the text between the first and
      the second occurrence of `sep`, or from the first occurrence to the end. */
  function SplitSecond(s: string, sep: string): (r: string)
    requires |sep| > 0 && Includes(s, sep)
    ensures IndexOf(s, sep) + |sep| + |r| <= |s|
    ensures r == s[IndexOf(s, sep) + |sep|..IndexOf(s, sep) + |sep| + |r|]
    ensures IndexOf(s, sep) + |sep| + |r| == |s| || OccursAt(s, sep, IndexOf(s, sep) + |sep| + |r|)
    ensures forall k :: IndexOf(s, sep) + |sep| <= k < IndexOf(s, sep) + |sep| + |r| ==> !OccursAt(s, sep, k)
    ensures !Includes(r, sep)
  {
    var start := IndexOf(s, sep) + |sep|;
    var j := IndexOfFrom(s, sep, start);
    var stop := if j == -1 then |s| else j;
    NoOccurrenceBefore(s, sep, start, stop);
    s[start..stop]
  }

  /** When `sep` does not occur in `s` at any index from `lo` up to (not including) the
      stop index `hi` of a slice, the slice does not include `sep`. */
  lemma NoOccurrenceBefore(s: string, sep: string, lo: int, hi: int)
    requires 0 <= lo <= hi <= |s| && |sep| > 0
    requires forall k :: lo <= k < hi ==> !OccursAt(s, sep, k)
    ensures !Includes(s[lo..hi], sep)
  {
    if Includes(s[lo..hi], sep) {
      var k := IndexOf(s[lo..hi], sep);
      OccursInSlice(s, lo, hi, sep, k);
      assert false;
    }
  }

  /** The characters ECMAScript's `trim` removes: its WhiteSpace and LineTerminator sets. */
  predicate IsWhiteSpace(c: char) {
    || c == '\t' || c == '\n' || c == '\U{B}' || c == '\U{C}' || c == '\r' || c == ' '
    || c == '\U{A0}' || c == '\U{1680}' || ('\U{2000}' <= c <= '\U{200A}')
    || c == '\U{2028}' || c == '\U{2029}' || c == '\U{202F}' || c == '\U{205F}'
    || c == '\U{3000}' || c == '\U{FEFF}'
  }

  /** Every character of `s` is white space (the empty string included). */
  predicate IsBlank(s: string) {
    forall i :: 0 <= i < |s| ==> IsWhiteSpace(s[i])
  }

  /** `s` with its leading white space removed. */
  function TrimStart(s: string): (r: string)
    ensures |r| <= |s| && r == s[|s| - |r|..]
    ensures r == [] || !IsWhiteSpace(r[0])
    ensures forall i :: 0 <= i < |s| - |r| ==> IsWhiteSpace(s[i])
  {
    if |s| > 0 && IsWhiteSpace(s[0]) then TrimStart(s[1..]) else s
  }

  /** `s` with its trailing white space removed. */
  function TrimEnd(s: string): (r: string)
    ensures |r| <= |s| && r == s[..|r|]
    ensures r == [] || !IsWhiteSpace(r[|r| - 1])
    ensures forall i :: |r| <= i < |s| ==> IsWhiteSpace(s[i])
  {
    if |s| > 0 && IsWhiteSpace(s[|s| - 1]) then TrimEnd(s[..|s| - 1]) else s
  }

  /** `s.trim()`. */
  function Trim(s: string): string {
    TrimEnd(TrimStart(s))
  }

  /** `s.trim()` is empty exactly when `s` is blank. */
  lemma TrimEmptyIffBlank(s: string)
    ensures Trim(s) == [] <==> IsBlank(s)
  {
    var t := TrimStart(s);
    if Trim(s) == [] {
      assert t == [];
    } else {
      var r := Trim(s);
      assert r[0] == t[0] == s[|s| - |t|];
    }
  }

  /** A string that neither starts nor ends with white space is its own trim. */
  lemma TrimOfTrimmed(s: string)
    requires s == [] || (!IsWhiteSpace(s[0]) && !IsWhiteSpace(s[|s| - 1]))
    ensures Trim(s) == s
  {
  }

  /** `trim` is idempotent. */
  lemma TrimIdempotent(s: string)
    ensures Trim(Trim(s)) == Trim(s)
  {
    var t := TrimStart(s);
    var r := Trim(s);
    if r != [] {
      assert r[0] == t[0];
    }
    TrimOfTrimmed(r);
  }

  predicate IsDigit(c: char) {
    '0' <= c <= '9'
  }

  predicate AllDigits(s: string) {
    forall i :: 0 <= i < |s| ==> IsDigit(s[i])
  }

  /** The decimal digit character for `d`. */
  function DigitChar(d: nat): (c: char)
    requires d < 10
    ensures IsDigit(c)
  {
    (48 + d) as char
  }

  function DigitValue(c: char): nat
    requires IsDigit(c)
  {
    c as int - 48
  }

  /** `n.toString()` for a non-negative integer `n`: its decimal digits, most significant
      first, with no leading zero. */
  function NatToString(n: nat): (r: string)
    ensures |r| > 0 && AllDigits(r)
    ensures |r| == 1 <==> n < 10
  {
    if n < 10 then [DigitChar(n)] else NatToString(n / 10) + [DigitChar(n % 10)]
  }

  /** `i.toString()` for any integer `i`. */
  function IntToString(i: int): string {
    if i < 0 then "-" + NatToString(-i) else NatToString(i)
  }

  /** The value of a string of decimal digits (the empty string reads as 0). */
  function ParseNat(s: string): nat
    requires AllDigits(s)
  {
    if s == [] then 0 else ParseNat(s[..|s| - 1]) * 10 + DigitValue(s[|s| - 1])
  }

  /** Reading back the decimal text of `n` gives `n`. */
  lemma {:induction false} ParseNatToString(n: nat)
    ensures ParseNat(NatToString(n)) == n
  {
    if n >= 10 {
      var r := NatToString(n);
      assert r[..|r| - 1] == NatToString(n / 10);
      ParseNatToString(n / 10);
    }
  }

  /** `s.padStart(len, fill)` for a one-character `fill`. */
  function PadStart(s: string, len: nat, fill: char): (r: string)
    ensures |r| == if |s| < len then len else |s|
    ensures r[|r| - |s|..] == s
    ensures forall i :: 0 <= i < |r| - |s| ==> r[i] == fill
  {
    if |s| < len then seq(len - |s|, _ => fill) + s else s
  }

}
