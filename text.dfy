/**
 * The handful of Python `str` operations the bot relies on, over `string`
 * (a sequence of Unicode code points, as Python's `str` is):
 * `strip()`, `in`, `split(sep)[0]`, `split(sep)[1]`, slicing `s[:n]`
 * and decimal rendering of an integer.
 */
module Text {
  import opened Wrappers

  /** Python's `str.isspace()` for one character. */
  predicate IsSpace(c: char) {
    ('\U{9}' <= c <= '\U{D}') || ('\U{1C}' <= c <= '\U{20}') || c == '\U{85}' || c == '\U{A0}'
    || c == '\U{1680}' || ('\U{2000}' <= c <= '\U{200A}') || c == '\U{2028}' || c == '\U{2029}'
    || c == '\U{202F}' || c == '\U{205F}' || c == '\U{3000}'
  }

  predicate StartsWith(s: string, prefix: string) {
    |prefix| <= |s| && s[..|prefix|] == prefix
  }

  predicate EndsWith(s: string, suffix: string) {
    |suffix| <= |s| && s[|s| - |suffix|..] == suffix
  }

  /** The number of whitespace characters at the start of `s`. */
  function LeadingSpaces(s: string): (n: nat)
    ensures n <= |s|
    ensures forall k :: 0 <= k < n ==> IsSpace(s[k])
    ensures n < |s| ==> !IsSpace(s[n])
  {
    if |s| > 0 && IsSpace(s[0]) then 1 + LeadingSpaces(s[1..]) else 0
  }

  /** The number of whitespace characters at the end of `s`. */
  function TrailingSpaces(s: string): (n: nat)
    ensures n <= |s|
    ensures forall k :: |s| - n <= k < |s| ==> IsSpace(s[k])
    ensures n < |s| ==> !IsSpace(s[|s| - 1 - n])
  {
    if |s| > 0 && IsSpace(s[|s| - 1]) then 1 + TrailingSpaces(s[..|s| - 1]) else 0
  }

  /**
   * The bounds `(lo, hi)` of what `s.strip()` keeps: everything outside
   * them is whitespace, and the kept part neither begins nor ends with it.
   */
  function StripBounds(s: string): (b: (nat, nat))
    ensures b.0 <= b.1 <= |s|
    ensures forall k :: 0 <= k < b.0 ==> IsSpace(s[k])
    ensures forall k :: b.1 <= k < |s| ==> IsSpace(s[k])
    ensures b.0 < b.1 ==> !IsSpace(s[b.0]) && !IsSpace(s[b.1 - 1])
  {
    var lo := LeadingSpaces(s);
    var hi := |s| - TrailingSpaces(s[lo..]);
    assert forall k :: lo <= k < |s| ==> s[lo..][k - lo] == s[k];
    (lo, hi)
  }

  /**
   * Python's `s.strip()`: `s` with its leading and trailing whitespace
   * removed, and nothing else.
   */
  function Strip(s: string): (r: string)
    ensures |r| <= |s|
    ensures r == "" || (!IsSpace(r[0]) && !IsSpace(r[|r| - 1]))
    ensures r == "" <==> forall k :: 0 <= k < |s| ==> IsSpace(s[k])
    ensures LeadingSpaces(s) + |r| <= |s| && r == s[LeadingSpaces(s)..LeadingSpaces(s) + |r|]
    ensures forall k :: LeadingSpaces(s) + |r| <= k < |s| ==> IsSpace(s[k])
  {
    var b := StripBounds(s);
    assert b.0 == b.1 ==> forall k :: 0 <= k < |s| ==> IsSpace(s[k]) by {
      if b.0 == b.1 {
        forall k | 0 <= k < |s| ensures IsSpace(s[k]) {
        }
      }
    }
    s[b.0..b.1]
  }

  /** `p` occurs in `s` starting at index `i`. */
  predicate OccursAt(s: string, p: string, i: nat) {
    i + |p| <= |s| && s[i..i + |p|] == p
  }

  /** `p` occurs nowhere in `s`. */
  ghost predicate Absent(s: string, p: string) {
    forall i: nat :: !OccursAt(s, p, i)
  }

  /** `i` is the first index at which `p` occurs in `s`. */
  ghost predicate FirstAt(s: string, p: string, i: nat) {
    OccursAt(s, p, i) && forall j: nat :: j < i ==> !OccursAt(s, p, j)
  }

  /** The first occurrence of `p` in `s` at index `k` or later. */
  function FindFrom(s: string, p: string, k: nat): (r: Option<nat>)
    decreases |s| - k
    ensures r.Some? ==> k <= r.value && OccursAt(s, p, r.value)
    ensures r.Some? ==> forall j: nat :: k <= j < r.value ==> !OccursAt(s, p, j)
    ensures r.None? ==> forall j: nat :: k <= j ==> !OccursAt(s, p, j)
  {
    if k + |p| > |s| then None
    else if s[k..k + |p|] == p then Some(k)
    else FindFrom(s, p, k + 1)
  }

  /** The first occurrence of `p` in `s` (Python's `s.find(p)`, with `None` for -1). */
  function Find(s: string, p: string): (r: Option<nat>)
    ensures r.Some? ==> FirstAt(s, p, r.value)
    ensures r.None? ==> Absent(s, p)
  {
    FindFrom(s, p, 0)
  }

  /** Python's `p in s`. */
  predicate Contains(s: string, p: string) {
    Find(s, p).Some?
  }

  lemma ContainsIff(s: string, p: string)
    ensures Contains(s, p) <==> !Absent(s, p)
  {
  }

  /** Python's `s.split(sep)[0]`: everything before the first `sep`. */
  function Head(s: string, sep: string): (r: string)
    requires sep != ""
    ensures |r| <= |s| && r == s[..|r|]
    ensures Absent(r, sep)
    ensures |r| < |s| ==> FirstAt(s, sep, |r|)
  {
    match Find(s, sep)
    case None => s
    case Some(i) =>
      assert forall j: nat :: OccursAt(s[..i], sep, j) ==> OccursAt(s, sep, j) by {
        forall j: nat | OccursAt(s[..i], sep, j) ensures OccursAt(s, sep, j) {
          assert s[..i][j..j + |sep|] == s[j..j + |sep|];
        }
      }
      s[..i]
  }

  /** Python's `s.split(sep)[1]` (which exists exactly when `sep in s`): the piece between the first and the second `sep`. */
  function Second(s: string, sep: string): (r: string)
    requires sep != "" && Contains(s, sep)
    ensures var rest := s[Find(s, sep).value + |sep|..];
      && |r| <= |rest| && r == rest[..|r|]
      && Absent(r, sep)
      && (|r| < |rest| ==> FirstAt(rest, sep, |r|))
  {
    var i := Find(s, sep).value;
    Head(s[i + |sep|..], sep)
  }

  /** Python's `s[:n]` for `n >= 0`. */
  function Take(s: string, n: nat): (r: string)
    ensures |r| == if |s| < n then |s| else n
    ensures r == s[..|r|]
  {
    if |s| < n then s else s[..n]
  }

  /** An occurrence in a prefix of `t` is an occurrence in `t` that ends within the prefix. */
  lemma OccursInPrefix(t: string, p: string, m: nat, k: nat)
    requires m <= |t|
    ensures OccursAt(t[..m], p, k) <==> k + |p| <= m && OccursAt(t, p, k)
  {
    if k + |p| <= m {
      assert t[..m][k..k + |p|] == t[k..k + |p|];
    }
  }

  /** A slice of a string that does not contain `p` does not contain it either. */
  lemma {:induction false} AbsentInSlice(s: string, p: string, lo: nat, hi: nat)
    requires lo <= hi <= |s| && Absent(s, p)
    ensures Absent(s[lo..hi], p)
  {
    forall i: nat ensures !OccursAt(s[lo..hi], p, i) {
      if i + |p| <= hi - lo {
        var a, b := s[lo..hi][i..i + |p|], s[lo + i..lo + i + |p|];
        assert forall k :: 0 <= k < |p| ==> a[k] == b[k];
        assert a == b;
        assert !OccursAt(s, p, lo + i);
      }
    }
  }

  /** `strip()` never introduces a substring. */
  lemma StripKeepsAbsent(s: string, p: string)
    requires Absent(s, p)
    ensures Absent(Strip(s), p)
  {
    var b := StripBounds(s);
    AbsentInSlice(s, p, b.0, b.1);
  }

  /** An occurrence in `s` of a pattern without whitespace lies inside the part `strip()` keeps. */
  lemma SolidOccurrenceKept(s: string, p: string, i: nat)
    requires p != [] && forall k :: 0 <= k < |p| ==> !IsSpace(p[k])
    requires OccursAt(s, p, i)
    ensures StripBounds(s).0 <= i && i + |p| <= StripBounds(s).1
  {
    var b := StripBounds(s);
    assert s[i] == s[i..i + |p|][0] == p[0];
    assert s[i + |p| - 1] == s[i..i + |p|][|p| - 1] == p[|p| - 1];
  }

  /** An occurrence in `s.strip()` is an occurrence in `s`. */
  lemma StrippedOccurrence(s: string, p: string, i: nat)
    requires OccursAt(Strip(s), p, i)
    ensures OccursAt(s, p, StripBounds(s).0 + i)
  {
    var b := StripBounds(s);
    var r := Strip(s);
    assert r == s[b.0..b.1];
    var x, y := r[i..i + |p|], s[b.0 + i..b.0 + i + |p|];
    assert forall k :: 0 <= k < |p| ==> x[k] == y[k];
    assert x == y;
  }

  /** An occurrence in `s` of a pattern without whitespace is an occurrence in `s.strip()`. */
  lemma SolidOccurrenceStripped(s: string, p: string, i: nat)
    requires p != [] && forall k :: 0 <= k < |p| ==> !IsSpace(p[k])
    requires OccursAt(s, p, i)
    ensures StripBounds(s).0 <= i && OccursAt(Strip(s), p, i - StripBounds(s).0)
  {
    var b := StripBounds(s);
    SolidOccurrenceKept(s, p, i);
    var r := Strip(s);
    assert r == s[b.0..b.1];
    var x, y := r[i - b.0..i - b.0 + |p|], s[i..i + |p|];
    assert forall k :: 0 <= k < |p| ==> x[k] == y[k];
    assert x == y;
  }

  /**
   * A non-empty pattern without whitespace occurs in `s` exactly when it
   * occurs in `s.strip()`: stripping only removes whitespace.
   */
  lemma StripKeepsSolidPattern(s: string, p: string)
    requires p != [] && forall k :: 0 <= k < |p| ==> !IsSpace(p[k])
    ensures Contains(s, p) <==> Contains(Strip(s), p)
  {
    if Contains(s, p) {
      var i := Find(s, p).value;
      SolidOccurrenceStripped(s, p, i);
      assert !Absent(Strip(s), p);
    }
    if Contains(Strip(s), p) {
      var i := Find(Strip(s), p).value;
      StrippedOccurrence(s, p, i);
      assert !Absent(s, p);
    }
  }

  function DigitChar(d: nat): (c: char)
    requires d < 10
    ensures '0' <= c <= '9'
  {
    ['0', '1', '2', '3', '4', '5', '6', '7', '8', '9'][d]
  }

  /** Python's `str(n)` for a natural number: its decimal digits, without leading zeros. */
  function NatToString(n: nat): (s: string)
    ensures |s| > 0 && forall k :: 0 <= k < |s| ==> '0' <= s[k] <= '9'
    ensures (s[0] == '0') == (n == 0)
  {
    if n < 10 then [DigitChar(n)] else NatToString(n / 10) + [DigitChar(n % 10)]
  }

  /** The number a string of decimal digits denotes. */
  function DigitsValue(s: string): nat
    requires forall k :: 0 <= k < |s| ==> '0' <= s[k] <= '9'
  {
    if s == [] then 0 else 10 * DigitsValue(s[..|s| - 1]) + (s[|s| - 1] as int - '0' as int)
  }

  /** Reading back the digits of a natural number gives that number. */
  lemma {:induction false} NatToStringValue(n: nat)
    ensures DigitsValue(NatToString(n)) == n
  {
    var d := DigitChar(n % 10);
    assert d as int - '0' as int == n % 10 by {
      var digits := ['0', '1', '2', '3', '4', '5', '6', '7', '8', '9'];
      assert forall j :: 0 <= j < 10 ==> digits[j] as int - '0' as int == j;
    }
    if n >= 10 {
      var s := NatToString(n / 10);
      NatToStringValue(n / 10);
      assert (s + [d])[..|s|] == s;
    }
  }

  /** Python's `str(v)` (and `f'{v}'`) for an integer: a minus sign exactly for a negative number, then the digits of its magnitude. */
  function IntToString(v: int): (s: string)
    ensures |s| > 0
    ensures (s[0] == '-') == (v < 0)
    ensures var digits := if v < 0 then s[1..] else s;
      && |digits| > 0 && (forall k :: 0 <= k < |digits| ==> '0' <= digits[k] <= '9')
      && (digits[0] == '0' ==> |digits| == 1)
      && DigitsValue(digits) == if v < 0 then -v else v
  {
    if v < 0 then
      var digits := NatToString(-v);
      NatToStringValue(-v);
      assert ("-" + digits)[1..] == digits;
      "-" + digits
    else
      NatToStringValue(v);
      NatToString(v)
  }
}
