/**
 * String helpers shared by the routes and pages: the few JavaScript string
 * operations the portal relies on (`startsWith`, `includes`, `toLowerCase`,
 * `trim`, the first-match `replace`, digit tests and `Number#toString`).
 * Strings are sequences of Unicode scalar values.
 */
module Text {

  /** JavaScript falsiness of a string: only the empty string is falsy. */
  predicate Truthy(s: string) { s != "" }

  // ---------------------------------------------------------------- prefixes

  /** `s.startsWith(prefix)` */
  predicate StartsWith(s: string, prefix: string) {
    |prefix| <= |s| && s[..|prefix|] == prefix
  }

  /** `sub` occurs in `s` starting at index `i`. */
  predicate OccursAt(s: string, sub: string, i: int) {
    0 <= i <= |s| - |sub| && s[i..i + |sub|] == sub
  }

  /** `s.includes(sub)`: `sub` occurs as a contiguous slice of `s`. */
  predicate Contains(s: string, sub: string) {
    exists i :: 0 <= i <= |s| && OccursAt(s, sub, i)
  }

  lemma EveryStringContainsEmpty(s: string)
    ensures Contains(s, "")
  {
    assert OccursAt(s, "", 0);
  }

  // ------------------------------------------------------------- lower case

  /** `toLowerCase` on one character (ASCII letters; every other character is kept). */
  function LowerChar(c: char): char {
    if 'A' <= c <= 'Z' then (c as int + 32) as char else c
  }

  /** `s.toLowerCase()` */
  function Lower(s: string): (r: string)
    ensures |r| == |s|
    ensures forall i :: 0 <= i < |s| ==> r[i] == LowerChar(s[i])
  {
    if s == [] then [] else [LowerChar(s[0])] + Lower(s[1..])
  }

  lemma LowerIdempotent(s: string)
    ensures Lower(Lower(s)) == Lower(s)
  {
    var once := Lower(s);
    assert forall i :: 0 <= i < |s| ==> Lower(once)[i] == once[i];
  }

  // ------------------------------------------------------------- whitespace

  /**
   * The characters `String.prototype.trim` removes: ECMAScript WhiteSpace
   * and LineTerminator.
   */
  predicate IsSpace(c: char) {
    c == '\t' || c == '\n' || c == '\U{000B}' || c == '\U{000C}' || c == '\r' || c == ' '
    || c == '\U{00A0}' || c == '\U{1680}' || ('\U{2000}' <= c <= '\U{200A}')
    || c == '\U{2028}' || c == '\U{2029}' || c == '\U{202F}' || c == '\U{205F}'
    || c == '\U{3000}' || c == '\U{FEFF}'
  }

  /** Number of leading whitespace characters. */
  function LeadingSpaces(s: string): (n: nat)
    ensures n <= |s|
    ensures forall k :: 0 <= k < n ==> IsSpace(s[k])
    ensures n < |s| ==> !IsSpace(s[n])
  {
    if s != [] && IsSpace(s[0]) then 1 + LeadingSpaces(s[1..]) else 0
  }

  /** Number of trailing whitespace characters. */
  function TrailingSpaces(s: string): (n: nat)
    ensures n <= |s|
    ensures forall k :: |s| - n <= k < |s| ==> IsSpace(s[k])
    ensures n < |s| ==> !IsSpace(s[|s| - n - 1])
  {
    if s != [] && IsSpace(s[|s| - 1]) then 1 + TrailingSpaces(s[..|s| - 1]) else 0
  }

  /** The bounds `trim` cuts at: after the leading and before the trailing whitespace. */
  lemma TrimBounds(s: string, lead: nat, stop: int)
    requires lead == LeadingSpaces(s)
    requires stop == |s| - TrailingSpaces(s[lead..])
    ensures lead <= stop <= |s|
    ensures forall k :: 0 <= k < lead ==> IsSpace(s[k])
    ensures forall k :: stop <= k < |s| ==> IsSpace(s[k])
    ensures lead < stop ==> !IsSpace(s[lead]) && !IsSpace(s[stop - 1])
    ensures lead == stop ==> forall k :: 0 <= k < |s| ==> IsSpace(s[k])
  {
    TrailingOfSuffix(s, lead);
  }

  /** The trailing whitespace of a suffix of `s`, in the positions of `s`. */
  lemma TrailingOfSuffix(s: string, lead: nat)
    requires lead <= |s|
    ensures forall k :: |s| - TrailingSpaces(s[lead..]) <= k < |s| ==> IsSpace(s[k])
    ensures lead < |s| - TrailingSpaces(s[lead..]) ==> !IsSpace(s[|s| - TrailingSpaces(s[lead..]) - 1])
  {
    var t := s[lead..];
    forall k | |s| - TrailingSpaces(t) <= k < |s| ensures IsSpace(s[k]) {
      assert s[k] == t[k - lead];
    }
    if lead < |s| - TrailingSpaces(t) {
      assert s[|s| - TrailingSpaces(t) - 1] == t[|t| - TrailingSpaces(t) - 1];
    }
  }

  /**
   * `s.trim()`: a slice of `s` whose ends are not whitespace; `TrimmedSliceUnique`
   * shows it is the slice with only whitespace before and after it.
   */
  function Trim(s: string): (r: string)
    ensures r != "" ==> !IsSpace(r[0]) && !IsSpace(r[|r| - 1])
    ensures r == "" <==> forall k :: 0 <= k < |s| ==> IsSpace(s[k])
    ensures exists i, j :: 0 <= i <= j <= |s| && r == s[i..j]
  {
    var t := s[LeadingSpaces(s)..];
    assert t[..|t| - TrailingSpaces(t)] == s[LeadingSpaces(s)..LeadingSpaces(s) + |t| - TrailingSpaces(t)];
    t[..|t| - TrailingSpaces(t)]
  }

  /** Any slice with whitespace outside it and none at its ends is what `trim` returns. */
  lemma TrimmedSliceUnique(s: string, i: int, j: int)
    requires 0 <= i <= j <= |s|
    requires forall k :: 0 <= k < i ==> IsSpace(s[k])
    requires forall k :: j <= k < |s| ==> IsSpace(s[k])
    requires i < j ==> !IsSpace(s[i]) && !IsSpace(s[j - 1])
    ensures Trim(s) == s[i..j]
  {
    var lead := LeadingSpaces(s);
    var stop := |s| - TrailingSpaces(s[lead..]);
    TrimBounds(s, lead, stop);
    if i < j {
      assert lead == i;
      assert stop == j;
    }
  }

  lemma TrimIdempotent(s: string)
    ensures Trim(Trim(s)) == Trim(s)
  {
    var t := Trim(s);
    if t != "" {
      assert LeadingSpaces(t) == 0;
      assert TrailingSpaces(t) == 0;
    }
  }

  // ---------------------------------------------------------------- replace

  /** `s.replace(pattern, replacement)` with a string pattern: only the first occurrence is replaced. */
  function ReplaceFirst(s: string, pattern: string, replacement: string): (r: string)
    requires pattern != ""
    ensures StartsWith(s, pattern) ==> r == replacement + s[|pattern|..]
    ensures !Contains(s, pattern) ==> r == s
    decreases |s|
  {
    if StartsWith(s, pattern) then
      assert OccursAt(s, pattern, 0);
      replacement + s[|pattern|..]
    else if s == [] then []
    else
      var rest := ReplaceFirst(s[1..], pattern, replacement);
      assert Contains(s[1..], pattern) ==> Contains(s, pattern) by {
        if Contains(s[1..], pattern) {
          var i :| 0 <= i <= |s[1..]| && OccursAt(s[1..], pattern, i);
          OccursInTail(s, pattern, i);
          assert OccursAt(s, pattern, i + 1);
        }
      }
      [s[0]] + rest
  }

  /** An occurrence in the tail is an occurrence one place later in the whole. */
  lemma OccursInTail(s: string, pattern: string, k: int)
    requires s != [] && k >= 0
    ensures OccursAt(s[1..], pattern, k) <==> OccursAt(s, pattern, k + 1)
  {
    if 0 <= k <= |s| - 1 - |pattern| {
      assert s[1..][k..k + |pattern|] == s[k + 1..k + 1 + |pattern|];
    }
  }

  /** Without the pattern at the front, `replace` keeps the first character and works on the rest. */
  lemma ReplaceFirstPastHead(s: string, pattern: string, replacement: string)
    requires pattern != "" && s != [] && !StartsWith(s, pattern)
    ensures ReplaceFirst(s, pattern, replacement) == [s[0]] + ReplaceFirst(s[1..], pattern, replacement)
  {
  }

  /** Splitting around position `i` commutes with dropping the first character. */
  lemma SplitAroundPastHead(s: string, pattern: string, replacement: string, t: string, i: int)
    requires 0 < i && i + |pattern| <= |s| && t == s[1..]
    ensures [s[0]] + (t[..i - 1] + replacement + t[i - 1 + |pattern|..]) == s[..i] + replacement + s[i + |pattern|..]
  {
    assert s[..i] == [s[0]] + t[..i - 1];
    assert s[i + |pattern|..] == t[i - 1 + |pattern|..];
  }

  /**
   * `replace` with a string pattern rewrites the first occurrence wherever it
   * lies, keeping the text before and after it.
   */
  lemma {:induction false} ReplaceFirstAtFirstOccurrence(s: string, pattern: string, replacement: string, i: int)
    requires pattern != ""
    requires OccursAt(s, pattern, i)
    requires forall k :: 0 <= k < i ==> !OccursAt(s, pattern, k)
    ensures ReplaceFirst(s, pattern, replacement) == s[..i] + replacement + s[i + |pattern|..]
    decreases |s|
  {
    if i == 0 {
      assert StartsWith(s, pattern);
      assert s[..0] == [];
    } else {
      assert !StartsWith(s, pattern) by {
        if StartsWith(s, pattern) { assert OccursAt(s, pattern, 0); }
      }
      var t := s[1..];
      OccursInTail(s, pattern, i - 1);
      forall k | 0 <= k < i - 1 ensures !OccursAt(t, pattern, k) {
        OccursInTail(s, pattern, k);
      }
      ReplaceFirstAtFirstOccurrence(t, pattern, replacement, i - 1);
      ReplaceFirstPastHead(s, pattern, replacement);
      SplitAroundPastHead(s, pattern, replacement, t, i);
    }
  }

  // ----------------------------------------------------------------- digits

  predicate IsDigit(c: char) { '0' <= c <= '9' }

  predicate AllDigits(s: string) { forall i :: 0 <= i < |s| ==> IsDigit(s[i]) }

  function DigitChar(d: nat): (c: char)
    requires d < 10
    ensures IsDigit(c)
  {
    ('0' as int + d) as char
  }

  function DigitValue(c: char): (d: nat)
    requires IsDigit(c)
    ensures d < 10 && DigitChar(d) == c
  {
    c as int - '0' as int
  }

  function Pow10(k: nat): (p: nat)
    ensures p >= 1
  {
    if k == 0 then 1 else 10 * Pow10(k - 1)
  }

  /** `n.toString()` for a non-negative integer: its decimal digits, most significant first. */
  function DecimalString(n: nat): (s: string)
    ensures |s| >= 1 && AllDigits(s)
  {
    if n < 10 then [DigitChar(n)] else DecimalString(n / 10) + [DigitChar(n % 10)]
  }

  /** The number a string of decimal digits denotes (the inverse of DecimalString). */
  function DecimalValue(s: string): nat
    requires AllDigits(s)
  {
    if s == [] then 0 else DecimalValue(s[..|s| - 1]) * 10 + DigitValue(s[|s| - 1])
  }

  lemma {:induction false} DecimalRoundTrip(n: nat)
    ensures DecimalValue(DecimalString(n)) == n
  {
    var s := DecimalString(n);
    if n >= 10 {
      assert s[..|s| - 1] == DecimalString(n / 10);
      DecimalRoundTrip(n / 10);
    }
  }

  lemma {:induction false} DecimalLength(n: nat, k: nat)
    requires Pow10(k) <= n < Pow10(k + 1)
    ensures |DecimalString(n)| == k + 1
  {
    if k > 0 {
      DecimalLength(n / 10, k - 1);
    }
  }

  lemma {:induction false} DecimalNoLeadingZero(n: nat)
    requires n > 0
    ensures DecimalString(n)[0] != '0'
  {
    if n >= 10 {
      DecimalNoLeadingZero(n / 10);
    }
  }

  // ------------------------------------------------------------- subsequences

  /** `a` is `b` with some elements left out, the rest kept in order (what `filter` returns). */
  predicate IsSubsequence<T(==)>(a: seq<T>, b: seq<T>)
    decreases |b|
  {
    if a == [] then true
    else if b == [] then false
    else if a[0] == b[0] then IsSubsequence(a[1..], b[1..])
    else IsSubsequence(a, b[1..])
  }

  /** Every prefix of a subsequence is a subsequence. */
  lemma {:induction false} PrefixOfSubsequence<T>(a: seq<T>, b: seq<T>, k: nat)
    requires IsSubsequence(a, b) && k <= |a|
    ensures IsSubsequence(a[..k], b)
    decreases |b|
  {
    if k > 0 && b != [] {
      if a[0] == b[0] {
        PrefixOfSubsequence(a[1..], b[1..], k - 1);
        assert a[..k][1..] == a[1..][..k - 1];
      } else {
        PrefixOfSubsequence(a, b[1..], k);
      }
    }
  }
}
