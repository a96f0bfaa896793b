/**
 * String utilities the provider relies on: JavaScript's default string order,
 * decimal rendering of integers, suffix stripping, trailing-character trimming
 * and first-match replacement.
 */
module Text {

  /** JavaScript's `<` on strings: lexicographic by character code, a proper
      prefix coming first. */
  predicate Less(a: string, b: string)
    decreases |a|
  {
    if |a| == 0 then |b| > 0
    else if |b| == 0 then false
    else a[0] < b[0] || (a[0] == b[0] && Less(a[1..], b[1..]))
  }

  lemma LessIrreflexive(a: string)
    ensures !Less(a, a)
  {
  }

  lemma {:induction false} LessAsymmetric(a: string, b: string)
    ensures !(Less(a, b) && Less(b, a))
    decreases |a|
  {
    if |a| > 0 && |b| > 0 && a[0] == b[0] {
      LessAsymmetric(a[1..], b[1..]);
    }
  }

  /** Any two different strings are ordered one way or the other. */
  lemma {:induction false} LessTotal(a: string, b: string)
    requires a != b
    ensures Less(a, b) || Less(b, a)
    decreases |a|
  {
    if |a| > 0 && |b| > 0 && a[0] == b[0] {
      assert a == [a[0]] + a[1..] && b == [b[0]] + b[1..];
      LessTotal(a[1..], b[1..]);
    }
  }

  lemma {:induction false} LessTransitive(a: string, b: string, c: string)
    requires Less(a, b) && Less(b, c)
    ensures Less(a, c)
    decreases |a|
  {
    if |a| > 0 && a[0] == b[0] && b[0] == c[0] {
      LessTransitive(a[1..], b[1..], c[1..]);
    }
  }

  // ---------------------------------------------------------------- decimals

  predicate IsDigit(c: char) { '0' <= c <= '9' }

  predicate AllDigits(s: string) { forall i :: 0 <= i < |s| ==> IsDigit(s[i]) }

  function DigitChar(d: nat): (c: char)
    requires d < 10
    ensures IsDigit(c)
  {
    (48 + d) as char
  }

  function DigitValue(c: char): (d: nat)
    requires IsDigit(c)
    ensures d < 10
  {
    c as int - 48
  }

  /** `Number.prototype.toString()` of a non-negative integer: base ten with
      no leading zero. */
  function Decimal(n: nat): (s: string)
    ensures |s| >= 1 && AllDigits(s)
    ensures s[0] == '0' ==> n == 0
    decreases n
  {
    if n < 10 then [DigitChar(n)] else Decimal(n / 10) + [DigitChar(n % 10)]
  }

  /** The number a string of digits denotes: the reference meaning of
      `Decimal`. */
  function DecimalValue(s: string): nat
    requires AllDigits(s)
    decreases |s|
  {
    if |s| == 0 then 0 else 10 * DecimalValue(s[..|s| - 1]) + DigitValue(s[|s| - 1])
  }

  /** Reading back a rendered number gives the number. */
  lemma {:induction false} DecimalRoundTrip(n: nat)
    ensures DecimalValue(Decimal(n)) == n
    decreases n
  {
    if n >= 10 {
      var s := Decimal(n);
      DecimalRoundTrip(n / 10);
      assert s[..|s| - 1] == Decimal(n / 10);
    }
  }

  /** Different numbers render differently. */
  lemma DecimalInjective(m: nat, n: nat)
    requires Decimal(m) == Decimal(n)
    ensures m == n
  {
    DecimalRoundTrip(m);
    DecimalRoundTrip(n);
  }

  /** `String(i)` for any integer: a minus sign before the magnitude. */
  function IntString(i: int): (s: string)
    ensures i >= 0 ==> s == Decimal(i)
    ensures i < 0 ==> s == "-" + Decimal(-i)
  {
    if i >= 0 then Decimal(i) else "-" + Decimal(-i)
  }

  // ------------------------------------------------------- suffix and padding

  predicate EndsWith(s: string, suffix: string)
  {
    |suffix| <= |s| && s[|s| - |suffix|..] == suffix
  }

  /** `s.replace(/<suffix>$/, '')`: removes one occurrence of the suffix at the
      very end, and nothing otherwise. */
  function StripSuffix(s: string, suffix: string): (r: string)
    ensures EndsWith(s, suffix) ==> r + suffix == s
    ensures !EndsWith(s, suffix) ==> r == s
  {
    if EndsWith(s, suffix) then s[..|s| - |suffix|] else s
  }

  lemma StripSuffixOfAppended(t: string, suffix: string)
    ensures StripSuffix(t + suffix, suffix) == t
  {
    assert (t + suffix)[|t + suffix| - |suffix|..] == suffix;
  }

  /** `s.replace(/[c]+$/, '')`: drops every trailing `c`. */
  function TrimTrailing(s: string, c: char): (r: string)
    ensures r <= s
    ensures |r| == 0 || r[|r| - 1] != c
    ensures forall i :: |r| <= i < |s| ==> s[i] == c
    decreases |s|
  {
    if |s| > 0 && s[|s| - 1] == c then TrimTrailing(s[..|s| - 1], c) else s
  }

  // ----------------------------------------------------- first-match replace

  /** `pat` occurs in `s` starting at index `i`. */
  predicate OccursAt(s: string, pat: string, i: int)
  {
    0 <= i && i + |pat| <= |s| && s[i..i + |pat|] == pat
  }

  /** `i` is the leftmost index where `pat` occurs in `s`. */
  predicate FirstOccurrence(s: string, pat: string, i: int)
  {
    OccursAt(s, pat, i) && forall j :: 0 <= j < i ==> !OccursAt(s, pat, j)
  }

  /** `s.replace(/pat/, rep)` for a pattern with no special characters and a
      replacement with no `$` patterns: only the leftmost match is replaced. */
  function ReplaceFirst(s: string, pat: string, rep: string): (r: string)
    requires |pat| > 0
    ensures (forall i :: !OccursAt(s, pat, i)) ==> r == s
    ensures forall i :: FirstOccurrence(s, pat, i) ==> r == s[..i] + rep + s[i + |pat|..]
    decreases |s|
  {
    if |s| < |pat| then s
    else if s[..|pat|] == pat then assert OccursAt(s, pat, 0); rep + s[|pat|..]
    else
      var tail := ReplaceFirst(s[1..], pat, rep);
      ReplaceFirstStep(s, pat, rep, tail);
      [s[0]] + tail
  }

  /** Occurrences in `s[1..]` are occurrences in `s`, one index later. */
  lemma OccursShift(s: string, pat: string, i: int)
    requires |s| > 0 && 0 <= i
    ensures OccursAt(s[1..], pat, i) <==> OccursAt(s, pat, i + 1)
  {
    if i + |pat| <= |s| - 1 {
      assert s[1..][i..i + |pat|] == s[i + 1..i + 1 + |pat|];
    }
  }

  /** The recursive case of `ReplaceFirst`: its contract for `s[1..]` gives
      its contract for `s`. */
  lemma ReplaceFirstStep(s: string, pat: string, rep: string, tail: string)
    requires |pat| > 0 && |s| >= |pat| && s[..|pat|] != pat
    requires (forall i :: !OccursAt(s[1..], pat, i)) ==> tail == s[1..]
    requires forall k :: FirstOccurrence(s[1..], pat, k) ==> tail == s[1..][..k] + rep + s[1..][k + |pat|..]
    ensures (forall i :: !OccursAt(s, pat, i)) ==> [s[0]] + tail == s
    ensures forall i :: FirstOccurrence(s, pat, i) ==> [s[0]] + tail == s[..i] + rep + s[i + |pat|..]
  {
    if forall i :: !OccursAt(s, pat, i) {
      ReplaceFirstAbsent(s, pat);
    }
    forall i | FirstOccurrence(s, pat, i)
      ensures [s[0]] + tail == s[..i] + rep + s[i + |pat|..]
    {
      ReplaceFirstPresent(s, pat, rep, i, tail);
    }
  }

  /** The recursive case of `ReplaceFirst` when `pat` does not occur. */
  lemma ReplaceFirstAbsent(s: string, pat: string)
    requires |s| > 0
    requires forall i :: !OccursAt(s, pat, i)
    ensures forall i :: !OccursAt(s[1..], pat, i)
  {
    forall i | 0 <= i
      ensures !OccursAt(s[1..], pat, i)
    {
      OccursShift(s, pat, i);
    }
  }

  /** The recursive case of `ReplaceFirst` when `pat` first occurs at `i`. */
  lemma ReplaceFirstPresent(s: string, pat: string, rep: string, i: int, tail: string)
    requires |pat| > 0 && |s| >= |pat| && s[..|pat|] != pat
    requires FirstOccurrence(s, pat, i)
    requires forall k :: FirstOccurrence(s[1..], pat, k) ==> tail == s[1..][..k] + rep + s[1..][k + |pat|..]
    ensures [s[0]] + tail == s[..i] + rep + s[i + |pat|..]
  {
    var t := s[1..];
    FirstShift(s, pat, i);
    assert tail == t[..i - 1] + rep + t[i - 1 + |pat|..];
    assert s[..i] == [s[0]] + t[..i - 1];
    assert s[i + |pat|..] == t[i - 1 + |pat|..];
  }

  lemma FirstShift(s: string, pat: string, i: int)
    requires |pat| > 0 && |s| >= |pat| && s[..|pat|] != pat
    requires FirstOccurrence(s, pat, i)
    ensures i >= 1 && FirstOccurrence(s[1..], pat, i - 1)
  {
    assert i != 0;
    OccursShift(s, pat, i - 1);
    forall j | 0 <= j < i - 1
      ensures !OccursAt(s[1..], pat, j)
    {
      OccursShift(s, pat, j);
    }
  }

  // ------------------------------------------------------------ searching

  /** Index of the first `c` in `s`, or `|s|` when there is none. */
  function IndexOf(s: string, c: char): (i: nat)
    ensures i <= |s|
    decreases |s|
  {
    if |s| == 0 then 0 else if s[0] == c then 0 else 1 + IndexOf(s[1..], c)
  }

  lemma {:induction false} IndexOfAfterPrefix(k: string, rest: string, c: char)
    requires c !in k && |rest| > 0 && rest[0] == c
    ensures IndexOf(k + rest, c) == |k|
    decreases |k|
  {
    if |k| > 0 {
      assert (k + rest)[1..] == k[1..] + rest;
      IndexOfAfterPrefix(k[1..], rest, c);
    } else {
      assert k + rest == rest;
    }
  }

  /** `IndexOf` stops at the first occurrence. */
  lemma {:induction false} IndexOfFinds(s: string, c: char)
    ensures IndexOf(s, c) < |s| ==> s[IndexOf(s, c)] == c
    ensures c !in s[..IndexOf(s, c)]
    decreases |s|
  {
    if |s| > 0 && s[0] != c {
      IndexOfFinds(s[1..], c);
      assert s[..IndexOf(s, c)] == [s[0]] + s[1..][..IndexOf(s[1..], c)];
    }
  }
}
