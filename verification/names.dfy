/**
 * Python string operations that the checkpoint-name code of the DeepSeek-V2
 * model relies on: `t in s`, `s.endswith(t)`, `s.replace(old, new)` (every
 * leftmost, non-overlapping occurrence) and `f'{n}'` for a natural number.
 */
module Names {

  /** `t` occurs in `s` starting at index `p`. */
  predicate OccursAt(s: string, t: string, p: int) {
    0 <= p && p + |t| <= |s| && s[p..p + |t|] == t
  }

  /** Python's `t in s`. */
  predicate Contains(s: string, t: string) {
    exists p | 0 <= p <= |s| - |t| :: OccursAt(s, t, p)
  }

  /** Python's `s.endswith(t)`. */
  predicate EndsWith(s: string, t: string) {
    |t| <= |s| && s[|s| - |t|..] == t
  }

  /** A string ends with whatever was appended to it. */
  lemma EndsWithAppend(a: string, t: string)
    ensures EndsWith(a + t, t)
  {
    assert (a + t)[|a + t| - |t|..] == t;
  }

  /**
   * Python's `s.replace(pat, rep)`: scans left to right and replaces every
   * occurrence that does not overlap an earlier replaced one.
   */
  function ReplaceAll(s: string, pat: string, rep: string): (r: string)
    requires pat != []
    ensures !Contains(s, pat) ==> r == s
    decreases |s|
  {
    if |s| < |pat| then s
    else if s[..|pat|] == pat then
      assert OccursAt(s, pat, 0);
      rep + ReplaceAll(s[|pat|..], pat, rep)
    else
      NotContainedInTail(s, pat);
      [s[0]] + ReplaceAll(s[1..], pat, rep)
  }

  /** A string that does not contain `t` has no tail that contains it. */
  lemma NotContainedInTail(s: string, t: string)
    requires |s| > 0
    ensures !Contains(s, t) ==> !Contains(s[1..], t)
  {
    if !Contains(s, t) && Contains(s[1..], t) {
      var p :| 0 <= p <= |s[1..]| - |t| && OccursAt(s[1..], t, p);
      assert s[p + 1..p + 1 + |t|] == s[1..][p..p + |t|];
      assert OccursAt(s, t, p + 1);
      assert false;
    }
  }

  /** No occurrence of `pat` in `a + b` starts inside `a` and ends inside `b`. */
  predicate NoStraddle(a: string, b: string, pat: string) {
    forall i | 0 <= i < |a| && |a| < i + |pat| :: !OccursAt(a + b, pat, i)
  }

  /** Dropping the first `k` characters of `a` keeps the seam free of straddling occurrences. */
  lemma NoStraddleShift(a: string, b: string, pat: string, k: nat)
    requires 0 < k <= |a| && NoStraddle(a, b, pat)
    ensures NoStraddle(a[k..], b, pat)
  {
    var t, s := a[k..], a + b;
    assert s[k..] == t + b;
    forall i | 0 <= i < |t| && |t| < i + |pat|
      ensures !OccursAt(t + b, pat, i)
    {
      if i + |pat| <= |t + b| {
        SliceOfSuffix(s, k, i, |pat|);
      }
      assert !OccursAt(s, pat, i + k);
    }
  }

  /** A slice of the suffix from `k` is the slice of the whole shifted by `k`. */
  lemma SliceOfSuffix(s: string, k: nat, i: nat, m: nat)
    requires k + i + m <= |s|
    ensures s[k..][i..i + m] == s[i + k..i + k + m]
  {
  }

  /** An occurrence at the front is replaced and the scan resumes after it. */
  lemma ReplaceAllFront(s: string, pat: string, rep: string)
    requires pat != [] && |pat| <= |s| && s[..|pat|] == pat
    ensures ReplaceAll(s, pat, rep) == rep + ReplaceAll(s[|pat|..], pat, rep)
  {
  }

  /** Without an occurrence at the front, the first character is kept. */
  lemma ReplaceAllKeep(s: string, pat: string, rep: string)
    requires pat != [] && |pat| <= |s| && s[..|pat|] != pat
    ensures ReplaceAll(s, pat, rep) == [s[0]] + ReplaceAll(s[1..], pat, rep)
  {
  }

  /** When `pat` occurs in `s`, the replacement shows up in the result. */
  lemma {:induction false} ReplaceAllShowsRep(s: string, pat: string, rep: string)
    requires pat != [] && Contains(s, pat)
    ensures Contains(ReplaceAll(s, pat, rep), rep)
    decreases |s|
  {
    if s[..|pat|] == pat {
      ReplaceAllFront(s, pat, rep);
      ContainsInFront(rep, ReplaceAll(s[|pat|..], pat, rep));
    } else {
      ContainsInTail(s, pat);
      ReplaceAllShowsRep(s[1..], pat, rep);
      ReplaceAllKeep(s, pat, rep);
      ContainsAfterCons(s[0], ReplaceAll(s[1..], pat, rep), rep);
    }
  }

  /** `t` occurs in `t + u`. */
  lemma ContainsInFront(t: string, u: string)
    ensures Contains(t + u, t)
  {
    assert (t + u)[..|t|] == t;
    assert OccursAt(t + u, t, 0);
  }

  /** An occurrence that is not at the front is an occurrence in the tail. */
  lemma ContainsInTail(s: string, t: string)
    requires t != [] && Contains(s, t) && s[..|t|] != t
    ensures Contains(s[1..], t)
  {
    var p :| 0 <= p <= |s| - |t| && OccursAt(s, t, p);
    SliceOfSuffix(s, 1, p - 1, |t|);
    assert OccursAt(s[1..], t, p - 1);
  }

  /** An occurrence survives putting a character in front. */
  lemma ContainsAfterCons(c: char, s: string, t: string)
    requires Contains(s, t)
    ensures Contains([c] + s, t)
  {
    var q :| 0 <= q <= |s| - |t| && OccursAt(s, t, q);
    assert ([c] + s)[q + 1..q + 1 + |t|] == s[q..q + |t|];
    assert OccursAt([c] + s, t, q + 1);
  }

  /** Replacing in a concatenation replaces in each part when no occurrence straddles the seam. */
  lemma {:induction false} ReplaceAllAppend(a: string, b: string, pat: string, rep: string)
    requires pat != [] && NoStraddle(a, b, pat)
    ensures ReplaceAll(a + b, pat, rep) == ReplaceAll(a, pat, rep) + ReplaceAll(b, pat, rep)
    decreases |a|
  {
    var s := a + b;
    if a == [] {
      assert s == b;
    } else if |s| < |pat| {
      assert |b| < |pat|;
    } else if s[..|pat|] == pat {
      if |pat| > |a| {
        assert OccursAt(s, pat, 0);
        assert false;
      }
      assert a[..|pat|] == pat;
      assert s[|pat|..] == a[|pat|..] + b;
      NoStraddleShift(a, b, pat, |pat|);
      ReplaceAllAppend(a[|pat|..], b, pat, rep);
      ReplaceAllFront(s, pat, rep);
      ReplaceAllFront(a, pat, rep);
    } else {
      assert s[1..] == a[1..] + b;
      NoStraddleShift(a, b, pat, 1);
      ReplaceAllAppend(a[1..], b, pat, rep);
      ReplaceAllKeep(s, pat, rep);
      if |a| < |pat| {
        assert ReplaceAll(a[1..], pat, rep) == a[1..];
        assert ReplaceAll(a, pat, rep) == a;
        assert [a[0]] + a[1..] == a;
      } else {
        assert a[..|pat|] == s[..|pat|];
        ReplaceAllKeep(a, pat, rep);
      }
    }
  }

  /**
   * When `x` does not contain `pat` and the first character of `pat` does not
   * recur in it (true of `.weight`, `.scale`, `.weight_scale_inv`), replacing
   * `pat` in `x + pat` swaps the suffix and leaves `x` alone.
   */
  lemma ReplaceSuffix(x: string, pat: string, rep: string)
    requires pat != [] && pat[0] !in pat[1..] && !Contains(x, pat)
    ensures ReplaceAll(x + pat, pat, rep) == x + rep
  {
    ReplaceAtEnd(x, pat, rep);
  }

  /**
   * Whatever `x` holds, an occurrence of `pat` (whose first character does
   * not recur in it) at the very end is replaced, after the replacements
   * inside `x`: no occurrence straddles the seam.
   */
  lemma ReplaceAtEnd(x: string, pat: string, rep: string)
    requires pat != [] && pat[0] !in pat[1..]
    ensures ReplaceAll(x + pat, pat, rep) == ReplaceAll(x, pat, rep) + rep
  {
    forall i | 0 <= i < |x| && |x| < i + |pat|
      ensures !OccursAt(x + pat, pat, i)
    {
      var d := |x| - i;
      assert pat[d] == pat[1..][d - 1];
      assert pat[d] != pat[0];
      assert (x + pat)[i..i + |pat|][d] == (x + pat)[|x|] == pat[0];
    }
    ReplaceAllAppend(x, pat, pat, rep);
    assert pat[..|pat|] == pat;
    assert pat[|pat|..] == [];
  }

  /**
   * The same for an occurrence in the middle: when neither `x` nor `y`
   * contains `pat` (and `pat[0]` does not recur in it), replacing `pat` in
   * `x + pat + y` swaps that one occurrence.
   */
  lemma ReplaceInfix(x: string, pat: string, y: string, rep: string)
    requires pat != [] && pat[0] !in pat[1..] && !Contains(x, pat) && !Contains(y, pat)
    ensures ReplaceAll(x + pat + y, pat, rep) == x + rep + y
  {
    var s := x + pat + y;
    forall i | 0 <= i < |x + pat| && |x + pat| < i + |pat|
      ensures !OccursAt(s, pat, i)
    {
      var d := i - |x|;
      assert 1 <= d < |pat|;
      assert s[i] == (x + pat)[i] == pat[d] == pat[1..][d - 1];
    }
    assert s == (x + pat) + y;
    ReplaceAllAppend(x + pat, y, pat, rep);
    ReplaceSuffix(x, pat, rep);
  }

  /** The decimal digit for `d`. */
  function Digit(d: nat): (c: char)
    requires d < 10
    ensures '0' <= c <= '9'
  {
    ('0' as int + d) as char
  }

  predicate IsDigits(s: string) {
    forall i | 0 <= i < |s| :: '0' <= s[i] <= '9'
  }

  /** Python's `str(n)` (and `f'{n}'`) for a natural number. */
  function NatToString(n: nat): (s: string)
    ensures |s| >= 1 && IsDigits(s)
    ensures n >= 10 ==> |s| >= 2
  {
    if n < 10 then [Digit(n)] else NatToString(n / 10) + [Digit(n % 10)]
  }

  /**
   * Decimal strings are ordered by prefix: if the digits of `a` begin the
   * digits of `b` then `a <= b`, and equal digit strings mean equal numbers.
   */
  lemma {:induction false} DecimalPrefixLe(a: nat, b: nat)
    requires |NatToString(a)| <= |NatToString(b)|
    requires NatToString(b)[..|NatToString(a)|] == NatToString(a)
    ensures a <= b
    ensures |NatToString(a)| == |NatToString(b)| ==> a == b
  {
    var sa, sb := NatToString(a), NatToString(b);
    if b < 10 {
      assert sa[0] == sb[0];
    } else if |sa| == |sb| {
      assert sa == sb;
      assert a >= 10;
      assert NatToString(a / 10) == sa[..|sa| - 1];
      assert NatToString(b / 10) == sb[..|sb| - 1];
      DecimalPrefixLe(a / 10, b / 10);
      assert Digit(a % 10) == sa[|sa| - 1] == Digit(b % 10);
    } else {
      var sb' := NatToString(b / 10);
      assert sb == sb' + [Digit(b % 10)];
      assert sb'[..|sa|] == sa;
      DecimalPrefixLe(a, b / 10);
    }
  }
}
