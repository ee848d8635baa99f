/** The Python `str` operations the portal URL assembly relies on:
    `str.endswith`, `str.count` and `str.replace`. */
module PyText {

  /** `s.endswith(suffix)` */
  predicate EndsWith(s: string, suffix: string): (r: bool)
    ensures r <==> exists front :: front + suffix == s
  {
    var r := |suffix| <= |s| && s[|s| - |suffix|..] == suffix;
    assert r ==> s[..|s| - |suffix|] + suffix == s;
    assert forall front :: front + suffix == s ==> (front + suffix)[|front|..] == suffix;
    r
  }

  /** A text ends with whatever is appended to it last. */
  lemma EndsWithConcat(s: string, suffix: string)
    ensures EndsWith(s + suffix, suffix)
  {
    assert (s + suffix)[|s|..] == suffix;
  }

  /** `pat` occurs in `s` starting at index `i`. */
  predicate MatchesAt(s: string, pat: string, i: int)
  {
    0 <= i && i + |pat| <= |s| && s[i..i + |pat|] == pat
  }

  /** `s.count(pat)` for a non-empty `pat`: the number of occurrences found by a
      left-to-right scan that skips over each occurrence it finds. */
  function Count(s: string, pat: string): (r: nat)
    requires pat != []
    ensures r * |pat| <= |s|
    decreases |s|
  {
    if |s| < |pat| then 0
    else if s[..|pat|] == pat then
      Distribute(Count(s[|pat|..], pat), |pat|);
      1 + Count(s[|pat|..], pat)
    else Count(s[1..], pat)
  }

  /** `s.replace(pat, rep)` for a non-empty `pat`: every occurrence found by the
      same left-to-right, non-overlapping scan is replaced, not only the last one. */
  function Replace(s: string, pat: string, rep: string): (r: string)
    requires pat != []
    ensures |rep| <= |pat| ==> |r| <= |s|
    ensures |rep| >= |pat| ==> |r| >= |s|
    decreases |s|
  {
    if |s| < |pat| then s
    else if s[..|pat|] == pat then rep + Replace(s[|pat|..], pat, rep)
    else [s[0]] + Replace(s[1..], pat, rep)
  }

  /** One more occurrence adds one more length change. */
  lemma Distribute(c: int, d: int)
    ensures (1 + c) * d == d + c * d
  {
  }

  /** Removing `p` characters `c` times. */
  lemma Negate(c: int, p: int)
    ensures c * (0 - p) == -(p * c)
  {
  }

  /** Each replaced occurrence changes the length by `|rep| - |pat|`. */
  lemma {:induction false} ReplaceLength(s: string, pat: string, rep: string)
    requires pat != []
    ensures |Replace(s, pat, rep)| == |s| + Count(s, pat) * (|rep| - |pat|)
    decreases |s|
  {
    if |s| < |pat| {
    } else if s[..|pat|] == pat {
      ReplaceLength(s[|pat|..], pat, rep);
      Distribute(Count(s[|pat|..], pat), |rep| - |pat|);
    } else {
      ReplaceLength(s[1..], pat, rep);
    }
  }

  /** A string in which `pat` never occurs is returned unchanged, and its count is zero. */
  lemma {:induction false} ReplaceWithoutMatch(s: string, pat: string, rep: string)
    requires pat != []
    requires forall i :: !MatchesAt(s, pat, i)
    ensures Replace(s, pat, rep) == s
    ensures Count(s, pat) == 0
    decreases |s|
  {
    if |s| >= |pat| {
      assert !MatchesAt(s, pat, 0);
      forall i ensures !MatchesAt(s[1..], pat, i) {
        if MatchesAt(s[1..], pat, i) {
          assert s[1..][i..i + |pat|] == s[i + 1..i + 1 + |pat|];
          assert MatchesAt(s, pat, i + 1);
        }
      }
      ReplaceWithoutMatch(s[1..], pat, rep);
    }
  }

  /** Dropping the first character of `pre` keeps the rest of it free of
      occurrences. */
  lemma NoMatchInTail(pre: string, t: string, pat: string)
    requires pre != []
    requires forall i :: 0 <= i < |pre| ==> !MatchesAt(pre + t, pat, i)
    ensures forall i :: 0 <= i < |pre[1..]| ==> !MatchesAt(pre[1..] + t, pat, i)
  {
    var s := pre + t;
    forall i | 0 <= i < |pre[1..]| ensures !MatchesAt(pre[1..] + t, pat, i) {
      assert s[1..] == pre[1..] + t;
      if MatchesAt(pre[1..] + t, pat, i) {
        assert s[1..][i..i + |pat|] == s[i + 1..i + 1 + |pat|];
        assert MatchesAt(s, pat, i + 1);
      }
    }
  }

  /** A text that ends with `pat` contains at least one occurrence: the scan
      either finds an earlier one or reaches the suffix. */
  lemma {:induction false} CountEndsWith(s: string, pat: string)
    requires pat != []
    requires EndsWith(s, pat)
    ensures Count(s, pat) >= 1
    decreases |s|
  {
    if s[..|pat|] != pat {
      assert |s| > |pat|;
      assert s[1..][|s[1..]| - |pat|..] == s[|s| - |pat|..];
      CountEndsWith(s[1..], pat);
    }
  }

  /** Removing every occurrence of a suffix `pat` removes at least that one,
      and `|pat|` characters for each. */
  lemma RemoveSuffixLength(s: string, pat: string)
    requires pat != []
    requires EndsWith(s, pat)
    ensures Count(s, pat) >= 1
    ensures |Replace(s, pat, "")| == |s| - |pat| * Count(s, pat)
  {
    CountEndsWith(s, pat);
    ReplaceLength(s, pat, "");
    Negate(Count(s, pat), |pat|);
  }

  /** A prefix in which no occurrence of `pat` starts is copied unchanged. */
  lemma {:induction false} ReplaceSkipsPrefix(pre: string, t: string, pat: string, rep: string)
    requires pat != []
    requires forall i :: 0 <= i < |pre| ==> !MatchesAt(pre + t, pat, i)
    ensures Replace(pre + t, pat, rep) == pre + Replace(t, pat, rep)
    ensures Count(pre + t, pat) == Count(t, pat)
    decreases |pre|
  {
    var s := pre + t;
    if pre != [] && |s| < |pat| {
      assert Replace(t, pat, rep) == t && Count(t, pat) == 0;
    } else if pre != [] {
      assert !MatchesAt(s, pat, 0);
      assert s[1..] == pre[1..] + t;
      NoMatchInTail(pre, t, pat);
      assert s[..|pat|] != pat by { assert s[0..0 + |pat|] == s[..|pat|]; }
      ReplaceSkipsPrefix(pre[1..], t, pat, rep);
      assert Replace(s, pat, rep) == [s[0]] + Replace(s[1..], pat, rep);
      assert Count(s, pat) == Count(s[1..], pat);
      assert [s[0]] + (pre[1..] + Replace(t, pat, rep)) == pre + Replace(t, pat, rep);
    } else {
      assert s == t;
    }
  }

  /** When the trailing occurrence of `pat` is the first one in `pre + pat`,
      replacing every occurrence is the same as replacing that suffix. */
  lemma ReplaceOnlyTrailing(pre: string, pat: string, rep: string)
    requires pat != []
    requires forall i :: 0 <= i < |pre| ==> !MatchesAt(pre + pat, pat, i)
    ensures Replace(pre + pat, pat, rep) == pre + rep
    ensures Count(pre + pat, pat) == 1
  {
    ReplaceSkipsPrefix(pre, pat, pat, rep);
    assert pat[..|pat|] == pat && pat[|pat|..] == [];
  }

  /** A first character that cannot start an occurrence is copied. */
  lemma ReplaceKeepsHead(c: char, t: string, pat: string, rep: string)
    requires pat != []
    requires c != pat[0] || (|pat| >= 2 && t != [] && t[0] != pat[1])
    ensures Replace([c] + t, pat, rep) == [c] + Replace(t, pat, rep)
  {
    var s := [c] + t;
    if |s| >= |pat| {
      assert s[..|pat|][0] == c;
      assert |pat| >= 2 ==> s[..|pat|][1] == t[0];
    }
    assert s[1..] == t;
  }

  /** An occurrence at the start is replaced and the scan resumes after it. */
  lemma ReplaceDropsHead(t: string, pat: string, rep: string)
    requires pat != []
    ensures Replace(pat + t, pat, rep) == rep + Replace(t, pat, rep)
  {
    assert (pat + t)[..|pat|] == pat && (pat + t)[|pat|..] == t;
  }

  /** A prefix that never contains the first character of `pat` is copied. */
  lemma ReplaceKeepsPrefix(pre: string, t: string, pat: string, rep: string)
    requires pat != []
    requires forall i :: 0 <= i < |pre| ==> pre[i] != pat[0]
    ensures Replace(pre + t, pat, rep) == pre + Replace(t, pat, rep)
  {
    forall i | 0 <= i < |pre| ensures !MatchesAt(pre + t, pat, i) {
      assert i + |pat| <= |pre + t| ==> (pre + t)[i..i + |pat|][0] == pre[i];
    }
    ReplaceSkipsPrefix(pre, t, pat, rep);
  }
}
