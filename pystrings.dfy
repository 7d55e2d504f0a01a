/**
 * The Python string operations the file-name derivations use, with their exact semantics:
 * str.replace (every non-overlapping occurrence, left to right), str.rsplit(sep, 1)[0]
 * and str.endswith.
 */
module PyStrings {
  import opened Wrappers

  /** `pat` occurs in `s` starting at index `i`. */
  predicate OccursAt(s: string, pat: string, i: int) {
    0 <= i && i + |pat| <= |s| && s[i..i + |pat|] == pat
  }

  predicate Contains(s: string, pat: string) {
    exists i :: 0 <= i <= |s| && OccursAt(s, pat, i)
  }

  /** No proper prefix of `pat` is also a suffix of it, so two occurrences never overlap. */
  predicate Unbordered(pat: string) {
    forall k :: 0 < k < |pat| ==> pat[..k] != pat[|pat| - k..]
  }

  /** A pattern whose first character appears nowhere else in it has no border. */
  lemma UniqueHeadUnbordered(pat: string)
    requires |pat| > 0
    requires forall i :: 0 < i < |pat| ==> pat[i] != pat[0]
    ensures Unbordered(pat)
  {
    forall k | 0 < k < |pat|
      ensures pat[..k] != pat[|pat| - k..]
    {
      assert pat[|pat| - k..][0] == pat[|pat| - k];
    }
  }

  /** Python's `s.replace(pat, rep)`. */
  function ReplaceAll(s: string, pat: string, rep: string): string
    requires |pat| > 0
    decreases |s|
  {
    if |s| < |pat| then s
    else if s[..|pat|] == pat then rep + ReplaceAll(s[|pat|..], pat, rep)
    else [s[0]] + ReplaceAll(s[1..], pat, rep)
  }

  /** A string shorter than the pattern cannot contain it. */
  lemma ShortAbsent(s: string, pat: string)
    requires |s| < |pat|
    ensures !Contains(s, pat)
  {
  }

  /** Replacing a pattern that does not occur leaves the string as it is. */
  lemma {:induction false} ReplaceAllAbsent(s: string, pat: string, rep: string)
    requires |pat| > 0
    requires !Contains(s, pat)
    ensures ReplaceAll(s, pat, rep) == s
  {
    if |s| >= |pat| {
      assert !OccursAt(s, pat, 0);
      assert s[..|pat|] != pat;
      AbsentInTail(s, pat);
      ReplaceAllAbsent(s[1..], pat, rep);
      assert [s[0]] + s[1..] == s;
    }
  }

  /** A string free of `pat` stays free of it when its first character is dropped. */
  lemma AbsentInTail(s: string, pat: string)
    requires |s| > 0
    requires !Contains(s, pat)
    ensures !Contains(s[1..], pat)
  {
    forall i | 0 <= i <= |s[1..]| && OccursAt(s[1..], pat, i)
      ensures false
    {
      assert s[1..][i..i + |pat|] == s[i + 1..i + 1 + |pat|];
      assert OccursAt(s, pat, i + 1);
    }
  }

  /**
   * An unbordered pattern cannot start inside a non-empty prefix free of it and end in
   * the occurrence that follows that prefix.
   */
  lemma NoEarlierOccurrence(base: string, pat: string, rest: string)
    requires |pat| > 0 && |base| > 0
    requires Unbordered(pat)
    requires !Contains(base, pat)
    ensures (base + pat + rest)[..|pat|] != pat
  {
    var s := base + pat + rest;
    if |base| >= |pat| {
      assert s[..|pat|] == base[..|pat|];
      assert !OccursAt(base, pat, 0);
    } else {
      var k := |pat| - |base|;
      assert pat[..k] != pat[|pat| - k..];
      assert s[|base|..|pat|] == pat[..k];
    }
  }

  /**
   * The first occurrence of an unbordered pattern after a stretch free of it is replaced,
   * and replacement carries on after it: the heart of every derived scan file name.
   */
  lemma {:induction false} ReplaceAllAfter(base: string, pat: string, rep: string, rest: string)
    requires |pat| > 0
    requires Unbordered(pat)
    requires !Contains(base, pat)
    ensures ReplaceAll(base + pat + rest, pat, rep) == base + rep + ReplaceAll(rest, pat, rep)
  {
    var s := base + pat + rest;
    if |base| == 0 {
      assert s == pat + rest;
      assert s[..|pat|] == pat;
      assert s[|pat|..] == rest;
    } else {
      NoEarlierOccurrence(base, pat, rest);
      assert ReplaceAll(s, pat, rep) == [s[0]] + ReplaceAll(s[1..], pat, rep);
      assert s[1..] == base[1..] + pat + rest;
      AbsentInTail(base, pat);
      ReplaceAllAfter(base[1..], pat, rep, rest);
      assert s[0] == base[0];
      assert [base[0]] + base[1..] == base;
      assert [base[0]] + (base[1..] + rep + ReplaceAll(rest, pat, rep)) == base + rep + ReplaceAll(rest, pat, rep);
    }
  }

  /** The suffix case: a name that ends in the pattern and has no other occurrence of it. */
  lemma ReplaceAllSuffix(base: string, pat: string, rep: string)
    requires |pat| > 0
    requires Unbordered(pat)
    requires !Contains(base, pat)
    ensures ReplaceAll(base + pat, pat, rep) == base + rep
  {
    ReplaceAllAfter(base, pat, rep, []);
    assert base + pat + [] == base + pat;
  }

  /** An occurrence of a string contains an occurrence of each of its suffixes. */
  lemma ContainsSuffixOf(s: string, front: string, back: string)
    requires Contains(s, front + back)
    ensures Contains(s, back)
  {
    var i :| 0 <= i <= |s| && OccursAt(s, front + back, i);
    assert s[i + |front|..i + |front| + |back|] == (front + back)[|front|..];
    assert OccursAt(s, back, i + |front|);
  }

  /** The largest index `i <= upto` at which `pat` occurs in `s`. */
  function LastIndex(s: string, pat: string, upto: int): (r: Option<nat>)
    ensures r.Some? ==> r.value <= upto && OccursAt(s, pat, r.value)
    ensures r.Some? ==> forall j :: r.value < j <= upto ==> !OccursAt(s, pat, j)
    ensures r.None? ==> forall j :: j <= upto ==> !OccursAt(s, pat, j)
    decreases upto
  {
    if upto < 0 then None
    else if OccursAt(s, pat, upto) then Some(upto)
    else LastIndex(s, pat, upto - 1)
  }

  /** Python's `s.rsplit(sep, 1)[0]`: the text before the last occurrence of `sep`, or all of `s`. */
  function RSplitHead(s: string, sep: string): (h: string)
    requires |sep| > 0
    ensures Contains(s, sep) ==>
      exists i :: OccursAt(s, sep, i) && h == s[..i] && (forall j :: i < j ==> !OccursAt(s, sep, j))
    ensures !Contains(s, sep) ==> h == s
  {
    match LastIndex(s, sep, |s| - |sep|)
    case Some(i) => s[..i]
    case None => s
  }

  /** Stripping the last ".json": a name ending in the separator loses exactly that suffix. */
  lemma RSplitHeadOfSuffixed(base: string, sep: string)
    requires |sep| > 0
    ensures RSplitHead(base + sep, sep) == base
  {
    var s := base + sep;
    assert OccursAt(s, sep, |base|);
    assert LastIndex(s, sep, |s| - |sep|) == Some(|base|);
    assert s[..|base|] == base;
  }

  /** Python's `s.endswith(suffix)`. */
  predicate EndsWith(s: string, suffix: string) {
    |suffix| <= |s| && s[|s| - |suffix|..] == suffix
  }
}
