/**
  Removal of every occurrence of a fixed substring, with the semantics of
  Python's `s.replace(pat, '')`: one scan from left to right that deletes each
  occurrence it meets and resumes right after it, so occurrences never overlap
  and text that only becomes an occurrence after a deletion is kept.
 */
module Text {

  /** `pat` occurs in `s` starting at index `i`. */
  predicate OccursAt(s: string, pat: string, i: int) {
    0 <= i && i + |pat| <= |s| && s[i..i + |pat|] == pat
  }

  /** `pat` occurs somewhere in `s`. */
  predicate Contains(s: string, pat: string) {
    exists i | 0 <= i <= |s| - |pat| :: OccursAt(s, pat, i)
  }

  /** `s` with every non-overlapping occurrence of `pat` (found left to right) deleted. */
  function RemoveAll(s: string, pat: string): (r: string)
    requires pat != []
    ensures |r| <= |s|
    decreases |s|
  {
    if |s| < |pat| then s
    else if s[..|pat|] == pat then RemoveAll(s[|pat|..], pat)
    else [s[0]] + RemoveAll(s[1..], pat)
  }

  /** Concatenation is associative. */
  lemma ConcatAssoc(a: string, b: string, c: string)
    ensures a + (b + c) == (a + b) + c
  {
  }

  /** An occurrence in a suffix of `s` is an occurrence in `s`, shifted by the suffix's start. */
  lemma OccursInSuffix(s: string, pat: string, k: nat, i: int)
    requires k <= |s|
    ensures OccursAt(s[k..], pat, i) <==> 0 <= i && OccursAt(s, pat, i + k)
  {
    if 0 <= i && i + |pat| <= |s| - k {
      assert s[k..][i..i + |pat|] == s[i + k..i + k + |pat|];
    }
  }

  /** Nothing to delete: a string without `pat` is returned as it is. */
  lemma {:induction false} RemoveAllAbsent(s: string, pat: string)
    requires pat != []
    requires !Contains(s, pat)
    ensures RemoveAll(s, pat) == s
    decreases |s|
  {
    if |s| >= |pat| {
      assert !OccursAt(s, pat, 0);
      assert s[..|pat|] != pat;
      forall i ensures !OccursAt(s[1..], pat, i) {
        OccursInSuffix(s, pat, 1, i);
      }
      RemoveAllAbsent(s[1..], pat);
    }
  }

  /**
    The scan deletes the FIRST occurrence of `pat`, keeps what precedes it, and
    carries on after it. Together with RemoveAllAbsent this determines RemoveAll
    on every input: it is the find-and-skip loop of `str.replace`.
   */
  lemma {:induction false} RemoveAllFirst(s: string, pat: string, i: nat)
    requires pat != []
    requires OccursAt(s, pat, i)
    requires forall j :: 0 <= j < i ==> !OccursAt(s, pat, j)
    ensures RemoveAll(s, pat) == s[..i] + RemoveAll(s[i + |pat|..], pat)
    decreases i
  {
    if i == 0 {
      assert s[..|pat|] == pat;
    } else {
      var t := s[1..];
      assert !OccursAt(s, pat, 0);
      RemoveAllKeepsHead(s, pat);
      OccursInSuffix(s, pat, 1, i - 1);
      forall j | 0 <= j < i - 1 ensures !OccursAt(t, pat, j) {
        OccursInSuffix(s, pat, 1, j);
      }
      RemoveAllFirst(t, pat, i - 1);
      assert t[i - 1 + |pat|..] == s[i + |pat|..];
      assert [s[0]] + t[..i - 1] == s[..i];
      ConcatAssoc([s[0]], t[..i - 1], RemoveAll(s[i + |pat|..], pat));
    }
  }

  /** Every occurrence is deleted: a string that contains `pat` loses at least `|pat|` characters. */
  lemma {:induction false} RemoveAllShrinks(s: string, pat: string)
    requires pat != []
    requires Contains(s, pat)
    ensures |RemoveAll(s, pat)| <= |s| - |pat|
    decreases |s|
  {
    var i :| OccursAt(s, pat, i);
    if s[..|pat|] != pat {
      assert i != 0;
      OccursInSuffix(s, pat, 1, i - 1);
      assert OccursAt(s, pat, i - 1 + 1);
      assert 0 <= i - 1;
      assert OccursAt(s[1..], pat, i - 1);
      RemoveAllShrinks(s[1..], pat);
    }
  }

  /** The result equals the input exactly when there was nothing to delete. */
  lemma RemoveAllUnchangedIff(s: string, pat: string)
    requires pat != []
    ensures RemoveAll(s, pat) == s <==> !Contains(s, pat)
  {
    if Contains(s, pat) {
      RemoveAllShrinks(s, pat);
    } else {
      RemoveAllAbsent(s, pat);
    }
  }

  /** A string that lacks one of the characters of `pat` is returned as it is. */
  lemma RemoveAllMissingChar(s: string, pat: string, j: nat)
    requires j < |pat| && pat[j] !in s
    ensures RemoveAll(s, pat) == s
  {
    RemoveAllAbsent(s, pat);
  }

  /** An occurrence at the very start is deleted and the scan resumes after it. */
  lemma RemoveAllDropsHead(s: string, pat: string)
    requires pat != []
    ensures RemoveAll(pat + s, pat) == RemoveAll(s, pat)
  {
    var t := pat + s;
    assert t[..|pat|] == pat && t[|pat|..] == s;
  }

  /** Where no occurrence starts at the first character, that character is kept. */
  lemma RemoveAllKeepsHead(s: string, pat: string)
    requires pat != [] && s != [] && !OccursAt(s, pat, 0)
    ensures RemoveAll(s, pat) == [s[0]] + RemoveAll(s[1..], pat)
  {
    if |s| < |pat| {
      RemoveAllMissingShort(s[1..], pat);
      assert [s[0]] + s[1..] == s;
    }
  }

  /** A string shorter than `pat` is returned as it is. */
  lemma RemoveAllMissingShort(s: string, pat: string)
    requires pat != [] && |s| < |pat|
    ensures RemoveAll(s, pat) == s
  {
  }

  /** A prefix none of whose characters starts `pat` is kept as it is. */
  lemma {:induction false} RemoveAllKeepsPrefix(u: string, s: string, pat: string)
    requires pat != [] && pat[0] !in u
    ensures RemoveAll(u + s, pat) == u + RemoveAll(s, pat)
    decreases |u|
  {
    if u != [] {
      var t := u + s;
      assert t[0] == u[0] && t[1..] == u[1..] + s;
      assert !OccursAt(t, pat, 0) by {
        if |pat| <= |t| {
          assert t[..|pat|][0] == u[0] != pat[0];
        }
      }
      RemoveAllKeepsHead(t, pat);
      RemoveAllKeepsPrefix(u[1..], s, pat);
      assert RemoveAll(t, pat) == [u[0]] + RemoveAll(u[1..] + s, pat);
      ConcatAssoc([u[0]], u[1..], RemoveAll(s, pat));
      assert [u[0]] + u[1..] == u;
    } else {
      assert u + s == s;
    }
  }
}
