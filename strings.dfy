/** The few Java string operations the mojo relies on, over Dafny strings. */
module Strings {

  /** Java's `String.endsWith`: the last `|suffix|` characters of `s` are `suffix`. */
  predicate EndsWith(s: string, suffix: string) {
    |suffix| <= |s| && s[|s| - |suffix|..] == suffix
  }

  /** `pat` occurs in `text` starting at position `i`. */
  predicate OccursAt(text: string, i: int, pat: string) {
    0 <= i && i + |pat| <= |text| && text[i..i + |pat|] == pat
  }

  /** Substring search that scans `text` from the left, as an unanchored match
      of a literal pattern does. */
  predicate Contains(text: string, pat: string)
    decreases |text|
  {
    |pat| <= |text| && (text[..|pat|] == pat || Contains(text[1..], pat))
  }

  /** The scan finds `pat` exactly when `pat` occurs somewhere in `text`. */
  lemma {:induction false} ContainsIff(text: string, pat: string)
    ensures Contains(text, pat) <==> exists i :: OccursAt(text, i, pat)
    decreases |text|
  {
    if |pat| <= |text| {
      if text[..|pat|] == pat {
        assert OccursAt(text, 0, pat);
      } else {
        ContainsIff(text[1..], pat);
        forall i | OccursAt(text, i, pat)
          ensures OccursAt(text[1..], i - 1, pat)
        {
          assert text[1..][i - 1..i - 1 + |pat|] == text[i..i + |pat|];
        }
        forall j | OccursAt(text[1..], j, pat)
          ensures OccursAt(text, j + 1, pat)
        {
          assert text[1..][j..j + |pat|] == text[j + 1..j + 1 + |pat|];
        }
      }
    }
  }

  /** A string contains each of its infixes. */
  lemma ContainsInfix(a: string, b: string, c: string)
    ensures Contains(a + b + c, b)
  {
    assert (a + b + c)[|a|..|a| + |b|] == b;
    assert OccursAt(a + b + c, |a|, b);
    ContainsIff(a + b + c, b);
  }

  /** A string ends with whatever was appended last. */
  lemma EndsWithAppended(a: string, b: string)
    ensures EndsWith(a + b, b)
  {
    assert (a + b)[|a + b| - |b|..] == b;
  }

  /** A string occurs at the start of anything it is extended by. */
  lemma OccursAtStart(a: string, b: string)
    ensures OccursAt(a + b, 0, a)
  {
    assert (a + b)[..|a|] == a;
  }

  /** What is appended occurs right after what it is appended to. */
  lemma OccursAtEnd(a: string, b: string)
    ensures OccursAt(a + b, |a|, b)
  {
    assert (a + b)[|a|..|a| + |b|] == b;
  }

  /** An occurrence survives appending. */
  lemma OccursExtended(text: string, i: int, pat: string, more: string)
    requires OccursAt(text, i, pat)
    ensures OccursAt(text + more, i, pat)
  {
    assert (text + more)[i..i + |pat|] == text[i..i + |pat|];
  }

  /** An occurrence inside an occurrence is an occurrence. */
  lemma OccursWithin(text: string, i: int, outer: string, j: int, pat: string)
    requires OccursAt(text, i, outer) && OccursAt(outer, j, pat)
    ensures OccursAt(text, i + j, pat)
  {
    forall k | 0 <= k < |pat|
      ensures text[i + j + k] == pat[k]
    {
      assert outer[j + k] == pat[k];
      assert text[i + (j + k)] == outer[j + k];
    }
    assert text[i + j..i + j + |pat|] == pat;
  }
}
