/**
  The `System.String` operations the REST clients use, for an in-range start
  index: `IndexOf(pattern, startIndex)`, `Contains` and a single-character
  `Replace`. `Contains` and `Replace` compare ordinally in .NET. `IndexOf`
  of a string with no comparison argument, one-character patterns such as
  `"\""` included, is culture-sensitive there; it is modelled by ordinal
  search, which agrees with it on text without ignorable or combining
  characters.
 */
module Strings {

  /** `pat` occurs in `s` at index `k`. */
  predicate MatchAt(s: string, pat: string, k: int)
  {
    0 <= k && k + |pat| <= |s| && s[k..k + |pat|] == pat
  }

  /** `s.IndexOf(pat, from)`: the first index at or after `from` where `pat`
      occurs, or -1 when there is none. (.NET throws for a start index
      outside [0, |s|]; callers that can pass one model that themselves.) */
  function IndexFrom(s: string, pat: string, from: nat): (r: int)
    requires from <= |s|
    ensures r == -1 || (from <= r && MatchAt(s, pat, r))
    ensures forall k :: from <= k && (r == -1 || k < r) ==> !MatchAt(s, pat, k)
    decreases |s| - from
  {
    if from + |pat| > |s| then -1
    else if s[from..from + |pat|] == pat then from
    else IndexFrom(s, pat, from + 1)
  }

  /** `s.IndexOf(c, from)` for a one-character pattern. */
  function IndexOfChar(s: string, c: char, from: nat): (r: int)
    requires from <= |s|
    ensures r == -1 || (from <= r < |s| && s[r] == c)
    ensures forall k :: from <= k < |s| && (r == -1 || k < r) ==> s[k] != c
    decreases |s| - from
  {
    if from == |s| then -1 else if s[from] == c then from else IndexOfChar(s, c, from + 1)
  }

  /** It agrees with the general search for the one-character string. */
  lemma IndexOfCharIsIndexFrom(s: string, c: char, from: nat)
    requires from <= |s|
    ensures IndexOfChar(s, c, from) == IndexFrom(s, [c], from)
  {
    var r := IndexOfChar(s, c, from);
    forall k | from <= k && (r == -1 || k < r)
      ensures !MatchAt(s, [c], k)
    {
      MatchAtChar(s, c, k);
    }
    if r != -1 {
      MatchAtChar(s, c, r);
      IndexFromAt(s, [c], from, r);
    } else {
      assert IndexFrom(s, [c], from) == -1;
    }
  }

  /** `s.Contains(pat)`. */
  predicate Contains(s: string, pat: string)
  {
    IndexFrom(s, pat, 0) != -1
  }

  lemma ContainsIff(s: string, pat: string)
    ensures Contains(s, pat) <==> exists k :: MatchAt(s, pat, k)
  {
    if k :| MatchAt(s, pat, k) {
      assert 0 <= k;
    }
  }

  lemma MatchAtChar(s: string, c: char, k: int)
    ensures MatchAt(s, [c], k) <==> 0 <= k < |s| && s[k] == c
  {
    if 0 <= k < |s| {
      assert s[k..k + 1] == [s[k]];
    }
  }

  /** `IndexOf` finds `pat` at `k` when it occurs there and nowhere in
      between. */
  lemma IndexFromAt(s: string, pat: string, from: nat, k: int)
    requires from <= k && from <= |s|
    requires MatchAt(s, pat, k)
    requires forall j :: from <= j < k ==> !MatchAt(s, pat, j)
    ensures IndexFrom(s, pat, from) == k
  {
  }

  /** Joining three pieces with commas does not depend on the grouping. */
  lemma CommaAssoc(h: string, t: string, x: string)
    ensures h + "," + (t + "," + x) == (h + "," + t) + "," + x
  {
  }

  /** Starting the search later, but not past the match, finds the same match. */
  lemma IndexFromLater(s: string, pat: string, from: nat, later: nat)
    requires from <= later <= |s| && later <= IndexFrom(s, pat, from)
    ensures IndexFrom(s, pat, later) == IndexFrom(s, pat, from)
  {
    IndexFromAt(s, pat, later, IndexFrom(s, pat, from));
  }

  /** A pattern is absent from a string that lacks one of its characters. */
  lemma NotContainsWithout(s: string, pat: string, j: nat)
    requires j < |pat|
    requires forall k :: 0 <= k < |s| ==> s[k] != pat[j]
    ensures !Contains(s, pat)
  {
    forall k | 0 <= k && k + |pat| <= |s|
      ensures !MatchAt(s, pat, k)
    {
      assert s[k..k + |pat|][j] == s[k + j];
    }
    ContainsIff(s, pat);
  }

  /** `s.Replace(c.ToString(), rep)`: every `c` replaced by `rep`. */
  function ReplaceChar(s: string, c: char, rep: string): string
  {
    if s == [] then [] else (if s[0] == c then rep else [s[0]]) + ReplaceChar(s[1..], c, rep)
  }

  lemma ReplaceCharSingle(x: char, c: char, rep: string)
    ensures ReplaceChar([x], c, rep) == if x == c then rep else [x]
  {
    assert [x][1..] == [];
  }

  /** Replacing a character that does not occur changes nothing. */
  lemma {:induction false} ReplaceCharAbsent(s: string, c: char, rep: string)
    requires forall i :: 0 <= i < |s| ==> s[i] != c
    ensures ReplaceChar(s, c, rep) == s
  {
    if s != [] {
      ReplaceCharAbsent(s[1..], c, rep);
      assert s == [s[0]] + s[1..];
    }
  }

  lemma {:induction false} ReplaceCharConcat(a: string, b: string, c: char, rep: string)
    ensures ReplaceChar(a + b, c, rep) == ReplaceChar(a, c, rep) + ReplaceChar(b, c, rep)
  {
    if a != [] {
      assert (a + b)[1..] == a[1..] + b;
      ReplaceCharConcat(a[1..], b, c, rep);
    } else {
      assert a + b == b;
    }
  }
}
