/** `StringMatchingUtils.LevenshteinDistance`: edit distance by a dynamic
    programming table filled in place. */
module StringMatching {
  import opened Domain

  /** The recurrence the table implements, on prefixes: the distance of `a`
      and `b` is that of the two strings without their last characters when
      those are equal, and otherwise one more than the least of deleting,
      inserting and substituting. */
  function EditDistance(a: string, b: string): nat
    decreases |a| + |b|
  {
    if |a| == 0 then |b|
    else if |b| == 0 then |a|
    else if a[|a| - 1] == b[|b| - 1] then EditDistance(a[..|a| - 1], b[..|b| - 1])
    else 1 + Min(Min(EditDistance(a[..|a| - 1], b), EditDistance(a, b[..|b| - 1])), EditDistance(a[..|a| - 1], b[..|b| - 1]))
  }

  /** One step of the recurrence, read on prefixes of two fixed strings, in
      the form the table computes it: a deletion, an insertion or a
      substitution, each costing one. */
  lemma EditDistanceOfPrefixes(s1: string, s2: string, i: nat, j: nat)
    requires 1 <= i <= |s1| && 1 <= j <= |s2|
    ensures EditDistance(s1[..i], s2[..j]) ==
      if s1[i - 1] == s2[j - 1] then EditDistance(s1[..i - 1], s2[..j - 1])
      else Min(Min(EditDistance(s1[..i - 1], s2[..j]) + 1, EditDistance(s1[..i], s2[..j - 1]) + 1), EditDistance(s1[..i - 1], s2[..j - 1]) + 1)
  {
    assert s1[..i][..i - 1] == s1[..i - 1];
    assert s2[..j][..j - 1] == s2[..j - 1];
  }

  /** The number of edits turning `s1` into `s2`; `dp[i, j]` holds the
      distance of the prefixes of lengths `i` and `j`. */
  method LevenshteinDistance(s1: string, s2: string) returns (distance: int)
    ensures distance == EditDistance(s1, s2)
  {
    if |s1| == 0 {
      return |s2|;
    }
    if |s2| == 0 {
      return |s1|;
    }

    var dp := new int[|s1| + 1, |s2| + 1];
    for i := 0 to |s1| + 1
      invariant forall x :: 0 <= x < i ==> dp[x, 0] == x
    {
      dp[i, 0] := i;
    }
    assert forall x :: 0 <= x <= |s1| ==> EditDistance(s1[..x], s2[..0]) == x;
    for j := 0 to |s2| + 1
      invariant forall x :: 0 <= x <= |s1| ==> dp[x, 0] == x
      invariant forall y :: 0 <= y < j ==> dp[0, y] == y
    {
      dp[0, j] := j;
    }

    for j := 1 to |s2| + 1
      invariant forall x :: 0 <= x <= |s1| ==> dp[x, j - 1] == EditDistance(s1[..x], s2[..j - 1])
      invariant forall y :: j <= y <= |s2| ==> dp[0, y] == y
    {
      FillColumn(dp, s1, s2, j);
    }

    assert s1[..|s1|] == s1 && s2[..|s2|] == s2;
    distance := dp[|s1|, |s2|];
  }

  /** The inner loop of LevenshteinDistance: fills column `j` of the table
      from row 1 down, each cell from its three neighbours above and to the
      left, leaving every other column as it was. */
  method FillColumn(dp: array2<int>, s1: string, s2: string, j: nat)
    requires dp.Length0 == |s1| + 1 && dp.Length1 == |s2| + 1
    requires 1 <= j <= |s2|
    requires forall x :: 0 <= x <= |s1| ==> dp[x, j - 1] == EditDistance(s1[..x], s2[..j - 1])
    requires dp[0, j] == j
    modifies dp
    ensures forall x :: 0 <= x <= |s1| ==> dp[x, j] == EditDistance(s1[..x], s2[..j])
    ensures forall x, y :: 0 <= x < dp.Length0 && 0 <= y < dp.Length1 && y != j ==> dp[x, y] == old(dp[x, y])
  {
    assert EditDistance(s1[..0], s2[..j]) == j;
    for i := 1 to |s1| + 1
      invariant forall x :: 0 <= x < i ==> dp[x, j] == EditDistance(s1[..x], s2[..j])
      invariant forall x, y :: 0 <= x < dp.Length0 && 0 <= y < dp.Length1 && y != j ==> dp[x, y] == old(dp[x, y])
    {
      EditDistanceOfPrefixes(s1, s2, i, j);
      if s1[i - 1] == s2[j - 1] {
        dp[i, j] := dp[i - 1, j - 1];
      } else {
        var deletion := dp[i - 1, j] + 1;
        var insertion := dp[i, j - 1] + 1;
        var substitution := dp[i - 1, j - 1] + 1;
        dp[i, j] := Min(Min(deletion, insertion), substitution);
      }
    }
  }

  /** A string is at distance zero from itself. */
  lemma {:induction false} EditDistanceToSelf(s: string)
    ensures EditDistance(s, s) == 0
    decreases |s|
  {
    if |s| > 0 {
      EditDistanceToSelf(s[..|s| - 1]);
    }
  }

  /** Distance zero means equal strings, and only then. */
  lemma {:induction false} EditDistanceZeroIffEqual(a: string, b: string)
    ensures EditDistance(a, b) == 0 <==> a == b
    decreases |a| + |b|
  {
    if a == b {
      EditDistanceToSelf(a);
    } else if |a| > 0 && |b| > 0 && a[|a| - 1] == b[|b| - 1] {
      EditDistanceZeroIffEqual(a[..|a| - 1], b[..|b| - 1]);
    }
  }

  /** Never more edits than the longer string has characters. */
  lemma {:induction false} EditDistanceAtMostLonger(a: string, b: string)
    ensures EditDistance(a, b) <= if |a| >= |b| then |a| else |b|
    decreases |a| + |b|
  {
    if |a| > 0 && |b| > 0 {
      EditDistanceAtMostLonger(a[..|a| - 1], b[..|b| - 1]);
    }
  }

  /** Never fewer edits than the difference in length. */
  lemma {:induction false} EditDistanceAtLeastLengthDifference(a: string, b: string)
    ensures EditDistance(a, b) >= if |a| >= |b| then |a| - |b| else |b| - |a|
    decreases |a| + |b|
  {
    if |a| > 0 && |b| > 0 {
      EditDistanceAtLeastLengthDifference(a[..|a| - 1], b[..|b| - 1]);
      if a[|a| - 1] != b[|b| - 1] {
        EditDistanceAtLeastLengthDifference(a[..|a| - 1], b);
        EditDistanceAtLeastLengthDifference(a, b[..|b| - 1]);
      }
    }
  }

  /** The distance does not depend on the order of the arguments. */
  lemma {:induction false} EditDistanceSymmetric(a: string, b: string)
    ensures EditDistance(a, b) == EditDistance(b, a)
    decreases |a| + |b|
  {
    if |a| > 0 && |b| > 0 {
      EditDistanceSymmetric(a[..|a| - 1], b[..|b| - 1]);
      if a[|a| - 1] != b[|b| - 1] {
        EditDistanceSymmetric(a[..|a| - 1], b);
        EditDistanceSymmetric(a, b[..|b| - 1]);
      }
    }
  }
}
