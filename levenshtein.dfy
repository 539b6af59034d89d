/** The edit distance of `levenshtein_distance` (backend/lyrics_video_app.py). */
module Levenshtein {

  function Min3(a: nat, b: nat, c: nat): nat {
    if a <= b && a <= c then a else if b <= c then b else c
  }

  /** Python's `max` of two counts. */
  function Max(a: nat, b: nat): nat {
    if a >= b then a else b
  }

  /** The standard recursive edit distance (insertions, deletions and
      substitutions of one character, each at cost 1), on prefixes. */
  function EditDistance(a: string, b: string): nat
    decreases |a| + |b|
  {
    if |a| == 0 then |b|
    else if |b| == 0 then |a|
    else
      Min3(EditDistance(a[..|a| - 1], b) + 1,
           EditDistance(a, b[..|b| - 1]) + 1,
           EditDistance(a[..|a| - 1], b[..|b| - 1]) + (if a[|a| - 1] == b[|b| - 1] then 0 else 1))
  }

  /** `levenshtein_distance(s1, s2)`: swaps the arguments so that `s1` is the
      longer, then fills one row of the table per character of `s1`. */
  method LevenshteinDistance(s1: string, s2: string) returns (d: nat)
    ensures d == EditDistance(s1, s2)
    decreases if |s1| < |s2| then 1 else 0
  {
    if |s1| < |s2| {
      d := LevenshteinDistance(s2, s1);
      EditDistanceSymmetric(s2, s1);
      return;
    }
    if |s2| == 0 {
      return |s1|;
    }
    var prevRow: seq<nat> := seq(|s2| + 1, j => j);
    var i := 0;
    while i < |s1|
      invariant 0 <= i <= |s1|
      invariant |prevRow| == |s2| + 1
      invariant forall j :: 0 <= j <= |s2| ==> prevRow[j] == EditDistance(s1[..i], s2[..j])
    {
      var currRow := NextRow(s1, s2, i, prevRow);
      prevRow := currRow;
      i := i + 1;
    }
    assert s1[..i] == s1 && s2[..|s2|] == s2;
    d := prevRow[|s2|];
  }

  /** One cell of the row-by-row table, in terms of its three neighbours. */
  lemma EditDistanceStep(s1: string, s2: string, i: nat, j: nat)
    requires i < |s1| && j < |s2|
    ensures EditDistance(s1[..i + 1], s2[..j + 1])
      == Min3(EditDistance(s1[..i], s2[..j + 1]) + 1,
              EditDistance(s1[..i + 1], s2[..j]) + 1,
              EditDistance(s1[..i], s2[..j]) + (if s1[i] != s2[j] then 1 else 0))
  {
    var a, b := s1[..i + 1], s2[..j + 1];
    assert a[..|a| - 1] == s1[..i] && a[|a| - 1] == s1[i];
    assert b[..|b| - 1] == s2[..j] && b[|b| - 1] == s2[j];
  }

  /** The inner loop of `levenshtein_distance`: row `i + 1` of the table from row `i`. */
  method NextRow(s1: string, s2: string, i: nat, prevRow: seq<nat>) returns (currRow: seq<nat>)
    requires i < |s1|
    requires |prevRow| == |s2| + 1
    requires forall j :: 0 <= j <= |s2| ==> prevRow[j] == EditDistance(s1[..i], s2[..j])
    ensures |currRow| == |s2| + 1
    ensures forall j :: 0 <= j <= |s2| ==> currRow[j] == EditDistance(s1[..i + 1], s2[..j])
  {
    var c1 := s1[i];
    currRow := [i + 1];
    assert EditDistance(s1[..i + 1], s2[..0]) == i + 1;
    var j := 0;
    while j < |s2|
      invariant 0 <= j <= |s2|
      invariant |currRow| == j + 1
      invariant forall k :: 0 <= k <= j ==> currRow[k] == EditDistance(s1[..i + 1], s2[..k])
    {
      var c2 := s2[j];
      var insertions := prevRow[j + 1] + 1;
      var deletions := currRow[j] + 1;
      var substitutions := prevRow[j] + (if c1 != c2 then 1 else 0);
      EditDistanceStep(s1, s2, i, j);
      var best := Min3(insertions, deletions, substitutions);
      assert best == EditDistance(s1[..i + 1], s2[..j + 1]);
      ghost var before := currRow;
      currRow := currRow + [best];
      assert forall k :: 0 <= k <= j ==> currRow[k] == before[k];
      j := j + 1;
    }
  }

  /** Swapping the arguments does not change the distance. */
  lemma {:induction false} EditDistanceSymmetric(a: string, b: string)
    ensures EditDistance(a, b) == EditDistance(b, a)
    decreases |a| + |b|
  {
    if |a| > 0 && |b| > 0 {
      EditDistanceSymmetric(a[..|a| - 1], b);
      EditDistanceSymmetric(a, b[..|b| - 1]);
      EditDistanceSymmetric(a[..|a| - 1], b[..|b| - 1]);
    }
  }

  /** A string is at distance zero from itself. */
  lemma {:induction false} EditDistanceSelf(s: string)
    ensures EditDistance(s, s) == 0
    decreases |s|
  {
    if |s| > 0 {
      EditDistanceSelf(s[..|s| - 1]);
    }
  }

  /** Distance zero means the strings are equal. */
  lemma {:induction false} EditDistanceZero(a: string, b: string)
    requires EditDistance(a, b) == 0
    ensures a == b
    decreases |a| + |b|
  {
    if |a| > 0 && |b| > 0 {
      EditDistanceZero(a[..|a| - 1], b[..|b| - 1]);
      assert a == a[..|a| - 1] + [a[|a| - 1]];
      assert b == b[..|b| - 1] + [b[|b| - 1]];
    }
  }

  /** Distance zero exactly when the strings are equal. */
  lemma EditDistanceZeroIff(a: string, b: string)
    ensures EditDistance(a, b) == 0 <==> a == b
  {
    if a == b { EditDistanceSelf(a); }
    if EditDistance(a, b) == 0 { EditDistanceZero(a, b); }
  }

  /** The distance lies between the difference of the lengths and the longer
      length; it is the length of the other string when one is empty. */
  lemma {:induction false} EditDistanceBounds(a: string, b: string)
    ensures EditDistance(a, "") == |a| && EditDistance("", b) == |b|
    ensures EditDistance(a, b) <= Max(|a|, |b|)
    ensures EditDistance(a, b) >= |a| - |b| && EditDistance(a, b) >= |b| - |a|
    decreases |a| + |b|
  {
    if |a| > 0 && |b| > 0 {
      EditDistanceBounds(a[..|a| - 1], b);
      EditDistanceBounds(a, b[..|b| - 1]);
      EditDistanceBounds(a[..|a| - 1], b[..|b| - 1]);
    }
  }
}
