/** The graded word score of `word_similarity` (backend/lyrics_video_app.py). */
module Similarity {
  import opened Text
  import opened Soundex
  import opened Levenshtein

  /** `re.sub(r'[^\w]', '', word.lower())`. */
  function Normalize(word: string): string {
    KeepWordChars(Lower(word))
  }

  /** Python's `max` of two numbers. */
  function RealMax(a: real, b: real): real {
    if a >= b then a else b
  }

  /** Python's `min` of two numbers. */
  function RealMin(a: real, b: real): real {
    if a <= b then a else b
  }

  /** Levenshtein similarity `1 - distance / max_len` of two non-empty strings. */
  function LevSimilarity(w1: string, w2: string): (r: real)
    requires w1 != [] && w2 != []
    ensures 0.0 <= r <= 1.0
    ensures r == 1.0 <==> w1 == w2
  {
    var maxLen := Max(|w1|, |w2|);
    var distance := EditDistance(w1, w2);
    EditDistanceBounds(w1, w2);
    EditDistanceZeroIff(w1, w2);
    RatioBounds(distance, maxLen);
    1.0 - distance as real / maxLen as real
  }

  lemma RatioBounds(d: nat, m: nat)
    requires 0 < m && d <= m
    ensures 0.0 <= d as real / m as real <= 1.0
    ensures d as real / m as real == 0.0 <==> d == 0
  {
    var q := d as real / m as real;
    assert q * m as real == d as real;
  }

  /** `word_similarity(word1, word2)`: 1.0 for equal normalised forms, 0.9 when
      one contains the other, 0.85 when the Soundex codes agree, otherwise the
      Levenshtein similarity, raised to 0.7 when the first three characters
      agree. Either word normalising to nothing scores 0.0. */
  function WordSimilarity(word1: string, word2: string): (r: real)
    ensures 0.0 <= r <= 1.0
    ensures Normalize(word1) == [] || Normalize(word2) == [] ==> r == 0.0
    ensures r == 1.0 <==> Normalize(word1) != [] && Normalize(word1) == Normalize(word2)
  {
    if word1 == [] || word2 == [] then
      assert Normalize(word1) == [] || Normalize(word2) == [];
      0.0
    else
      var w1 := Normalize(word1);
      var w2 := Normalize(word2);
      if w1 == [] || w2 == [] then 0.0
      else if w1 == w2 then 1.0
      else Graded(w1, w2)
  }

  /** The graded part of `word_similarity` for two different non-empty
      normalised words: always below 1.0. */
  function Graded(w1: string, w2: string): (r: real)
    requires w1 != [] && w2 != [] && w1 != w2
    ensures 0.0 <= r < 1.0
  {
    if Contains(w2, w1) || Contains(w1, w2) then 0.9
    else if |w1| >= 2 && |w2| >= 2 && SoundexCode(w1) == SoundexCode(w2) then 0.85
    else
      var levSimilarity := LevSimilarity(w1, w2);
      if |w1| >= 3 && |w2| >= 3 && w1[..3] == w2[..3] then RealMax(0.7, levSimilarity)
      else levSimilarity
  }

  /** The score does not depend on the order of the two words. */
  lemma WordSimilaritySymmetric(word1: string, word2: string)
    ensures WordSimilarity(word1, word2) == WordSimilarity(word2, word1)
  {
    var w1, w2 := Normalize(word1), Normalize(word2);
    if w1 != [] && w2 != [] && w1 != w2 {
      GradedSymmetric(w1, w2);
    }
  }

  lemma GradedSymmetric(w1: string, w2: string)
    requires w1 != [] && w2 != [] && w1 != w2
    ensures Graded(w1, w2) == Graded(w2, w1)
  {
    LevSimilaritySymmetric(w1, w2);
  }

  lemma LevSimilaritySymmetric(w1: string, w2: string)
    requires w1 != [] && w2 != []
    ensures LevSimilarity(w1, w2) == LevSimilarity(w2, w1)
  {
    EditDistanceSymmetric(w1, w2);
  }
}
