/** The dynamic-time-warping word aligner of `dtw_align`
    (backend/lyrics_video_app.py): an (n+1)×(m+1) cost table over n lyrics
    words (rows) and m transcribed words (columns), then a backtrack from
    the corner that keeps the diagonal steps scoring at least the threshold. */
module Dtw {
  import opened Similarity

  /** A transcribed word as the aligner receives it: `{'word', 'start', 'end', 'score'}`. */
  datatype TranscribedWord = TranscribedWord(word: string, start: real, end: real, score: real)

  /** One returned `(lyrics_idx, transcribed_idx, similarity)` triple. */
  datatype Alignment = Alignment(lyricsIdx: nat, transIdx: nat, similarity: real)

  /** A table entry: `np.inf` or a finite cost. */
  datatype Cost = Inf | Fin(value: real)

  /** `c + x`, where infinity absorbs the addition. */
  function Plus(c: Cost, x: real): Cost {
    match c
    case Inf => Inf
    case Fin(v) => Fin(v + x)
  }

  /** `a < b` on costs: infinity is larger than every finite cost and not smaller than itself. */
  predicate Less(a: Cost, b: Cost) {
    a.Fin? && (b.Inf? || a.value < b.value)
  }

  /** The three moves into a cell: the match, skipping a lyrics word, skipping a transcribed word. */
  datatype Move = Diagonal | SkipLyrics | SkipTranscribed

  /** `min(candidates, key=cost)` over `[diagonal, skip lyrics, skip transcribed]`:
      Python keeps the first candidate and replaces it only by a strictly smaller one. */
  function Choose(diag: Cost, up: Cost, left: Cost): Move {
    if Less(up, diag) then
      if Less(left, up) then SkipTranscribed else SkipLyrics
    else if Less(left, diag) then SkipTranscribed
    else Diagonal
  }

  function CostOf(move: Move, diag: Cost, up: Cost, left: Cost): Cost {
    match move
    case Diagonal => diag
    case SkipLyrics => up
    case SkipTranscribed => left
  }

  /** The cell a move comes from, as stored in `path[i, j]`. */
  function Predecessor(i: int, j: int, move: Move): (int, int) {
    match move
    case Diagonal => (i - 1, j - 1)
    case SkipLyrics => (i - 1, j)
    case SkipTranscribed => (i, j - 1)
  }

  /** `sim_matrix` as a value: row `i` holds the similarities of lyrics word
      `i` to every transcribed word. */
  ghost function Similarities(lw: seq<string>, tw: seq<TranscribedWord>): (S: seq<seq<real>>)
    ensures |S| == |lw| && Rect(S, |tw|)
    ensures forall i, j {:trigger WordSimilarity(lw[i], tw[j].word)} :: 0 <= i < |lw| && 0 <= j < |tw| ==>
      S[i][j] == WordSimilarity(lw[i], tw[j].word)
  {
    seq(|lw|, i requires 0 <= i < |lw| => seq(|tw|, j requires 0 <= j < |tw| => WordSimilarity(lw[i], tw[j].word)))
  }

  /** Every row of `S` has `m` entries. */
  ghost predicate Rect(S: seq<seq<real>>, m: nat) {
    forall i :: 0 <= i < |S| ==> |S[i]| == m
  }

  /** `dtw[i, j]` for the similarity matrix `S` with `m` columns: 0 at the
      origin, infinite on the rest of the borders, and inside the best of the
      three moves with their costs `1 - sim`, 0.5 and 0.3. */
  ghost function Table(S: seq<seq<real>>, m: nat, i: nat, j: nat): Cost
    requires Rect(S, m) && i <= |S| && j <= m
    decreases i + j
  {
    if i == 0 && j == 0 then Fin(0.0)
    else if i == 0 || j == 0 then Inf
    else
      var diag := Plus(Table(S, m, i - 1, j - 1), 1.0 - S[i - 1][j - 1]);
      var up := Plus(Table(S, m, i - 1, j), 0.5);
      var left := Plus(Table(S, m, i, j - 1), 0.3);
      CostOf(Choose(diag, up, left), diag, up, left)
  }

  /** The move recorded in `path[i, j]` for an inner cell. */
  ghost function Step(S: seq<seq<real>>, m: nat, i: nat, j: nat): Move
    requires Rect(S, m) && 1 <= i <= |S| && 1 <= j <= m
  {
    Choose(Plus(Table(S, m, i - 1, j - 1), 1.0 - S[i - 1][j - 1]),
           Plus(Table(S, m, i - 1, j), 0.5),
           Plus(Table(S, m, i, j - 1), 0.3))
  }

  /** The whole `path` table as moves (row 0 and column 0 are never read). */
  ghost function Steps(S: seq<seq<real>>, m: nat): (P: seq<seq<Move>>)
    requires Rect(S, m)
    ensures PathShape(P, |S|, m)
    ensures forall i, j :: 1 <= i <= |S| && 1 <= j <= m ==> P[i][j] == Step(S, m, i, j)
  {
    seq(|S| + 1, i requires 0 <= i <= |S| =>
      seq(m + 1, j requires 0 <= j <= m => if i >= 1 && j >= 1 then Step(S, m, i, j) else Diagonal))
  }

  /** `P` has `n + 1` rows of `m + 1` moves. */
  ghost predicate PathShape(P: seq<seq<Move>>, n: nat, m: nat) {
    |P| == n + 1 && forall i :: 0 <= i <= n ==> |P[i]| == m + 1
  }

  /** The alignments the backtrack from `(i, j)` along the moves `P`
      collects, in increasing order. */
  ghost function Trace(S: seq<seq<real>>, P: seq<seq<Move>>, m: nat, threshold: real, i: nat, j: nat): seq<Alignment>
    requires Rect(S, m) && PathShape(P, |S|, m) && i <= |S| && j <= m
    decreases i + j
  {
    if i == 0 || j == 0 then []
    else
      match P[i][j]
      case Diagonal =>
        Trace(S, P, m, threshold, i - 1, j - 1)
          + (if S[i - 1][j - 1] >= threshold then [Alignment(i - 1, j - 1, S[i - 1][j - 1])] else [])
      case SkipLyrics => Trace(S, P, m, threshold, i - 1, j)
      case SkipTranscribed => Trace(S, P, m, threshold, i, j - 1)
  }

  function Reverse<T>(s: seq<T>): (r: seq<T>)
    ensures |r| == |s|
  {
    if s == [] then [] else [s[|s| - 1]] + Reverse(s[..|s| - 1])
  }

  /** Every alignment the aligner can return: indices in range, the recorded
      similarity is that of the pair and reaches the threshold, and both
      indices strictly increase, so no word on either side is used twice. */
  ghost predicate WellFormed(S: seq<seq<real>>, m: nat, threshold: real, r: seq<Alignment>)
    requires Rect(S, m)
  {
    && (forall k :: 0 <= k < |r| ==>
          && r[k].lyricsIdx < |S| && r[k].transIdx < m
          && r[k].similarity == S[r[k].lyricsIdx][r[k].transIdx]
          && r[k].similarity >= threshold)
    && (forall a, b :: 0 <= a < b < |r| ==>
          r[a].lyricsIdx < r[b].lyricsIdx && r[a].transIdx < r[b].transIdx)
  }

  /** `dtw_align(lyrics_words, transcribed_words, similarity_threshold)`. */
  method DtwAlign(lw: seq<string>, tw: seq<TranscribedWord>, threshold: real) returns (alignments: seq<Alignment>)
    ensures alignments == Trace(Similarities(lw, tw), Steps(Similarities(lw, tw), |tw|), |tw|, threshold, |lw|, |tw|)
    ensures |lw| == 0 || |tw| == 0 ==> alignments == []
    ensures WellFormed(Similarities(lw, tw), |tw|, threshold, alignments)
    ensures forall k :: 0 <= k < |alignments| ==>
      alignments[k].similarity == WordSimilarity(lw[alignments[k].lyricsIdx], tw[alignments[k].transIdx].word)
  {
    var n, m := |lw|, |tw|;
    if n == 0 || m == 0 {
      return [];
    }
    ghost var S := Similarities(lw, tw);
    ghost var P := Steps(S, m);
    var sim := SimilarityMatrix(lw, tw);
    var path := FillTables(sim, S);
    alignments := Backtrack(threshold, sim, path, S, P);
    TraceWellFormed(S, P, m, threshold, n, m);
  }

  /** The nested loops filling `sim_matrix`. */
  method SimilarityMatrix(lw: seq<string>, tw: seq<TranscribedWord>) returns (sim: array2<real>)
    ensures fresh(sim)
    ensures sim.Length0 == |lw| && sim.Length1 == |tw|
    ensures Holds(sim, Similarities(lw, tw))
  {
    ghost var S := Similarities(lw, tw);
    sim := new real[|lw|, |tw|];
    var i := 0;
    while i < |lw|
      modifies sim
      invariant 0 <= i <= |lw|
      invariant forall a, b :: 0 <= a < i && 0 <= b < |tw| ==> sim[a, b] == S[a][b]
    {
      FillSimilarityRow(sim, lw, tw, i, S);
      i := i + 1;
    }
  }

  /** Row `i` of `sim_matrix`: lyrics word `i` against every transcribed word. */
  method FillSimilarityRow(sim: array2<real>, lw: seq<string>, tw: seq<TranscribedWord>, i: nat,
                           ghost S: seq<seq<real>>)
    requires sim.Length0 == |lw| && sim.Length1 == |tw| && i < |lw|
    requires S == Similarities(lw, tw)
    requires forall a, b :: 0 <= a < i && 0 <= b < |tw| ==> sim[a, b] == S[a][b]
    modifies sim
    ensures forall a, b :: 0 <= a <= i && 0 <= b < |tw| ==> sim[a, b] == S[a][b]
  {
    var j := 0;
    while j < |tw|
      invariant 0 <= j <= |tw|
      invariant forall a, b :: 0 <= a < i && 0 <= b < |tw| ==> sim[a, b] == S[a][b]
      invariant forall b :: 0 <= b < j ==> sim[i, b] == S[i][b]
    {
      sim[i, j] := WordSimilarity(lw[i], tw[j].word);
      j := j + 1;
    }
  }

  /** The array `sim` holds the matrix `S`. */
  ghost predicate Holds(sim: array2<real>, S: seq<seq<real>>)
    reads sim
  {
    && sim.Length0 == |S| && Rect(S, sim.Length1)
    && forall i, j :: 0 <= i < sim.Length0 && 0 <= j < sim.Length1 ==> sim[i, j] == S[i][j]
  }

  /** The nested loops filling `dtw` and `path`; only `path` is needed afterwards. */
  method FillTables(sim: array2<real>, ghost S: seq<seq<real>>) returns (path: array2<(int, int)>)
    requires Holds(sim, S)
    ensures fresh(path)
    ensures path.Length0 == sim.Length0 + 1 && path.Length1 == sim.Length1 + 1
    ensures forall i, j :: 1 <= i <= sim.Length0 && 1 <= j <= sim.Length1 ==>
      path[i, j] == Predecessor(i, j, Step(S, sim.Length1, i, j))
  {
    var n, m := sim.Length0, sim.Length1;
    var dtw;
    dtw, path := NewTables(n, m);
    var r := 0;
    while r < n
      modifies dtw, path
      invariant 0 <= r <= n
      invariant forall a :: r < a <= n ==> dtw[a, 0] == Inf
      invariant forall b :: 0 <= b <= m ==> dtw[r, b] == Table(S, m, r, b)
      invariant forall a, b :: 1 <= a <= r && 1 <= b <= m ==> path[a, b] == Predecessor(a, b, Step(S, m, a, b))
    {
      FillRow(sim, dtw, path, r, r + 1, S);
      r := r + 1;
    }
  }

  /** `dtw` at infinity but for 0 at the origin, and `path` at zero. */
  method NewTables(n: nat, m: nat) returns (dtw: array2<Cost>, path: array2<(int, int)>)
    ensures fresh(dtw) && fresh(path)
    ensures dtw.Length0 == n + 1 && dtw.Length1 == m + 1 && path.Length0 == n + 1 && path.Length1 == m + 1
    ensures dtw[0, 0] == Fin(0.0)
    ensures forall b :: 1 <= b <= m ==> dtw[0, b] == Inf
    ensures forall a :: 1 <= a <= n ==> dtw[a, 0] == Inf
  {
    dtw := new Cost[n + 1, m + 1]((i, j) => Inf);
    dtw[0, 0] := Fin(0.0);
    path := new (int, int)[n + 1, m + 1]((i, j) => (0, 0));
  }

  /** The inner loop: row `i = r + 1` of `dtw` and `path`, from row `r`. */
  method FillRow(sim: array2<real>, dtw: array2<Cost>, path: array2<(int, int)>, r: nat, i: nat,
                 ghost S: seq<seq<real>>)
    requires Holds(sim, S)
    requires dtw.Length0 == sim.Length0 + 1 && dtw.Length1 == sim.Length1 + 1
    requires path.Length0 == sim.Length0 + 1 && path.Length1 == sim.Length1 + 1
    requires dtw != path as object
    requires r < sim.Length0 && i == r + 1
    requires dtw[i, 0] == Inf
    requires forall b :: 0 <= b <= sim.Length1 ==> dtw[r, b] == Table(S, sim.Length1, r, b)
    modifies dtw, path
    ensures forall a, b :: 0 <= a < dtw.Length0 && 0 <= b < dtw.Length1 && a != i ==> dtw[a, b] == old(dtw[a, b])
    ensures forall a, b :: 0 <= a < path.Length0 && 0 <= b < path.Length1 && a != i ==> path[a, b] == old(path[a, b])
    ensures forall b :: 0 <= b <= sim.Length1 ==> dtw[i, b] == Table(S, sim.Length1, i, b)
    ensures forall b :: 1 <= b <= sim.Length1 ==> path[i, b] == Predecessor(i, b, Step(S, sim.Length1, i, b))
  {
    var m := sim.Length1;
    assert Table(S, m, i, 0) == Inf;
    var j := 1;
    while j <= m
      invariant 1 <= j <= m + 1
      invariant forall a, b :: 0 <= a < dtw.Length0 && 0 <= b < dtw.Length1 && a != i ==> dtw[a, b] == old(dtw[a, b])
      invariant forall a, b :: 0 <= a < path.Length0 && 0 <= b < path.Length1 && a != i ==> path[a, b] == old(path[a, b])
      invariant forall b :: 0 <= b < j ==> dtw[i, b] == Table(S, m, i, b)
      invariant forall b :: 1 <= b < j ==> path[i, b] == Predecessor(i, b, Step(S, m, i, b))
    {
      FillCell(sim, dtw, path, r, i, j, S);
      j := j + 1;
    }
  }

  /** The body of the inner loop: cell `(i, j)` of `dtw` and `path`. */
  method FillCell(sim: array2<real>, dtw: array2<Cost>, path: array2<(int, int)>, r: nat, i: nat, j: nat,
                  ghost S: seq<seq<real>>)
    requires Holds(sim, S)
    requires dtw.Length0 == sim.Length0 + 1 && dtw.Length1 == sim.Length1 + 1
    requires path.Length0 == sim.Length0 + 1 && path.Length1 == sim.Length1 + 1
    requires dtw != path as object
    requires r < sim.Length0 && i == r + 1 && 1 <= j <= sim.Length1
    requires dtw[r, j - 1] == Table(S, sim.Length1, r, j - 1) && dtw[r, j] == Table(S, sim.Length1, r, j)
    requires dtw[i, j - 1] == Table(S, sim.Length1, i, j - 1)
    modifies dtw, path
    ensures forall a, b :: 0 <= a < dtw.Length0 && 0 <= b < dtw.Length1 && (a != i || b != j) ==> dtw[a, b] == old(dtw[a, b])
    ensures forall a, b :: 0 <= a < path.Length0 && 0 <= b < path.Length1 && (a != i || b != j) ==> path[a, b] == old(path[a, b])
    ensures dtw[i, j] == Table(S, sim.Length1, i, j) && path[i, j] == Predecessor(i, j, Step(S, sim.Length1, i, j))
  {
    var c := 1.0 - sim[r, j - 1];
    var diag := Plus(dtw[r, j - 1], c);
    var up := Plus(dtw[r, j], 0.5);
    var left := Plus(dtw[i, j - 1], 0.3);
    TableStep(S, sim.Length1, r, i, j, diag, up, left);
    var move := Choose(diag, up, left);
    dtw[i, j] := CostOf(move, diag, up, left);
    path[i, j] := Predecessor(i, j, move);
  }

  /** The while-loop from `(n, m)` along `path`, appending each diagonal pair
      that reaches the threshold, then `alignments.reverse()`. */
  method Backtrack(threshold: real, sim: array2<real>, path: array2<(int, int)>,
                   ghost S: seq<seq<real>>, ghost P: seq<seq<Move>>)
    returns (alignments: seq<Alignment>)
    requires Holds(sim, S) && PathShape(P, sim.Length0, sim.Length1)
    requires path.Length0 == sim.Length0 + 1 && path.Length1 == sim.Length1 + 1
    requires forall i, j :: 1 <= i <= sim.Length0 && 1 <= j <= sim.Length1 ==>
      path[i, j] == Predecessor(i, j, P[i][j])
    ensures alignments == Trace(S, P, sim.Length1, threshold, sim.Length0, sim.Length1)
  {
    var n, m := sim.Length0, sim.Length1;
    var i, j := n, m;
    var collected: seq<Alignment> := [];
    while i > 0 && j > 0
      invariant 0 <= i <= n && 0 <= j <= m
      invariant Trace(S, P, m, threshold, n, m) == Trace(S, P, m, threshold, i, j) + Reverse(collected)
      decreases i + j
    {
      var (prevI, prevJ) := path[i, j];
      ghost var move := P[i][j];
      ghost var before := Trace(S, P, m, threshold, i, j);
      if prevI == i - 1 && prevJ == j - 1 {
        assert move == Diagonal;
        var s := sim[i - 1, j - 1];
        if s >= threshold {
          var a := Alignment(i - 1, j - 1, s);
          assert before == Trace(S, P, m, threshold, i - 1, j - 1) + [a];
          assert Reverse(collected + [a]) == [a] + Reverse(collected) by {
            assert (collected + [a])[..|collected|] == collected;
          }
          collected := collected + [a];
        } else {
          assert before == Trace(S, P, m, threshold, i - 1, j - 1);
        }
      } else if prevI == i - 1 {
        assert move == SkipLyrics;
      } else {
        assert move == SkipTranscribed;
      }
      i, j := prevI, prevJ;
    }
    alignments := Reverse(collected);
  }

  /** Every index of `t` lies below `(i, j)`. */
  ghost predicate Below(t: seq<Alignment>, i: nat, j: nat) {
    forall k :: 0 <= k < |t| ==> t[k].lyricsIdx < i && t[k].transIdx < j
  }

  /** What `Trace` collects is well formed and stays below the starting cell. */
  lemma {:induction false} TraceWellFormed(S: seq<seq<real>>, P: seq<seq<Move>>, m: nat, threshold: real, i: nat, j: nat)
    requires Rect(S, m) && PathShape(P, |S|, m) && i <= |S| && j <= m
    ensures WellFormed(S, m, threshold, Trace(S, P, m, threshold, i, j))
    ensures Below(Trace(S, P, m, threshold, i, j), i, j)
    decreases i + j
  {
    if i > 0 && j > 0 {
      match P[i][j]
      case Diagonal =>
        TraceWellFormed(S, P, m, threshold, i - 1, j - 1);
        DiagonalWellFormed(S, P, m, threshold, i, j);
      case SkipLyrics =>
        TraceWellFormed(S, P, m, threshold, i - 1, j);
        SkipWellFormed(S, P, m, threshold, i, j, i - 1, j);
      case SkipTranscribed =>
        TraceWellFormed(S, P, m, threshold, i, j - 1);
        SkipWellFormed(S, P, m, threshold, i, j, i, j - 1);
    }
  }

  /** A diagonal step appends at most the pair `(i - 1, j - 1)`. */
  lemma DiagonalWellFormed(S: seq<seq<real>>, P: seq<seq<Move>>, m: nat, threshold: real, i: nat, j: nat)
    requires Rect(S, m) && PathShape(P, |S|, m) && 1 <= i <= |S| && 1 <= j <= m && P[i][j] == Diagonal
    requires WellFormed(S, m, threshold, Trace(S, P, m, threshold, i - 1, j - 1))
    requires Below(Trace(S, P, m, threshold, i - 1, j - 1), i - 1, j - 1)
    ensures WellFormed(S, m, threshold, Trace(S, P, m, threshold, i, j))
    ensures Below(Trace(S, P, m, threshold, i, j), i, j)
  {
    var t0 := Trace(S, P, m, threshold, i - 1, j - 1);
    var tail := if S[i - 1][j - 1] >= threshold then [Alignment(i - 1, j - 1, S[i - 1][j - 1])] else [];
    assert Trace(S, P, m, threshold, i, j) == t0 + tail;
    AppendWellFormed(S, m, threshold, t0, tail, i - 1, j - 1);
  }

  /** A skip step keeps the alignments of the cell it comes from. */
  lemma SkipWellFormed(S: seq<seq<real>>, P: seq<seq<Move>>, m: nat, threshold: real, i: nat, j: nat, i0: nat, j0: nat)
    requires Rect(S, m) && PathShape(P, |S|, m) && 1 <= i <= |S| && 1 <= j <= m && P[i][j] != Diagonal
    requires (i0, j0) == Predecessor(i, j, P[i][j])
    requires WellFormed(S, m, threshold, Trace(S, P, m, threshold, i0, j0))
    requires Below(Trace(S, P, m, threshold, i0, j0), i0, j0)
    ensures WellFormed(S, m, threshold, Trace(S, P, m, threshold, i, j))
    ensures Below(Trace(S, P, m, threshold, i, j), i, j)
  {
    assert Trace(S, P, m, threshold, i, j) == Trace(S, P, m, threshold, i0, j0);
  }

  /** Appending at most one pair beyond every index of a well-formed list keeps it well formed. */
  lemma AppendWellFormed(S: seq<seq<real>>, m: nat, threshold: real, t0: seq<Alignment>, tail: seq<Alignment>, li: nat, ti: nat)
    requires Rect(S, m) && li < |S| && ti < m
    requires WellFormed(S, m, threshold, t0)
    requires Below(t0, li, ti)
    requires tail == [] || (S[li][ti] >= threshold && tail == [Alignment(li, ti, S[li][ti])])
    ensures WellFormed(S, m, threshold, t0 + tail)
    ensures Below(t0 + tail, li + 1, ti + 1)
  {
  }

  /** `min` over the three candidates: the chosen cost is no larger than any
      candidate; the diagonal wins every tie, skipping a lyrics word wins a tie
      with skipping a transcribed word. */
  lemma ChooseIsFirstMinimum(diag: Cost, up: Cost, left: Cost)
    ensures var c := CostOf(Choose(diag, up, left), diag, up, left);
      !Less(diag, c) && !Less(up, c) && !Less(left, c)
    ensures Choose(diag, up, left) == Diagonal <==> !Less(up, diag) && !Less(left, diag)
    ensures Choose(diag, up, left) == SkipLyrics <==> Less(up, diag) && !Less(left, up)
    ensures Choose(diag, up, left) == SkipTranscribed <==> Less(left, diag) && Less(left, up)
  {
  }

  /** Similarities are scores in [0, 1]. */
  ghost predicate Scores(S: seq<seq<real>>, m: nat)
    requires Rect(S, m)
  {
    forall i, j :: 0 <= i < |S| && 0 <= j < m ==> 0.0 <= S[i][j] <= 1.0
  }

  lemma SimilaritiesAreScores(lw: seq<string>, tw: seq<TranscribedWord>)
    ensures Scores(Similarities(lw, tw), |tw|)
  {
  }

  /** Every inner cell of the table is finite and no cost is negative. */
  lemma {:induction false} TableFinite(S: seq<seq<real>>, m: nat, i: nat, j: nat)
    requires Rect(S, m) && Scores(S, m) && i <= |S| && j <= m
    ensures Table(S, m, i, j).Fin? ==> Table(S, m, i, j).value >= 0.0
    ensures i >= 1 && j >= 1 ==> Table(S, m, i, j).Fin?
    decreases i + j
  {
    if i >= 1 && j >= 1 {
      TableFinite(S, m, i - 1, j - 1);
      TableFinite(S, m, i - 1, j);
      TableFinite(S, m, i, j - 1);
      assert 1.0 - S[i - 1][j - 1] >= 0.0;
    }
  }

  /** When lyrics word `k` is certainly transcribed word `k` for every `k`
      (similarity 1.0 on the diagonal), the corner-to-origin path is the
      diagonal: each cell `(i, i)` costs 0 and records the diagonal move. */
  lemma {:induction false} TableDiagonal(S: seq<seq<real>>, n: nat, i: nat)
    requires |S| == n && Rect(S, n) && Scores(S, n) && i <= n
    requires forall k :: 0 <= k < n ==> S[k][k] == 1.0
    ensures Table(S, n, i, i) == Fin(0.0)
    ensures i >= 1 ==> Step(S, n, i, i) == Diagonal
  {
    if i >= 1 {
      TableDiagonal(S, n, i - 1);
      TableFinite(S, n, i - 1, i);
      TableFinite(S, n, i, i - 1);
      var diag := Plus(Table(S, n, i - 1, i - 1), 1.0 - S[i - 1][i - 1]);
      var up := Plus(Table(S, n, i - 1, i), 0.5);
      var left := Plus(Table(S, n, i, i - 1), 0.3);
      assert diag == Fin(0.0);
      assert !Less(up, diag) && !Less(left, diag);
      TableStep(S, n, i - 1, i, i, diag, up, left);
    }
  }

  /** Identity alignment: when every similarity on the diagonal is 1.0, the
      threshold is at most 1.0 and the path follows the diagonal, the backtrack
      pairs word `k` with word `k` for every `k`, with similarity 1.0. */
  lemma {:induction false} IdentityTrace(S: seq<seq<real>>, P: seq<seq<Move>>, n: nat, threshold: real, i: nat)
    requires |S| == n && Rect(S, n) && PathShape(P, n, n) && i <= n && threshold <= 1.0
    requires forall k :: 0 <= k < n ==> S[k][k] == 1.0
    requires forall k :: 1 <= k <= n ==> P[k][k] == Diagonal
    ensures var t := Trace(S, P, n, threshold, i, i);
      |t| == i && forall k :: 0 <= k < i ==> t[k] == Alignment(k, k, 1.0)
  {
    if i >= 1 {
      IdentityTrace(S, P, n, threshold, i - 1);
    }
  }

  /** Identity alignment for words: when the transcription is exactly the
      lyrics (every word keeping some letter, digit or underscore), `dtw_align`
      matches word `k` to word `k` with similarity 1.0, for every `k`. */
  lemma IdentityAlignment(lw: seq<string>, tw: seq<TranscribedWord>, threshold: real)
    requires |lw| == |tw| && threshold <= 1.0
    requires forall k :: 0 <= k < |lw| ==> tw[k].word == lw[k] && Normalize(lw[k]) != []
    ensures var S := Similarities(lw, tw);
      var t := Trace(S, Steps(S, |tw|), |tw|, threshold, |lw|, |tw|);
      |t| == |lw| && forall k :: 0 <= k < |lw| ==> t[k] == Alignment(k, k, 1.0)
  {
    var n := |lw|;
    var S := Similarities(lw, tw);
    var P := Steps(S, n);
    SimilaritiesAreScores(lw, tw);
    forall k | 1 <= k <= n
      ensures P[k][k] == Diagonal
    {
      TableDiagonal(S, n, k);
    }
    IdentityTrace(S, P, n, threshold, n);
  }

  /** Every inner cell `dtw[i, j]` is the minimum of its three moves (the match
      at `1 - sim`, skipping a lyrics word at 0.5, skipping a transcribed word
      at 0.3), and the recorded move is the first minimal one in that order. */
  lemma TableIsMinimum(S: seq<seq<real>>, m: nat, i: nat, j: nat)
    requires Rect(S, m) && 1 <= i <= |S| && 1 <= j <= m
    ensures
      var diag := Plus(Table(S, m, i - 1, j - 1), 1.0 - S[i - 1][j - 1]);
      var up := Plus(Table(S, m, i - 1, j), 0.5);
      var left := Plus(Table(S, m, i, j - 1), 0.3);
      var t := Table(S, m, i, j);
      && (t == diag || t == up || t == left)
      && !Less(diag, t) && !Less(up, t) && !Less(left, t)
      && (Step(S, m, i, j) == Diagonal <==> !Less(up, diag) && !Less(left, diag))
      && (Step(S, m, i, j) == SkipLyrics <==> Less(up, diag) && !Less(left, up))
  {
    var diag := Plus(Table(S, m, i - 1, j - 1), 1.0 - S[i - 1][j - 1]);
    var up := Plus(Table(S, m, i - 1, j), 0.5);
    var left := Plus(Table(S, m, i, j - 1), 0.3);
    ChooseIsFirstMinimum(diag, up, left);
  }

  /** One unfolding of `Table` at the inner cell `(i, j)`, `i = r + 1`, given its three candidates. */
  lemma TableStep(S: seq<seq<real>>, m: nat, r: nat, i: nat, j: nat, diag: Cost, up: Cost, left: Cost)
    requires Rect(S, m) && i == r + 1 && i <= |S| && 1 <= j <= m
    requires diag == Plus(Table(S, m, r, j - 1), 1.0 - S[r][j - 1])
    requires up == Plus(Table(S, m, r, j), 0.5)
    requires left == Plus(Table(S, m, i, j - 1), 0.3)
    ensures Table(S, m, i, j) == CostOf(Choose(diag, up, left), diag, up, left)
    ensures Step(S, m, i, j) == Choose(diag, up, left)
  {
  }

  /** `a <= b` on costs. */
  predicate AtMost(a: Cost, b: Cost) {
    !Less(b, a)
  }

  /** The total cost of reaching `(i, j)` from the origin by `moves`, the last
      move entering `(i, j)`. A move only ever enters an inner cell, so a path
      that touches the border away from the origin costs infinity, as the
      table's borders do. */
  ghost function PathCost(S: seq<seq<real>>, m: nat, moves: seq<Move>, i: nat, j: nat): Cost
    requires Rect(S, m) && i <= |S| && j <= m
    decreases |moves|
  {
    if moves == [] then (if i == 0 && j == 0 then Fin(0.0) else Inf)
    else if i == 0 || j == 0 then Inf
    else
      var move := moves[|moves| - 1];
      var prev := Predecessor(i, j, move);
      Plus(PathCost(S, m, moves[..|moves| - 1], prev.0, prev.1), MoveCost(S, m, i, j, move))
  }

  /** The cost of the move entering the inner cell `(i, j)`: `1 - sim` for
      the match, 0.5 for skipping a lyrics word, 0.3 for skipping a
      transcribed word. */
  function MoveCost(S: seq<seq<real>>, m: nat, i: nat, j: nat, move: Move): real
    requires Rect(S, m) && 1 <= i <= |S| && 1 <= j <= m
  {
    match move
    case Diagonal => 1.0 - S[i - 1][j - 1]
    case SkipLyrics => 0.5
    case SkipTranscribed => 0.3
  }

  /** The moves the backtrack follows along `P` from `(i, j)` back to a
      border, written in forward order. */
  ghost function Walk(P: seq<seq<Move>>, n: nat, m: nat, i: nat, j: nat): seq<Move>
    requires PathShape(P, n, m) && i <= n && j <= m
    decreases i + j
  {
    if i == 0 || j == 0 then []
    else
      match P[i][j]
      case Diagonal => Walk(P, n, m, i - 1, j - 1) + [Diagonal]
      case SkipLyrics => Walk(P, n, m, i - 1, j) + [SkipLyrics]
      case SkipTranscribed => Walk(P, n, m, i, j - 1) + [SkipTranscribed]
  }

  /** No path from the origin to `(i, j)` is cheaper than `dtw[i, j]`. */
  lemma {:induction false} TableIsOptimal(S: seq<seq<real>>, m: nat, moves: seq<Move>, i: nat, j: nat)
    requires Rect(S, m) && i <= |S| && j <= m
    ensures AtMost(Table(S, m, i, j), PathCost(S, m, moves, i, j))
    decreases |moves|
  {
    if moves != [] && i >= 1 && j >= 1 {
      var rest := moves[..|moves| - 1];
      var diag := Plus(Table(S, m, i - 1, j - 1), 1.0 - S[i - 1][j - 1]);
      var up := Plus(Table(S, m, i - 1, j), 0.5);
      var left := Plus(Table(S, m, i, j - 1), 0.3);
      TableStep(S, m, i - 1, i, j, diag, up, left);
      ChooseIsFirstMinimum(diag, up, left);
      var t := Table(S, m, i, j);
      var move := moves[|moves| - 1];
      var prev := Predecessor(i, j, move);
      assert CostOf(move, diag, up, left) == Plus(Table(S, m, prev.0, prev.1), MoveCost(S, m, i, j, move));
      TableIsOptimal(S, m, rest, prev.0, prev.1);
      PlusMonotone(Table(S, m, prev.0, prev.1), PathCost(S, m, rest, prev.0, prev.1), t, MoveCost(S, m, i, j, move));
    }
  }

  /** Adding a step cost keeps `a <= b`, and `<=` is transitive. */
  lemma PlusMonotone(a: Cost, b: Cost, t: Cost, c: real)
    requires AtMost(a, b) && AtMost(t, Plus(a, c))
    ensures AtMost(t, Plus(b, c))
  {
  }

  /** The path the backtrack follows from `(i, j)` along moves `P` recorded
      by the table costs exactly `dtw[i, j]`. */
  lemma {:induction false} WalkAttainsTable(S: seq<seq<real>>, m: nat, P: seq<seq<Move>>, i: nat, j: nat)
    requires Rect(S, m) && PathShape(P, |S|, m) && i <= |S| && j <= m
    requires forall a, b :: 1 <= a <= |S| && 1 <= b <= m ==> P[a][b] == Step(S, m, a, b)
    ensures PathCost(S, m, Walk(P, |S|, m, i, j), i, j) == Table(S, m, i, j)
    decreases i + j
  {
    if i >= 1 && j >= 1 {
      var w := Walk(P, |S|, m, i, j);
      var diag := Plus(Table(S, m, i - 1, j - 1), 1.0 - S[i - 1][j - 1]);
      var up := Plus(Table(S, m, i - 1, j), 0.5);
      var left := Plus(Table(S, m, i, j - 1), 0.3);
      TableStep(S, m, i - 1, i, j, diag, up, left);
      var move := P[i][j];
      assert move == Choose(diag, up, left);
      var prev := Predecessor(i, j, move);
      WalkAttainsTable(S, m, P, prev.0, prev.1);
      assert w == Walk(P, |S|, m, prev.0, prev.1) + [move];
      assert w[..|w| - 1] == Walk(P, |S|, m, prev.0, prev.1);
    }
  }

  /** The pairs a path of `moves` ending at `(i, j)` matches by its diagonal
      moves, in order, keeping those that reach the threshold. */
  ghost function Matched(S: seq<seq<real>>, m: nat, threshold: real, moves: seq<Move>, i: nat, j: nat): seq<Alignment>
    requires Rect(S, m) && i <= |S| && j <= m
    decreases |moves|
  {
    if moves == [] || i == 0 || j == 0 then []
    else
      var rest := moves[..|moves| - 1];
      match moves[|moves| - 1]
      case Diagonal =>
        Matched(S, m, threshold, rest, i - 1, j - 1)
          + (if S[i - 1][j - 1] >= threshold then [Alignment(i - 1, j - 1, S[i - 1][j - 1])] else [])
      case SkipLyrics => Matched(S, m, threshold, rest, i - 1, j)
      case SkipTranscribed => Matched(S, m, threshold, rest, i, j - 1)
  }

  /** What the backtrack collects are the matched pairs of the path it walks. */
  lemma {:induction false} TraceIsWalk(S: seq<seq<real>>, P: seq<seq<Move>>, m: nat, threshold: real, i: nat, j: nat)
    requires Rect(S, m) && PathShape(P, |S|, m) && i <= |S| && j <= m
    ensures Trace(S, P, m, threshold, i, j) == Matched(S, m, threshold, Walk(P, |S|, m, i, j), i, j)
    decreases i + j
  {
    if i >= 1 && j >= 1 {
      var w := Walk(P, |S|, m, i, j);
      var prev := Predecessor(i, j, P[i][j]);
      TraceIsWalk(S, P, m, threshold, prev.0, prev.1);
      assert w == Walk(P, |S|, m, prev.0, prev.1) + [P[i][j]];
      assert w[..|w| - 1] == Walk(P, |S|, m, prev.0, prev.1);
    }
  }

  /** The backtrack follows an optimal alignment path: the moves it walks from
      `(n, m)` cost `dtw[n, m]`, no sequence of moves from the origin to
      `(n, m)` costs less, and the alignments it returns are the matched pairs
      of that path. */
  lemma BacktrackPathIsCheapest(S: seq<seq<real>>, m: nat)
    requires Rect(S, m)
    ensures var w := Walk(Steps(S, m), |S|, m, |S|, m);
      && PathCost(S, m, w, |S|, m) == Table(S, m, |S|, m)
      && (forall moves :: AtMost(PathCost(S, m, w, |S|, m), PathCost(S, m, moves, |S|, m)))
      && forall threshold :: Trace(S, Steps(S, m), m, threshold, |S|, m) == Matched(S, m, threshold, w, |S|, m)
  {
    WalkAttainsTable(S, m, Steps(S, m), |S|, m);
    forall threshold
      ensures Trace(S, Steps(S, m), m, threshold, |S|, m) == Matched(S, m, threshold, Walk(Steps(S, m), |S|, m, |S|, m), |S|, m)
    {
      TraceIsWalk(S, Steps(S, m), m, threshold, |S|, m);
    }
    forall moves
      ensures AtMost(Table(S, m, |S|, m), PathCost(S, m, moves, |S|, m))
    {
      TableIsOptimal(S, m, moves, |S|, m);
    }
  }
}
