/** The line-to-segment matcher of `segment_based_alignment`
    (backend/lyrics_video_app.py): ordered greedy matching of lyrics lines to
    transcription segments by Jaccard word-set similarity plus a position
    bonus inside a search window, with fallback interpolation. */
module SegmentAlignment {
  import opened Wrappers
  import opened Text
  import opened Dtw
  import opened Levenshtein

  /** A word inside a segment as the transcription service returns it;
      `word`, `start`, `end` and `score` may each be missing. */
  datatype RawWord = RawWord(word: Option<string>, start: Option<real>, end: Option<real>, score: Option<real>)

  /** A transcription segment: `{'text', 'start', 'end', 'words'}`. */
  datatype Segment = Segment(text: string, start: real, end: real, words: seq<RawWord>)

  /** One returned `(line_idx, start_time, end_time)` triple. */
  datatype LineTiming = LineTiming(line: nat, start: real, end: real)

  function Abs(x: int): nat {
    if x < 0 then -x else x
  }

  /** `set(re.sub(r'[^\w\s]', '', s.lower()).split())`. */
  function WordSet(s: string): set<string> {
    set w | w in Words(KeepWordAndSpaceChars(Lower(s)))
  }

  /** Jaccard similarity of two word sets, 0 when either is empty. */
  function Jaccard(a: set<string>, b: set<string>): (r: real)
    ensures 0.0 <= r <= 1.0
    ensures a != {} && a == b ==> r == 1.0
    ensures a * b == {} ==> r == 0.0
  {
    if a != {} && b != {} then
      var union := |a + b|;
      IntersectionNoLarger(a, b);
      assert a == b ==> a * b == a + b;
      if union > 0 then
        FractionAtMostOne(|a * b|, union);
        |a * b| as real / union as real
      else 0.0
    else 0.0
  }

  lemma FractionAtMostOne(x: nat, y: nat)
    requires x <= y && y > 0
    ensures 0.0 <= x as real / y as real <= 1.0
    ensures x == y ==> x as real / y as real == 1.0
  {
    assert x as real / y as real * y as real == x as real;
  }

  lemma IntersectionNoLarger(a: set<string>, b: set<string>)
    ensures |a * b| <= |a + b|
    ensures a != {} ==> |a + b| > 0
  {
    SubsetCard(a * b, a + b);
    if a != {} {
      var x :| x in a;
      SubsetCard({x}, a + b);
    }
  }

  lemma {:induction false} SubsetCard(x: set<string>, y: set<string>)
    requires x <= y
    ensures |x| <= |y|
    decreases |y|
  {
    if x != {} {
      var e :| e in x;
      SubsetCard(x - {e}, y - {e});
    }
  }

  /** `sim_matrix`: the Jaccard similarity of every line with every segment. */
  ghost function LineSims(lines: seq<string>, segs: seq<Segment>): (S: seq<seq<real>>)
    ensures |S| == |lines| && Rect(S, |segs|)
    ensures forall i, j {:trigger LineSim(lines, segs, i, j)} :: 0 <= i < |lines| && 0 <= j < |segs| ==>
      S[i][j] == LineSim(lines, segs, i, j)
  {
    seq(|lines|, i requires 0 <= i < |lines| =>
      seq(|segs|, j requires 0 <= j < |segs| => LineSim(lines, segs, i, j)))
  }

  /** One entry of `sim_matrix`. */
  function LineSim(lines: seq<string>, segs: seq<Segment>, i: nat, j: nat): real
    requires i < |lines| && j < |segs|
  {
    Jaccard(WordSet(lines[i]), WordSet(segs[j].text))
  }

  /** `expected_seg = int((i / n_lines) * n_segments)`. */
  function Expected(i: nat, n: nat, m: nat): int
    requires n > 0
  {
    ((i as real / n as real) * m as real).Floor
  }

  /** `search_range = max(3, n_segments // 4)`. */
  function SearchRange(m: nat): nat {
    Max(3, m / 4)
  }

  /** Position of `j` in the scan order `e, e, e+1, e-1, e+2, e-2, ...`. */
  function Rank(j: int, e: int): nat {
    2 * Abs(j - e) + (if j < e then 1 else 0)
  }

  /** `0 <= j < n_segments and j not in used_segments`, inside the window. */
  predicate Candidate(j: int, e: int, range: nat, m: nat, used: set<int>) {
    0 <= j < m && j !in used && Abs(j - e) <= range
  }

  /** `score = sim_matrix[i, j] * 0.7 + position_bonus * 0.3`. */
  function Score(sim: real, j: int, e: int, m: nat): real
    requires m > 0
  {
    sim * 0.7 + (1.0 - Abs(j - e) as real / m as real) * 0.3
  }

  /** The segment line `i` takes when `used` is already taken: the candidate of
      best score in the window, the first in scan order among equals, provided
      its score exceeds 0.2; `None` when no candidate scores above 0.2. */
  ghost predicate IsPick(S: seq<seq<real>>, m: nat, i: nat, used: set<int>, p: Option<nat>)
    requires i < |S| && Rect(S, m) && m > 0
  {
    var e := Expected(i, |S|, m);
    var range := SearchRange(m);
    match p
    case Some(j) =>
      && Candidate(j, e, range, m, used)
      && Score(S[i][j], j, e, m) > 0.2
      && (forall k {:trigger Candidate(k, e, range, m, used)} :: Candidate(k, e, range, m, used) ==>
            Score(S[i][k], k, e, m) <= Score(S[i][j], j, e, m))
      && (forall k {:trigger Candidate(k, e, range, m, used)} :: Candidate(k, e, range, m, used) && Rank(k, e) < Rank(j, e) ==>
            Score(S[i][k], k, e, m) < Score(S[i][j], j, e, m))
    case None =>
      forall k {:trigger Candidate(k, e, range, m, used)} :: Candidate(k, e, range, m, used) ==> Score(S[i][k], k, e, m) <= 0.2
  }

  /** The segments taken by lines `0 .. i - 1`. */
  function UsedBefore(picks: seq<Option<nat>>, i: nat): set<int>
    requires i <= |picks|
  {
    set k | 0 <= k < i && picks[k].Some? :: picks[k].value as int
  }

  /** The timing line `i` gets from its pick: the segment's own bounds, or an
      interpolation from the previous line's end to the end of the audio,
      shared among the lines still to place; the first line, when
      interpolated, takes the `i`-th even share. */
  function TimingFor(segs: seq<Segment>, n: nat, duration: real, i: nat,
                     p: Option<nat>, prev: Option<LineTiming>): LineTiming
    requires i < n
    requires p.Some? ==> p.value < |segs|
  {
    match p
    case Some(j) => LineTiming(i, segs[j].start, segs[j].end)
    case None =>
      match prev
      case Some(t) =>
        var gap := (duration - t.end) / (n - i) as real;
        LineTiming(i, t.end, t.end + gap)
      case None =>
        var gap := duration / n as real;
        LineTiming(i, i as real * gap, (i + 1) as real * gap)
  }

  /** What `segment_based_alignment` returns for `lines` and `segs`, with the
      picks that explain it: one timing per line in order; without segments
      the even split of `duration`; otherwise each line takes its `IsPick`
      among the segments no earlier line took, no segment is taken twice and
      the timings follow from the picks by `TimingFor`. */
  ghost predicate SegmentTimings(lines: seq<string>, segs: seq<Segment>, duration: real,
                                 timings: seq<LineTiming>, picks: seq<Option<nat>>)
  {
    && |timings| == |lines| && |picks| == |lines|
    && (forall i :: 0 <= i < |lines| ==> timings[i].line == i)
    && (segs == [] ==> forall i :: 0 <= i < |lines| ==>
          var d := duration / Max(|lines|, 1) as real;
          timings[i] == LineTiming(i, i as real * d, (i + 1) as real * d))
    && (forall a, b :: 0 <= a < b < |lines| && picks[a].Some? && picks[b].Some? ==> picks[a].value != picks[b].value)
    && (segs != [] ==>
          && Interpolates(segs, |lines|, duration, timings, picks)
          && forall i :: 0 <= i < |lines| ==> IsPick(LineSims(lines, segs), |segs|, i, UsedBefore(picks, i), picks[i]))
  }

  /** `segment_based_alignment(lyrics_lines, segments, audio_duration)`;
      `picks` records which segment each line took. */
  method SegmentBasedAlignment(lines: seq<string>, segs: seq<Segment>, duration: real)
    returns (timings: seq<LineTiming>, ghost picks: seq<Option<nat>>)
    ensures |timings| == |lines| && |picks| == |lines|
    ensures forall i :: 0 <= i < |lines| ==> timings[i].line == i
    ensures segs == [] ==> forall i :: 0 <= i < |lines| ==>
      var d := duration / Max(|lines|, 1) as real;
      timings[i] == LineTiming(i, i as real * d, (i + 1) as real * d)
    ensures forall i :: 0 <= i < |lines| && picks[i].Some? ==> picks[i].value < |segs|
    ensures forall a, b :: 0 <= a < b < |lines| && picks[a].Some? && picks[b].Some? ==> picks[a].value != picks[b].value
    ensures segs != [] ==> forall i :: 0 <= i < |lines| ==>
      && IsPick(LineSims(lines, segs), |segs|, i, UsedBefore(picks, i), picks[i])
      && timings[i] == TimingFor(segs, |lines|, duration, i, picks[i], Prior(timings, i))
    ensures SegmentTimings(lines, segs, duration, timings, picks)
  {
    var n, m := |lines|, |segs|;
    if m == 0 {
      var lineDuration := duration / Max(n, 1) as real;
      timings := seq(n, i requires 0 <= i < n => LineTiming(i, i as real * lineDuration, (i + 1) as real * lineDuration));
      picks := seq(n, i => None);
    } else {
      timings, picks := MatchLines(lines, segs, duration);
    }
  }

  /** The matching part of `segment_based_alignment`, for at least one segment:
      the similarity matrix, then the lines in order, each taking its pick. */
  method MatchLines(lines: seq<string>, segs: seq<Segment>, duration: real)
    returns (timings: seq<LineTiming>, ghost picks: seq<Option<nat>>)
    requires segs != []
    ensures |timings| == |lines| && |picks| == |lines|
    ensures forall i :: 0 <= i < |lines| ==> timings[i].line == i
    ensures forall i :: 0 <= i < |lines| && picks[i].Some? ==> picks[i].value < |segs|
    ensures forall a, b :: 0 <= a < b < |lines| && picks[a].Some? && picks[b].Some? ==> picks[a].value != picks[b].value
    ensures forall i :: 0 <= i < |lines| ==>
      && IsPick(LineSims(lines, segs), |segs|, i, UsedBefore(picks, i), picks[i])
      && timings[i] == TimingFor(segs, |lines|, duration, i, picks[i], Prior(timings, i))
  {
    var n, m := |lines|, |segs|;
    ghost var S := LineSims(lines, segs);
    var sim := LineSimilarityMatrix(lines, segs);
    timings, picks := [], [];
    var used: set<int> := {};
    var i := 0;
    while i < n
      invariant 0 <= i <= n && |picks| == i
      invariant sim.Length0 == n && sim.Length1 == m && Holds(sim, S)
      invariant used == UsedBefore(picks, i)
      invariant Placed(S, segs, duration, timings, picks)
    {
      var expectedSeg := Expected(i, n, m);
      var searchRange := SearchRange(m);
      var bestSeg, bestScore := BestSegment(sim, i, expectedSeg, searchRange, used, S);
      assert IsPick(S, m, i, used, if bestSeg.Some? && bestScore > 0.2 then bestSeg else None);
      var pick, timing := PlaceLine(segs, n, duration, i, bestSeg, bestScore, timings);
      if pick.Some? {
        used := used + {pick.value};
      }
      PlacedExtend(S, segs, duration, timings, picks, timing, pick);
      timings, picks := timings + [timing], picks + [pick];
      i := i + 1;
    }
    PlacedAll(S, segs, duration, timings, picks);
  }

  /** The end of one iteration of the outer loop: line `i` takes the segment
      found when its score exceeds 0.2, or else an interpolated slot. */
  method PlaceLine(segs: seq<Segment>, n: nat, duration: real, i: nat,
                   bestSeg: Option<nat>, bestScore: real, timings: seq<LineTiming>)
    returns (pick: Option<nat>, timing: LineTiming)
    requires i < n && |timings| == i && (bestSeg.Some? ==> bestSeg.value < |segs|)
    ensures pick == if bestSeg.Some? && bestScore > 0.2 then bestSeg else None
    ensures timing == TimingFor(segs, n, duration, i, pick, Prior(timings, i))
  {
    if bestSeg.Some? && bestScore > 0.2 {
      pick := bestSeg;
      var seg := segs[bestSeg.value];
      timing := LineTiming(i, seg.start, seg.end);
    } else {
      pick := None;
      if timings != [] {
        var prevEnd := timings[|timings| - 1].end;
        var gap := (duration - prevEnd) / (n - i) as real;
        timing := LineTiming(i, prevEnd, prevEnd + gap);
      } else {
        var gap := duration / n as real;
        timing := LineTiming(i, i as real * gap, (i + 1) as real * gap);
      }
    }
  }

  /** The timing of the line before line `k`, if any. */
  function Prior(timings: seq<LineTiming>, k: nat): Option<LineTiming>
    requires k <= |timings|
  {
    if k == 0 then None else Some(timings[k - 1])
  }

  /** Lines chosen by `TimingFor`: each line's timing follows from its pick
      and the timing of the line before it. */
  ghost predicate Interpolates(segs: seq<Segment>, n: nat, duration: real,
                               timings: seq<LineTiming>, picks: seq<Option<nat>>)
  {
    && |timings| == n && |picks| == n
    && (forall i :: 0 <= i < n && picks[i].Some? ==> picks[i].value < |segs|)
    && (forall i {:trigger Prior(timings, i)} :: 0 <= i < n ==>
          timings[i] == TimingFor(segs, n, duration, i, picks[i], Prior(timings, i)))
  }

  /** Slot `t` of length `g` counted from `e`, given to line `i`. */
  function Slot(i: nat, e: real, g: real, t: nat): LineTiming {
    LineTiming(i, e + t as real * g, e + (t + 1) as real * g)
  }

  /** The fallback interpolation shares the rest of the song evenly. After a
      line ending at `e` (or from 0 for the first line), a run of `r` lines
      without a segment, from line `s` on, takes `r` consecutive slots of
      length `(duration - e) / (n - s)`: each starts where the previous one
      ended, and a run reaching the last line ends exactly at `duration`. */
  lemma {:induction false} InterpolatedRun(segs: seq<Segment>, n: nat, duration: real,
                                           timings: seq<LineTiming>, picks: seq<Option<nat>>, s: nat, r: nat)
    requires Interpolates(segs, n, duration, timings, picks)
    requires 0 < r && s + r <= n
    requires forall t :: s <= t < s + r ==> picks[t].None?
    ensures var e := if s == 0 then 0.0 else timings[s - 1].end;
      var g := (duration - e) / (n - s) as real;
      forall t :: s <= t < s + r ==> timings[t] == Slot(t, e, g, t - s)
    ensures s > 0 ==> timings[s].start == timings[s - 1].end
    ensures s + r == n ==> timings[n - 1].end == duration
  {
    var e := if s == 0 then 0.0 else timings[s - 1].end;
    var g := (duration - e) / (n - s) as real;
    var k := s + r - 1;
    assert timings[k] == TimingFor(segs, n, duration, k, picks[k], Prior(timings, k));
    if r == 1 {
      if s == 0 {
        assert timings[0] == LineTiming(0, 0.0 * g, 1.0 * g);
      }
      assert timings[k] == Slot(k, e, g, 0);
    } else {
      InterpolatedRun(segs, n, duration, timings, picks, s, r - 1);
      assert timings[k - 1] == Slot(k - 1, e, g, k - 1 - s);
      InterpolatedNext(segs, n, duration, k, timings[k - 1], s, e);
      forall t | s <= t < s + r
        ensures timings[t] == Slot(t, e, g, t - s)
      {
      }
    }
    if s + r == n {
      EvenShare(duration - e, (n - s) as real, (r - 1) as real);
      assert timings[n - 1] == Slot(n - 1, e, g, r - 1);
    }
  }

  /** One more line without a segment in a run that started at line `s`
      after `e`: it takes the next slot of the same length. */
  lemma InterpolatedNext(segs: seq<Segment>, n: nat, duration: real, k: nat, prev: LineTiming, s: nat, e: real)
    requires s < k < n
    requires var g := (duration - e) / (n - s) as real;
      prev == Slot(k - 1, e, g, k - 1 - s)
    ensures var g := (duration - e) / (n - s) as real;
      TimingFor(segs, n, duration, k, None, Some(prev)) == Slot(k, e, g, k - s)
  {
    var g := (duration - e) / (n - s) as real;
    var t := (k - s) as real;
    assert prev.end == e + t * g;
    EvenShare(duration - e, (n - s) as real, t);
    assert (n - k) as real == (n - s) as real - t;
    assert (duration - prev.end) / (n - k) as real == g;
  }

  /** Taking `k` shares of `x / q` out of `x` leaves `q - k` shares of the
      same size, and `k + 1 == q` shares make up `x`. */
  lemma EvenShare(x: real, q: real, k: real)
    requires 0.0 <= k < q
    ensures (x - k * (x / q)) / (q - k) == x / q
    ensures k + 1.0 == q ==> (k + 1.0) * (x / q) == x
  {
    var g := x / q;
    assert x == q * g;
    assert x - k * g == (q - k) * g;
  }

  /** The outer loop's invariant after the first `|picks|` lines: each line
      carries its own index, took a free segment of the window by `IsPick`,
      and got the timing `TimingFor` gives it. */
  ghost predicate Placed(S: seq<seq<real>>, segs: seq<Segment>, duration: real,
                         timings: seq<LineTiming>, picks: seq<Option<nat>>)
  {
    && |segs| > 0 && Rect(S, |segs|) && |timings| == |picks| <= |S|
    && (forall k :: 0 <= k < |picks| ==> timings[k].line == k)
    && (forall k :: 0 <= k < |picks| && picks[k].Some? ==> picks[k].value < |segs|)
    && (forall k :: 0 <= k < |picks| ==>
          && IsPick(S, |segs|, k, UsedBefore(picks, k), picks[k])
          && timings[k] == TimingFor(segs, |S|, duration, k, picks[k], Prior(timings, k)))
  }

  /** Placing one more line keeps `Placed`; the new pick, when there is one,
      is taken out of the pool. */
  lemma PlacedExtend(S: seq<seq<real>>, segs: seq<Segment>, duration: real,
                     timings: seq<LineTiming>, picks: seq<Option<nat>>, t: LineTiming, p: Option<nat>)
    requires Placed(S, segs, duration, timings, picks) && |picks| < |S|
    requires IsPick(S, |segs|, |picks|, UsedBefore(picks, |picks|), p)
    requires t == TimingFor(segs, |S|, duration, |picks|, p, Prior(timings, |picks|))
    ensures Placed(S, segs, duration, timings + [t], picks + [p])
    ensures UsedBefore(picks + [p], |picks| + 1)
      == UsedBefore(picks, |picks|) + (if p.Some? then {p.value as int} else {})
  {
    var i := |picks|;
    var ts, ps := timings + [t], picks + [p];
    UsedBeforeExtend(picks, p);
    forall k | 0 <= k <= i
      ensures ts[k].line == k
      ensures ps[k].Some? ==> ps[k].value < |segs|
      ensures IsPick(S, |segs|, k, UsedBefore(ps, k), ps[k])
      ensures ts[k] == TimingFor(segs, |S|, duration, k, ps[k], Prior(ts, k))
    {
      if k < i {
        assert ts[k] == timings[k] && ps[k] == picks[k];
      } else {
        assert ts[k] == t && ps[k] == p;
      }
      assert Prior(ts, k) == Prior(timings, k);
    }
  }

  /** At the end of the loop the picks are pairwise distinct. */
  lemma PlacedAll(S: seq<seq<real>>, segs: seq<Segment>, duration: real,
                  timings: seq<LineTiming>, picks: seq<Option<nat>>)
    requires Placed(S, segs, duration, timings, picks)
    ensures forall a, b :: 0 <= a < b < |picks| && picks[a].Some? && picks[b].Some? ==> picks[a].value != picks[b].value
  {
    forall a, b | 0 <= a < b < |picks| && picks[a].Some? && picks[b].Some?
      ensures picks[a].value != picks[b].value
    {
      assert picks[a].value as int in UsedBefore(picks, b);
      assert IsPick(S, |segs|, b, UsedBefore(picks, b), picks[b]);
    }
  }

  lemma UsedBeforeExtend(picks: seq<Option<nat>>, p: Option<nat>)
    ensures forall k :: 0 <= k <= |picks| ==> UsedBefore(picks + [p], k) == UsedBefore(picks, k)
    ensures UsedBefore(picks + [p], |picks| + 1)
      == UsedBefore(picks, |picks|) + (if p.Some? then {p.value as int} else {})
  {
    var q := picks + [p];
    forall k | 0 <= k <= |picks|
      ensures UsedBefore(q, k) == UsedBefore(picks, k)
    {
      assert forall t :: 0 <= t < k ==> q[t] == picks[t];
    }
    var n := |picks|;
    var added: set<int> := if p.Some? then {p.value as int} else {};
    forall x | x in UsedBefore(q, n + 1)
      ensures x in UsedBefore(picks, n) + added
    {
      var t :| 0 <= t < n + 1 && q[t].Some? && q[t].value as int == x;
      if t < n {
        assert q[t] == picks[t];
      }
    }
    forall x | x in UsedBefore(picks, n) + added
      ensures x in UsedBefore(q, n + 1)
    {
      if x in added {
        assert q[n] == p;
      } else {
        var t :| 0 <= t < n && picks[t].Some? && picks[t].value as int == x;
        assert q[t] == picks[t];
      }
    }
  }

  /** The nested loops filling `sim_matrix` with Jaccard similarities. */
  method LineSimilarityMatrix(lines: seq<string>, segs: seq<Segment>) returns (sim: array2<real>)
    ensures fresh(sim)
    ensures sim.Length0 == |lines| && sim.Length1 == |segs|
    ensures Holds(sim, LineSims(lines, segs))
  {
    ghost var S := LineSims(lines, segs);
    sim := new real[|lines|, |segs|];
    var i := 0;
    while i < |lines|
      modifies sim
      invariant 0 <= i <= |lines|
      invariant forall a, b :: 0 <= a < i && 0 <= b < |segs| ==> sim[a, b] == S[a][b]
    {
      FillSimilarityRow(sim, lines, segs, i, S);
      i := i + 1;
    }
  }

  /** Row `i` of `sim_matrix`: the line's word set against every segment's. */
  method FillSimilarityRow(sim: array2<real>, lines: seq<string>, segs: seq<Segment>, i: nat,
                           ghost S: seq<seq<real>>)
    requires sim.Length0 == |lines| && sim.Length1 == |segs| && i < |lines|
    requires S == LineSims(lines, segs)
    requires forall a, b :: 0 <= a < i && 0 <= b < |segs| ==> sim[a, b] == S[a][b]
    modifies sim
    ensures forall a, b :: 0 <= a <= i && 0 <= b < |segs| ==> sim[a, b] == S[a][b]
  {
    var lineWords := WordSet(lines[i]);
    var j := 0;
    while j < |segs|
      invariant 0 <= j <= |segs|
      invariant forall a, b :: 0 <= a < i && 0 <= b < |segs| ==> sim[a, b] == S[a][b]
      invariant forall b :: 0 <= b < j ==> sim[i, b] == S[i][b]
    {
      FillSimilarityCell(sim, lines, segs, i, j, lineWords, S);
      j := j + 1;
    }
  }

  /** `sim_matrix[i, j]`: 0 unless both word sets are non-empty, then their Jaccard similarity. */
  method FillSimilarityCell(sim: array2<real>, lines: seq<string>, segs: seq<Segment>, i: nat, j: nat,
                            lineWords: set<string>, ghost S: seq<seq<real>>)
    requires sim.Length0 == |lines| && sim.Length1 == |segs| && i < |lines| && j < |segs|
    requires S == LineSims(lines, segs) && lineWords == WordSet(lines[i])
    modifies sim
    ensures forall a, b :: 0 <= a < sim.Length0 && 0 <= b < sim.Length1 && (a != i || b != j) ==> sim[a, b] == old(sim[a, b])
    ensures sim[i, j] == S[i][j]
  {
    var segWords := WordSet(segs[j].text);
    var x := 0.0;
    if lineWords != {} && segWords != {} {
      x := Jaccard(lineWords, segWords);
    }
    assert x == LineSim(lines, segs, i, j);
    sim[i, j] := x;
  }

  /** The window search for line `i`: offsets `0 .. search_range`, and for each
      `expected_seg + offset` then `expected_seg - offset`, keeping a free
      segment whose score beats the best so far. */
  method BestSegment(sim: array2<real>, i: nat, e: int, range: nat, used: set<int>, ghost S: seq<seq<real>>)
    returns (bestSeg: Option<nat>, bestScore: real)
    requires Holds(sim, S) && i < |S| && sim.Length1 > 0
    requires e == Expected(i, |S|, sim.Length1) && range == SearchRange(sim.Length1)
    ensures bestSeg.Some? ==> bestSeg.value < sim.Length1
    ensures bestSeg.Some? && bestScore > 0.2 ==> IsPick(S, sim.Length1, i, used, bestSeg)
    ensures !(bestSeg.Some? && bestScore > 0.2) ==> IsPick(S, sim.Length1, i, used, None)
  {
    var m := sim.Length1;
    bestSeg, bestScore := None, -1.0;
    var offset := 0;
    while offset <= range
      invariant 0 <= offset <= range + 1
      invariant Scanned(S, m, i, e, range, used, 2 * offset, bestSeg, bestScore)
    {
      var js := [e + offset, e - offset];
      var c := 0;
      while c < 2
        invariant 0 <= c <= 2
        invariant Scanned(S, m, i, e, range, used, 2 * offset + c, bestSeg, bestScore)
      {
        var j := js[c];
        RankAt(j, e, offset, c);
        bestSeg, bestScore := Consider(sim, i, e, range, used, S, j, 2 * offset + c, bestSeg, bestScore);
        c := c + 1;
      }
      offset := offset + 1;
    }
  }

  /** One visit of the window search: the free segment `j` replaces the best
      so far when its score is strictly larger. */
  method Consider(sim: array2<real>, i: nat, e: int, range: nat, used: set<int>, ghost S: seq<seq<real>>,
                  j: int, ghost p: nat, bestSeg: Option<nat>, bestScore: real)
    returns (seg: Option<nat>, score: real)
    requires Holds(sim, S) && i < |S| && sim.Length1 > 0 && Abs(j - e) <= range
    requires p == Rank(j, e) || (p == 1 && j == e)
    requires Scanned(S, sim.Length1, i, e, range, used, p, bestSeg, bestScore)
    ensures Scanned(S, sim.Length1, i, e, range, used, p + 1, seg, score)
  {
    var m := sim.Length1;
    RankUnique(j, e);
    seg, score := bestSeg, bestScore;
    if 0 <= j < m && j !in used {
      var positionBonus := 1.0 - Abs(j - e) as real / m as real;
      var s := sim[i, j] * 0.7 + positionBonus * 0.3;
      assert s == Score(S[i][j], j, e, m);
      if s > bestScore {
        seg, score := Some(j), s;
      }
    }
  }

  /** Distinct segments have distinct ranks, and no segment has rank 1. */
  lemma RankUnique(j: int, e: int)
    ensures forall k :: Rank(k, e) == Rank(j, e) ==> k == j
    ensures forall k :: Rank(k, e) != 1
  {
  }

  /** Scan positions are visited in rank order: the candidate visited at
      `(offset, c)` has rank `2 * offset + c`, except the repeated visit of
      `e` itself, and every rank below 2 * (range + 1) is in the window. */
  lemma RankAt(j: int, e: int, offset: nat, c: nat)
    requires c < 2 && j == (if c == 0 then e + offset else e - offset)
    ensures offset > 0 || c == 0 ==> Rank(j, e) == 2 * offset + c
    ensures offset == 0 && c == 1 ==> j == e
  {
  }

  /** The state of the window search after the first `p` scan positions. */
  ghost predicate Scanned(S: seq<seq<real>>, m: nat, i: nat, e: int, range: nat,
                          used: set<int>, p: nat, bestSeg: Option<nat>, bestScore: real)
    requires i < |S| && Rect(S, m) && m > 0
  {
    && (forall k {:trigger Candidate(k, e, range, m, used)} :: Candidate(k, e, range, m, used) && Rank(k, e) < p ==>
          Score(S[i][k], k, e, m) <= bestScore)
    && (bestSeg.None? ==> bestScore == -1.0)
    && (bestSeg.Some? ==>
          var j := bestSeg.value;
          && Candidate(j, e, range, m, used) && Rank(j, e) < p
          && bestScore == Score(S[i][j], j, e, m)
          && (forall k {:trigger Candidate(k, e, range, m, used)} :: Candidate(k, e, range, m, used) && Rank(k, e) < Rank(j, e) ==>
                Score(S[i][k], k, e, m) < bestScore))
  }
}
