/** The assembly steps of `LyricsAligner.align_lyrics`
    (backend/lyrics_video_app.py): collecting the transcribed words, parsing
    the lyrics into lines, flattening their words, turning the word
    alignment into a timing map, building the timed lines, and
    post-processing them. The transcription itself and the audio duration
    are inputs. */
module Assembly {
  import opened Wrappers
  import opened Text
  import opened Dtw
  import opened SegmentAlignment
  import opened Timing
  import opened PostProcess
  import opened Similarity
  import opened Levenshtein

  // ---------------------------------------------------------------------
  // Transcribed words
  // ---------------------------------------------------------------------

  /** `'start' in word_info and 'end' in word_info`. */
  predicate HasTimes(w: RawWord) {
    w.start.Some? && w.end.Some?
  }

  /** The dictionary appended for a word with both times. */
  function Transcribe(w: RawWord): TranscribedWord
    requires HasTimes(w)
  {
    TranscribedWord(Strip(w.word.GetOr("")), w.start.value, w.end.value, w.score.GetOr(1.0))
  }

  /** The raw words of one segment that have both times, in order. */
  function Timed(ws: seq<RawWord>): (r: seq<RawWord>)
    ensures |r| <= |ws|
    ensures forall k :: 0 <= k < |r| ==> HasTimes(r[k])
  {
    if ws == [] then []
    else
      var last := ws[|ws| - 1];
      Timed(ws[..|ws| - 1]) + (if HasTimes(last) then [last] else [])
  }

  /** The dictionaries the inner loop appends for one segment. */
  function KeptWords(ws: seq<RawWord>): seq<TranscribedWord> {
    var ts := Timed(ws);
    seq(|ts|, k requires 0 <= k < |ts| => Transcribe(ts[k]))
  }

  /** The words of all segments that have both times, in order. */
  function Extracted(segs: seq<Segment>): seq<TranscribedWord> {
    if segs == [] then [] else Extracted(segs[..|segs| - 1]) + KeptWords(segs[|segs| - 1].words)
  }

  /** The nested loop that collects `transcribed_words`. */
  method ExtractTranscribedWords(segs: seq<Segment>) returns (words: seq<TranscribedWord>)
    ensures words == Extracted(segs)
  {
    words := [];
    var s := 0;
    while s < |segs|
      invariant 0 <= s <= |segs|
      invariant words == Extracted(segs[..s])
    {
      assert segs[..s + 1][..s] == segs[..s];
      words := AppendKept(words, segs[s].words);
      s := s + 1;
    }
    assert segs[..s] == segs;
  }

  /** The inner loop over `segment.get('words', [])`. */
  method AppendKept(words: seq<TranscribedWord>, raw: seq<RawWord>) returns (r: seq<TranscribedWord>)
    ensures r == words + KeptWords(raw)
  {
    r := words;
    var k := 0;
    while k < |raw|
      invariant 0 <= k <= |raw|
      invariant r == words + KeptWords(raw[..k])
    {
      KeptWordsStep(raw, k);
      if HasTimes(raw[k]) {
        r := r + [Transcribe(raw[k])];
      }
      k := k + 1;
    }
    assert raw[..k] == raw;
  }

  lemma KeptWordsStep(raw: seq<RawWord>, k: nat)
    requires k < |raw|
    ensures KeptWords(raw[..k + 1]) == KeptWords(raw[..k]) + (if HasTimes(raw[k]) then [Transcribe(raw[k])] else [])
  {
    assert raw[..k + 1][..k] == raw[..k];
    var a, b := Timed(raw[..k]), Timed(raw[..k + 1]);
    assert b == a + (if HasTimes(raw[k]) then [raw[k]] else []);
    assert forall j :: 0 <= j < |a| ==> b[j] == a[j];
  }

  /** The positions of the raw words that have both times, in increasing order. */
  function TimedPositions(ws: seq<RawWord>): seq<nat> {
    if ws == [] then []
    else TimedPositions(ws[..|ws| - 1]) + (if HasTimes(ws[|ws| - 1]) then [|ws| - 1] else [])
  }

  /** The `k`-th raw word with both times sits at the `k`-th position, and the
      positions increase. */
  lemma {:induction false} TimedAtPositions(ws: seq<RawWord>)
    ensures |Timed(ws)| == |TimedPositions(ws)|
    ensures forall k :: 0 <= k < |TimedPositions(ws)| ==>
      TimedPositions(ws)[k] < |ws| && Timed(ws)[k] == ws[TimedPositions(ws)[k]]
    ensures forall a, b :: 0 <= a < b < |TimedPositions(ws)| ==> TimedPositions(ws)[a] < TimedPositions(ws)[b]
  {
    if ws != [] {
      var init := ws[..|ws| - 1];
      TimedAtPositions(init);
      var p, p0, r, r0 := TimedPositions(ws), TimedPositions(init), Timed(ws), Timed(init);
      assert forall k :: 0 <= k < |p0| ==> p[k] == p0[k] && r[k] == r0[k] && ws[p0[k]] == init[p0[k]];
    }
  }

  /** Every raw word with both times has a position. */
  lemma {:induction false} TimedPositionsComplete(ws: seq<RawWord>)
    ensures forall i :: 0 <= i < |ws| && HasTimes(ws[i]) ==> i in TimedPositions(ws)
  {
    if ws != [] {
      var init := ws[..|ws| - 1];
      TimedPositionsComplete(init);
      var p, p0 := TimedPositions(ws), TimedPositions(init);
      forall i | 0 <= i < |ws| && HasTimes(ws[i])
        ensures i in p
      {
        if i < |init| {
          assert init[i] == ws[i];
        }
      }
    }
  }

  /** The kept words are exactly the raw words with both times, transcribed,
      in their order: the `k`-th kept word comes from the `k`-th such position,
      the positions increase, and every raw word with both times has one. */
  lemma KeptWordsPositions(ws: seq<RawWord>)
    ensures |KeptWords(ws)| == |TimedPositions(ws)|
    ensures forall k :: 0 <= k < |TimedPositions(ws)| ==>
      TimedPositions(ws)[k] < |ws| && HasTimes(ws[TimedPositions(ws)[k]])
      && KeptWords(ws)[k] == Transcribe(ws[TimedPositions(ws)[k]])
    ensures forall a, b :: 0 <= a < b < |TimedPositions(ws)| ==> TimedPositions(ws)[a] < TimedPositions(ws)[b]
    ensures forall i :: 0 <= i < |ws| && HasTimes(ws[i]) ==> i in TimedPositions(ws)
  {
    TimedAtPositions(ws);
    TimedPositionsComplete(ws);
  }

  /** Extraction over two runs of segments is the concatenation. */
  lemma {:induction false} ExtractedAppend(a: seq<Segment>, b: seq<Segment>)
    ensures Extracted(a + b) == Extracted(a) + Extracted(b)
    decreases |b|
  {
    if b != [] {
      var init := b[..|b| - 1];
      assert (a + b)[..|a + b| - 1] == a + init;
      ExtractedAppend(a, init);
    } else {
      assert a + b == a;
    }
  }

  // ---------------------------------------------------------------------
  // Lyric lines
  // ---------------------------------------------------------------------

  /** A stripped line is kept when it is non-empty and is not a section header. */
  predicate KeptLine(l: string) {
    l != [] && l[0] != '['
  }

  /** `[line.strip() for line in pieces if line.strip() and not line.strip().startswith('[')]`. */
  function KeptLines(pieces: seq<string>): (r: seq<string>)
    ensures |r| <= |pieces|
  {
    if pieces == [] then []
    else
      var l := Strip(pieces[0]);
      (if KeptLine(l) then [l] else []) + KeptLines(pieces[1..])
  }

  /** `lyrics_lines`: the kept lines of the stripped lyrics split on newlines. */
  function LyricLines(text: string): seq<string> {
    KeptLines(SplitLines(Strip(text)))
  }

  /** Parsing is line by line: it distributes over concatenation of the pieces. */
  lemma {:induction false} KeptLinesAppend(a: seq<string>, b: seq<string>)
    ensures KeptLines(a + b) == KeptLines(a) + KeptLines(b)
  {
    if a != [] {
      var l := Strip(a[0]);
      var head: seq<string> := if KeptLine(l) then [l] else [];
      assert (a + b)[0] == a[0] && (a + b)[1..] == a[1..] + b;
      assert KeptLines(a + b) == head + KeptLines(a[1..] + b);
      KeptLinesAppend(a[1..], b);
      assert KeptLines(a) == head + KeptLines(a[1..]);
    } else {
      assert a + b == b;
    }
  }

  /** Every parsed line is non-empty, not a header, and has no surrounding
      whitespace. */
  lemma {:induction false} KeptLinesShape(pieces: seq<string>)
    ensures forall k :: 0 <= k < |KeptLines(pieces)| ==>
      var l := KeptLines(pieces)[k];
      KeptLine(l) && !IsSpace(l[0]) && !IsSpace(l[|l| - 1])
  {
    if pieces != [] {
      KeptLinesShape(pieces[1..]);
      var l := Strip(pieces[0]);
      var rest := KeptLines(pieces[1..]);
      var r := KeptLines(pieces);
      if KeptLine(l) {
        assert r == [l] + rest;
        assert forall k :: 1 <= k < |r| ==> r[k] == rest[k - 1];
      } else {
        assert r == rest;
      }
    }
  }

  /** Every kept line has at least one word, so it yields a timed line. */
  lemma KeptLineHasWords(l: string)
    requires KeptLine(l) && !IsSpace(l[0])
    ensures Words(l) != []
  {
    assert TrimStart(l) == l;
  }

  // ---------------------------------------------------------------------
  // Flattening
  // ---------------------------------------------------------------------

  /** `line.split()` for every line. */
  function SplitAll(lines: seq<string>): (r: seq<seq<string>>)
    ensures |r| == |lines| && forall i :: 0 <= i < |lines| ==> r[i] == Words(lines[i])
  {
    seq(|lines|, i requires 0 <= i < |lines| => Words(lines[i]))
  }

  /** `all_lyrics_words`: the words of every line, in order. */
  function Flat(wss: seq<seq<string>>): seq<string> {
    if wss == [] then [] else Flat(wss[..|wss| - 1]) + wss[|wss| - 1]
  }

  /** `(line_idx, word_idx)` for each of `count` words of line `i`. */
  function Positions(i: nat, count: nat): (r: seq<(nat, nat)>)
    ensures |r| == count && forall j :: 0 <= j < count ==> r[j] == (i, j)
  {
    seq(count, j => (i, j))
  }

  /** `word_to_line_map`: where each flattened word comes from. */
  function FlatIndex(wss: seq<seq<string>>): seq<(nat, nat)> {
    if wss == [] then []
    else FlatIndex(wss[..|wss| - 1]) + Positions(|wss| - 1, |wss[|wss| - 1]|)
  }

  /** The nested loop that flattens the lines' words and records their positions. */
  method FlattenWords(lines: seq<string>) returns (all: seq<string>, wordToLine: seq<(nat, nat)>)
    ensures all == Flat(SplitAll(lines)) && wordToLine == FlatIndex(SplitAll(lines))
  {
    ghost var wss := SplitAll(lines);
    all, wordToLine := [], [];
    var i := 0;
    while i < |lines|
      invariant 0 <= i <= |lines|
      invariant all == Flat(wss[..i]) && wordToLine == FlatIndex(wss[..i])
    {
      assert wss[..i + 1][..i] == wss[..i];
      var words := Words(lines[i]);
      all, wordToLine := AppendLineWords(all, wordToLine, words, i);
      i := i + 1;
    }
    assert wss[..i] == wss;
  }

  /** The inner loop over `enumerate(words)`. */
  method AppendLineWords(all: seq<string>, wordToLine: seq<(nat, nat)>, words: seq<string>, i: nat)
    returns (all': seq<string>, wordToLine': seq<(nat, nat)>)
    ensures all' == all + words && wordToLine' == wordToLine + Positions(i, |words|)
  {
    all', wordToLine' := all, wordToLine;
    var j := 0;
    while j < |words|
      invariant 0 <= j <= |words|
      invariant all' == all + words[..j] && wordToLine' == wordToLine + Positions(i, j)
    {
      assert words[..j + 1] == words[..j] + [words[j]];
      assert Positions(i, j + 1) == Positions(i, j) + [(i, j)];
      all', wordToLine' := all' + [words[j]], wordToLine' + [(i, j)];
      j := j + 1;
    }
    assert words[..j] == words;
  }

  /** Each flattened word is word `j` of line `i` where the map says, and sits
      after all the words of the earlier lines. */
  lemma {:induction false} FlatIndexSound(wss: seq<seq<string>>)
    ensures |FlatIndex(wss)| == |Flat(wss)|
    ensures forall k :: 0 <= k < |Flat(wss)| ==>
      var (i, j) := FlatIndex(wss)[k];
      i < |wss| && j < |wss[i]| && Flat(wss)[k] == wss[i][j] && k == |Flat(wss[..i])| + j
  {
    if wss != [] {
      var n := |wss|;
      var init, ws := wss[..n - 1], wss[n - 1];
      FlatIndexSound(init);
      var f, f0, x, x0 := Flat(wss), Flat(init), FlatIndex(wss), FlatIndex(init);
      assert f == f0 + ws && x == x0 + Positions(n - 1, |ws|);
      assert wss[..n - 1] == init;
      forall k | 0 <= k < |f|
        ensures var (i, j) := x[k];
          i < n && j < |wss[i]| && f[k] == wss[i][j] && k == |Flat(wss[..i])| + j
      {
        if k < |f0| {
          var (i, j) := x0[k];
          assert x[k] == x0[k] && f[k] == f0[k];
          assert wss[i] == init[i] && wss[..i] == init[..i];
        } else {
          assert x[k] == (n - 1, k - |f0|) && f[k] == ws[k - |f0|];
        }
      }
    }
  }

  /** Word `j` of line `i` appears in the flattened list at `|Flat(wss[..i])| + j`;
      with `FlatIndexSound`, the map is a bijection onto the words of the lines. */
  lemma {:induction false} FlatIndexComplete(wss: seq<seq<string>>, i: nat, j: nat)
    requires i < |wss| && j < |wss[i]|
    ensures |Flat(wss[..i])| + j < |FlatIndex(wss)|
    ensures FlatIndex(wss)[|Flat(wss[..i])| + j] == (i, j)
    decreases |wss|
  {
    var n := |wss|;
    var init := wss[..n - 1];
    FlatIndexSound(wss);
    FlatIndexSound(init);
    var k := |Flat(wss[..i])| + j;
    var x, x0 := FlatIndex(wss), FlatIndex(init);
    assert x == x0 + Positions(n - 1, |wss[n - 1]|);
    if i < n - 1 {
      assert init[i] == wss[i] && init[..i] == wss[..i];
      FlatIndexComplete(init, i, j);
      assert x[k] == x0[k];
    } else {
      assert wss[..i] == init;
      assert x[k] == (n - 1, j);
    }
  }

  // ---------------------------------------------------------------------
  // Timing map
  // ---------------------------------------------------------------------

  /** A value of `word_timing_map`. */
  datatype WordTiming = WordTiming(start: real, end: real, confidence: real)

  /** The alignments all point into the word lists. */
  predicate InRange(alignments: seq<Alignment>, index: seq<(nat, nat)>, tws: seq<TranscribedWord>) {
    forall k :: 0 <= k < |alignments| ==> alignments[k].lyricsIdx < |index| && alignments[k].transIdx < |tws|
  }

  /** The entry an alignment contributes: the transcribed times, and its
      similarity times the word's score. */
  function EntryFor(a: Alignment, tws: seq<TranscribedWord>): WordTiming
    requires a.transIdx < |tws|
  {
    var tw := tws[a.transIdx];
    WordTiming(tw.start, tw.end, a.similarity * tw.score)
  }

  /** `word_timing_map` after the loop over the alignments; a later entry for
      the same key replaces an earlier one. */
  function TimingMap(alignments: seq<Alignment>, index: seq<(nat, nat)>, tws: seq<TranscribedWord>): map<(nat, nat), WordTiming>
    requires InRange(alignments, index, tws)
  {
    if alignments == [] then map[]
    else
      var a := alignments[|alignments| - 1];
      TimingMap(alignments[..|alignments| - 1], index, tws)[index[a.lyricsIdx] := EntryFor(a, tws)]
  }

  /** The loop that builds `word_timing_map`. */
  method BuildTimingMap(alignments: seq<Alignment>, index: seq<(nat, nat)>, tws: seq<TranscribedWord>)
    returns (m: map<(nat, nat), WordTiming>)
    requires InRange(alignments, index, tws)
    ensures m == TimingMap(alignments, index, tws)
  {
    m := map[];
    var k := 0;
    while k < |alignments|
      invariant 0 <= k <= |alignments|
      invariant InRange(alignments[..k], index, tws)
      invariant m == TimingMap(alignments[..k], index, tws)
    {
      assert alignments[..k + 1][..k] == alignments[..k];
      InRangePrefix(alignments, index, tws, k + 1);
      var a := alignments[k];
      assert alignments[..k + 1][k] == a;
      assert TimingMap(alignments[..k + 1], index, tws) == TimingMap(alignments[..k], index, tws)[index[a.lyricsIdx] := EntryFor(a, tws)];
      var tw := tws[a.transIdx];
      m := m[index[a.lyricsIdx] := WordTiming(tw.start, tw.end, a.similarity * tw.score)];
      assert WordTiming(tw.start, tw.end, a.similarity * tw.score) == EntryFor(a, tws);
      assert m == TimingMap(alignments[..k + 1], index, tws);
      k := k + 1;
    }
    assert alignments[..k] == alignments;
  }

  lemma InRangePrefix(alignments: seq<Alignment>, index: seq<(nat, nat)>, tws: seq<TranscribedWord>, k: nat)
    requires InRange(alignments, index, tws) && k <= |alignments|
    ensures InRange(alignments[..k], index, tws)
  {
    forall j | 0 <= j < k
      ensures alignments[..k][j] == alignments[j]
    {
    }
  }

  /** The keys of the map are exactly the positions of the aligned lyrics words. */
  lemma {:induction false} TimingMapKeys(alignments: seq<Alignment>, index: seq<(nat, nat)>, tws: seq<TranscribedWord>)
    requires InRange(alignments, index, tws)
    ensures TimingMap(alignments, index, tws).Keys
      == set k | 0 <= k < |alignments| :: index[alignments[k].lyricsIdx]
  {
    if alignments != [] {
      var n := |alignments|;
      var init := alignments[..n - 1];
      assert InRange(init, index, tws);
      TimingMapKeys(init, index, tws);
      var keys := set k | 0 <= k < n :: index[alignments[k].lyricsIdx];
      var keys0 := set k | 0 <= k < n - 1 :: index[init[k].lyricsIdx];
      assert keys == keys0 + {index[alignments[n - 1].lyricsIdx]} by {
        forall key | key in keys ensures key in keys0 + {index[alignments[n - 1].lyricsIdx]} {
          var k :| 0 <= k < n && key == index[alignments[k].lyricsIdx];
          if k < n - 1 { assert init[k] == alignments[k]; }
        }
        forall key | key in keys0 ensures key in keys {
          var k :| 0 <= k < n - 1 && key == index[init[k].lyricsIdx];
          assert init[k] == alignments[k];
        }
      }
    }
  }

  /** When no two alignments share a key, each aligned word's entry is the
      one its alignment contributes. */
  lemma {:induction false} TimingMapEntries(alignments: seq<Alignment>, index: seq<(nat, nat)>, tws: seq<TranscribedWord>)
    requires InRange(alignments, index, tws)
    requires forall a, b :: 0 <= a < b < |alignments| ==>
      index[alignments[a].lyricsIdx] != index[alignments[b].lyricsIdx]
    ensures forall k :: 0 <= k < |alignments| ==>
      index[alignments[k].lyricsIdx] in TimingMap(alignments, index, tws)
      && TimingMap(alignments, index, tws)[index[alignments[k].lyricsIdx]] == EntryFor(alignments[k], tws)
  {
    if alignments != [] {
      var n := |alignments|;
      var init := alignments[..n - 1];
      assert InRange(init, index, tws);
      TimingMapEntries(init, index, tws);
      forall k | 0 <= k < n - 1
        ensures init[k] == alignments[k] && index[alignments[k].lyricsIdx] != index[alignments[n - 1].lyricsIdx]
      {
      }
    }
  }

  // ---------------------------------------------------------------------
  // Timed lines
  // ---------------------------------------------------------------------

  /** `next((t for t in line_timings if t[0] == line_idx), None)`. */
  function FindAnchor(timings: seq<LineTiming>, i: nat): (r: Option<LineTiming>)
    ensures r.Some? ==> r.value in timings && r.value.line == i
    ensures r.None? ==> forall k :: 0 <= k < |timings| ==> timings[k].line != i
  {
    if timings == [] then None
    else if timings[0].line == i then Some(timings[0])
    else FindAnchor(timings[1..], i)
  }

  /** `(anchor_start, anchor_end)` of line `i` of `n`: the anchor's bounds, or
      the `i`-th even share of the song. */
  function AnchorBounds(timings: seq<LineTiming>, i: nat, n: nat, duration: real): (real, real)
    requires i < n
  {
    match FindAnchor(timings, i)
    case Some(t) => (t.start, t.end)
    case None => ((i as real / n as real) * duration, ((i + 1) as real / n as real) * duration)
  }

  /** The TimedWord for word `k` of line `i` (of `count` words), given the
      words of the line built so far: the mapped timing when there is one,
      otherwise 0.25 s interpolated between the anchor bounds, no earlier
      than 0.05 s after the previous word. */
  function TimedWordFor(word: string, k: nat, count: nat, i: nat, tmap: map<(nat, nat), WordTiming>,
                        anchorStart: real, anchorEnd: real, done: seq<TimedWord>): TimedWord
  {
    if (i, k) in tmap then
      var t := tmap[(i, k)];
      TimedWord(word, t.start, t.end, t.confidence)
    else
      var wordProgress := k as real / Max(count, 1) as real;
      var estStart := anchorStart + (anchorEnd - anchorStart) * wordProgress;
      var estStart' := if done != [] then RealMax(estStart, done[|done| - 1].end + 0.05) else estStart;
      TimedWord(word, estStart', estStart' + 0.25, 0.3)
  }

  /** `line_timed_words` after the first `k` words of the line. */
  function LineWordsUpTo(ws: seq<string>, k: nat, i: nat, tmap: map<(nat, nat), WordTiming>,
                         anchorStart: real, anchorEnd: real): (r: seq<TimedWord>)
    requires k <= |ws|
    ensures |r| == k
  {
    if k == 0 then []
    else
      var done := LineWordsUpTo(ws, k - 1, i, tmap, anchorStart, anchorEnd);
      done + [TimedWordFor(ws[k - 1], k - 1, |ws|, i, tmap, anchorStart, anchorEnd, done)]
  }

  /** The line built for kept line `i`, or `None` when it has no words. */
  function BuildLine(line: string, ws: seq<string>, i: nat, n: nat, timings: seq<LineTiming>,
                     tmap: map<(nat, nat), WordTiming>, duration: real): (r: Option<TimedLine>)
    requires i < n
  {
    var (anchorStart, anchorEnd) := AnchorBounds(timings, i, n, duration);
    var words := LineWordsUpTo(ws, |ws|, i, tmap, anchorStart, anchorEnd);
    if words == [] then None
    else Some(TimedLine(line, words[0].start, words[|words| - 1].end, words))
  }

  /** `timed_lines` after the first `k` of the `lines`, whose words are `wss`. */
  function TimedLinesUpTo(lines: seq<string>, wss: seq<seq<string>>, k: nat, timings: seq<LineTiming>,
                          tmap: map<(nat, nat), WordTiming>, duration: real): (r: seq<TimedLine>)
    requires k <= |lines| == |wss|
    ensures |r| <= k
  {
    if k == 0 then []
    else
      var done := TimedLinesUpTo(lines, wss, k - 1, timings, tmap, duration);
      match BuildLine(lines[k - 1], wss[k - 1], k - 1, |lines|, timings, tmap, duration)
      case Some(line) => done + [line]
      case None => done
  }

  /** The loop over the words of one line. */
  method BuildLineWords(ws: seq<string>, i: nat, tmap: map<(nat, nat), WordTiming>,
                        anchorStart: real, anchorEnd: real) returns (lineTimedWords: seq<TimedWord>)
    ensures lineTimedWords == LineWordsUpTo(ws, |ws|, i, tmap, anchorStart, anchorEnd)
  {
    lineTimedWords := [];
    var k := 0;
    while k < |ws|
      invariant 0 <= k <= |ws|
      invariant lineTimedWords == LineWordsUpTo(ws, k, i, tmap, anchorStart, anchorEnd)
    {
      var timedWord := TimeWord(ws[k], k, |ws|, i, tmap, anchorStart, anchorEnd, lineTimedWords);
      lineTimedWords := lineTimedWords + [timedWord];
      k := k + 1;
    }
  }

  /** The statements of one iteration over the words of a line. */
  method TimeWord(word: string, k: nat, count: nat, i: nat, tmap: map<(nat, nat), WordTiming>,
                  anchorStart: real, anchorEnd: real, lineTimedWords: seq<TimedWord>) returns (r: TimedWord)
    ensures r == TimedWordFor(word, k, count, i, tmap, anchorStart, anchorEnd, lineTimedWords)
  {
    if (i, k) in tmap {
      var timing := tmap[(i, k)];
      r := TimedWord(word, timing.start, timing.end, timing.confidence);
    } else {
      var wordProgress := k as real / Max(count, 1) as real;
      var estStart := anchorStart + (anchorEnd - anchorStart) * wordProgress;
      if lineTimedWords != [] {
        estStart := RealMax(estStart, lineTimedWords[|lineTimedWords| - 1].end + 0.05);
      }
      var estEnd := estStart + 0.25;
      r := TimedWord(word, estStart, estEnd, 0.3);
    }
  }

  /** The loop over the lyrics lines that builds `timed_lines`. */
  method BuildLines(lines: seq<string>, timings: seq<LineTiming>, tmap: map<(nat, nat), WordTiming>, duration: real)
    returns (timedLines: seq<TimedLine>)
    ensures timedLines == TimedLinesUpTo(lines, SplitAll(lines), |lines|, timings, tmap, duration)
  {
    timedLines := [];
    var i := 0;
    while i < |lines|
      invariant 0 <= i <= |lines|
      invariant timedLines == TimedLinesUpTo(lines, SplitAll(lines), i, timings, tmap, duration)
    {
      timedLines := AppendTimedLine(lines, i, timings, tmap, duration, timedLines);
      i := i + 1;
    }
  }

  /** One iteration over the lyrics lines: line `i` is built and appended
      when it has words. */
  method AppendTimedLine(lines: seq<string>, i: nat, timings: seq<LineTiming>, tmap: map<(nat, nat), WordTiming>,
                         duration: real, timedLines: seq<TimedLine>) returns (r: seq<TimedLine>)
    requires i < |lines|
    requires timedLines == TimedLinesUpTo(lines, SplitAll(lines), i, timings, tmap, duration)
    ensures r == TimedLinesUpTo(lines, SplitAll(lines), i + 1, timings, tmap, duration)
  {
    var built := BuildTimedLine(lines, i, timings, tmap, duration);
    TimedLinesStep(lines, SplitAll(lines), i, timings, tmap, duration, built);
    r := timedLines;
    if built.Some? {
      r := r + [built.value];
    }
  }

  lemma TimedLinesStep(lines: seq<string>, wss: seq<seq<string>>, k: nat, timings: seq<LineTiming>,
                       tmap: map<(nat, nat), WordTiming>, duration: real, built: Option<TimedLine>)
    requires k < |lines| == |wss|
    requires built == BuildLine(lines[k], wss[k], k, |lines|, timings, tmap, duration)
    ensures TimedLinesUpTo(lines, wss, k + 1, timings, tmap, duration)
      == TimedLinesUpTo(lines, wss, k, timings, tmap, duration) + (if built.Some? then [built.value] else [])
  {
  }

  /** One iteration over the lyrics lines, for line `i`: the anchor, the
      words, and the line when it has any words. */
  method BuildTimedLine(lines: seq<string>, i: nat, timings: seq<LineTiming>,
                        tmap: map<(nat, nat), WordTiming>, duration: real) returns (r: Option<TimedLine>)
    requires i < |lines|
    ensures r == BuildLine(lines[i], SplitAll(lines)[i], i, |lines|, timings, tmap, duration)
  {
    var line := lines[i];
    var lineWords := Words(line);
    var (anchorStart, anchorEnd) := AnchorBounds(timings, i, |lines|, duration);
    var lineTimedWords := BuildLineWords(lineWords, i, tmap, anchorStart, anchorEnd);
    if lineTimedWords != [] {
      var lineStart := lineTimedWords[0].start;
      var lineEnd := lineTimedWords[|lineTimedWords| - 1].end;
      r := Some(TimedLine(line, lineStart, lineEnd, lineTimedWords));
    } else {
      r := None;
    }
  }

  /** With timings numbered consecutively from `offset`, the anchor of a line
      is its own timing. */
  lemma {:induction false} FindAnchorAt(timings: seq<LineTiming>, i: nat, offset: nat)
    requires forall k :: 0 <= k < |timings| ==> timings[k].line == offset + k
    requires offset <= i < offset + |timings|
    ensures FindAnchor(timings, i) == Some(timings[i - offset])
    decreases |timings|
  {
    if i != offset {
      FindAnchorAt(timings[1..], i, offset + 1);
    }
  }

  /** What the construction promises about word `j` of a line: it has the
      word's text; a word in the timing map copies its start, end and
      confidence; any other word gets confidence 0.3 and 0.25 s, starts no
      earlier than its interpolated place in the anchor span, and no earlier
      than 0.05 s after the previous word ends. */
  ghost predicate Conserved(ws: seq<string>, i: nat, tmap: map<(nat, nat), WordTiming>,
                            anchorStart: real, anchorEnd: real, r: seq<TimedWord>, j: nat)
    requires j < |r| && j < |ws|
  {
    && r[j].word == ws[j]
    && ((i, j) in tmap ==> r[j] == TimedWord(ws[j], tmap[(i, j)].start, tmap[(i, j)].end, tmap[(i, j)].confidence))
    && ((i, j) !in tmap ==>
          && r[j].confidence == 0.3 && r[j].end == r[j].start + 0.25
          && r[j].start >= anchorStart + (anchorEnd - anchorStart) * (j as real / Max(|ws|, 1) as real)
          && (j > 0 ==> r[j].start >= r[j - 1].end + 0.05))
  }

  /** Word conservation within a line: word `j` of the line yields the `j`-th
      TimedWord, as `Conserved` describes. */
  lemma {:induction false} LineWordsConservation(ws: seq<string>, k: nat, i: nat, tmap: map<(nat, nat), WordTiming>,
                                                 anchorStart: real, anchorEnd: real)
    requires k <= |ws|
    ensures forall j :: 0 <= j < k ==>
      Conserved(ws, i, tmap, anchorStart, anchorEnd, LineWordsUpTo(ws, k, i, tmap, anchorStart, anchorEnd), j)
  {
    if k > 0 {
      LineWordsConservation(ws, k - 1, i, tmap, anchorStart, anchorEnd);
      var done := LineWordsUpTo(ws, k - 1, i, tmap, anchorStart, anchorEnd);
      var r := LineWordsUpTo(ws, k, i, tmap, anchorStart, anchorEnd);
      LastWordConserved(ws, k - 1, i, tmap, anchorStart, anchorEnd, done);
      forall j | 0 <= j < k - 1
        ensures Conserved(ws, i, tmap, anchorStart, anchorEnd, r, j)
      {
        assert r[j] == done[j];
        assert j > 0 ==> r[j - 1] == done[j - 1];
        assert Conserved(ws, i, tmap, anchorStart, anchorEnd, done, j);
      }
    }
  }

  /** The word appended after `done` satisfies `Conserved`. */
  lemma LastWordConserved(ws: seq<string>, k: nat, i: nat, tmap: map<(nat, nat), WordTiming>,
                          anchorStart: real, anchorEnd: real, done: seq<TimedWord>)
    requires k < |ws| && |done| == k
    ensures Conserved(ws, i, tmap, anchorStart, anchorEnd,
                      done + [TimedWordFor(ws[k], k, |ws|, i, tmap, anchorStart, anchorEnd, done)], k)
  {
    var r := done + [TimedWordFor(ws[k], k, |ws|, i, tmap, anchorStart, anchorEnd, done)];
    assert r[k] == TimedWordFor(ws[k], k, |ws|, i, tmap, anchorStart, anchorEnd, done);
    assert k > 0 ==> r[k - 1] == done[k - 1];
  }

  /** When every line has words, each line yields exactly one timed line, in
      order. */
  lemma {:induction false} TimedLinesAll(lines: seq<string>, wss: seq<seq<string>>, k: nat, timings: seq<LineTiming>,
                                         tmap: map<(nat, nat), WordTiming>, duration: real)
    requires k <= |lines| == |wss|
    requires forall i :: 0 <= i < |wss| ==> wss[i] != []
    ensures |TimedLinesUpTo(lines, wss, k, timings, tmap, duration)| == k
    ensures forall i :: 0 <= i < k ==>
      BuildLine(lines[i], wss[i], i, |lines|, timings, tmap, duration).Some?
      && TimedLinesUpTo(lines, wss, k, timings, tmap, duration)[i] == BuildLine(lines[i], wss[i], i, |lines|, timings, tmap, duration).value
  {
    if k > 0 {
      TimedLinesAll(lines, wss, k - 1, timings, tmap, duration);
      BuildLineSome(lines[k - 1], wss[k - 1], k - 1, |lines|, timings, tmap, duration);
      var done := TimedLinesUpTo(lines, wss, k - 1, timings, tmap, duration);
      var r := TimedLinesUpTo(lines, wss, k, timings, tmap, duration);
      assert forall i :: 0 <= i < k - 1 ==> r[i] == done[i];
    }
  }

  /** A line with words yields a timed line with its text and one TimedWord
      per word, spanning from the first word's start to the last word's end. */
  lemma BuildLineSome(line: string, ws: seq<string>, i: nat, n: nat, timings: seq<LineTiming>,
                      tmap: map<(nat, nat), WordTiming>, duration: real)
    requires i < n && ws != []
    ensures var r := BuildLine(line, ws, i, n, timings, tmap, duration);
      && r.Some? && r.value.text == line && |r.value.words| == |ws|
      && r.value.start == r.value.words[0].start && r.value.end == r.value.words[|r.value.words| - 1].end
  {
  }

  // ---------------------------------------------------------------------
  // align_lyrics
  // ---------------------------------------------------------------------

  /** The timed lines before post-processing, for the given line timings and
      word alignments. */
  function Assembled(lines: seq<string>, timings: seq<LineTiming>, alignments: seq<Alignment>,
                     tws: seq<TranscribedWord>, duration: real): seq<TimedLine>
    requires InRange(alignments, FlatIndex(SplitAll(lines)), tws)
  {
    TimedLinesUpTo(lines, SplitAll(lines), |lines|, timings, TimingMap(alignments, FlatIndex(SplitAll(lines)), tws), duration)
  }

  /** A timed line carries the text of a lyrics line and one word per word
      `ws` of it, in order. */
  predicate Carries(line: TimedLine, text: string, ws: seq<string>) {
    line.text == text && |line.words| == |ws| && forall k :: 0 <= k < |ws| ==> line.words[k].word == ws[k]
  }

  /** A timed line with words, each ending after it starts and starting no
      earlier than the previous one ends, spanning its first word's start to
      its last word's end. */
  predicate WellTimed(line: TimedLine) {
    && line.words != []
    && line.start == line.words[0].start && line.end == line.words[|line.words| - 1].end
    && (forall k :: 0 <= k < |line.words| ==> line.words[k].start < line.words[k].end)
    && (forall k :: 0 < k < |line.words| ==> line.words[k - 1].end <= line.words[k].start)
  }

  /** Every parsed lyrics line has at least one word. */
  lemma LyricLinesHaveWords(text: string)
    ensures forall i :: 0 <= i < |LyricLines(text)| ==> SplitAll(LyricLines(text))[i] != []
  {
    KeptLinesHaveWords(SplitLines(Strip(text)));
  }

  /** Every kept line has at least one word. */
  lemma KeptLinesHaveWords(pieces: seq<string>)
    ensures forall i :: 0 <= i < |KeptLines(pieces)| ==> SplitAll(KeptLines(pieces))[i] != []
  {
    var lines := KeptLines(pieces);
    KeptLinesShape(pieces);
    forall i | 0 <= i < |lines|
      ensures SplitAll(lines)[i] != []
    {
      KeptLineHasWords(lines[i]);
    }
  }

  /** A line with words, built and post-processed, carries its words and is
      well timed. */
  lemma RepairedBuiltLine(line: string, ws: seq<string>, i: nat, n: nat, timings: seq<LineTiming>,
                          tmap: map<(nat, nat), WordTiming>, duration: real)
    requires i < n && ws != []
    ensures BuildLine(line, ws, i, n, timings, tmap, duration).Some?
    ensures var r := RepairedLine(BuildLine(line, ws, i, n, timings, tmap, duration).value, duration);
      Carries(r, line, ws) && WellTimed(r)
  {
    BuildLineSome(line, ws, i, n, timings, tmap, duration);
    var built := BuildLine(line, ws, i, n, timings, tmap, duration).value;
    var (aStart, aEnd) := AnchorBounds(timings, i, n, duration);
    assert built.words == LineWordsUpTo(ws, |ws|, i, tmap, aStart, aEnd);
    LineWordsConservation(ws, |ws|, i, tmap, aStart, aEnd);
    assert Carries(built, line, ws) by {
      forall k | 0 <= k < |ws| ensures built.words[k].word == ws[k] {
        assert Conserved(ws, i, tmap, aStart, aEnd, built.words, k);
      }
    }
    RepairKeepsWords(built, duration);
    RepairOrdersWords(built, duration);
    RepairLineBounds(built, duration);
  }

  /** When every line has words, line `i` of the assembled and post-processed
      lyrics is lyrics line `i` with all its words, well timed. */
  lemma AssembledLines(lines: seq<string>, timings: seq<LineTiming>, tmap: map<(nat, nat), WordTiming>, duration: real)
    requires forall i :: 0 <= i < |lines| ==> SplitAll(lines)[i] != []
    ensures var built := TimedLinesUpTo(lines, SplitAll(lines), |lines|, timings, tmap, duration);
      |built| == |lines|
      && forall i :: 0 <= i < |lines| ==>
        Carries(RepairedLine(built[i], duration), lines[i], SplitAll(lines)[i]) && WellTimed(RepairedLine(built[i], duration))
  {
    var wss := SplitAll(lines);
    TimedLinesAll(lines, wss, |lines|, timings, tmap, duration);
    forall i | 0 <= i < |lines|
      ensures var built := TimedLinesUpTo(lines, wss, |lines|, timings, tmap, duration);
        Carries(RepairedLine(built[i], duration), lines[i], wss[i]) && WellTimed(RepairedLine(built[i], duration))
    {
      RepairedBuiltLine(lines[i], wss[i], i, |lines|, timings, tmap, duration);
    }
  }

  /** Word `j` of line `i` of the assembled lines is as `Conserved` describes. */
  lemma AssembledConserved(lines: seq<string>, wss: seq<seq<string>>, timings: seq<LineTiming>,
                           tmap: map<(nat, nat), WordTiming>, duration: real, i: nat, j: nat)
    requires |lines| == |wss| && forall i :: 0 <= i < |wss| ==> wss[i] != []
    requires i < |lines| && j < |wss[i]|
    ensures var built := TimedLinesUpTo(lines, wss, |lines|, timings, tmap, duration);
      var anchor := AnchorBounds(timings, i, |lines|, duration);
      |built| == |lines| && |built[i].words| == |wss[i]|
      && Conserved(wss[i], i, tmap, anchor.0, anchor.1, built[i].words, j)
  {
    TimedLinesAll(lines, wss, |lines|, timings, tmap, duration);
    BuildLineSome(lines[i], wss[i], i, |lines|, timings, tmap, duration);
    var anchor := AnchorBounds(timings, i, |lines|, duration);
    LineWordsConservation(wss[i], |wss[i]|, i, tmap, anchor.0, anchor.1);
  }

  /** Distinct positions in the flattened list map to distinct words. */
  lemma FlatIndexInjective(wss: seq<seq<string>>)
    ensures forall a, b :: 0 <= a < b < |FlatIndex(wss)| ==> FlatIndex(wss)[a] != FlatIndex(wss)[b]
  {
    FlatIndexSound(wss);
  }

  /** The lyrics word alignment `k` matches copies the start and end of its
      transcribed word, with the similarity times the word's score as its
      confidence (`wss` are the words of the `lines`, as `SplitAll` gives them). */
  lemma AlignedWordTimes(lines: seq<string>, wss: seq<seq<string>>, timings: seq<LineTiming>,
                         alignments: seq<Alignment>, tws: seq<TranscribedWord>, duration: real, k: nat)
    requires |lines| == |wss| && forall i :: 0 <= i < |wss| ==> wss[i] != []
    requires InRange(alignments, FlatIndex(wss), tws)
    requires forall a, b :: 0 <= a < b < |alignments| ==> alignments[a].lyricsIdx < alignments[b].lyricsIdx
    requires k < |alignments|
    ensures var built := TimedLinesUpTo(lines, wss, |lines|, timings, TimingMap(alignments, FlatIndex(wss), tws), duration);
      var pos := FlatIndex(wss)[alignments[k].lyricsIdx];
      var tw := tws[alignments[k].transIdx];
      && pos.0 < |built| && pos.1 < |wss[pos.0]| && pos.1 < |built[pos.0].words|
      && built[pos.0].words[pos.1] == TimedWord(wss[pos.0][pos.1], tw.start, tw.end, alignments[k].similarity * tw.score)
  {
    var tmap := TimingMap(alignments, FlatIndex(wss), tws);
    AlignedEntry(wss, alignments, tws, k);
    var pos := FlatIndex(wss)[alignments[k].lyricsIdx];
    assert (pos.0, pos.1) == pos;
    AssembledConserved(lines, wss, timings, tmap, duration, pos.0, pos.1);
  }

  /** Alignment `k` points at a word of the lines, and its entry in the
      timing map is the one it contributes. */
  lemma AlignedEntry(wss: seq<seq<string>>, alignments: seq<Alignment>, tws: seq<TranscribedWord>, k: nat)
    requires InRange(alignments, FlatIndex(wss), tws)
    requires forall a, b :: 0 <= a < b < |alignments| ==> alignments[a].lyricsIdx < alignments[b].lyricsIdx
    requires k < |alignments|
    ensures var pos := FlatIndex(wss)[alignments[k].lyricsIdx];
      && pos.0 < |wss| && pos.1 < |wss[pos.0]|
      && pos in TimingMap(alignments, FlatIndex(wss), tws)
      && TimingMap(alignments, FlatIndex(wss), tws)[pos] == EntryFor(alignments[k], tws)
  {
    FlatIndexSound(wss);
    FlatIndexInjective(wss);
    TimingMapEntries(alignments, FlatIndex(wss), tws);
  }

  /** A lyrics word no alignment matches gets confidence 0.3 and 0.25 s,
      starting no earlier than its interpolated place in its line's anchor
      span and at least 0.05 s after the previous word ends. */
  lemma UnalignedWordTimes(lines: seq<string>, wss: seq<seq<string>>, timings: seq<LineTiming>,
                           alignments: seq<Alignment>, tws: seq<TranscribedWord>, duration: real, i: nat, j: nat)
    requires |lines| == |wss| && forall i :: 0 <= i < |wss| ==> wss[i] != []
    requires InRange(alignments, FlatIndex(wss), tws)
    requires i < |lines| && j < |wss[i]|
    requires forall k :: 0 <= k < |alignments| ==> FlatIndex(wss)[alignments[k].lyricsIdx] != (i, j)
    ensures var built := TimedLinesUpTo(lines, wss, |lines|, timings, TimingMap(alignments, FlatIndex(wss), tws), duration);
      var anchor := AnchorBounds(timings, i, |lines|, duration);
      && i < |built| && j < |built[i].words|
      && built[i].words[j].word == wss[i][j]
      && built[i].words[j].confidence == 0.3
      && built[i].words[j].end == built[i].words[j].start + 0.25
      && built[i].words[j].start >= anchor.0 + (anchor.1 - anchor.0) * (j as real / Max(|wss[i]|, 1) as real)
      && (j > 0 ==> built[i].words[j].start >= built[i].words[j - 1].end + 0.05)
  {
    var index := FlatIndex(wss);
    var tmap := TimingMap(alignments, index, tws);
    TimingMapKeys(alignments, index, tws);
    assert (i, j) !in tmap;
    AssembledConserved(lines, wss, timings, tmap, duration, i, j);
  }

  /** `_post_process_timing` on the list of timed lines. */
  method PostProcessAll(timedLines: seq<TimedLine>, duration: real) returns (r: seq<TimedLine>)
    ensures |r| == |timedLines|
    ensures forall k :: 0 <= k < |r| ==> r[k] == RepairedLine(timedLines[k], duration)
  {
    var arr := new TimedLine[|timedLines|](k requires 0 <= k < |timedLines| => timedLines[k]);
    PostProcessTiming(arr, duration);
    r := arr[..];
  }

  /** `align_lyrics` once the transcription is available: the transcribed
      words, the lyrics lines, the line timings, the word alignment with
      threshold 0.4, the timing map, the timed lines and their
      post-processing. `timings` (with the `picks` that explain them) and
      `alignments` are the intermediate results of `segment_based_alignment`
      and `dtw_align`. */
  method AlignLyrics(segs: seq<Segment>, lyricsText: string, title: string, duration: real)
    returns (data: LyricsTimingData, ghost timings: seq<LineTiming>, ghost picks: seq<Option<nat>>,
             ghost alignments: seq<Alignment>)
    ensures SegmentTimings(LyricLines(lyricsText), segs, duration, timings, picks)
    ensures var lw, tws := Flat(SplitAll(LyricLines(lyricsText))), Extracted(segs);
      alignments == Trace(Similarities(lw, tws), Steps(Similarities(lw, tws), |tws|), |tws|, 0.4, |lw|, |tws|)
      && WellFormed(Similarities(lw, tws), |tws|, 0.4, alignments)
    ensures InRange(alignments, FlatIndex(SplitAll(LyricLines(lyricsText))), Extracted(segs))
    ensures data.title == title && data.duration == duration
    ensures var lines := LyricLines(lyricsText);
      var built := Assembled(lines, timings, alignments, Extracted(segs), duration);
      |data.lines| == |built| == |lines|
      && forall i :: 0 <= i < |lines| ==> data.lines[i] == RepairedLine(built[i], duration)
    ensures var lines := LyricLines(lyricsText);
      |data.lines| == |lines|
      && forall i :: 0 <= i < |lines| ==> Carries(data.lines[i], lines[i], SplitAll(lines)[i]) && WellTimed(data.lines[i])
  {
    var tws := ExtractTranscribedWords(segs);
    var lines := LyricLines(lyricsText);
    ghost var wss := SplitAll(lines);
    var lineTimings;
    lineTimings, picks := SegmentBasedAlignment(lines, segs, duration);
    timings := lineTimings;
    var allWords, wordToLine := FlattenWords(lines);
    var dtwAlignments := DtwAlign(allWords, tws, 0.4);
    alignments := dtwAlignments;
    FlatIndexSound(wss);
    assert InRange(alignments, wordToLine, tws);
    var tmap := BuildTimingMap(dtwAlignments, wordToLine, tws);
    var timedLines := BuildLines(lines, lineTimings, tmap, duration);
    LyricLinesHaveWords(lyricsText);
    AssembledLines(lines, lineTimings, tmap, duration);
    var repaired := PostProcessAll(timedLines, duration);
    data := LyricsTimingData(title, duration, repaired);
  }
}
