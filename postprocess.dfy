/** `LyricsAligner._post_process_timing` (backend/lyrics_video_app.py): each
    line is repaired on its own; a line whose last word ends too late is
    re-spaced evenly from its first word, any other line gets a clean-up that
    clamps, orders and bounds its word times; then the line takes its bounds
    from its words. */
module PostProcess {
  import opened Wrappers
  import opened Similarity
  import opened Timing

  /** Seconds per word, gap between words and longest line, as in the source. */
  const AvgWordDuration: real := 0.35
  const GapBetweenWords: real := 0.08
  const MaxLineDuration: real := 8.0

  /** The outlier test: the line's span exceeds `max_reasonable_end - first_word_start`. */
  predicate Broken(ws: seq<TimedWord>)
    requires ws != []
  {
    var firstWordStart := ws[0].start;
    var expectedLineDuration := |ws| as real * (AvgWordDuration + GapBetweenWords);
    var maxReasonableEnd := firstWordStart + RealMin(expectedLineDuration * 2.0, MaxLineDuration);
    ws[|ws| - 1].end - firstWordStart > maxReasonableEnd - firstWordStart
  }

  /** `current_time` once the words in `done` have been re-spaced from `t0`. */
  function NextTime(done: seq<TimedWord>, t0: real): real {
    if done == [] then t0 else done[|done| - 1].end + GapBetweenWords
  }

  /** The re-estimation loop of a broken line, starting at `t0`. */
  function Reestimated(ws: seq<TimedWord>, t0: real): (r: seq<TimedWord>)
    ensures |r| == |ws|
  {
    if ws == [] then []
    else
      var init := Reestimated(ws[..|ws| - 1], t0);
      var w, t := ws[|ws| - 1], NextTime(init, t0);
      init + [TimedWord(w.word, t, t + AvgWordDuration, RealMin(w.confidence, 0.4))]
  }

  /** `word_prev_end` once the words in `done` have been cleaned. */
  function PrevEnd(done: seq<TimedWord>): Option<real> {
    if done == [] then None else Some(done[|done| - 1].end)
  }

  /** One step of the clean-up of a line that is not broken. */
  function CleanWord(w: TimedWord, duration: real, prevEnd: Option<real>): TimedWord {
    var start := RealMax(0.0, RealMin(w.start, duration - 0.1));
    var end := RealMax(0.0, RealMin(w.end, duration));
    var start' := if prevEnd.Some? && start < prevEnd.value then prevEnd.value + 0.02 else start;
    var end' := if end - start' > 1.5 then start' + 0.4 else end;
    var end'' := if end' <= start' then start' + 0.2 else end';
    TimedWord(w.word, start', end'', w.confidence)
  }

  /** The clean-up loop over the words of a line. */
  function Cleaned(ws: seq<TimedWord>, duration: real): (r: seq<TimedWord>)
    ensures |r| == |ws|
  {
    if ws == [] then []
    else
      var init := Cleaned(ws[..|ws| - 1], duration);
      init + [CleanWord(ws[|ws| - 1], duration, PrevEnd(init))]
  }

  /** The words of a non-empty line after post-processing. */
  function RepairedWords(ws: seq<TimedWord>, duration: real): (r: seq<TimedWord>)
    requires ws != []
    ensures |r| == |ws|
  {
    if Broken(ws) then Reestimated(ws, ws[0].start) else Cleaned(ws, duration)
  }

  /** A line after post-processing; a line without words is skipped. */
  function RepairedLine(line: TimedLine, duration: real): TimedLine {
    if line.words == [] then line
    else
      var ws := RepairedWords(line.words, duration);
      TimedLine(line.text, ws[0].start, ws[|ws| - 1].end, ws)
  }

  /** The body of the loop over `timed_lines`: the outlier test, one of the
      two loops over the words, then the line's new bounds. */
  method RepairLine(line: TimedLine, duration: real) returns (r: TimedLine)
    ensures r == RepairedLine(line, duration)
  {
    if line.words == [] {
      return line;
    }
    var n := |line.words|;
    var firstWordStart := line.words[0].start;
    var expectedLineDuration := n as real * (AvgWordDuration + GapBetweenWords);
    var maxReasonableEnd := firstWordStart + RealMin(expectedLineDuration * 2.0, MaxLineDuration);
    var lastWordEnd := line.words[n - 1].end;
    var words;
    if lastWordEnd - firstWordStart > maxReasonableEnd - firstWordStart {
      words := Respace(line.words, firstWordStart);
    } else {
      words := CleanUp(line.words, duration);
    }
    r := TimedLine(line.text, words[0].start, words[n - 1].end, words);
  }

  /** The re-estimation loop: each word gets `current_time` and 0.35 s, and the
      next word starts 0.08 s after it ends. */
  method Respace(ws: seq<TimedWord>, t0: real) returns (words: seq<TimedWord>)
    ensures words == Reestimated(ws, t0)
  {
    words := ws;
    var currentTime := t0;
    var k := 0;
    while k < |ws|
      invariant 0 <= k <= |ws| && |words| == |ws|
      invariant words[..k] == Reestimated(ws[..k], t0)
      invariant forall i :: k <= i < |ws| ==> words[i] == ws[i]
      invariant currentTime == NextTime(words[..k], t0)
    {
      ReestimatedStep(ws, k, t0);
      var w := words[k];
      words := words[k := TimedWord(w.word, currentTime, currentTime + AvgWordDuration, RealMin(w.confidence, 0.4))];
      currentTime := words[k].end + GapBetweenWords;
      assert words[..k + 1] == words[..k] + [words[k]];
      k := k + 1;
    }
    assert words == words[..k] && ws == ws[..k];
  }

  /** The clean-up loop: clamp to the song, push a word that starts before the
      previous one ended, cap long words, and make every word end after it starts. */
  method CleanUp(ws: seq<TimedWord>, duration: real) returns (words: seq<TimedWord>)
    ensures words == Cleaned(ws, duration)
  {
    words := ws;
    var wordPrevEnd: Option<real> := None;
    var k := 0;
    while k < |ws|
      invariant 0 <= k <= |ws| && |words| == |ws|
      invariant words[..k] == Cleaned(ws[..k], duration)
      invariant forall i :: k <= i < |ws| ==> words[i] == ws[i]
      invariant wordPrevEnd == PrevEnd(words[..k])
    {
      CleanedStep(ws, k, duration);
      var w := words[k];
      var w' := CleanOne(w, duration, wordPrevEnd);
      words := words[k := w'];
      wordPrevEnd := Some(w'.end);
      assert words[..k + 1] == words[..k] + [words[k]];
      k := k + 1;
    }
    assert words == words[..k] && ws == ws[..k];
  }

  /** The statements of one clean-up iteration on `word`. */
  method CleanOne(w: TimedWord, duration: real, wordPrevEnd: Option<real>) returns (r: TimedWord)
    ensures r == CleanWord(w, duration, wordPrevEnd)
  {
    var start := RealMax(0.0, RealMin(w.start, duration - 0.1));
    var end := RealMax(0.0, RealMin(w.end, duration));
    if wordPrevEnd.Some? && start < wordPrevEnd.value {
      start := wordPrevEnd.value + 0.02;
    }
    if end - start > 1.5 {
      end := start + 0.4;
    }
    if end <= start {
      end := start + 0.2;
    }
    r := TimedWord(w.word, start, end, w.confidence);
  }

  lemma ReestimatedStep(ws: seq<TimedWord>, k: nat, t0: real)
    requires k < |ws|
    ensures Reestimated(ws[..k + 1], t0) == Reestimated(ws[..k], t0)
      + [TimedWord(ws[k].word, NextTime(Reestimated(ws[..k], t0), t0),
                   NextTime(Reestimated(ws[..k], t0), t0) + AvgWordDuration, RealMin(ws[k].confidence, 0.4))]
  {
    assert ws[..k + 1][..k] == ws[..k];
  }

  lemma CleanedStep(ws: seq<TimedWord>, k: nat, duration: real)
    requires k < |ws|
    ensures Cleaned(ws[..k + 1], duration)
      == Cleaned(ws[..k], duration) + [CleanWord(ws[k], duration, PrevEnd(Cleaned(ws[..k], duration)))]
  {
    assert ws[..k + 1][..k] == ws[..k];
  }

  /** `_post_process_timing` on the list of lines, repaired in place. */
  method PostProcessTiming(lines: array<TimedLine>, duration: real)
    modifies lines
    ensures forall k :: 0 <= k < lines.Length ==> lines[k] == RepairedLine(old(lines[k]), duration)
  {
    var k := 0;
    while k < lines.Length
      invariant 0 <= k <= lines.Length
      invariant forall a :: 0 <= a < k ==> lines[a] == RepairedLine(old(lines[a]), duration)
      invariant forall a :: k <= a < lines.Length ==> lines[a] == old(lines[a])
    {
      lines[k] := RepairLine(lines[k], duration);
      k := k + 1;
    }
  }

  /** Re-spacing keeps the words and spaces them evenly from `t0`: word `k`
      starts at `t0 + k·(0.35 + 0.08)`, lasts 0.35 s, and its confidence is
      capped at 0.4. */
  lemma {:induction false} ReestimatedShape(ws: seq<TimedWord>, t0: real)
    ensures forall k :: 0 <= k < |ws| ==>
      var r := Reestimated(ws, t0)[k];
      r.word == ws[k].word
      && r.start == t0 + k as real * (AvgWordDuration + GapBetweenWords)
      && r.end == r.start + AvgWordDuration
      && r.confidence == RealMin(ws[k].confidence, 0.4)
  {
    if ws != [] {
      var init := ws[..|ws| - 1];
      ReestimatedShape(init, t0);
      var r := Reestimated(ws, t0);
      assert r[..|init|] == Reestimated(init, t0);
      forall k | 0 <= k < |init|
        ensures r[k] == Reestimated(init, t0)[k] && ws[k] == init[k]
      {
        assert r[..|init|][k] == r[k];
      }
    }
  }

  /** One clean-up step keeps the word and its confidence, starts at or
      after 0 and at or after the previous end, and lasts more than 0 and at most 1.5 s. */
  lemma CleanWordShape(w: TimedWord, duration: real, prevEnd: Option<real>)
    requires prevEnd.Some? ==> 0.0 <= prevEnd.value
    ensures var r := CleanWord(w, duration, prevEnd);
      r.word == w.word && r.confidence == w.confidence
      && 0.0 <= r.start < r.end <= r.start + 1.5
      && (prevEnd.Some? ==> prevEnd.value <= r.start)
  {
  }

  /** The clean-up keeps every word and its confidence, and leaves each word
      starting at or after 0 and at or after the previous word's end, and lasting
      more than 0 and at most 1.5 seconds. */
  lemma {:induction false} CleanedShape(ws: seq<TimedWord>, duration: real)
    ensures forall k :: 0 <= k < |ws| ==>
      var r := Cleaned(ws, duration)[k];
      r.word == ws[k].word && r.confidence == ws[k].confidence
      && 0.0 <= r.start < r.end <= r.start + 1.5
    ensures forall k :: 0 < k < |ws| ==> Cleaned(ws, duration)[k - 1].end <= Cleaned(ws, duration)[k].start
  {
    if ws != [] {
      var init := ws[..|ws| - 1];
      CleanedShape(init, duration);
      var c := Cleaned(init, duration);
      var last := CleanWord(ws[|ws| - 1], duration, PrevEnd(c));
      CleanWordShape(ws[|ws| - 1], duration, PrevEnd(c));
      var r := Cleaned(ws, duration);
      assert r == c + [last];
      forall k | 0 <= k < |init|
        ensures r[k] == c[k] && ws[k] == init[k]
      {
      }
    }
  }

  /** Post-processing keeps the line's text and the number and text of its words. */
  lemma RepairKeepsWords(line: TimedLine, duration: real)
    ensures RepairedLine(line, duration).text == line.text
    ensures |RepairedLine(line, duration).words| == |line.words|
    ensures forall k :: 0 <= k < |line.words| ==> RepairedLine(line, duration).words[k].word == line.words[k].word
  {
    if line.words != [] {
      ReestimatedShape(line.words, line.words[0].start);
      CleanedShape(line.words, duration);
    }
  }

  /** After post-processing every word ends after it starts and starts at or
      after the previous word of its line ends. */
  lemma RepairOrdersWords(line: TimedLine, duration: real)
    ensures forall k :: 0 <= k < |RepairedLine(line, duration).words| ==>
      RepairedLine(line, duration).words[k].start < RepairedLine(line, duration).words[k].end
    ensures forall k :: 0 < k < |RepairedLine(line, duration).words| ==>
      RepairedLine(line, duration).words[k - 1].end <= RepairedLine(line, duration).words[k].start
  {
    if line.words != [] {
      var ws := RepairedLine(line, duration).words;
      if Broken(line.words) {
        ReestimatedShape(line.words, line.words[0].start);
        forall k | 0 < k < |ws|
          ensures ws[k - 1].end <= ws[k].start
        {
          var t0, step := line.words[0].start, AvgWordDuration + GapBetweenWords;
          assert ws[k].start == t0 + (k - 1) as real * step + step;
        }
      } else {
        CleanedShape(line.words, duration);
      }
    }
  }

  /** A line with words spans from its first word's start to its last word's end. */
  lemma RepairLineBounds(line: TimedLine, duration: real)
    ensures line.words == [] ==> RepairedLine(line, duration) == line
    ensures line.words != [] ==>
      var r := RepairedLine(line, duration);
      r.words != [] && r.start == r.words[0].start && r.end == r.words[|r.words| - 1].end
  {
  }

  /** A broken line's words are re-spaced from its first word's start with
      confidence at most 0.4; any other line keeps its confidences. */
  lemma RepairConfidence(line: TimedLine, duration: real)
    requires line.words != []
    ensures Broken(line.words) ==>
      RepairedLine(line, duration).start == line.words[0].start
      && forall k :: 0 <= k < |line.words| ==> RepairedLine(line, duration).words[k].confidence <= 0.4
    ensures !Broken(line.words) ==>
      forall k :: 0 <= k < |line.words| ==> RepairedLine(line, duration).words[k].confidence == line.words[k].confidence
  {
    ReestimatedShape(line.words, line.words[0].start);
    CleanedShape(line.words, duration);
  }
}
