# Lyrics alignment core, modelled in Dafny

This project models the alignment pipeline of `backend/lyrics_video_app.py`.
The pipeline turns a WhisperX transcription and a lyrics text into timed
lines and timed words.

It covers these pieces:

- **`soundex`**: the Soundex code.
- **`levenshtein_distance`**: the row-by-row edit distance.
- **`word_similarity`**: the graded word score.
- **`dtw_align`**: the dynamic-time-warping word aligner, with its cost table, path table and backtrack.
- **`segment_based_alignment`**: the greedy line-to-segment matcher.
- **`LyricsAligner.align_lyrics`**:
  - collecting the transcribed words;
  - parsing the lyrics lines;
  - flattening the words;
  - the word timing map;
  - building the timed lines;
  - post-processing them.
- **`_post_process_timing`**: the in-place repair of word times.
- **The records** `TimedWord`, `TimedLine` and `LyricsTimingData`, with the dictionary shape that `to_json` writes and `from_json` reads.

The Python loops are `method`s with loop invariants. Each is proved
against a specification, and the properties are proved about that
specification as lemmas. Most loops are proved equal to a recursive
function. Some are proved against other kinds of specification:

- The segment matcher's outer loop is proved against `Placed`, which says line by line what each line took.
- Its window search is proved against `IsPick`, which describes the best free candidate.
- The two similarity matrices are proved against sequence comprehensions.

The loops, by what they change:

- Soundex builds its code by appending to `coded`.
- The edit distance rebuilds `curr_row`.
- DTW fills two `array2` tables and backtracks.
- The segment matcher keeps `used_segments`.
- The assembly loops append to lists and a dictionary.
- Post-processing rewrites an `array<TimedLine>` in place.

`word_similarity` and the JSON conversion are pure functions.

Modules, one file each:

| file | module | contents |
|---|---|---|
| `wrappers.dfy` | `Wrappers` | `Option` and `Result` |
| `text.dfy` | `Text` | Python's string primitives used here |
| `soundex.dfy` | `Soundex` | the Soundex code |
| `levenshtein.dfy` | `Levenshtein` | the edit distance |
| `similarity.dfy` | `Similarity` | the word score |
| `dtw.dfy` | `Dtw` | the aligner |
| `segments.dfy` | `SegmentAlignment` | the line matcher |
| `timing.dfy` | `Timing` | the records and their JSON form |
| `postprocess.dfy` | `PostProcess` | `_post_process_timing` |
| `assembly.dfy` | `Assembly` | the steps of `align_lyrics` |

Times and scores are exact `real`s. `np.inf` is the `Inf` case of
`Dtw.Cost`. Python's `min(candidates, key=...)` keeps the first minimal
candidate, so the diagonal wins ties. The regular expressions `[^\w]` and
`[^\w\s]`, `str.split()`, `str.strip()` and the case conversions are over
ASCII; "## Left out" says what that leaves out.

## Model

| member | source | states |
|---|---|---|
| `Soundex.ComputeSoundex` | backend/lyrics_video_app.py:93-129 | the loop over the characters after the first returns exactly the code `SoundexCode` defines |
| `Soundex.SoundexShape` | backend/lyrics_video_app.py:99-129 | the code is empty exactly for the empty word; otherwise it is 4 characters: the upper-cased first character, then digits `1`..`6`, then only `0` padding |
| `Soundex.CodeIsLookup` | backend/lyrics_video_app.py:107-122 | the digit of a character is `mapping.get(c, '0')` over the source's table |
| `Soundex.DigitsRange` | backend/lyrics_video_app.py:121-125 | every digit the loop appends is in `1`..`6`, never `0` |
| `Soundex.SoundexIgnoresCase` | backend/lyrics_video_app.py:102 | a word and its lower-cased form have the same code |
| `Levenshtein.LevenshteinDistance` | backend/lyrics_video_app.py:132-150 | the function returns the standard recursive edit distance, on both sides of the argument swap |
| `Levenshtein.NextRow` | backend/lyrics_video_app.py:141-148 | each rebuilt row holds, at every column `j`, the edit distance of the next prefix of `s1` to the prefix of `s2` of length `j` |
| `Levenshtein.EditDistanceStep` | backend/lyrics_video_app.py:143-147 | each table cell is the minimum of insertion, deletion and substitution from its three neighbours |
| `Levenshtein.EditDistanceSymmetric` | backend/lyrics_video_app.py:134-135 | swapping the arguments does not change the distance |
| `Levenshtein.EditDistanceSelf` | backend/lyrics_video_app.py:132-150 | a string is at distance 0 from itself |
| `Levenshtein.EditDistanceZeroIff` | backend/lyrics_video_app.py:132-150 | the distance is 0 exactly when the strings are equal |
| `Levenshtein.EditDistanceBounds` | backend/lyrics_video_app.py:137-138 | the distance to the empty string is the length; in general it is at least the length difference and at most the longer length |
| `Similarity.WordSimilarity` | backend/lyrics_video_app.py:153-190 | the score lies in [0, 1]; it is 0 when either word normalises to nothing; it is 1 exactly when both normalised forms are equal and non-empty |
| `Similarity.Graded` | backend/lyrics_video_app.py:172-190 | when the normalised words differ, the containment, Soundex and Levenshtein scores all stay below 1 |
| `Similarity.LevSimilarity` | backend/lyrics_video_app.py:180-183 | `1 - distance / max_len` lies in [0, 1] and is 1 exactly for equal words |
| `Similarity.WordSimilaritySymmetric` | backend/lyrics_video_app.py:153-190 | the score does not depend on the order of the two words |
| `Dtw.DtwAlign` | backend/lyrics_video_app.py:193-265 | the result is `[]` when either list is empty; otherwise it is the backtrack along the cost table, in increasing order; every triple is in range with both indices strictly increasing, and its similarity is `word_similarity` of the pair and at least the threshold |
| `Dtw.SimilarityMatrix` | backend/lyrics_video_app.py:217-221 | the nested loops leave `sim_matrix[i, j]` equal to `word_similarity(lw[i], tw[j]['word'])` |
| `Dtw.FillTables` | backend/lyrics_video_app.py:227-247 | after the nested loops, every inner `path[i, j]` is the predecessor of the move the cost table chooses at `(i, j)` |
| `Dtw.NewTables` | backend/lyrics_video_app.py:228-232 | the fresh cost table is `(n+1) × (m+1)`, 0 at the origin and infinite along row 0 and column 0, which is what the cost table is at those cells; the path table has the same shape |
| `Dtw.FillSimilarityRow` | backend/lyrics_video_app.py:220-221 | the inner loop sets row `i` of `sim_matrix` to `word_similarity` against every transcribed word and keeps the rows before it |
| `Dtw.FillRow` | backend/lyrics_video_app.py:235-247 | the inner loop sets row `i` of `dtw` to the cost table's row `i` and each of its `path` cells to the predecessor of the move chosen there; every other row of both tables is unchanged |
| `Dtw.FillCell` | backend/lyrics_video_app.py:236-247 | one cell gets the cost of the first cheapest candidate and records where it came from; nothing else changes |
| `Dtw.Backtrack` | backend/lyrics_video_app.py:249-265 | the while-loop and the final reverse return exactly the pairs the specification backtrack collects |
| `Dtw.TableIsMinimum` | backend/lyrics_video_app.py:234-247 | every inner cell is one of the three candidate costs (`1 - sim`, lyrics skip `+0.5`, transcript skip `+0.3`) and no candidate is cheaper; the diagonal is chosen on ties, then the lyrics skip |
| `Dtw.TableIsOptimal` | backend/lyrics_video_app.py:228-247 | no sequence of moves from `(0, 0)` to `(i, j)` ever costs less than `dtw[i, j]`; the table's infinite borders are the cost of paths that touch them |
| `Dtw.WalkAttainsTable` | backend/lyrics_video_app.py:228-264 | the path the backtrack follows from `(i, j)` along the recorded `path` moves costs exactly `dtw[i, j]` |
| `Dtw.TraceIsWalk` | backend/lyrics_video_app.py:249-264 | the pairs the backtrack collects are the diagonal moves of the path it walks that reach the threshold, in order |
| `Dtw.BacktrackPathIsCheapest` | backend/lyrics_video_app.py:193-265 | the returned alignment is read off a minimum-cost path: the path walked from `(n, m)` costs `dtw[n, m]`, no path from the origin costs less, and the alignments are exactly that path's matched pairs |
| `Dtw.ChooseIsFirstMinimum` | backend/lyrics_video_app.py:239-245 | `min(..., key=...)` over the three candidates gives a minimal cost and picks the first minimal one in list order |
| `Dtw.TraceWellFormed` | backend/lyrics_video_app.py:249-264 | every pair the backtrack keeps is in range and at least the threshold, and the pairs strictly increase in both indices |
| `Dtw.TableFinite` | backend/lyrics_video_app.py:228-247 | for similarities in [0, 1] every inner cell is finite and no cost is negative |
| `Dtw.IdentityAlignment` | backend/lyrics_video_app.py:193-265 | when the transcription is the lyrics word for word, with every word keeping some letter, digit or underscore, and the threshold is at most 1, word `k` is aligned with word `k` with similarity 1.0, for every `k` |
| `SegmentAlignment.SegmentBasedAlignment` | backend/lyrics_video_app.py:268-349 | one `(i, start, end)` per line, in index order; with no segments line `i` spans `[i·d, (i+1)·d]`, `d = duration / max(n, 1)`; otherwise each line takes the pick of its window, or the interpolation from the previous line, and no segment is used by two lines |
| `SegmentAlignment.MatchLines` | backend/lyrics_video_app.py:293-349 | the outer loop gives each line the best free segment of its window or an interpolated slot, and the picks are pairwise distinct |
| `SegmentAlignment.BestSegment` | backend/lyrics_video_app.py:315-333 | the window search returns the free segment of highest score, the first in scan order among equals, or reports that none scores above 0.2 |
| `SegmentAlignment.PlaceLine` | backend/lyrics_video_app.py:335-347 | the end of one iteration: a line whose best score exceeds 0.2 takes that segment's bounds; otherwise its slot is interpolated, with the properties `InterpolatedRun` proves |
| `SegmentAlignment.InterpolatedRun` | backend/lyrics_video_app.py:339-347 | lines without a segment share the rest of the song evenly. A run of `r` such lines after a line ending at `e` (from 0 for line 0) takes `r` consecutive slots of length `(duration - e) / (n - s)`. Each starts where the previous line ended, an unmatched line 0 spans `[0, duration / n]`, and a run reaching the last line ends exactly at `duration` |
| `SegmentAlignment.LineSimilarityMatrix` | backend/lyrics_video_app.py:298-309 | the nested loops leave `sim_matrix[i, j]` equal to the Jaccard similarity of line `i`'s and segment `j`'s word sets, 0 when either is empty |
| `SegmentAlignment.FillSimilarityRow` | backend/lyrics_video_app.py:300-309 | the inner loop fills row `i` of `sim_matrix` and keeps the rows before it |
| `SegmentAlignment.Consider` | backend/lyrics_video_app.py:325-333 | one visit of the window search keeps its invariant one scan position further: the best so far is a free in-window segment whose score no earlier visit beats, the first in scan order among equal scores, or none with score -1 |
| `SegmentAlignment.FillSimilarityCell` | backend/lyrics_video_app.py:303-309 | one cell of the line-to-segment matrix is the Jaccard similarity of the two word sets, and 0 when either set is empty |
| `SegmentAlignment.Jaccard` | backend/lyrics_video_app.py:305-309 | the Jaccard similarity lies in [0, 1]; it is 1 for equal non-empty sets and 0 for disjoint ones |
| `SegmentAlignment.PlacedAll` | backend/lyrics_video_app.py:313-338 | because each taken segment joins `used_segments`, no two lines take the same segment |
| `SegmentAlignment.RankUnique` | backend/lyrics_video_app.py:324-325 | each segment has exactly one rank in the scan order `e, e, e+1, e-1, ...`, and the repeated visit of `e` (rank 1) belongs to none, so it never changes the best pick |
| `Timing.FromJson` | backend/lyrics_video_app.py:378-398 | the loop over `data['lines']` reads the record the decoder defines, and stops at the first malformed line with its error |
| `Timing.RoundTrip` | backend/lyrics_video_app.py:359-398 | reading back what `to_json` wrote gives the same timing data |
| `Timing.ToJsonInjective` | backend/lyrics_video_app.py:359-373 | different timing data never produce the same dictionary |
| `Timing.WordFromJson` | backend/lyrics_video_app.py:71-77 | `TimedWord(**w)` (line 386) on the dataclass fails with a `TypeError` on a non-dictionary, on a key that is not a field of `TimedWord`, and on a missing `word`, `start` or `end`; on success the word's fields are the dictionary's values, and a missing `confidence` gives 1.0 |
| `Timing.ToJson` | backend/lyrics_video_app.py:359-373 | the dumped dictionary has exactly the keys `title`, `duration` and `lines`, holds the title and duration, and has one entry per line, each of which reads back as that line |
| `Timing.LinesReadBack` | backend/lyrics_video_app.py:364-392 | every line dictionary `to_json` writes is read back by one iteration of `from_json` as the line it came from |
| `Timing.LineFromJson` | backend/lyrics_video_app.py:385-391 | reading a line fails with a `TypeError` on a non-dictionary and a `KeyError` when `words` is missing; on success `text`, `start` and `end` are present and give the line's fields, and its words are what `words` reads as |
| `Timing.Decode` | backend/lyrics_video_app.py:384-398 | decoding fails with a `TypeError` on a non-dictionary and a `KeyError` when `lines` is missing; on success `title` and `duration` are present and give the record's fields, and its lines are what `lines` reads as |
| `Timing.WordFromJsonComplete` | backend/lyrics_video_app.py:369-386 | a word dictionary with all four keys that `TimedWord(**w)` accepts is exactly `asdict` of the word it builds |
| `Timing.WordsToJson` | backend/lyrics_video_app.py:369 | the `words` list has one `asdict(w)` per word, in order |
| `Timing.LinesToJson` | backend/lyrics_video_app.py:364-372 | the `lines` list has one dictionary per line, in order |
| `Timing.WordsFromJson` | backend/lyrics_video_app.py:386 | the list comprehension succeeds exactly when every word dictionary does, and then gives one word per dictionary, in order |
| `Timing.LinesFromJson` | backend/lyrics_video_app.py:384-392 | the loop succeeds exactly when every line dictionary does, and then gives one line per dictionary, in order |
| `Timing.FailureStops` | backend/lyrics_video_app.py:385-392 | once a line fails to read, the whole read fails with that line's error |
| `PostProcess.PostProcessTiming` | backend/lyrics_video_app.py:652-717 | every line of the array is replaced by its repaired form; each line is repaired on its own |
| `PostProcess.RepairLine` | backend/lyrics_video_app.py:667-715 | one iteration is the outlier test, then re-spacing or clean-up, then the line's bounds; a line without words is left alone |
| `PostProcess.Respace` | backend/lyrics_video_app.py:683-690 | the re-estimation loop computes the re-spaced words |
| `PostProcess.CleanUp` | backend/lyrics_video_app.py:691-711 | the clean-up loop computes the cleaned words |
| `PostProcess.CleanOne` | backend/lyrics_video_app.py:694-711 | one clean-up iteration clamps, pushes after the previous end, caps and lengthens in the source's order |
| `PostProcess.ReestimatedShape` | backend/lyrics_video_app.py:683-690 | a broken line keeps its words: word `k` starts at `first_start + k·0.43`, lasts 0.35 s, and has its confidence capped at 0.4 |
| `PostProcess.CleanWordShape` | backend/lyrics_video_app.py:694-711 | a cleaned word keeps its text and confidence, starts at or after 0 and at or after the previous end, and lasts more than 0 and at most 1.5 s |
| `PostProcess.CleanedShape` | backend/lyrics_video_app.py:691-711 | after clean-up every word keeps its text and confidence, has `0 <= start < end <= start + 1.5`, and starts at or after the previous word's end |
| `PostProcess.RepairKeepsWords` | backend/lyrics_video_app.py:667-717 | post-processing keeps the line's text and the number and text of its words |
| `PostProcess.RepairOrdersWords` | backend/lyrics_video_app.py:683-711 | after post-processing every word ends after it starts, and starts at or after the previous word's end |
| `PostProcess.RepairLineBounds` | backend/lyrics_video_app.py:713-715 | the line starts at its first word's start and ends at its last word's end |
| `PostProcess.RepairConfidence` | backend/lyrics_video_app.py:683-691 | a broken line starts at its first word's old start and every confidence is at most 0.4; any other line keeps its confidences |
| `Assembly.ExtractTranscribedWords` | backend/lyrics_video_app.py:526-535 | the nested loop collects, in order, the words of every segment that have both times |
| `Assembly.AppendKept` | backend/lyrics_video_app.py:528-535 | the inner loop appends the kept words of one segment |
| `Assembly.KeptWordsPositions` | backend/lyrics_video_app.py:528-535 | the `k`-th kept word is the `k`-th raw word with both times, stripped and with score defaulting to 1.0; every such raw word is kept, in order |
| `Assembly.ExtractedAppend` | backend/lyrics_video_app.py:526-535 | collecting over two runs of segments gives the concatenation of their words |
| `Assembly.KeptLinesShape` | backend/lyrics_video_app.py:540-543 | every parsed line is non-empty, does not start with `[`, and has no whitespace at either end |
| `Assembly.KeptLinesAppend` | backend/lyrics_video_app.py:540-543 | parsing works piece by piece: it distributes over concatenation |
| `Assembly.KeptLineHasWords` | backend/lyrics_video_app.py:540-559 | a kept line has at least one word |
| `Assembly.KeptLinesHaveWords` | backend/lyrics_video_app.py:540-559 | every kept line has at least one word |
| `Assembly.LyricLinesHaveWords` | backend/lyrics_video_app.py:540-559 | every parsed lyrics line has at least one word |
| `Assembly.FlattenWords` | backend/lyrics_video_app.py:555-562 | the nested loop yields every word of every line in order, with its `(line_idx, word_idx)` |
| `Assembly.AppendLineWords` | backend/lyrics_video_app.py:560-562 | the inner loop appends one line's words and their positions |
| `Assembly.FlatIndexSound` | backend/lyrics_video_app.py:555-562 | flattened word `k` is word `j` of line `i` where the map says, at position `k = (words of earlier lines) + j` |
| `Assembly.FlatIndexComplete` | backend/lyrics_video_app.py:555-562 | every word of every line appears in the flattened list, at the position the map gives it |
| `Assembly.FlatIndexInjective` | backend/lyrics_video_app.py:556-562 | distinct flattened words have distinct `(line, word)` positions |
| `Assembly.BuildTimingMap` | backend/lyrics_video_app.py:569-577 | the loop builds the map the specification defines, later entries for a key replacing earlier ones |
| `Assembly.TimingMapKeys` | backend/lyrics_video_app.py:569-577 | the keys are exactly the positions of the aligned lyrics words |
| `Assembly.TimingMapEntries` | backend/lyrics_video_app.py:569-577 | when no two alignments share a position, each aligned word's entry is its transcribed word's start and end, with confidence `similarity · score` |
| `Assembly.AlignedEntry` | backend/lyrics_video_app.py:566-577 | for a DTW alignment, whose lyrics indices strictly increase, each alignment points at a word of the lines and owns its entry |
| `Assembly.FindAnchor` | backend/lyrics_video_app.py:589 | the anchor found belongs to the line; `None` only when no timing carries the line's index |
| `Assembly.FindAnchorAt` | backend/lyrics_video_app.py:589-595 | with one timing per line in order, every line's anchor is its own timing, so the even-distribution fallback is never taken |
| `Assembly.BuildLines` | backend/lyrics_video_app.py:582-636 | the loop over the lines builds the timed lines the specification defines |
| `Assembly.AppendTimedLine` | backend/lyrics_video_app.py:584-636 | one iteration appends the line's timed line exactly when it has words |
| `Assembly.BuildTimedLine` | backend/lyrics_video_app.py:584-636 | one line: its anchor, its words timed in order, and its bounds, or nothing when it has no words |
| `Assembly.BuildLineWords` | backend/lyrics_video_app.py:597-624 | the inner loop times the words of a line in order |
| `Assembly.TimeWord` | backend/lyrics_video_app.py:598-622 | one word takes its mapped timing or the interpolated one |
| `Assembly.LineWordsConservation` | backend/lyrics_video_app.py:597-624 | word `j` of a line yields the `j`-th timed word, with its text. A mapped word copies its entry. Any other word has confidence 0.3 and length 0.25 s, starts no earlier than its interpolated place, and starts at or after the previous word's end + 0.05 |
| `Assembly.TimedLinesAll` | backend/lyrics_video_app.py:584-636 | when every line has words, each line yields exactly one timed line, in order |
| `Assembly.BuildLineSome` | backend/lyrics_video_app.py:626-636 | a line with words yields a timed line with its text, one timed word per word, and bounds from the first and last word |
| `Assembly.AlignedWordTimes` | backend/lyrics_video_app.py:598-607 | a matched word copies its transcribed word's start and end, with `confidence = similarity · score` |
| `Assembly.UnalignedWordTimes` | backend/lyrics_video_app.py:608-622 | an unmatched word gets confidence 0.3 and length 0.25 s. It starts no earlier than `anchor_start + (anchor_end - anchor_start) · word_idx / max(len, 1)`, and at or after the previous word's end + 0.05 |
| `Assembly.RepairedBuiltLine` | backend/lyrics_video_app.py:584-717 | a line with words, once built and post-processed, carries its words in order and they are well timed |
| `Assembly.AssembledLines` | backend/lyrics_video_app.py:582-639 | after building and post-processing, line `i` is lyrics line `i` with all its words in order. Every word ends after it starts and starts at or after the previous one's end. The line's bounds are its first and last word's |
| `Assembly.PostProcessAll` | backend/lyrics_video_app.py:639 | post-processing the list replaces each line by its repaired form |
| `Assembly.AlignLyrics` | backend/lyrics_video_app.py:520-650 | the title and duration are passed through, with one timed line per parsed lyrics line. Line `i` is its built line, post-processed, and carries the words of lyrics line `i`, well timed. The line timings are what `segment_based_alignment` returns: the even split without segments, and otherwise each line's best free segment or the interpolated slot. The alignments are those of `dtw_align` at threshold 0.4 |

## Left out

- The WhisperX transcription and forced alignment are not modelled: they are calls into a machine-learning library. `AlignLyrics` receives the segments as a parameter.
- The audio duration from `AudioFileClip` is not modelled either. `AlignLyrics` receives it as a parameter.
- The file opening and writing in `to_json` and `from_json` are left out, as are `json.dump` and `json.load` and their text form. The model works on the loaded value. Dictionary key order is not modelled.
- The printing is left out. So are the CLI block, the package installer, video rendering (`LyricsVideoGenerator`) and waveform extraction (`extract_waveform_peaks`): each is I/O or a library call.
- IEEE-754 floating point is not modelled. Times and scores are exact reals, so a rounding difference that would change a comparison or the `int(...)` of the expected segment is not captured.
- The other backend files are not part of this model: the Flask server, the project store, the desktop shell, the build script and the runtime hook.
- `Timing.WordFromJson`, `Timing.LineFromJson` and `Timing.Decode` state a stricter reading than Python's.
  - Python stores any JSON value in a `TimedWord` or `TimedLine` field without checking its type. The model requires strings for texts and numbers for times.
  - Python would iterate a dictionary or string given in place of the `lines` or `words` list. The model requires a JSON array.
  - A JSON `true` used as a number is rejected by the model.
  - Each error names the exception Python raises first (`TypeError` or `KeyError`) with a short description, not CPython's exact message text.
- `PostProcess.PostProcessTiming` replaces each line value of an array and each word value in the line's sequence. Python mutates shared `TimedWord` objects instead. No two lines of `align_lyrics` share a word object, so the results agree. Aliasing between lines that do share word objects is not modelled.
- A segment's missing `words` key is modelled as an empty sequence.
- A segment's missing `text` key is modelled as an empty text, which is what `seg.get('text', '')` reads.
- `SegmentAlignment.Segment` gives every segment a `start` and an `end`. The model therefore does not capture the `KeyError` that `seg['start']` and `seg['end']` raise when a picked segment lacks them (backend/lyrics_video_app.py:336-337).
- A missing `word`, `start`, `end` or `score` key of a transcribed word is modelled as `None`. A key present with the value `null` is not distinguished from a missing one.
- `Text.IsWordChar`, `Text.IsSpace`, `Text.Lower`, `Text.Upper` and `Text.Strip` read `\w`, `\s`, `str.split()`, `str.strip()` and the case conversions over ASCII only. Python's Unicode `\w` keeps non-ASCII letters such as `é` or `ß`. `Similarity.Normalize` and `SegmentAlignment.FillSimilarityCell` drop them, so they do not capture how such letters affect the similarities. The model also does not capture Unicode case mapping or Unicode whitespace.
- `Dtw.DtwAlign` is proved for any threshold. `align_lyrics` calls it with 0.4, and `AlignLyrics` states that call.
