/** The timing records of backend/lyrics_video_app.py (`TimedWord`,
    `TimedLine`, `LyricsTimingData`) and the dictionary shape that `to_json`
    writes and `from_json` reads back, as a JSON value. */
module Timing {
  import opened Wrappers

  /** A word with its timing: `confidence` defaults to 1.0 in the dataclass. */
  datatype TimedWord = TimedWord(word: string, start: real, end: real, confidence: real)

  /** A line of lyrics with its timing and its words. */
  datatype TimedLine = TimedLine(text: string, start: real, end: real, words: seq<TimedWord>)

  /** The complete timing data for a song. */
  datatype LyricsTimingData = LyricsTimingData(title: string, duration: real, lines: seq<TimedLine>)

  /** A JSON value as `json.load` returns it; numbers are exact. */
  datatype Json =
    | JNull
    | JBool(b: bool)
    | JNumber(n: real)
    | JString(s: string)
    | JArray(items: seq<Json>)
    | JObject(fields: map<string, Json>)

  /** The four fields of `TimedWord`, the only keyword arguments `TimedWord(**w)` accepts. */
  const WordKeys: set<string> := {"word", "start", "end", "confidence"}

  /** The fields of `TimedWord` without a default, which `TimedWord(**w)` must be given. */
  const RequiredWordKeys: set<string> := {"word", "start", "end"}

  /** `asdict(w)`. */
  function WordToJson(w: TimedWord): Json {
    JObject(map["word" := JString(w.word), "start" := JNumber(w.start),
                "end" := JNumber(w.end), "confidence" := JNumber(w.confidence)])
  }

  /** One element of the `'lines'` list of `to_json`. */
  function LineToJson(line: TimedLine): Json {
    JObject(map["text" := JString(line.text), "start" := JNumber(line.start),
                "end" := JNumber(line.end), "words" := JArray(WordsToJson(line.words))])
  }

  /** `[asdict(w) for w in line.words]`. */
  function WordsToJson(ws: seq<TimedWord>): (r: seq<Json>)
    ensures |r| == |ws|
    ensures forall k :: 0 <= k < |ws| ==> r[k] == WordToJson(ws[k])
  {
    if ws == [] then [] else [WordToJson(ws[0])] + WordsToJson(ws[1..])
  }

  function LinesToJson(lines: seq<TimedLine>): (r: seq<Json>)
    ensures |r| == |lines|
    ensures forall k :: 0 <= k < |lines| ==> r[k] == LineToJson(lines[k])
  {
    if lines == [] then [] else LinesToJson(lines[..|lines| - 1]) + [LineToJson(lines[|lines| - 1])]
  }

  /** The dictionary `to_json` dumps: exactly the keys `title`, `duration`
      and `lines`, and one entry per line that reads back as that line. */
  function ToJson(data: LyricsTimingData): (r: Json)
    ensures r.JObject? && r.fields.Keys == {"title", "duration", "lines"}
    ensures r.fields["title"] == JString(data.title) && r.fields["duration"] == JNumber(data.duration)
    ensures r.fields["lines"].JArray? && |r.fields["lines"].items| == |data.lines|
    ensures forall k :: 0 <= k < |data.lines| ==> LineFromJson(r.fields["lines"].items[k]) == Success(data.lines[k])
  {
    LinesReadBack(data.lines);
    JObject(map["title" := JString(data.title), "duration" := JNumber(data.duration),
                "lines" := JArray(LinesToJson(data.lines))])
  }

  /** `obj[key]`: a `KeyError` when the key is missing, a `TypeError` when `obj` is not a dictionary. */
  function Field(obj: Json, key: string): Result<Json, string> {
    if !obj.JObject? then Failure("TypeError: not a dictionary")
    else if key !in obj.fields then Failure("KeyError: " + key)
    else Success(obj.fields[key])
  }

  function AsString(j: Json): Result<string, string> {
    if j.JString? then Success(j.s) else Failure("TypeError: not a string")
  }

  function AsNumber(j: Json): Result<real, string> {
    if j.JNumber? then Success(j.n) else Failure("TypeError: not a number")
  }

  function AsArray(j: Json): Result<seq<Json>, string> {
    if j.JArray? then Success(j.items) else Failure("TypeError: not a list")
  }

  /** `obj[key]` read as a string, or the first error. */
  function StringField(obj: Json, key: string): Result<string, string> {
    var f := Field(obj, key);
    if f.Failure? then Failure(f.error) else AsString(f.value)
  }

  /** `obj[key]` read as a number, or the first error. */
  function NumberField(obj: Json, key: string): Result<real, string> {
    var f := Field(obj, key);
    if f.Failure? then Failure(f.error) else AsNumber(f.value)
  }

  /** `TimedWord(**w)`: `w` must be a dictionary whose keys are fields of
      `TimedWord`, with `word`, `start` and `end` present; a missing
      `confidence` takes the default 1.0. */
  function WordFromJson(w: Json): (r: Result<TimedWord, string>)
    ensures r.Success? ==> w.JObject? && RequiredWordKeys <= w.fields.Keys <= WordKeys
    ensures r.Success? ==> (w.fields["word"] == JString(r.value.word)
      && w.fields["start"] == JNumber(r.value.start) && w.fields["end"] == JNumber(r.value.end))
    ensures r.Success? ==> "confidence" !in w.fields ==> r.value.confidence == 1.0
    ensures r.Success? ==> "confidence" in w.fields ==> w.fields["confidence"] == JNumber(r.value.confidence)
    ensures !w.JObject? ==> r == Failure("TypeError: not a mapping")
    ensures w.JObject? && !(w.fields.Keys <= WordKeys) ==> r == Failure("TypeError: unexpected keyword argument")
    ensures w.JObject? && w.fields.Keys <= WordKeys && !(RequiredWordKeys <= w.fields.Keys) ==>
      r == Failure("TypeError: missing required argument")
  {
    if !w.JObject? then Failure("TypeError: not a mapping")
    else if !(w.fields.Keys <= WordKeys) then Failure("TypeError: unexpected keyword argument")
    else if !(RequiredWordKeys <= w.fields.Keys) then Failure("TypeError: missing required argument")
    else
      var word, start, end := StringField(w, "word"), NumberField(w, "start"), NumberField(w, "end");
      var confidence := if "confidence" in w.fields then AsNumber(w.fields["confidence"]) else Success(1.0);
      if word.Failure? then Failure(word.error)
      else if start.Failure? then Failure(start.error)
      else if end.Failure? then Failure(end.error)
      else if confidence.Failure? then Failure(confidence.error)
      else Success(TimedWord(word.value, start.value, end.value, confidence.value))
  }

  /** `[TimedWord(**w) for w in line_data['words']]`: stops at the first error. */
  function WordsFromJson(items: seq<Json>): (r: Result<seq<TimedWord>, string>)
    ensures r.Success? <==> forall k :: 0 <= k < |items| ==> WordFromJson(items[k]).Success?
    ensures r.Success? ==> |r.value| == |items|
    ensures r.Success? ==> forall k :: 0 <= k < |items| ==> WordFromJson(items[k]) == Success(r.value[k])
  {
    if items == [] then Success([])
    else
      var w := WordFromJson(items[0]);
      if w.Failure? then Failure(w.error)
      else
        var rest := WordsFromJson(items[1..]);
        if rest.Failure? then rest else Success([w.value] + rest.value)
  }

  /** One iteration of the loop in `from_json`: `words` first, then `text`,
      `start` and `end`; every other key of the line is ignored. */
  function LineFromJson(j: Json): (r: Result<TimedLine, string>)
    ensures !j.JObject? ==> r == Failure("TypeError: not a dictionary")
    ensures j.JObject? && "words" !in j.fields ==> r == Failure("KeyError: words")
    ensures r.Success? ==> (j.JObject? && "words" in j.fields && j.fields["words"].JArray?
      && WordsFromJson(j.fields["words"].items) == Success(r.value.words))
    ensures r.Success? ==> ("text" in j.fields && j.fields["text"] == JString(r.value.text)
      && "start" in j.fields && j.fields["start"] == JNumber(r.value.start)
      && "end" in j.fields && j.fields["end"] == JNumber(r.value.end))
  {
    assert "KeyError: " + "words" == "KeyError: words";
    var items := Field(j, "words");
    if items.Failure? then Failure(items.error)
    else
      var arr := AsArray(items.value);
      if arr.Failure? then Failure(arr.error)
      else
        var words := WordsFromJson(arr.value);
        if words.Failure? then Failure(words.error)
        else
          var text, start, end := StringField(j, "text"), NumberField(j, "start"), NumberField(j, "end");
          if text.Failure? then Failure(text.error)
          else if start.Failure? then Failure(start.error)
          else if end.Failure? then Failure(end.error)
          else Success(TimedLine(text.value, start.value, end.value, words.value))
  }

  /** `lines.append(line)`, where either side may already have failed. */
  function AppendLine(lines: Result<seq<TimedLine>, string>, line: Result<TimedLine, string>): Result<seq<TimedLine>, string> {
    if lines.Failure? then lines
    else if line.Failure? then Failure(line.error)
    else Success(lines.value + [line.value])
  }

  /** The lines the loop of `from_json` collects, or the first error. */
  function LinesFromJson(items: seq<Json>): (r: Result<seq<TimedLine>, string>)
    ensures r.Success? <==> forall k :: 0 <= k < |items| ==> LineFromJson(items[k]).Success?
    ensures r.Success? ==> |r.value| == |items|
    ensures r.Success? ==> forall k :: 0 <= k < |items| ==> LineFromJson(items[k]) == Success(r.value[k])
  {
    if items == [] then Success([])
    else AppendLine(LinesFromJson(items[..|items| - 1]), LineFromJson(items[|items| - 1]))
  }

  /** `from_json` on the loaded value: `data['lines']` first, then `title` and `duration`. */
  function Decode(data: Json): (r: Result<LyricsTimingData, string>)
    ensures !data.JObject? ==> r == Failure("TypeError: not a dictionary")
    ensures data.JObject? && "lines" !in data.fields ==> r == Failure("KeyError: lines")
    ensures r.Success? ==> (data.JObject? && "lines" in data.fields && data.fields["lines"].JArray?
      && LinesFromJson(data.fields["lines"].items) == Success(r.value.lines))
    ensures r.Success? ==> ("title" in data.fields && data.fields["title"] == JString(r.value.title)
      && "duration" in data.fields && data.fields["duration"] == JNumber(r.value.duration))
  {
    assert "KeyError: " + "lines" == "KeyError: lines";
    var items := Field(data, "lines");
    if items.Failure? then Failure(items.error)
    else
      var arr := AsArray(items.value);
      if arr.Failure? then Failure(arr.error)
      else
        var lines := LinesFromJson(arr.value);
        if lines.Failure? then Failure(lines.error)
        else
          var title, duration := StringField(data, "title"), NumberField(data, "duration");
          if title.Failure? then Failure(title.error)
          else if duration.Failure? then Failure(duration.error)
          else Success(LyricsTimingData(title.value, duration.value, lines.value))
  }

  /** `from_json` after `json.load`: the loop over `data['lines']` appending each line. */
  method FromJson(data: Json) returns (r: Result<LyricsTimingData, string>)
    ensures r == Decode(data)
  {
    var items := Field(data, "lines");
    if items.Failure? {
      return Failure(items.error);
    }
    var arr := AsArray(items.value);
    if arr.Failure? {
      return Failure(arr.error);
    }
    var lineData := arr.value;
    var lines: seq<TimedLine> := [];
    var k := 0;
    while k < |lineData|
      invariant 0 <= k <= |lineData|
      invariant LinesFromJson(lineData[..k]) == Success(lines)
    {
      var line := LineFromJson(lineData[k]);
      LinesStep(lineData, k);
      if line.Failure? {
        FailureStops(lineData, k + 1);
        return Failure(line.error);
      }
      lines := lines + [line.value];
      k := k + 1;
    }
    assert lineData[..k] == lineData;
    var title, duration := StringField(data, "title"), NumberField(data, "duration");
    if title.Failure? {
      return Failure(title.error);
    }
    if duration.Failure? {
      return Failure(duration.error);
    }
    r := Success(LyricsTimingData(title.value, duration.value, lines));
  }

  /** One more line read: `LinesFromJson` of a longer prefix adds that line. */
  lemma LinesStep(items: seq<Json>, k: nat)
    requires k < |items|
    ensures LinesFromJson(items[..k + 1]) == AppendLine(LinesFromJson(items[..k]), LineFromJson(items[k]))
  {
    assert items[..k + 1][..k] == items[..k];
  }

  /** Once a prefix of the lines fails, the whole list fails with the same error. */
  lemma {:induction false} FailureStops(items: seq<Json>, k: nat)
    requires k <= |items| && LinesFromJson(items[..k]).Failure?
    ensures LinesFromJson(items) == LinesFromJson(items[..k])
    decreases |items|
  {
    if k < |items| {
      var init := items[..|items| - 1];
      assert init[..k] == items[..k];
      FailureStops(init, k);
    } else {
      assert items[..k] == items;
    }
  }

  /** Reading back `asdict(w)` gives `w`. */
  lemma WordRoundTrip(w: TimedWord)
    ensures WordFromJson(WordToJson(w)) == Success(w)
  {
    var fields := WordToJson(w).fields;
    assert fields.Keys == WordKeys;
  }

  lemma {:induction false} WordsRoundTrip(ws: seq<TimedWord>)
    ensures WordsFromJson(WordsToJson(ws)) == Success(ws)
  {
    if ws != [] {
      WordRoundTrip(ws[0]);
      WordsRoundTrip(ws[1..]);
      assert WordsToJson(ws)[1..] == WordsToJson(ws[1..]);
      assert [ws[0]] + ws[1..] == ws;
    }
  }

  lemma LineRoundTrip(line: TimedLine)
    ensures LineFromJson(LineToJson(line)) == Success(line)
  {
    WordsRoundTrip(line.words);
  }

  lemma {:induction false} LinesRoundTrip(lines: seq<TimedLine>)
    ensures LinesFromJson(LinesToJson(lines)) == Success(lines)
  {
    if lines != [] {
      var init := lines[..|lines| - 1];
      LinesRoundTrip(init);
      LineRoundTrip(lines[|lines| - 1]);
      var js := LinesToJson(lines);
      assert js[..|js| - 1] == LinesToJson(init);
      assert init + [lines[|lines| - 1]] == lines;
    }
  }

  /** Every line dictionary `to_json` writes reads back as its line. */
  lemma LinesReadBack(lines: seq<TimedLine>)
    ensures forall k :: 0 <= k < |lines| ==> LineFromJson(LinesToJson(lines)[k]) == Success(lines[k])
  {
    forall k | 0 <= k < |lines|
      ensures LineFromJson(LinesToJson(lines)[k]) == Success(lines[k])
    {
      LineRoundTrip(lines[k]);
    }
  }

  /** `from_json` reads back exactly what `to_json` wrote. */
  lemma RoundTrip(data: LyricsTimingData)
    ensures Decode(ToJson(data)) == Success(data)
  {
    LinesRoundTrip(data.lines);
  }

  /** Different timing data never serialise to the same JSON value. */
  lemma ToJsonInjective(d1: LyricsTimingData, d2: LyricsTimingData)
    ensures ToJson(d1) == ToJson(d2) ==> d1 == d2
  {
    RoundTrip(d1);
    RoundTrip(d2);
  }

  /** The other direction for a word: a dictionary `TimedWord(**w)` accepts
      with all four keys is exactly `asdict` of the word it builds. */
  lemma WordFromJsonComplete(j: Json)
    requires WordFromJson(j).Success? && "confidence" in j.fields
    ensures WordToJson(WordFromJson(j).value) == j
  {
    var f := j.fields;
    var g := WordToJson(WordFromJson(j).value).fields;
    assert f.Keys == WordKeys == g.Keys;
    assert forall k :: k in WordKeys ==> f[k] == g[k];
  }
}
