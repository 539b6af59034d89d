/** The Soundex phonetic code of `soundex` (backend/lyrics_video_app.py). */
module Soundex {
  import opened Text

  /** The fixed letter-to-digit table; letters outside it, and every
      non-letter, code as '0'. */
  const Mapping: map<char, char> := map[
    'B' := '1', 'F' := '1', 'P' := '1', 'V' := '1',
    'C' := '2', 'G' := '2', 'J' := '2', 'K' := '2', 'Q' := '2', 'S' := '2', 'X' := '2', 'Z' := '2',
    'D' := '3', 'T' := '3',
    'L' := '4',
    'M' := '5', 'N' := '5',
    'R' := '6',
    'A' := '0', 'E' := '0', 'I' := '0', 'O' := '0', 'U' := '0', 'H' := '0', 'W' := '0', 'Y' := '0'
  ]

  /** `mapping.get(c, '0')`, written out by digit. */
  function Code(c: char): (d: char)
    ensures '0' <= d <= '6'
  {
    match c
    case 'B' | 'F' | 'P' | 'V' => '1'
    case 'C' | 'G' | 'J' | 'K' | 'Q' | 'S' | 'X' | 'Z' => '2'
    case 'D' | 'T' => '3'
    case 'L' => '4'
    case 'M' | 'N' => '5'
    case 'R' => '6'
    case _ => '0'
  }

  /** `Code` is the lookup in the table, with '0' for a character the table lacks. */
  lemma CodeIsLookup(c: char)
    ensures Code(c) == if c in Mapping then Mapping[c] else '0'
  {
  }

  /** The digits the loop appends for `rest`, when the previous character coded as `prev`. */
  function Digits(rest: string, prev: char): string
  {
    if rest == [] then []
    else
      var code := Code(rest[0]);
      (if code != '0' && code != prev then [code] else []) + Digits(rest[1..], code)
  }

  /** The code `soundex` returns, as a function of the word. */
  function SoundexCode(word: string): string
  {
    if word == [] then ""
    else
      var w := Upper(word);
      ([w[0]] + Digits(w[1..], Code(w[0])) + "000")[..4]
  }

  /** `soundex(word)`: the loop over the characters after the first, appending
      a digit unless it is '0' or repeats the previous character's code. */
  method ComputeSoundex(word: string) returns (coded: string)
    ensures coded == SoundexCode(word)
  {
    if word == [] {
      return "";
    }
    var w := Upper(word);
    var first := w[0];
    coded := [first];
    var prevCode := Code(first);
    var k := 1;
    ghost var target := [first] + Digits(w[1..], Code(first));
    while k < |w|
      invariant 1 <= k <= |w|
      invariant |coded| >= 1
      invariant coded + Digits(w[k..], prevCode) == target
    {
      var code := Code(w[k]);
      DigitsAppend(coded, w[k..], prevCode);
      assert w[k..][1..] == w[k + 1..];
      if code != '0' && code != prevCode {
        coded := coded + [code];
      }
      prevCode := code;
      k := k + 1;
    }
    assert w[k..] == [];
    coded := (coded + "000")[..4];
  }

  /** One loop step: appending the next character's digit (or not) keeps
      `coded + Digits(rest, prev)` fixed. */
  lemma DigitsAppend(coded: string, rest: string, prev: char)
    requires rest != []
    ensures var code := Code(rest[0]);
      coded + Digits(rest, prev)
      == (if code != '0' && code != prev then coded + [code] else coded) + Digits(rest[1..], code)
  {
    var code := Code(rest[0]);
    if code != '0' && code != prev {
      assert coded + ([code] + Digits(rest[1..], code)) == (coded + [code]) + Digits(rest[1..], code);
    }
  }

  /** Every appended digit lies in '1'..'6'. */
  lemma {:induction false} DigitsRange(rest: string, prev: char)
    ensures forall i :: 0 <= i < |Digits(rest, prev)| ==> '1' <= Digits(rest, prev)[i] <= '6'
    decreases |rest|
  {
    if rest != [] {
      DigitsRange(rest[1..], Code(rest[0]));
    }
  }

  /** Shape of a Soundex code: empty for the empty word; otherwise exactly four
      characters, the upper-cased first character, then digits '1'..'6',
      then '0' padding only. */
  lemma SoundexShape(word: string)
    ensures word == [] <==> SoundexCode(word) == ""
    ensures word != [] ==>
      var r := SoundexCode(word);
      && |r| == 4
      && r[0] == ToUpperChar(word[0])
      && (forall i :: 1 <= i < 4 ==> r[i] == '0' || '1' <= r[i] <= '6')
      && (forall i, j :: 1 <= i < j < 4 && r[i] == '0' ==> r[j] == '0')
  {
    if word != [] {
      var w := Upper(word);
      var ds := Digits(w[1..], Code(w[0]));
      DigitsRange(w[1..], Code(w[0]));
      var r := SoundexCode(word);
      var p := if |ds| + 1 < 4 then |ds| + 1 else 4;
      assert forall i :: 1 <= i < p ==> r[i] == ds[i - 1];
      assert forall i :: p <= i < 4 ==> r[i] == '0';
    }
  }

  /** The code ignores letter case: a word and its lower-cased form code alike. */
  lemma SoundexIgnoresCase(word: string)
    ensures SoundexCode(Lower(word)) == SoundexCode(word)
  {
    if word != [] {
      assert Upper(Lower(word)) == Upper(word);
    }
  }
}
