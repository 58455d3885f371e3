/** The pitch-class engine: the twelve sharp-spelled note names, the sharp
    test and the whole-step and half-step functions over the table. */
module Notes {

  /** The twelve pitch classes, sharp-spelled, in ascending order from A. */
  const MusicNotes: seq<string> := ["A", "A#", "B", "C", "C#", "D", "D#", "E", "F", "F#", "G", "G#"]

  /** Flat spelling of each black-key name. No operation consults it; the
      lemmas below relate it to the table and to IsSharp. */
  const SharpToFlatConversionMap: map<string, string> :=
    map["A#" := "Bb", "C#" := "Db", "D#" := "Eb", "F#" := "Gb", "G#" := "Ab"]

  /** A sharp note name has '#' as its second character; a one-character
      name is never sharp. The empty name has no second character to test.
      On the note table the test picks out exactly the two-character names,
      which are exactly the keys of the sharp-to-flat map. */
  predicate IsSharp(note: string)
    requires |note| >= 1
    ensures note in MusicNotes ==> (IsSharp(note) <==> |note| == 2)
    ensures note in MusicNotes ==> (IsSharp(note) <==> note in SharpToFlatConversionMap)
    ensures |note| == 1 ==> !IsSharp(note)
    ensures |note| >= 2 ==> (IsSharp(note) <==> note[1] == '#')
  {
    if |note| == 1 then false else note[1] == '#'
  }

  /** The position of the first occurrence of `x` in `s` at or after `from`,
      scanning forward as a list's index lookup does; defined only when `x`
      occurs there. */
  function IndexFrom(s: seq<string>, x: string, from: nat): (i: nat)
    requires from <= |s| && x in s[from..]
    ensures from <= i < |s| && s[i] == x
    ensures forall j :: from <= j < i ==> s[j] != x
    decreases |s| - from
  {
    if s[from] == x then from else IndexFrom(s, x, from + 1)
  }

  /** No name appears twice in the table. */
  lemma TableIsDistinct()
    ensures |MusicNotes| == 12
    ensures forall i, j :: 0 <= i < j < |MusicNotes| ==> MusicNotes[i] != MusicNotes[j]
  {
  }

  /** The pitch class of a table name: its index in the table. */
  function PitchClass(note: string): (p: nat)
    requires note in MusicNotes
    ensures p < 12 && MusicNotes[p] == note
  {
    assert MusicNotes[0..] == MusicNotes;
    IndexFrom(MusicNotes, note, 0)
  }

  /** Looking up the name at position k gives back k. */
  lemma {:induction false} PitchClassOfIndex(k: nat)
    requires k < |MusicNotes|
    ensures PitchClass(MusicNotes[k]) == k
  {
    TableIsDistinct();
    var p := PitchClass(MusicNotes[k]);
    assert MusicNotes[p] == MusicNotes[k];
  }

  /** The name a whole step (two semitones) above `note`. */
  function WholeStepAfterNote(note: string): (r: string)
    requires note in MusicNotes
    ensures r in MusicNotes
    ensures PitchClass(r) == (PitchClass(note) + 2) % 12
  {
    var i := (PitchClass(note) + 2) % 12;
    PitchClassOfIndex(i);
    MusicNotes[i]
  }

  /** The name a half step (one semitone) above `note`. */
  function HalfStepAfterNote(note: string): (r: string)
    requires note in MusicNotes
    ensures r in MusicNotes
    ensures PitchClass(r) == (PitchClass(note) + 1) % 12
  {
    var i := (PitchClass(note) + 1) % 12;
    PitchClassOfIndex(i);
    MusicNotes[i]
  }

  /** A whole step from the name at position c is the name at c + 2, wrapping. */
  lemma {:induction false} WholeStepAt(c: nat)
    requires c < 12
    ensures WholeStepAfterNote(MusicNotes[c]) == MusicNotes[(c + 2) % 12]
  {
    PitchClassOfIndex(c);
  }

  /** A half step from the name at position c is the name at c + 1, wrapping. */
  lemma {:induction false} HalfStepAt(c: nat)
    requires c < 12
    ensures HalfStepAfterNote(MusicNotes[c]) == MusicNotes[(c + 1) % 12]
  {
    PitchClassOfIndex(c);
  }

  /** Every table name is one or two characters long. */
  lemma NameLength(note: string)
    requires note in MusicNotes
    ensures 1 <= |note| <= 2
  {
  }

  /** Two table names with the same pitch class are the same name. */
  lemma {:induction false} PitchClassInjective(a: string, b: string)
    requires a in MusicNotes && b in MusicNotes
    requires PitchClass(a) == PitchClass(b)
    ensures a == b
  {
  }

  /** Adding one twice, modulo 12, is adding two. */
  lemma {:induction false} SuccessorTwiceModTwelve(p: nat)
    requires p < 12
    ensures ((p + 1) % 12 + 1) % 12 == (p + 2) % 12
  {
    if p < 10 {
      assert (p + 1) % 12 == p + 1;
    } else if p == 10 {
      assert (p + 1) % 12 == 11;
    } else {
      assert (p + 1) % 12 == 0;
    }
  }

  /** Two half steps make one whole step. */
  lemma {:induction false} TwoHalfStepsMakeAWholeStep(note: string)
    requires note in MusicNotes
    ensures HalfStepAfterNote(HalfStepAfterNote(note)) == WholeStepAfterNote(note)
  {
    var p := PitchClass(note);
    var q := (p + 1) % 12;
    HalfStepAt(p);
    HalfStepAt(q);
    WholeStepAt(p);
    SuccessorTwiceModTwelve(p);
  }

  /** The black-key names of the table are exactly the keys of the sharp-to-flat
      map, and IsSharp picks out exactly those names. */
  lemma SharpNamesAreConversionKeys()
    ensures forall n :: n in MusicNotes ==> (IsSharp(n) <==> n in SharpToFlatConversionMap)
    ensures forall n :: n in SharpToFlatConversionMap ==> n in MusicNotes
  {
  }

  /** No table name is a flat spelling, so no step ever produces one. */
  lemma TableHasNoFlatSpelling()
    ensures forall n :: n in MusicNotes ==> n !in SharpToFlatConversionMap.Values
    ensures forall n :: n in MusicNotes ==> 'b' !in n
  {
  }

  /** A whole or half step never yields a flat spelling. */
  lemma {:induction false} StepsNeverSpellFlat(note: string)
    requires note in MusicNotes
    ensures WholeStepAfterNote(note) !in SharpToFlatConversionMap.Values
    ensures HalfStepAfterNote(note) !in SharpToFlatConversionMap.Values
  {
    TableHasNoFlatSpelling();
  }
}
