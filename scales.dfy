/** The scale generator: a scale formula is a list of step symbols, and a
    scale is the key followed by one note per step, each a whole or half
    step above the one before it, returned as one string. */
module Scales {
  import opened Notes

  const MajorScaleFormula: seq<string> := ["W", "W", "H", "W", "W", "W", "H"]
  const MinorScaleFormula: seq<string> := ["W", "H", "W", "W", "H", "W", "W"]

  /** The semitones one formula step spans: "W" is a whole step, and every
      other symbol is taken as a half step. It gives StepAfter's contract and
      Span their arithmetic; it is not an operation of its own. */
  function Semitones(step: string): (n: nat)
  {
    if step == "W" then 2 else 1
  }

  /** The note one formula step above `note`, as the generator's loop body
      chooses it. */
  function StepAfter(note: string, step: string): (r: string)
    requires note in MusicNotes
    ensures r in MusicNotes
    ensures PitchClass(r) == (PitchClass(note) + Semitones(step)) % 12
  {
    if step == "W" then WholeStepAfterNote(note) else HalfStepAfterNote(note)
  }

  /** The total number of semitones a formula spans. */
  function Span(formula: seq<string>): (total: nat)
  {
    if formula == [] then 0
    else Span(formula[..|formula| - 1]) + Semitones(formula[|formula| - 1])
  }

  /** The pitch class reached from pitch class `p` after the first k steps. */
  function ClassAfter(p: nat, formula: seq<string>, k: nat): (c: nat)
    requires k <= |formula|
    ensures c < 12
  {
    (p + Span(formula[..k])) % 12
  }

  /** The scale on `key`, stated in closed form: the key as given, then for
      each k from 1 the table name whose pitch class is the key's raised by
      the semitones of the first k steps. */
  function Scale(key: string, formula: seq<string>): (notes: seq<string>)
    requires key in MusicNotes
    ensures |notes| == |formula| + 1 && notes[0] == key
  {
    [key] + seq(|formula|, i requires 0 <= i < |formula| =>
      MusicNotes[ClassAfter(PitchClass(key), formula, i + 1)])
  }

  /** The in-order concatenation of `parts`, with no separator: it begins
      with the first part and ends with the last. */
  function Join(parts: seq<string>): (s: string)
    ensures parts == [] ==> s == ""
    ensures parts != [] ==> |parts[0]| <= |s| && s[..|parts[0]|] == parts[0]
  {
    if parts == [] then ""
    else
      var n := |parts| - 1;
      var front := Join(parts[..n]);
      assert n > 0 ==> parts[..n][0] == parts[0];
      assert n > 0 ==> (front + parts[n])[..|parts[0]|] == front[..|parts[0]|];
      front + parts[n]
  }

  // Arithmetic on pitch classes, kept apart from the note table.

  /** The span of the first k steps is the span of the first k - 1 plus the
      k-th step. */
  lemma {:induction false} SpanOfPrefix(formula: seq<string>, k: nat)
    requires 0 < k <= |formula|
    ensures Span(formula[..k]) == Span(formula[..k - 1]) + Semitones(formula[k - 1])
  {
    assert formula[..k][..k - 1] == formula[..k - 1];
  }

  /** With no steps taken, a pitch class stays where it is. */
  lemma {:induction false} ClassAfterNoSteps(p: nat, formula: seq<string>)
    requires p < 12
    ensures ClassAfter(p, formula, 0) == p
  {
    assert formula[..0] == [];
  }

  /** Each step raises the running pitch class by its semitones, modulo 12. */
  lemma {:induction false} ClassAfterNextStep(p: nat, formula: seq<string>, k: nat)
    requires k < |formula|
    ensures ClassAfter(p, formula, k + 1) == (ClassAfter(p, formula, k) + Semitones(formula[k])) % 12
  {
    SpanOfPrefix(formula, k + 1);
    var a := p + Span(formula[..k]);
    var b := Semitones(formula[k]);
    var q := a / 12;
    assert a == 12 * q + a % 12;
    assert a + b == 12 * q + (a % 12 + b);
  }

  /** A formula spanning whole octaves ends on the pitch class it started from. */
  lemma {:induction false} ClassAfterWholeOctaves(p: nat, formula: seq<string>)
    requires p < 12
    requires Span(formula) % 12 == 0
    ensures ClassAfter(p, formula, |formula|) == p
  {
    assert formula[..|formula|] == formula;
    var q := Span(formula) / 12;
    assert Span(formula) == 12 * q;
    assert p + Span(formula) == 12 * q + p;
  }

  // Properties of scales.

  /** Every note of a scale, the key included, is the table name at the
      pitch class the closed form gives. */
  lemma {:induction false} ScaleNoteAt(key: string, formula: seq<string>, k: nat)
    requires key in MusicNotes
    requires k <= |formula|
    ensures Scale(key, formula)[k] == MusicNotes[ClassAfter(PitchClass(key), formula, k)]
  {
    if k == 0 {
      ClassAfterNoSteps(PitchClass(key), formula);
    }
  }

  /** Every note of a scale is a name from the sharp table. */
  lemma {:induction false} ScaleNotesInTable(key: string, formula: seq<string>)
    requires key in MusicNotes
    ensures forall k :: 0 <= k < |Scale(key, formula)| ==> Scale(key, formula)[k] in MusicNotes
  {
    forall k | 0 <= k < |Scale(key, formula)|
      ensures Scale(key, formula)[k] in MusicNotes
    {
      ScaleNoteAt(key, formula, k);
    }
  }

  /** Each note after the key is one formula step above the note before it. */
  lemma {:induction false} ScaleStep(key: string, formula: seq<string>, k: nat)
    requires key in MusicNotes
    requires k < |formula|
    ensures Scale(key, formula)[k + 1] == StepAfter(Scale(key, formula)[k], formula[k])
  {
    var p := PitchClass(key);
    var c := ClassAfter(p, formula, k);
    ScaleNoteAt(key, formula, k);
    ScaleNoteAt(key, formula, k + 1);
    ClassAfterNextStep(p, formula, k);
    if formula[k] == "W" {
      WholeStepAt(c);
    } else {
      HalfStepAt(c);
    }
  }

  /** A formula spanning whole octaves brings the scale back to its key,
      spelled as given. */
  lemma {:induction false} ScaleReturnsToKey(key: string, formula: seq<string>)
    requires key in MusicNotes
    requires Span(formula) % 12 == 0
    ensures Scale(key, formula)[|formula|] == key
  {
    ScaleNoteAt(key, formula, |formula|);
    ClassAfterWholeOctaves(PitchClass(key), formula);
  }

  /** Both formulas span exactly one octave. */
  lemma {:induction false} FormulasSpanAnOctave()
    ensures Span(MajorScaleFormula) == 12
    ensures Span(MinorScaleFormula) == 12
  {
    var f, g := MajorScaleFormula, MinorScaleFormula;
    assert f[..0] == [] && g[..0] == [];
    SpanOfPrefix(f, 1); SpanOfPrefix(g, 1);
    SpanOfPrefix(f, 2); SpanOfPrefix(g, 2);
    SpanOfPrefix(f, 3); SpanOfPrefix(g, 3);
    SpanOfPrefix(f, 4); SpanOfPrefix(g, 4);
    SpanOfPrefix(f, 5); SpanOfPrefix(g, 5);
    SpanOfPrefix(f, 6); SpanOfPrefix(g, 6);
    SpanOfPrefix(f, 7); SpanOfPrefix(g, 7);
    assert f[..7] == f && g[..7] == g;
  }

  // Properties of joining.

  /** Joining reads the parts front to back: the first part, then the rest. */
  lemma {:induction false} JoinFirstThenRest(parts: seq<string>)
    requires parts != []
    ensures Join(parts) == parts[0] + Join(parts[1..])
  {
    var n := |parts| - 1;
    if n > 0 {
      var init := parts[..n];
      JoinFirstThenRest(init);
      assert init[1..] == parts[1..][..n - 1];
      assert init[0] == parts[0];
    } else {
      assert parts[..0] == [];
      assert parts[1..] == [];
    }
  }

  /** Joined table names are between one and two characters per name long. */
  lemma {:induction false} JoinLength(parts: seq<string>)
    requires forall k :: 0 <= k < |parts| ==> parts[k] in MusicNotes
    ensures |parts| <= |Join(parts)| <= 2 * |parts|
  {
    if parts != [] {
      var n := |parts| - 1;
      JoinLength(parts[..n]);
      NameLength(parts[n]);
      assert |Join(parts)| == |Join(parts[..n])| + |parts[n]|;
    }
  }

  /** The joined scale: one to two characters per note, starting with the
      key and, over whole octaves, ending with it. */
  lemma {:induction false} JoinedScale(key: string, formula: seq<string>)
    requires key in MusicNotes
    ensures |formula| + 1 <= |Join(Scale(key, formula))| <= 2 * (|formula| + 1)
    ensures |key| <= |Join(Scale(key, formula))| && Join(Scale(key, formula))[..|key|] == key
    ensures Span(formula) % 12 == 0 ==>
      Join(Scale(key, formula))[|Join(Scale(key, formula))| - |key|..] == key
  {
    var notes := Scale(key, formula);
    ScaleNotesInTable(key, formula);
    JoinLength(notes);
    if Span(formula) % 12 == 0 {
      ScaleReturnsToKey(key, formula);
    }
  }

  /** Appending the next step to the first i + 1 notes of a scale gives its
      first i + 2 notes. */
  lemma {:induction false} ScalePrefixGrows(key: string, formula: seq<string>, i: nat, prefix: seq<string>)
    requires key in MusicNotes
    requires i < |formula|
    requires prefix == Scale(key, formula)[..i + 1]
    ensures prefix[i] in MusicNotes
    ensures prefix + [StepAfter(prefix[i], formula[i])] == Scale(key, formula)[..i + 2]
  {
    var notes := Scale(key, formula);
    ScaleNotesInTable(key, formula);
    ScaleStep(key, formula, i);
    assert notes[..i + 2] == notes[..i + 1] + [notes[i + 1]];
  }

  // The generators.

  /** The scale on `key` for `formula`, as the generator builds it: the key,
      then one step at a time, collected in a list and joined. */
  method GenerateScale(key: string, formula: seq<string>) returns (s: string)
    requires key in MusicNotes
    ensures s == Join(Scale(key, formula))
    ensures |formula| + 1 <= |s| <= 2 * (|formula| + 1)
    ensures |key| <= |s| && s[..|key|] == key
    ensures Span(formula) % 12 == 0 ==> s[|s| - |key|..] == key
  {
    var result: seq<string> := [];
    var currentKey := key;
    result := result + [currentKey];
    for i := 0 to |formula|
      invariant result == Scale(key, formula)[..i + 1]
      invariant currentKey == result[i]
    {
      if formula[i] == "W" {
        currentKey := WholeStepAfterNote(currentKey);
      } else {
        currentKey := HalfStepAfterNote(currentKey);
      }
      ScalePrefixGrows(key, formula, i, result);
      result := result + [currentKey];
    }
    assert result == Scale(key, formula);
    s := Join(result);
    JoinedScale(key, formula);
  }

  /** The major scale on `key`: eight notes from the key back to the key. */
  method GenerateMajorScale(key: string) returns (s: string)
    requires key in MusicNotes
    ensures s == Join(Scale(key, MajorScaleFormula))
    ensures 8 <= |s| <= 16
    ensures s[..|key|] == key && s[|s| - |key|..] == key
  {
    FormulasSpanAnOctave();
    s := GenerateScale(key, MajorScaleFormula);
  }

  /** The minor scale on `key`: eight notes from the key back to the key. */
  method GenerateMinorScale(key: string) returns (s: string)
    requires key in MusicNotes
    ensures s == Join(Scale(key, MinorScaleFormula))
    ensures 8 <= |s| <= 16
    ensures s[..|key|] == key && s[|s| - |key|..] == key
  {
    FormulasSpanAnOctave();
    s := GenerateScale(key, MinorScaleFormula);
  }

  /** A scale whose formula spans whole octaves runs from the key back to
      the key, each note one formula step above the one before. */
  lemma {:induction false} ScaleFromKeyToKey(key: string, formula: seq<string>)
    requires key in MusicNotes
    requires Span(formula) % 12 == 0
    ensures |Scale(key, formula)| == |formula| + 1
    ensures Scale(key, formula)[0] == key && Scale(key, formula)[|formula|] == key
    ensures forall k :: 0 <= k < |formula| ==>
      Scale(key, formula)[k + 1] == StepAfter(Scale(key, formula)[k], formula[k])
  {
    ScaleReturnsToKey(key, formula);
    forall k | 0 <= k < |formula|
      ensures Scale(key, formula)[k + 1] == StepAfter(Scale(key, formula)[k], formula[k])
    {
      ScaleStep(key, formula, k);
    }
  }

  /** Every major scale has eight notes, from the key back to the key, each
      one step of the major formula above the one before. */
  lemma {:induction false} MajorScaleFromKeyToKey(key: string)
    requires key in MusicNotes
    ensures |Scale(key, MajorScaleFormula)| == 8
    ensures Scale(key, MajorScaleFormula)[0] == key && Scale(key, MajorScaleFormula)[7] == key
    ensures forall k :: 0 <= k < 7 ==>
      Scale(key, MajorScaleFormula)[k + 1] == StepAfter(Scale(key, MajorScaleFormula)[k], MajorScaleFormula[k])
  {
    FormulasSpanAnOctave();
    ScaleFromKeyToKey(key, MajorScaleFormula);
  }

  /** Every minor scale has eight notes, from the key back to the key, each
      one step of the minor formula above the one before. */
  lemma {:induction false} MinorScaleFromKeyToKey(key: string)
    requires key in MusicNotes
    ensures |Scale(key, MinorScaleFormula)| == 8
    ensures Scale(key, MinorScaleFormula)[0] == key && Scale(key, MinorScaleFormula)[7] == key
    ensures forall k :: 0 <= k < 7 ==>
      Scale(key, MinorScaleFormula)[k + 1] == StepAfter(Scale(key, MinorScaleFormula)[k], MinorScaleFormula[k])
  {
    FormulasSpanAnOctave();
    ScaleFromKeyToKey(key, MinorScaleFormula);
  }

  /** The pitch classes of C major: 3, 5, 7, 8, 10, 0, 2, 3. */
  lemma {:induction false} CMajorClasses()
    ensures forall k :: 0 <= k <= 7 ==> ClassAfter(3, MajorScaleFormula, k) == [3, 5, 7, 8, 10, 0, 2, 3][k]
  {
    var f := MajorScaleFormula;
    assert f[..0] == [];
    SpanOfPrefix(f, 1); SpanOfPrefix(f, 2); SpanOfPrefix(f, 3); SpanOfPrefix(f, 4);
    SpanOfPrefix(f, 5); SpanOfPrefix(f, 6); SpanOfPrefix(f, 7);
  }

  /** The pitch classes of C minor: 3, 5, 6, 8, 10, 11, 1, 3. */
  lemma {:induction false} CMinorClasses()
    ensures forall k :: 0 <= k <= 7 ==> ClassAfter(3, MinorScaleFormula, k) == [3, 5, 6, 8, 10, 11, 1, 3][k]
  {
    var f := MinorScaleFormula;
    assert f[..0] == [];
    SpanOfPrefix(f, 1); SpanOfPrefix(f, 2); SpanOfPrefix(f, 3); SpanOfPrefix(f, 4);
    SpanOfPrefix(f, 5); SpanOfPrefix(f, 6); SpanOfPrefix(f, 7);
  }

  /** The notes of a scale on C are the table names at its pitch classes. */
  lemma {:induction false} ScaleOnC(formula: seq<string>, k: nat)
    requires k <= |formula|
    ensures Scale("C", formula)[k] == MusicNotes[ClassAfter(3, formula, k)]
  {
    PitchClassOfIndex(3);
    ScaleNoteAt("C", formula, k);
  }

  /** Joining one more part appends it at the end. */
  lemma {:induction false} JoinAppend(parts: seq<string>, x: string)
    ensures Join(parts + [x]) == Join(parts) + x
  {
    assert (parts + [x])[..|parts|] == parts;
  }

  /** Joining grows by one part at a time along the prefixes of `parts`. */
  lemma {:induction false} JoinPrefixes(parts: seq<string>)
    ensures Join(parts[..0]) == ""
    ensures forall k :: 0 <= k < |parts| ==> Join(parts[..k + 1]) == Join(parts[..k]) + parts[k]
  {
    assert parts[..0] == [];
    forall k | 0 <= k < |parts|
      ensures Join(parts[..k + 1]) == Join(parts[..k]) + parts[k]
    {
      assert parts[..k + 1] == parts[..k] + [parts[k]];
      JoinAppend(parts[..k], parts[k]);
    }
  }

  /** C major is C D E F G A B C. */
  lemma {:induction false} CMajorScale()
    ensures Scale("C", MajorScaleFormula) == ["C", "D", "E", "F", "G", "A", "B", "C"]
  {
    var notes := Scale("C", MajorScaleFormula);
    CMajorClasses();
    forall k | 0 <= k <= 7
      ensures notes[k] == ["C", "D", "E", "F", "G", "A", "B", "C"][k]
    {
      ScaleOnC(MajorScaleFormula, k);
    }
  }

  /** The notes of C major, joined. */
  lemma {:induction false} CMajorScaleNotesJoined()
    ensures Join(["C", "D", "E", "F", "G", "A", "B", "C"]) == "CDEFGABC"
  {
    var p := ["C", "D", "E", "F", "G", "A", "B", "C"];
    JoinPrefixes(p);
    assert p[..8] == p;
    assert Join(p[..1]) == "C";
    assert Join(p[..2]) == "CD";
    assert Join(p[..3]) == "CDE";
    assert Join(p[..4]) == "CDEF";
    assert Join(p[..5]) == "CDEFG";
    assert Join(p[..6]) == "CDEFGA";
    assert Join(p[..7]) == "CDEFGAB";
  }

  /** The major generator on "C" returns "CDEFGABC". */
  lemma {:induction false} CMajorScaleJoined()
    ensures Join(Scale("C", MajorScaleFormula)) == "CDEFGABC"
  {
    CMajorScale();
    CMajorScaleNotesJoined();
  }

  /** C minor, spelled from the sharp table, is C D D# F G G# A# C. */
  lemma {:induction false} CMinorScale()
    ensures Scale("C", MinorScaleFormula) == ["C", "D", "D#", "F", "G", "G#", "A#", "C"]
  {
    var notes := Scale("C", MinorScaleFormula);
    CMinorClasses();
    forall k | 0 <= k <= 7
      ensures notes[k] == ["C", "D", "D#", "F", "G", "G#", "A#", "C"][k]
    {
      ScaleOnC(MinorScaleFormula, k);
    }
  }

  /** The notes of C minor, joined. */
  lemma {:induction false} CMinorScaleNotesJoined()
    ensures Join(["C", "D", "D#", "F", "G", "G#", "A#", "C"]) == "CDD#FGG#A#C"
  {
    var p := ["C", "D", "D#", "F", "G", "G#", "A#", "C"];
    JoinPrefixes(p);
    assert p[..8] == p;
    assert Join(p[..1]) == "C";
    assert Join(p[..2]) == "CD";
    assert Join(p[..3]) == "CDD#";
    assert Join(p[..4]) == "CDD#F";
    assert Join(p[..5]) == "CDD#FG";
    assert Join(p[..6]) == "CDD#FGG#";
    assert Join(p[..7]) == "CDD#FGG#A#";
  }

  /** The minor generator on "C" returns "CDD#FGG#A#C". */
  lemma {:induction false} CMinorScaleJoined()
    ensures Join(Scale("C", MinorScaleFormula)) == "CDD#FGG#A#C"
  {
    CMinorScale();
    CMinorScaleNotesJoined();
  }
}
