# music-theory scale generator, modelled in Dafny

The program keeps the twelve pitch classes as a table of sharp-spelled note
names, starting at A. It moves up that table a whole step (two places) or a
half step (one place), wrapping around after G#. It builds the major or
natural-minor scale on a key by following a fixed formula of seven whole and
half steps. The result is one string: the note names joined with no
separator, e.g. `"CDEFGABC"` for C major.

The model has two modules:

- `Notes` (`notes.dfy`) holds the note table, the unused sharp-to-flat map,
  the sharp test, the list-index lookup and the whole-step and half-step
  functions, together with their properties.
- `Scales` (`scales.dfy`) holds the two formulas and a closed-form
  specification `Scale` of the notes a formula produces from a key.
  - `GenerateScale` is the imperative generator: a loop that appends one note
    per formula step and then joins the list. It is proved equal to `Join` of
    that specification.
  - `GenerateMajorScale` and `GenerateMinorScale` run it on the two formulas.

What the code does and does not do:

- No flat spelling is ever produced. C minor comes out as `"CDD#FGG#A#C"`
  (`CMinorScaleJoined`), not with E-flat, A-flat and B-flat.
- There is no harmonic or melodic minor, no chord builder and no per-key
  spelling override.
- A generator returns the joined string, not a list of notes.
- In the loop, a formula step other than `"W"` counts as a half step,
  because the code tests only for `"W"`.

## Model

| member | source | states |
|---|---|---|
| Notes.IsSharp | main.py:15-19 | on the note table, a name is sharp exactly when it has two characters, and exactly when it is a key of the sharp-to-flat map; in general a one-character name is never sharp and a longer one is sharp when its second character is `#` |
| Notes.IndexFrom | main.py:23 | the list lookup returns a position holding the name, with no earlier position holding it |
| Notes.PitchClass | main.py:23 | a table name's pitch class is below 12 and indexes back to that name |
| Notes.PitchClassOfIndex | main.py:2 | because the table has no duplicates, looking up the name at position k gives back k |
| Notes.WholeStepAfterNote | main.py:22-25 | the result is a table name whose pitch class is the input's plus 2, modulo 12 |
| Notes.HalfStepAfterNote | main.py:27-30 | the result is a table name whose pitch class is the input's plus 1, modulo 12 |
| Notes.WholeStepAt | main.py:22-25 | a whole step from the name at position c is the name at (c + 2) mod 12 |
| Notes.HalfStepAt | main.py:27-30 | a half step from the name at position c is the name at (c + 1) mod 12 |
| Notes.NameLength | main.py:2 | every table name is one or two characters long |
| Notes.PitchClassInjective | main.py:2 | two table names with the same pitch class are equal |
| Notes.TwoHalfStepsMakeAWholeStep | main.py:22-30 | applying the half step twice gives the whole step, for every table name |
| Notes.SharpNamesAreConversionKeys | main.py:7-19 | among table names, the sharp test holds exactly for the sharp-to-flat map's keys, and every key is a table name |
| Notes.TableHasNoFlatSpelling | main.py:2-13 | no table name is a flat spelling from the map, and none contains `b` |
| Notes.StepsNeverSpellFlat | main.py:22-30 | neither step ever returns a flat spelling |
| Scales.StepAfter | main.py:41-44 | one loop step lands on a table name whose pitch class is the previous one's plus 2 for `"W"` and plus 1 otherwise, modulo 12 |
| Scales.ClassAfterNextStep | main.py:40-46 | the pitch class after k + 1 steps is the one after k steps moved by step k, modulo 12 |
| Scales.ClassAfterWholeOctaves | main.py:40-46 | a formula spanning a multiple of 12 semitones ends on the pitch class it started from |
| Scales.Scale | main.py:35-46 | a scale has one note more than its formula and starts with the key |
| Scales.ScaleNoteAt | main.py:37-46 | note k of a scale is the table name at the key's pitch class raised by the first k steps |
| Scales.ScaleNotesInTable | main.py:38-46 | every note of a scale is a table name |
| Scales.ScaleStep | main.py:40-46 | each note of a scale is the previous note moved by the matching formula step |
| Scales.ScaleReturnsToKey | main.py:37-46 | over a formula spanning whole octaves, the last note is the key itself |
| Scales.FormulasSpanAnOctave | main.py:4-5 | the major and the minor formula each span exactly 12 semitones |
| Scales.ScaleFromKeyToKey | main.py:37-46 | over whole octaves, a scale runs from the key back to the key, each note one step above the last |
| Scales.MajorScaleFromKeyToKey | main.py:34-46 | every major scale has eight notes, first and last the key, each one major-formula step above the one before |
| Scales.MinorScaleFromKeyToKey | main.py:51-65 | every minor scale has eight notes, first and last the key, each one minor-formula step above the one before |
| Scales.Join | main.py:48 | joining with no separator gives the empty string for no parts, and otherwise a string that begins with the first part |
| Scales.JoinFirstThenRest | main.py:48 | joining reads the parts front to back: the first part, then the join of the rest |
| Scales.JoinAppend | main.py:48 | joining one more part appends it at the end |
| Scales.JoinLength | main.py:48 | a join of table names has between one and two characters per name |
| Scales.JoinedScale | main.py:38-48 | the joined scale has one to two characters per note, starts with the key and, over whole octaves, ends with it |
| Scales.ScalePrefixGrows | main.py:40-46 | appending the next step to the first i + 1 notes of a scale gives its first i + 2 notes |
| Scales.GenerateScale | main.py:34-48 | the loop's output is the join of the specified scale, 1 to 2 characters per note, starting with the key and, over whole octaves, ending with it |
| Scales.GenerateMajorScale | main.py:34-48 | the major generator returns the joined major scale, 8 to 16 characters, starting and ending with the key |
| Scales.GenerateMinorScale | main.py:51-67 | the minor generator returns the joined minor scale, 8 to 16 characters, starting and ending with the key |
| Scales.CMajorClasses | main.py:40-46 | C major visits pitch classes 3, 5, 7, 8, 10, 0, 2, 3 |
| Scales.CMinorClasses | main.py:59-65 | C minor visits pitch classes 3, 5, 6, 8, 10, 11, 1, 3 |
| Scales.CMajorScale | main.py:34-46 | the major scale on C is C D E F G A B C |
| Scales.CMajorScaleNotesJoined | main.py:48 | the notes C D E F G A B C join to `"CDEFGABC"` |
| Scales.CMajorScaleJoined | main.py:34-48 | the major generator on C yields `"CDEFGABC"` |
| Scales.CMinorScale | main.py:51-65 | the minor scale on C is C D D# F G G# A# C |
| Scales.CMinorScaleNotesJoined | main.py:67 | the notes C D D# F G G# A# C join to `"CDD#FGG#A#C"` |
| Scales.CMinorScaleJoined | main.py:51-67 | the minor generator on C yields `"CDD#FGG#A#C"` |

## Left out

- The module-level `lol` variable and the `print` of the C-minor scale (main.py:69-71) are console output and an unused value. `CMinorScaleJoined` states what that line prints.
- Notes.WholeStepAfterNote, Notes.HalfStepAfterNote: a name missing from the table makes the list lookup raise `ValueError`. That error path is not modelled; the functions require a table name, and so do the generators for their key.
- Notes.IsSharp: on the empty string the code raises `IndexError`. The model requires a non-empty name instead.
- The sharp-to-flat map is never read by the code. It is kept as a constant, and lemmas relate it to the table, but no operation converts a spelling.
- Scales.GenerateMajorScale, Scales.GenerateMinorScale: the code repeats the same loop in both functions. The model writes that loop once, as `GenerateScale` parameterised by the formula, and the two generators call it.
- Python's string type is modelled as a sequence of characters. Character encoding is not modelled.
