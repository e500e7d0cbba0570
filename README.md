# Pianoroll sequences (note_seq `pianoroll_lib.PianorollSequence`)

A Dafny model of `PianorollSequence`, note_seq's conversion between a
quantized score and a *pianoroll*. A quantized score is a list of notes with
pitch, velocity and integer start/end steps. A pianoroll is one tuple per time
step, holding the ascending indices `pitch - min_pitch` of the pitches
sounding during that step.

The implementation module `note_seq/pianoroll_lib.py` is not part of this
model. The behaviour modelled here is the one its test suite,
`note_seq/pianoroll_lib_test.py`, asserts. Where the tests leave a choice
open, the library's documented design decides it.

Files:

- `notes.dfy` (`Notes`): the quantized `Note` and the piano range 21..108.
- `events.dfy` (`Events`): step tuples. This covers the pitch-window width,
  ascending tuples, `SortedIndices` (a set of active indices as an ascending
  tuple), and `shift_range` re-windowing (`ShiftRange`, `ShiftAll`).
- `extraction.dfy` (`Extraction`): score → pianoroll. Extraction is a marking
  pass followed by an optional repeat-splitting pass. It is proved equal to a
  declarative definition: index `i` is active at step `k` exactly when an
  in-range note of pitch `i + lo` sounds at `k` and, with `split_repeats`,
  step `k + 1` is not a repeat of that pitch. A repeat means two different
  notes, one ending at `k + 1` and the other starting there.
- `reconstruction.dfy` (`Reconstruction`): pianoroll → notes (`to_sequence`).
  Each index column is run-length scanned into one note per maximal run. The
  scan is proved to emit exactly the maximal runs, each once. Base-score notes
  are copied unchanged in front of the rebuilt notes.
- `roundtrip.dfy` (`RoundTrip`): `to_sequence(PianorollSequence(score))`
  holds exactly the score's notes, as a multiset, for a score that meets four
  conditions. Every pitch lies in [min_pitch, max_pitch]. Every note has
  start < end. Every velocity equals the one `to_sequence` writes. No two
  notes of the same pitch touch, overlap or repeat. Notes outside the window,
  such as pitches 20 and 110 in the piano-range test, do not come back.
- `pianoroll_sequence.dfy` (`PianorollLib`): the class `PianorollSequence`.
  It has a `seq` field of step tuples and the fixed `startStep`,
  `stepsPerQuarter`, `minPitch` and `maxPitch`. Its members are three
  constructors, `Append`, `SetLength`, `NumSteps`, `Steps` and `ToSequence`.
- `scenarios.dfy` (`Scenarios`): the concrete scores and pianorolls of the
  test cases, proved against the model, with the class driven the way the
  tests drive it. One further score of the model's own (`RepeatedNote*`,
  pitch 60 struck at steps 0-2 and again at 2-4) is not from the tests. It
  applies the library's documented repeat-splitting behaviour to a full
  round trip: one merged note without splitting, two notes with it. A
  second score of the model's own (`ZeroLength*`) is a zero-length note
  inside a longer note of the same pitch. It shows that such a note alone
  is not a repeat.

Times stay in integer steps throughout. One step lasts
`60 / (qpm * steps_per_quarter)` seconds, which is one second in every test
case, so nothing there depends on the conversion.

## Model

| member | source | states |
|---|---|---|
| Events.SortedIndices | note_seq/pianoroll_lib_test.py:49-54 | the step tuple holds exactly the indices of the set that lie in the window, in strictly ascending order |
| Events.ShiftRange | note_seq/pianoroll_lib_test.py:75-86 | a re-windowed step keeps exactly the raw pitches inside [min_pitch, max_pitch], each lowered by min_pitch; it fits the window, is no longer than the raw step, and stays ascending if the raw step was |
| Events.ShiftRangeCount | note_seq/pianoroll_lib_test.py:75-86 | re-windowing keeps every in-window raw pitch as many times as the raw step holds it, so a repeated raw pitch stays repeated |
| Events.ShiftRangeEmpty | note_seq/pianoroll_lib_test.py:80-85 | a re-windowed step is empty exactly when every raw pitch of it lies outside the window |
| Events.ShiftAll | note_seq/pianoroll_lib_test.py:76-86 | re-windowing a list of steps keeps the number of steps, step k is the re-windowed raw step k, and every step fits the window |
| Events.AscendingUnique | note_seq/pianoroll_lib_test.py:49-55 | two ascending tuples with the same members are equal, so a step tuple is determined by its set of indices |
| Extraction.MaxEnd | note_seq/pianoroll_lib_test.py:43-54 | the step count is the latest end among in-range notes (0 when there is none): no in-range note ends later, and one ends exactly there |
| Extraction.MaxEndIs | note_seq/pianoroll_lib_test.py:43-54 | an in-range note that no other in-range note outlasts fixes the step count at its end |
| Extraction.Extract | note_seq/pianoroll_lib_test.py:47-55 | every step tuple of an extracted pianoroll is ascending and holds only indices inside the pitch window |
| Extraction.MarkNotesMembers | note_seq/pianoroll_lib_test.py:43-54 | the marking pass adds index `pitch - lo` to step k exactly for the in-range notes with start <= k < end, and to no other step |
| Extraction.SplitNotesMembers | note_seq/pianoroll_lib_test.py:60-72 | the splitting pass removes index i from step k exactly when an in-range note of that pitch starts at k + 1 and a different note of that pitch ends there |
| Extraction.RepeatBoundaryRestrike | note_seq/pianoroll_lib_test.py:60-72 | the splitting pass's per-note test (this note starts where a different note of its pitch ends) finds exactly the repeats, i.e. pairs of two different notes meeting at a step |
| Extraction.ExtractMembers | note_seq/pianoroll_lib_test.py:40-55 | the pianoroll has one step per step up to the latest in-range end, and step k holds index i exactly when a note of pitch i + lo sounds during [start, end) at k, minus the split repeat boundary |
| Extraction.ExtractDependsOnlyOnInRangeNotes | note_seq/pianoroll_lib_test.py:43-54 | two scores with the same in-range notes give the same pianoroll, so out-of-range notes (20, 110) leave no trace and note order does not matter |
| Extraction.SplitOnlyAtRepeats | note_seq/pianoroll_lib_test.py:57-73 | splitting repeats keeps the step count and changes a step only by removing the index of a pitch where, at the next step, one note of it ends and a different one starts |
| Extraction.SplitRepeatGap | note_seq/pianoroll_lib_test.py:57-73 | for two back-to-back notes of one pitch, that index is absent at the last step of the first note with splitting and present there without it |
| Extraction.ExtractUnique | note_seq/pianoroll_lib_test.py:49-55 | a list of ascending tuples of the right length with the right members at every step is the extracted pianoroll |
| Reconstruction.RunEnd | note_seq/pianoroll_lib_test.py:116-121 | the end of the run that starts at t is the first later step without the index, or the end of the roll |
| Reconstruction.ColumnNotesMembers | note_seq/pianoroll_lib_test.py:116-121 | scanning one index column from a run boundary on yields exactly the notes of the maximal runs starting there, each once |
| Reconstruction.ColumnsMembers | note_seq/pianoroll_lib_test.py:116-121 | scanning a range of index columns yields exactly the notes of their maximal runs, each once |
| Reconstruction.ReconstructMembers | note_seq/pianoroll_lib_test.py:95-102 | the rebuilt notes are exactly one note per maximal run of every index, with pitch index + min_pitch and times shifted by the start step, and no note twice |
| Reconstruction.ToSequence | note_seq/pianoroll_lib_test.py:104-127 | only indices >= 0 are rebuilt; the output starts with the base notes unchanged and otherwise holds exactly the rebuilt notes; as a multiset it is base plus rebuilt, so no base note is merged with a neighbouring rebuilt note |
| Reconstruction.DistinctMultiplicity | note_seq/pianoroll_lib_test.py:98-102 | a list without duplicates holds each member exactly once |
| Reconstruction.DistinctSameMembers | note_seq/pianoroll_lib_test.py:98-102 | two duplicate-free lists with the same members are equal after sorting (equal multisets) |
| RoundTrip.NoRepeatBoundary | note_seq/pianoroll_lib_test.py:88-92 | in a reproducible score (every pitch in [min_pitch, max_pitch], start < end, velocity equal to the one to_sequence writes, no two same-pitch notes touching, overlapping or repeated) no pitch ends and restarts at one step, so repeat splitting has nothing to split |
| RoundTrip.RoundTripMembers | note_seq/pianoroll_lib_test.py:88-102 | rebuilding the pianoroll of a reproducible score (every pitch in [min_pitch, max_pitch], start < end, velocity equal to the one to_sequence writes, no two same-pitch notes touching, overlapping or repeated) yields every note of the score and nothing else; out-of-window notes such as pitches 20 and 110 do not come back |
| RoundTrip.RoundTripNotes | note_seq/pianoroll_lib_test.py:88-102 | to_sequence of the pianoroll of a reproducible score (every pitch in [min_pitch, max_pitch], start < end, velocity equal to the one to_sequence writes, no two same-pitch notes touching, overlapping or repeated) is the score, up to note order (equal multisets), with or without repeat splitting |
| PianorollLib.PianorollSequence.Empty | note_seq/pianoroll_lib_test.py:105-106 | a new pianoroll has no steps and the given resolution, start step and pitch window |
| PianorollLib.PianorollSequence.FromQuantized | note_seq/pianoroll_lib_test.py:45-47 | building from a quantized score stores its extracted pianoroll, starting at step 0 |
| PianorollLib.PianorollSequence.FromEventsList | note_seq/pianoroll_lib_test.py:76-78 | building from a list of steps stores them in order, re-windowed when shift_range is set |
| PianorollLib.PianorollSequence.Append | note_seq/pianoroll_lib_test.py:108-110 | appending adds exactly one step at the end, re-windowed when shift_range is set, and leaves the earlier steps as they were |
| PianorollLib.PianorollSequence.SetLength | note_seq/pianoroll_lib_test.py:136-166 | afterwards there are exactly n steps; the first min(n, old count) are unchanged and any new ones are empty |
| PianorollLib.PianorollSequence.Steps | note_seq/pianoroll_lib_test.py:133-147 | the step numbers are 0 .. num_steps - 1, whatever the start step |
| PianorollLib.PianorollSequence.ToSequence | note_seq/pianoroll_lib_test.py:116-117 | the output starts with the base notes unchanged; the rest holds exactly one note per maximal run, shifted by the start step, with no note twice; and under the index invariant every rebuilt pitch lies in [minPitch, maxPitch] |
| PianorollLib.PianorollSequence.NumSteps | note_seq/pianoroll_lib_test.py:133-146 | num_steps is the number of stored steps, and is zero exactly when there are none |
| Reconstruction.RunNotesInWindow | note_seq/pianoroll_lib_test.py:116-121 | when every index of the roll lies in the pitch window, every rebuilt note's pitch lies in [min_pitch, max_pitch] |
| Scenarios.PianoScoreExtract | note_seq/pianoroll_lib_test.py:40-55 | the five-note score gives [(3, 5), (5,), (3, 5), (3,)] on the piano range |
| Scenarios.PianoScoreActive | note_seq/pianoroll_lib_test.py:49-54 | in that score, index 3 sounds at steps 0, 2 and 3 and index 5 at steps 0-2 |
| Scenarios.RepeatScoreExtract | note_seq/pianoroll_lib_test.py:57-73 | with min_pitch 0 and repeats split, the score gives [(0, 1), (1,), (0, 2), (0, 2)] |
| Scenarios.RepeatScoreActive | note_seq/pianoroll_lib_test.py:67-72 | in that score, index 0 is absent at step 1 only, index 1 sounds at steps 0-1 and index 2 at steps 2-3 |
| Scenarios.ShiftRangeScenario | note_seq/pianoroll_lib_test.py:75-86 | re-windowing [(0, 1), (2, 3), (4, 5), (6,)] to [1, 4] gives [(0,), (1, 2), (3,), ()] |
| Scenarios.ChordScoreRoundTrip | note_seq/pianoroll_lib_test.py:88-102 | the four-note chord score comes back from to_sequence unchanged up to order |
| Scenarios.TwoChordsWithBase | note_seq/pianoroll_lib_test.py:104-127 | [(39, 43), (39, 43)] at start step 1 over a base note 60 at 0-1 gives notes 60 at 0-1, 60 at 1-3 and 64 at 1-3 |
| Scenarios.TwoChordsRun | note_seq/pianoroll_lib_test.py:119-121 | the maximal runs of that roll are exactly pitch 60 and pitch 64 over steps 1-3 |
| Scenarios.RepeatedNoteExtract | note_seq/pianoroll_lib_test.py:57-73 | pitch 60 struck at 0-2 and again at 2-4 gives index 39 at every step, except step 1 when repeats are split (a score of the model's own, not from the tests, applying the documented repeat-splitting behaviour) |
| Scenarios.RepeatedNoteActive | note_seq/pianoroll_lib_test.py:57-73 | in that score, index 39 is active at every step except step 1 under splitting, and no other index is active (a score of the model's own, not from the tests, applying the documented repeat-splitting behaviour) |
| Scenarios.RepeatedNoteRebuilt | note_seq/pianoroll_lib_test.py:57-73 | without splitting the two strikes come back as one note 0-4; with splitting they come back as two notes, 0-1 and 2-4 (a score of the model's own, not from the tests, applying the documented repeat-splitting behaviour) |
| Scenarios.RepeatedRollRun | note_seq/pianoroll_lib_test.py:57-73 | the maximal runs of that roll are 0-4, or 0-1 and 2-4 under splitting (a score of the model's own, not from the tests, applying the documented repeat-splitting behaviour) |
| Scenarios.ZeroLengthNoSplit | note_seq/pianoroll_lib_test.py:57-73 | a zero-length note of pitch 60 at step 2 inside a note of pitch 60 over 0-4 is not a repeat, so splitting leaves index 39 at every step (a score of the model's own, not from the tests) |
| Scenarios.ZeroLengthActive | note_seq/pianoroll_lib_test.py:57-73 | in that score, with splitting, index 39 is active at every step and no other index is (a score of the model's own, not from the tests) |

## Left out

- Times in seconds are not modelled. This covers `qpm`, `seconds_per_step`, the tempo entry written into the output and the error for a non-positive `qpm`. Notes keep integer step times, and `stepsPerQuarter` is stored but not used.
- Quantization of a score is not modelled. The model takes notes whose start and end are already integer steps.
- NoteSequence fields other than the notes are not modelled. This covers instruments, programs, `ticks_per_quarter` and tempos.
- `note_seq/pianoroll_lib.py` is not part of this model. The behaviour comes from its tests and documented design, so internal choices the tests cannot observe are not claimed. Examples are a boolean matrix versus sets, and the order in which notes are emitted.
- The rebuilt notes come out index by index and, within an index, by time. The library's own order is not modelled because the tests sort both sides before comparing. The contracts therefore speak of members and multisets, not positions.
- PianorollLib.PianorollSequence.FromQuantized: always starts at step 0. The other constructors take a start step; the quantized case is only exercised without one.
- PianorollLib.PianorollSequence.FromQuantized: `split_repeats` is an explicit parameter. The library documents `False` as its default. The default-argument test (lines 40-55) has no touching repeats, so either value gives the same pianoroll, as `Scenarios.PianoScoreExtract` shows for both.
- The original velocities are not kept by extraction. `to_sequence` writes one fixed velocity, a parameter here. The tests use 100, `Notes.DefaultVelocity`.
- PianorollLib.PianorollSequence.FromEventsList: without `shift_range`, the steps must already fit the pitch window (a `requires`), which is the caller's obligation in the library. Whether the library checks this defensively is not modelled.
- PianorollLib.PianorollSequence.Append: without `shift_range`, the appended step must already fit the pitch window (a `requires`), the same caller obligation as for `FromEventsList`; defensive checking is not modelled.
- Reconstruction.ToSequence: a negative index in a step yields no note, because the column scan starts at index 0. The class never holds one, since its invariant keeps every index in [0, width).
- The test's `append((0))` passes the integer 0 rather than a tuple. It is modelled as the one-index step `[0]`.
- `note_seq/midi_io_test.py` (MIDI file reading and writing) is not part of this model.
